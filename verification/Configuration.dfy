/**
  Validation of a Home configuration. Each validator is a loop that grows sets
  of seen values; each is proved against what a valid list is, and reports the
  first entry that makes its list invalid.
 */
module Configuration {
  import opened Wrappers

  datatype Room = Room(id: string, name: string)
  datatype Profile = Profile(id: string, name: string, available: bool, shared: bool)
  datatype Mapping = Mapping(id: string, phrase: string, profile: string, active: bool)
  datatype Admission = Admission(mode: string, endpoint: string, mappings: seq<string>)
  datatype Device = Device(
    id: string, name: string, room: string, priority: int, wakeClaim: bool, interactiveChoice: bool,
    sensitiveEntry: bool, consequenceConfirm: bool, admission: Option<Admission>)
  datatype ClientDevice = ClientDevice(id: string, interactiveChoice: bool)

  datatype Candidate = Candidate(
    rooms: seq<Room>, profiles: seq<Profile>, mappings: seq<Mapping>, devices: seq<Device>, clients: seq<ClientDevice>)

  predicate ValidText(value: string) { 1 <= |value| <= 128 }

  // ------------------------------------------------- what a valid list is

  ghost predicate ValidRooms(rooms: seq<Room>) {
    && (forall i :: 0 <= i < |rooms| ==> ValidText(rooms[i].id) && ValidText(rooms[i].name))
    && (forall i, j :: 0 <= i < j < |rooms| ==> rooms[i].id != rooms[j].id)
  }

  ghost predicate ValidProfiles(ps: seq<Profile>) {
    && (forall i :: 0 <= i < |ps| ==> ValidText(ps[i].id) && ValidText(ps[i].name))
    && (forall i, j :: 0 <= i < j < |ps| ==> ps[i].id != ps[j].id)
  }

  ghost predicate KnownProfile(ps: seq<Profile>, id: string) { exists k :: 0 <= k < |ps| && ps[k].id == id }

  ghost predicate ValidMapping(m: Mapping, ps: seq<Profile>, norm: string -> string) {
    && ValidText(m.id) && ValidText(m.phrase) && ValidText(m.profile)
    && KnownProfile(ps, m.profile) && norm(m.phrase) != ""
  }

  /** Two mappings of one list that can stand together. */
  ghost predicate Apart(a: Mapping, b: Mapping, norm: string -> string) {
    a.id != b.id && !(a.active && b.active && norm(a.phrase) == norm(b.phrase))
  }

  /** IDs are unique, Profiles known, and no two active mappings share a normalized phrase. */
  ghost predicate ValidMappings(ms: seq<Mapping>, ps: seq<Profile>, norm: string -> string) {
    && (forall i :: 0 <= i < |ms| ==> ValidMapping(ms[i], ps, norm))
    && (forall i, j :: 0 <= i < j < |ms| ==> Apart(ms[i], ms[j], norm))
  }

  /** An active mapping of an available Profile. */
  ghost predicate UsableMapping(ms: seq<Mapping>, ps: seq<Profile>, id: string) {
    exists m, p :: 0 <= m < |ms| && 0 <= p < |ps| && ms[m].id == id && ms[m].active
                   && ps[p].available && ps[p].id == ms[m].profile
  }

  ghost predicate ValidMappingIds(ids: seq<string>, ms: seq<Mapping>, ps: seq<Profile>) {
    && (forall i :: 0 <= i < |ids| ==> ValidText(ids[i]) && UsableMapping(ms, ps, ids[i]))
    && (forall i, j :: 0 <= i < j < |ids| ==> ids[i] != ids[j])
  }

  ghost predicate ValidAdmission(a: Admission, ms: seq<Mapping>, ps: seq<Profile>) {
    a.mode == "paired_room" && ValidText(a.endpoint) && a.mappings != [] && ValidMappingIds(a.mappings, ms, ps)
  }

  ghost predicate KnownRoom(rooms: seq<Room>, id: string) { exists k :: 0 <= k < |rooms| && rooms[k].id == id }

  ghost predicate ValidDevice(d: Device, rooms: seq<Room>, ms: seq<Mapping>, ps: seq<Profile>) {
    && ValidText(d.id) && ValidText(d.name) && ValidText(d.room) && d.priority >= 1 && KnownRoom(rooms, d.room)
    && (d.admission.Some? ==> d.wakeClaim && ValidAdmission(d.admission.value, ms, ps))
  }

  /** Two entries of one device list that can stand together. */
  ghost predicate Compatible(a: Device, b: Device) {
    && a.id != b.id
    && !(a.room == b.room && a.priority == b.priority)
    && !(a.admission.Some? && b.admission.Some?)
  }

  ghost predicate ValidDevices(ds: seq<Device>, rooms: seq<Room>, ms: seq<Mapping>, ps: seq<Profile>) {
    && (forall i :: 0 <= i < |ds| ==> ValidDevice(ds[i], rooms, ms, ps))
    && (forall i, j :: 0 <= i < j < |ds| ==> Compatible(ds[i], ds[j]))
  }

  ghost predicate RoomDevice(ds: seq<Device>, id: string) { exists k :: 0 <= k < |ds| && ds[k].id == id }

  ghost predicate ValidClients(cs: seq<ClientDevice>, ds: seq<Device>) {
    && (forall i :: 0 <= i < |cs| ==> ValidText(cs[i].id) && !RoomDevice(ds, cs[i].id))
    && (forall i, j :: 0 <= i < j < |cs| ==> cs[i].id != cs[j].id)
  }

  ghost predicate ValidCandidate(c: Candidate, norm: string -> string) {
    && ValidRooms(c.rooms) && ValidProfiles(c.profiles) && ValidMappings(c.mappings, c.profiles, norm)
    && ValidDevices(c.devices, c.rooms, c.mappings, c.profiles) && ValidClients(c.clients, c.devices)
  }

  // -------------------------------------------------------------- validators

  method ValidateRooms(rooms: seq<Room>) returns (r: Result<seq<Room>, nat>)
    ensures r.Ok? ==> r.value == rooms && ValidRooms(rooms)
    ensures r.Err? ==> r.error < |rooms| && ValidRooms(rooms[..r.error]) && !ValidRooms(rooms[..r.error + 1])
  {
    var entities: seq<Room> := [];
    var seen: set<string> := {};
    for i := 0 to |rooms|
      invariant entities == rooms[..i] && ValidRooms(rooms[..i])
      invariant forall id :: id in seen <==> exists k :: 0 <= k < i && rooms[k].id == id
    {
      var room := rooms[i];
      assert rooms[..i + 1][i] == room;
      if !ValidText(room.id) || !ValidText(room.name) {
        return Err(i);
      }
      if room.id in seen {
        var k :| 0 <= k < i && rooms[k].id == room.id;
        assert rooms[..i + 1][k].id == rooms[..i + 1][i].id;
        return Err(i);
      }
      seen := seen + {room.id};
      entities := entities + [room];
      assert rooms[..i + 1] == rooms[..i] + [room];
    }
    assert rooms[..|rooms|] == rooms;
    return Ok(entities);
  }

  method ValidateProfiles(ps: seq<Profile>) returns (r: Result<seq<Profile>, nat>)
    ensures r.Ok? ==> r.value == ps && ValidProfiles(ps)
    ensures r.Err? ==> r.error < |ps| && ValidProfiles(ps[..r.error]) && !ValidProfiles(ps[..r.error + 1])
  {
    var profiles: seq<Profile> := [];
    var seen: set<string> := {};
    for i := 0 to |ps|
      invariant profiles == ps[..i] && ValidProfiles(ps[..i])
      invariant forall id :: id in seen <==> exists k :: 0 <= k < i && ps[k].id == id
    {
      var profile := ps[i];
      assert ps[..i + 1][i] == profile;
      if !ValidText(profile.id) || !ValidText(profile.name) {
        return Err(i);
      }
      if profile.id in seen {
        var k :| 0 <= k < i && ps[k].id == profile.id;
        assert ps[..i + 1][k].id == ps[..i + 1][i].id;
        return Err(i);
      }
      seen := seen + {profile.id};
      profiles := profiles + [profile];
      assert ps[..i + 1] == ps[..i] + [profile];
    }
    assert ps[..|ps|] == ps;
    return Ok(profiles);
  }

  method ValidateWakeMappings(ms: seq<Mapping>, ps: seq<Profile>, norm: string -> string)
    returns (r: Result<seq<Mapping>, nat>)
    ensures r.Ok? ==> r.value == ms && ValidMappings(ms, ps, norm)
    ensures r.Err? ==> r.error < |ms|
    ensures r.Err? ==> ValidMappings(ms[..r.error], ps, norm) && !ValidMappings(ms[..r.error + 1], ps, norm)
  {
    var profileIds := set k | 0 <= k < |ps| :: ps[k].id;
    var seen: set<string> := {};
    var phrases: map<string, string> := map[];
    var mappings: seq<Mapping> := [];
    for i := 0 to |ms|
      invariant mappings == ms[..i] && ValidMappings(ms[..i], ps, norm)
      invariant forall id :: id in seen <==> exists k :: 0 <= k < i && ms[k].id == id
      invariant forall phrase :: phrase in phrases <==> exists k ::
                  0 <= k < i && ms[k].active && norm(ms[k].phrase) == phrase
    {
      var m := ms[i];
      var phrase := norm(m.phrase);
      assert m.profile in profileIds <==> KnownProfile(ps, m.profile);
      if !ValidText(m.id) || !ValidText(m.phrase) || !ValidText(m.profile) || m.profile !in profileIds || phrase == "" {
        MappingFaulty(ms, i, ps, norm);
        return Err(i);
      }
      if m.id in seen {
        ghost var k :| 0 <= k < i && ms[k].id == m.id;
        MappingsClash(ms, k, i, ps, norm);
        return Err(i);
      }
      if m.active && phrase in phrases {
        ghost var k :| 0 <= k < i && ms[k].active && norm(ms[k].phrase) == phrase;
        MappingsClash(ms, k, i, ps, norm);
        return Err(i);
      }
      forall k | 0 <= k < i
        ensures Apart(ms[k], m, norm)
      {
        assert ms[k].id in seen;
      }
      MappingsExtend(ms, i, ps, norm);
      if m.active {
        phrases := phrases[phrase := m.profile];
      }
      seen := seen + {m.id};
      mappings := mappings + [m];
    }
    assert ms[..|ms|] == ms;
    return Ok(mappings);
  }

  lemma MappingFaulty(ms: seq<Mapping>, i: nat, ps: seq<Profile>, norm: string -> string)
    requires i < |ms| && !ValidMapping(ms[i], ps, norm)
    ensures !ValidMappings(ms[..i + 1], ps, norm)
  {
    assert ms[..i + 1][i] == ms[i];
  }

  lemma MappingsClash(ms: seq<Mapping>, k: nat, i: nat, ps: seq<Profile>, norm: string -> string)
    requires k < i < |ms| && !Apart(ms[k], ms[i], norm)
    ensures !ValidMappings(ms[..i + 1], ps, norm)
  {
    assert !Apart(ms[..i + 1][k], ms[..i + 1][i], norm);
  }

  lemma MappingsExtend(ms: seq<Mapping>, i: nat, ps: seq<Profile>, norm: string -> string)
    requires i < |ms| && ValidMappings(ms[..i], ps, norm) && ValidMapping(ms[i], ps, norm)
    requires forall k :: 0 <= k < i ==> Apart(ms[k], ms[i], norm)
    ensures ms[..i + 1] == ms[..i] + [ms[i]] && ValidMappings(ms[..i + 1], ps, norm)
  {
  }

  method ValidateWakeAdmission(a: Admission, ms: seq<Mapping>, ps: seq<Profile>) returns (ok: bool)
    ensures ok <==> ValidAdmission(a, ms, ps)
  {
    if a.mode != "paired_room" || !ValidText(a.endpoint) || a.mappings == [] {
      return false;
    }
    var available := set k | 0 <= k < |ps| && ps[k].available :: ps[k].id;
    var usable := set k | 0 <= k < |ms| && ms[k].active && ms[k].profile in available :: ms[k].id;
    assert forall id :: id in usable <==> UsableMapping(ms, ps, id);
    var seen: set<string> := {};
    for i := 0 to |a.mappings|
      invariant ValidMappingIds(a.mappings[..i], ms, ps)
      invariant forall id :: id in seen <==> exists k :: 0 <= k < i && a.mappings[k] == id
    {
      var id := a.mappings[i];
      if id in seen {
        var k :| 0 <= k < i && a.mappings[k] == id;
        return false;
      }
      if !ValidText(id) || id !in usable {
        return false;
      }
      seen := seen + {id};
      assert a.mappings[..i + 1] == a.mappings[..i] + [id];
    }
    assert a.mappings[..|a.mappings|] == a.mappings;
    return true;
  }

  /** The checks on one device by itself. */
  method ValidateDevice(d: Device, rooms: seq<Room>, ms: seq<Mapping>, ps: seq<Profile>) returns (ok: bool)
    ensures ok <==> ValidDevice(d, rooms, ms, ps)
  {
    var roomIds := set k | 0 <= k < |rooms| :: rooms[k].id;
    assert d.room in roomIds <==> KnownRoom(rooms, d.room);
    if !ValidText(d.id) || !ValidText(d.name) || !ValidText(d.room) || d.priority < 1 || d.room !in roomIds {
      return false;
    }
    if d.admission.None? {
      return true;
    }
    if !d.wakeClaim {
      return false;
    }
    ok := ValidateWakeAdmission(d.admission.value, ms, ps);
  }

  method ValidateDevices(ds: seq<Device>, rooms: seq<Room>, ms: seq<Mapping>, ps: seq<Profile>)
    returns (r: Result<seq<Device>, nat>)
    ensures r.Ok? ==> r.value == ds && ValidDevices(ds, rooms, ms, ps)
    ensures r.Err? ==> r.error < |ds|
    ensures r.Err? ==> ValidDevices(ds[..r.error], rooms, ms, ps) && !ValidDevices(ds[..r.error + 1], rooms, ms, ps)
  {
    var seen: set<string> := {};
    var priorities: map<string, set<int>> := map[];
    var approved := false;
    var devices: seq<Device> := [];
    for i := 0 to |ds|
      invariant devices == ds[..i] && ValidDevices(ds[..i], rooms, ms, ps)
      invariant Notes(seen, priorities, approved, ds, i)
    {
      var d := ds[i];
      var fits := ValidateDevice(d, rooms, ms, ps);
      if !fits {
        DeviceFaulty(ds, i, rooms, ms, ps);
        return Err(i);
      }
      var taken := if d.room in priorities then priorities[d.room] else {};
      if d.id in seen || d.priority in taken || (d.admission.Some? && approved) {
        ghost var k := NotesClash(seen, priorities, approved, ds, i, taken);
        DevicesClash(ds, k, i, rooms, ms, ps);
        return Err(i);
      }
      NotesFit(seen, priorities, approved, ds, i, taken);
      NotesMore(seen, priorities, approved, ds, i, taken);
      DevicesExtend(ds, i, rooms, ms, ps);
      seen := seen + {d.id};
      priorities := priorities[d.room := taken + {d.priority}];
      approved := approved || d.admission.Some?;
      devices := devices + [d];
    }
    assert ds[..|ds|] == ds;
    return Ok(devices);
  }

  /** What the loop remembers about the devices it has passed. */
  ghost predicate Notes(seen: set<string>, priorities: map<string, set<int>>, approved: bool, ds: seq<Device>, n: nat)
    requires n <= |ds|
  {
    && (forall id :: id in seen <==> exists k :: 0 <= k < n && ds[k].id == id)
    && Tracks(priorities, ds, n)
    && (approved <==> exists k :: 0 <= k < n && ds[k].admission.Some?)
  }

  lemma NotesClash(seen: set<string>, priorities: map<string, set<int>>, approved: bool, ds: seq<Device>, n: nat,
          taken: set<int>)
    returns (k: nat)
    requires n < |ds| && Notes(seen, priorities, approved, ds, n)
    requires taken == if ds[n].room in priorities then priorities[ds[n].room] else {}
    requires ds[n].id in seen || ds[n].priority in taken || (ds[n].admission.Some? && approved)
    ensures k < n && !Compatible(ds[k], ds[n])
  {
    if ds[n].id in seen {
      k :| 0 <= k < n && ds[k].id == ds[n].id;
    } else if ds[n].priority in taken {
      k :| 0 <= k < n && ds[k].room == ds[n].room && ds[k].priority == ds[n].priority;
    } else {
      k :| 0 <= k < n && ds[k].admission.Some?;
    }
  }

  lemma NotesFit(seen: set<string>, priorities: map<string, set<int>>, approved: bool, ds: seq<Device>, n: nat,
          taken: set<int>)
    requires n < |ds| && Notes(seen, priorities, approved, ds, n)
    requires taken == if ds[n].room in priorities then priorities[ds[n].room] else {}
    requires ds[n].id !in seen && ds[n].priority !in taken && !(ds[n].admission.Some? && approved)
    ensures forall k :: 0 <= k < n ==> Compatible(ds[k], ds[n])
  {
    forall k | 0 <= k < n
      ensures Compatible(ds[k], ds[n])
    {
      assert ds[k].id in seen;
    }
  }

  lemma NotesMore(seen: set<string>, priorities: map<string, set<int>>, approved: bool, ds: seq<Device>, n: nat,
          taken: set<int>)
    requires n < |ds| && Notes(seen, priorities, approved, ds, n)
    requires taken == if ds[n].room in priorities then priorities[ds[n].room] else {}
    ensures Notes(seen + {ds[n].id}, priorities[ds[n].room := taken + {ds[n].priority}], approved
            || ds[n].admission.Some?, ds, n + 1)
  {
    TracksMore(priorities, ds, n, taken);
    forall id
      ensures id in seen + {ds[n].id} <==> exists k :: 0 <= k < n + 1 && ds[k].id == id
    {
      assert ds[n].id == id || id in seen <==> id in seen + {ds[n].id};
    }
  }

  /** The per-room priority sets hold exactly the priorities seen so far. */
  ghost predicate Tracks(priorities: map<string, set<int>>, ds: seq<Device>, n: nat)
    requires n <= |ds|
  {
    && (forall k :: 0 <= k < n ==> ds[k].room in priorities && ds[k].priority in priorities[ds[k].room])
    && (forall room, p :: room in priorities && p in priorities[room] ==>
          exists k :: 0 <= k < n && ds[k].room == room && ds[k].priority == p)
  }

  lemma TracksMore(priorities: map<string, set<int>>, ds: seq<Device>, n: nat, taken: set<int>)
    requires n < |ds| && Tracks(priorities, ds, n)
    requires taken == if ds[n].room in priorities then priorities[ds[n].room] else {}
    ensures Tracks(priorities[ds[n].room := taken + {ds[n].priority}], ds, n + 1)
  {
    var after := priorities[ds[n].room := taken + {ds[n].priority}];
    forall room, p | room in after && p in after[room]
      ensures exists k :: 0 <= k < n + 1 && ds[k].room == room && ds[k].priority == p
    {
      if room == ds[n].room && p == ds[n].priority {
        assert ds[n].room == room;
      } else {
        assert room in priorities && p in priorities[room];
      }
    }
  }

  lemma DeviceFaulty(ds: seq<Device>, i: nat, rooms: seq<Room>, ms: seq<Mapping>, ps: seq<Profile>)
    requires i < |ds|
    ensures !ValidDevice(ds[i], rooms, ms, ps) ==> !ValidDevices(ds[..i + 1], rooms, ms, ps)
  {
    assert ds[..i + 1][i] == ds[i];
  }

  lemma DevicesClash(ds: seq<Device>, k: nat, i: nat, rooms: seq<Room>, ms: seq<Mapping>, ps: seq<Profile>)
    requires k < i < |ds| && !Compatible(ds[k], ds[i])
    ensures !ValidDevices(ds[..i + 1], rooms, ms, ps)
  {
    assert !Compatible(ds[..i + 1][k], ds[..i + 1][i]);
  }

  lemma DevicesExtend(ds: seq<Device>, i: nat, rooms: seq<Room>, ms: seq<Mapping>, ps: seq<Profile>)
    requires i < |ds| && ValidDevices(ds[..i], rooms, ms, ps) && ValidDevice(ds[i], rooms, ms, ps)
    requires forall k :: 0 <= k < i ==> Compatible(ds[k], ds[i])
    ensures ds[..i + 1] == ds[..i] + [ds[i]] && ValidDevices(ds[..i + 1], rooms, ms, ps)
  {
  }

  method ValidateClientDevices(cs: seq<ClientDevice>, ds: seq<Device>) returns (r: Result<seq<ClientDevice>, nat>)
    ensures r.Ok? ==> r.value == cs && ValidClients(cs, ds)
    ensures r.Err? ==> r.error < |cs| && ValidClients(cs[..r.error], ds) && !ValidClients(cs[..r.error + 1], ds)
  {
    var roomDevices := set k | 0 <= k < |ds| :: ds[k].id;
    var seen: set<string> := {};
    var entries: seq<ClientDevice> := [];
    for i := 0 to |cs|
      invariant entries == cs[..i] && ValidClients(cs[..i], ds)
      invariant forall id :: id in seen <==> exists k :: 0 <= k < i && cs[k].id == id
    {
      var c := cs[i];
      assert cs[..i + 1][i] == c;
      assert c.id in roomDevices <==> RoomDevice(ds, c.id);
      if !ValidText(c.id) || c.id in roomDevices {
        return Err(i);
      }
      if c.id in seen {
        var k :| 0 <= k < i && cs[k].id == c.id;
        assert cs[..i + 1][k].id == cs[..i + 1][i].id;
        return Err(i);
      }
      seen := seen + {c.id};
      entries := entries + [c];
      assert cs[..i + 1] == cs[..i] + [c];
    }
    assert cs[..|cs|] == cs;
    return Ok(entries);
  }

  datatype Rejection =
    | BadRoom(index: nat) | BadProfile(index: nat) | BadMapping(index: nat)
    | BadDevice(index: nat) | BadClient(index: nat)

  /** The validator accepts exactly the valid configurations, and copies them unchanged. */
  method Validate(c: Candidate, norm: string -> string) returns (r: Result<Candidate, Rejection>)
    ensures r.Ok? <==> ValidCandidate(c, norm)
    ensures r.Ok? ==> r.value == c
  {
    var rooms := ValidateRooms(c.rooms);
    if rooms.Err? {
      RoomsPrefix(c.rooms, rooms.error + 1);
      return Err(BadRoom(rooms.error));
    }
    var profiles := ValidateProfiles(c.profiles);
    if profiles.Err? {
      ProfilesPrefix(c.profiles, profiles.error + 1);
      return Err(BadProfile(profiles.error));
    }
    var mappings := ValidateWakeMappings(c.mappings, profiles.value, norm);
    if mappings.Err? {
      MappingsPrefix(c.mappings, c.profiles, norm, mappings.error + 1);
      return Err(BadMapping(mappings.error));
    }
    var devices := ValidateDevices(c.devices, rooms.value, mappings.value, profiles.value);
    if devices.Err? {
      DevicesPrefix(c.devices, c.rooms, c.mappings, c.profiles, devices.error + 1);
      return Err(BadDevice(devices.error));
    }
    var clients := ValidateClientDevices(c.clients, devices.value);
    if clients.Err? {
      ClientsPrefix(c.clients, c.devices, clients.error + 1);
      return Err(BadClient(clients.error));
    }
    return Ok(Candidate(rooms.value, profiles.value, mappings.value, devices.value, clients.value));
  }

  lemma RoomsPrefix(rooms: seq<Room>, n: nat)
    requires n <= |rooms|
    ensures ValidRooms(rooms) ==> ValidRooms(rooms[..n])
  {
  }

  lemma ProfilesPrefix(ps: seq<Profile>, n: nat)
    requires n <= |ps|
    ensures ValidProfiles(ps) ==> ValidProfiles(ps[..n])
  {
  }

  lemma MappingsPrefix(ms: seq<Mapping>, ps: seq<Profile>, norm: string -> string, n: nat)
    requires n <= |ms|
    ensures ValidMappings(ms, ps, norm) ==> ValidMappings(ms[..n], ps, norm)
  {
  }

  lemma DevicesPrefix(ds: seq<Device>, rooms: seq<Room>, ms: seq<Mapping>, ps: seq<Profile>, n: nat)
    requires n <= |ds|
    ensures ValidDevices(ds, rooms, ms, ps) ==> ValidDevices(ds[..n], rooms, ms, ps)
  {
  }

  lemma ClientsPrefix(cs: seq<ClientDevice>, ds: seq<Device>, n: nat)
    requires n <= |cs|
    ensures ValidClients(cs, ds) ==> ValidClients(cs[..n], ds)
  {
  }
}
