/**
  Wake arbitration: one bounded round per Room, one winner per round.

  Pending rounds are kept in the order they were opened. `reserved` and
  `collected` and the admission times and revisions of claims record history that the engine itself
  does not read. A finalized Room draws its arbitration ID from `ids`.
 */
module Arbitration {
  import opened Wrappers
  import Configuration

  const WINDOW: real := 0.250

  datatype Snapshot = Snapshot(revision: int, candidate: Configuration.Candidate)

  datatype Claim = Claim(
    id: string, device: string, mapping: string, revision: int, ready: bool, score: real)
  datatype Authority = Authority(
    device: Option<string>, wake: Option<bool>, rooms: Option<set<string>>, mappings: Option<set<string>>)

  datatype Eligible = Eligible(
    id: string, device: string, room: string, mapping: string, profile: string,
    score: real, priority: int, sequence: nat, revision: int, admittedAt: real)
  datatype Round = Round(room: string, snapshot: Snapshot, openedAt: real, claims: seq<Eligible>)
  datatype Decision = Decision(
    id: string, granted: bool, arbitrationId: string, revision: int,
    device: string, room: string, mapping: string, profile: string)

  datatype State = State(
    pending: seq<Round>, resolved: map<string, Decision>, accepted: set<string>, sequence: nat,
    reserved: set<string>, collected: set<string>)

  const EMPTY := State([], map[], {}, 0, {}, {})

  datatype Denial =
    | InvalidRequest | StaleConfiguration | DuplicateClaim | Unauthorized | ClaimDenied | NotFound
    | Forbidden | StaleMapping | Late | Unavailable | MigrationRequired(revision: int)

  /** What the configuration source gives: a validated snapshot, or not. */
  datatype Reading = Missing | Migrating(revision: int) | Valid(snapshot: Snapshot)

  function Deadline(r: Round): real { r.openedAt + WINDOW }

  // -------------------------------------------------------------- validation

  function FindDevice(ds: seq<Configuration.Device>, id: string): (r: Option<Configuration.Device>)
    ensures r.Some? ==> r.value in ds && r.value.id == id
    ensures r.None? ==> forall i :: 0 <= i < |ds| ==> ds[i].id != id
  {
    if ds == [] then None
    else if ds[|ds| - 1].id == id then Some(ds[|ds| - 1])
    else FindDevice(ds[..|ds| - 1], id)
  }

  function FindMapping(ms: seq<Configuration.Mapping>, id: string): (r: Option<Configuration.Mapping>)
    ensures r.Some? ==> r.value in ms && r.value.id == id
    ensures r.None? ==> forall i :: 0 <= i < |ms| ==> ms[i].id != id
  {
    if ms == [] then None
    else if ms[|ms| - 1].id == id then Some(ms[|ms| - 1])
    else FindMapping(ms[..|ms| - 1], id)
  }

  function FindProfile(ps: seq<Configuration.Profile>, id: string): (r: Option<Configuration.Profile>)
    ensures r.Some? ==> r.value in ps && r.value.id == id
    ensures r.None? ==> forall i :: 0 <= i < |ps| ==> ps[i].id != id
  {
    if ps == [] then None
    else if ps[|ps| - 1].id == id then Some(ps[|ps| - 1])
    else FindProfile(ps[..|ps| - 1], id)
  }

  function ValidateClaim(c: Claim, a: Authority, snapshot: Snapshot, existing: set<string>, sequence: nat,
          now: real): Result<Eligible, Denial>
  {
    if c.revision < 0 then Err(InvalidRequest)
    else if c.revision != snapshot.revision then Err(StaleConfiguration)
    else if !Configuration.ValidText(c.id) || !Configuration.ValidText(c.device) || !Configuration.ValidText(c.mapping)
    then Err(InvalidRequest)
    else if c.id in existing then Err(DuplicateClaim)
    else if a.device != Some(c.device) then Err(Unauthorized)
    else if !c.ready then Err(ClaimDenied)
    else
      match FindDevice(snapshot.candidate.devices, c.device)
      case None => Err(NotFound)
      case Some(device) =>
        if !device.wakeClaim then Err(ClaimDenied)
        else if a.wake.Some? && (!a.wake.value || a.rooms.None? || device.room !in a.rooms.value) then Err(Forbidden)
        else if a.mappings.Some? && c.mapping !in a.mappings.value then Err(Forbidden)
        else
          match FindMapping(snapshot.candidate.mappings, c.mapping)
          case None => Err(NotFound)
          case Some(mapping) =>
            if !mapping.active then Err(StaleMapping)
            else
              match FindProfile(snapshot.candidate.profiles, mapping.profile)
              case None => Err(ClaimDenied)
              case Some(profile) =>
                if !profile.available then Err(ClaimDenied)
                else Ok(Eligible(c.id, c.device, device.room, c.mapping, profile.id, c.score, device.priority,
                                 sequence, c.revision, now))
  }

  // ------------------------------------------------------------ finalization

  /** The order (-score, priority, sequence) of the winner selection. */
  predicate Better(a: Eligible, b: Eligible) {
    || a.score > b.score
    || (a.score == b.score && (a.priority < b.priority || (a.priority == b.priority && a.sequence < b.sequence)))
  }

  function Best(claims: seq<Eligible>): (w: nat)
    requires claims != []
    ensures w < |claims| && forall i :: 0 <= i < |claims| ==> !Better(claims[i], claims[w])
  {
    if |claims| == 1 then 0
    else
      var n := |claims| - 1;
      var w := Best(claims[..n]);
      if Better(claims[n], claims[w]) then n else w
  }

  function DecisionFor(r: Round, c: Eligible, id: string): Decision
    requires r.claims != []
  {
    Decision(c.id, c.id == r.claims[Best(r.claims)].id, id, r.snapshot.revision, c.device, c.room, c.mapping, c.profile)
  }

  function Decisions(r: Round, claims: seq<Eligible>, id: string): map<string, Decision>
    requires r.claims != []
  {
    if claims == [] then map[]
    else Decisions(r, claims[..|claims| - 1], id)[claims[|claims| - 1].id := DecisionFor(r, claims[|claims| - 1], id)]
  }

  function Outcome(r: Round, id: string): map<string, Decision> {
    if r.claims == [] then map[] else Decisions(r, r.claims, id)
  }

  function Kept(rounds: seq<Round>, now: real): (k: seq<Round>)
    ensures forall i :: 0 <= i < |k| ==> k[i] in rounds && now < Deadline(k[i])
  {
    if rounds == [] then []
    else
      var before := Kept(rounds[..|rounds| - 1], now);
      if now >= Deadline(rounds[|rounds| - 1]) then before else before + [rounds[|rounds| - 1]]
  }

  /** Resolve every round whose deadline has passed, oldest first. */
  function Settled(resolved: map<string, Decision>, rounds: seq<Round>, now: real,
          ids: string -> string): map<string, Decision>
  {
    if rounds == [] then resolved
    else
      var last := rounds[|rounds| - 1];
      var before := Settled(resolved, rounds[..|rounds| - 1], now, ids);
      if now >= Deadline(last) then before + Outcome(last, ids(last.room)) else before
  }

  function FinalizeDue(s: State, now: real, ids: string -> string): State {
    s.(pending := Kept(s.pending, now), resolved := Settled(s.resolved, s.pending, now, ids))
  }

  function FindRound(rounds: seq<Round>, room: string): (r: Option<nat>)
    ensures r.Some? ==> r.value < |rounds| && rounds[r.value].room == room
    ensures r.None? ==> forall i :: 0 <= i < |rounds| ==> rounds[i].room != room
  {
    if rounds == [] then None
    else if rounds[|rounds| - 1].room == room then Some(|rounds| - 1)
    else FindRound(rounds[..|rounds| - 1], room)
  }

  /** `_finalize_room` for one round. */
  function FinalizeAt(s: State, k: nat, ids: string -> string): State
    requires k < |s.pending|
  {
    s.(pending := s.pending[..k] + s.pending[k + 1..],
       resolved := s.resolved + Outcome(s.pending[k], ids(s.pending[k].room)))
  }

  // -------------------------------------------------------------- operations

  function Reserve(s: State, id: string): (State, bool) {
    if id in s.accepted then (s, false)
    else (s.(accepted := s.accepted + {id}, reserved := s.reserved + {id}), true)
  }

  /** Open a round or join the one that is pending. */
  function Admit(s: State, room: string, snapshot: Snapshot, claim: Eligible, now: real): State {
    var found := FindRound(s.pending, room);
    var pending :=
      if found.Some?
      then s.pending[found.value := s.pending[found.value].(claims := s.pending[found.value].claims + [claim])]
      else s.pending + [Round(room, snapshot, now, [claim])];
    s.(pending := pending, accepted := s.accepted + {claim.id}, sequence := s.sequence + 1)
  }

  datatype Submission = Admitted(deadline: real) | Denied(reason: Denial)

  function Submit(s: State, reading: Reading, c: Claim, a: Authority, now: real,
          ids: string -> string): (State, Submission)
  {
    match reading
    case Migrating(revision) => (s, Denied(MigrationRequired(revision)))
    case Missing => (s, Denied(Unavailable))
    case Valid(snapshot) =>
      match FindDevice(snapshot.candidate.devices, c.device)
      case None => (s, Denied(NotFound))
      case Some(device) =>
        var room := device.room;
        var late := FindRound(s.pending, room).Some? && now >= Deadline(s.pending[FindRound(s.pending, room).value]);
        var settled := FinalizeDue(s, now, ids);
        if late then (settled, Denied(Late)) else Join(settled, snapshot, room, c, a, now, ids)
  }

  /** After the expired rounds are gone: finalize a round of another revision,
      then judge the claim by the round it joins, or by the current snapshot. */
  function Join(s: State, snapshot: Snapshot, room: string, c: Claim, a: Authority, now: real,
          ids: string -> string): (State, Submission)
  {
    var found := FindRound(s.pending, room);
    var stale := found.Some? && s.pending[found.value].snapshot.revision != snapshot.revision;
    var ready := if stale then FinalizeAt(s, found.value, ids) else s;
    var joins := found.Some? && !stale;
    var view := if joins then s.pending[found.value].snapshot else snapshot;
    match ValidateClaim(c, a, view, s.accepted, s.sequence, now)
    case Err(reason) => (ready, Denied(reason))
    case Ok(claim) =>
      (Admit(ready, room, view, claim, now), Admitted(if joins then Deadline(s.pending[found.value]) else now + WINDOW))
  }

  function Collect(s: State, id: string): (State, Option<Decision>) {
    if id in s.resolved
    then (s.(resolved := s.resolved - {id}, collected := s.collected + {id}), Some(s.resolved[id]))
    else (s, None)
  }

  // ------------------------------------------------------------------- runs

  datatype Op =
    | OpReserve(id: string)
    | OpSubmit(reading: Reading, claim: Claim, authority: Authority, now: real, ids: string -> string)
    | OpFinalize(now: real, ids: string -> string)
    | OpCollect(id: string)

  ghost function Next(s: State, op: Op): State {
    match op
    case OpReserve(id) => Reserve(s, id).0
    case OpSubmit(reading, c, a, now, ids) => Submit(s, reading, c, a, now, ids).0
    case OpFinalize(now, ids) => FinalizeDue(s, now, ids)
    case OpCollect(id) => Collect(s, id).0
  }

  ghost function Final(s: State, ops: seq<Op>): State
    decreases |ops|
  {
    if ops == [] then s else Final(Next(s, ops[0]), ops[1..])
  }

  /** The clock never goes back and every snapshot is the one published under its
      revision, after validation. */
  ghost predicate Legal(clock: real, op: Op, published: int -> Configuration.Candidate, norm: string -> string) {
    op.OpSubmit? ==>
      && clock <= op.now
      && (op.reading.Valid? ==>
            && op.reading.snapshot.candidate == published(op.reading.snapshot.revision)
            && Configuration.ValidCandidate(op.reading.snapshot.candidate, norm))
  }

  ghost function Clock(clock: real, op: Op): real { if op.OpSubmit? then op.now else clock }

  ghost predicate Runs(clock: real, s: State, ops: seq<Op>, published: int -> Configuration.Candidate,
          norm: string -> string)
    decreases |ops|
  {
    ops == [] ||
    (Legal(clock, ops[0], published, norm) && Runs(Clock(clock, ops[0]), Next(s, ops[0]), ops[1..], published, norm))
  }
}
