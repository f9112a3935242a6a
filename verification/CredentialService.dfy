/**
  The credential service as it runs: one state record that its operations
  change in place, inside a transaction that restores it when they raise. Each
  operation is proved to do what its function in `Credentials` says.
 */
module CredentialService {
  import opened Wrappers
  import Answers = EnrollmentAnswers
  import opened Credentials
  import Authentication
  import ClientGrants
  import CredentialInvariants
  import Enrollment
  import Replacements

  /** What every operation keeps: the chains and scopes, the grant rules and the enrollment counts. */
  ghost predicate Sound(s: State) {
    CredentialInvariants.Inv(s) && ClientGrants.GrantInv(s) && Enrollment.EnrollmentInv(s)
  }

  lemma StaysSound(s: State, e: Event)
    requires Sound(s) && FreshIds(s, e.op)
    ensures Sound(Next(s, e))
  {
    ClientGrants.StepGrants(s, e);
    Enrollment.StepEnrollment(s, e);
  }

  lemma EmptyIsSound()
    ensures Sound(EMPTY)
  {
    assert EMPTY.grants == [];
  }

  /** Replacing element i of a list that is edited up to i. */
  lemma Advance<T>(done: seq<T>, rest: seq<T>, i: nat)
    requires |done| == |rest| && i < |rest|
    ensures (done[..i] + rest[i..])[i := done[i]] == done[..i + 1] + rest[i + 1..]
    ensures (done[..i] + rest[i..])[i] == rest[i]
  {
  }

  // ------------------------------------------------- authentication passes

  method LapseReplacements(was: seq<Replacement>, now: real, clean: bool) returns (rs: seq<Replacement>, needed: bool)
    ensures rs == if clean then CleanReplacements(was, now) else was
    ensures needed <==> exists j :: 0 <= j < |was| && Lapsed(was[j], now)
  {
    rs, needed := was, false;
    for i := 0 to |was|
      invariant |rs| == |was|
      invariant forall j :: 0 <= j < |was| ==> rs[j] == if clean && j < i then CleanReplacement(was[j], now) else was[j]
      invariant needed <==> exists j :: 0 <= j < i && Lapsed(was[j], now)
    {
      if rs[i].status == RepActive && now >= rs[i].overlapUntil {
        assert Lapsed(was[i], now);
        needed := true;
        if clean {
          rs := rs[i := rs[i].(status := RepExpired, cipher := Erased)];
        }
      }
    }
  }

  method ExpireCredentials(was: seq<Credential>, now: real, clean: bool) returns (cs: seq<Credential>, needed: bool)
    ensures cs == if clean then CleanCredentials(was, now) else was
    ensures needed <==> exists j :: 0 <= j < |was| && Outdated(was[j], now)
  {
    cs, needed := was, false;
    for i := 0 to |was|
      invariant |cs| == |was|
      invariant forall j :: 0 <= j < |was| ==> cs[j] == if clean && j < i then was[j].(status :=
                Effective(was[j], now)) else was[j]
      invariant needed <==> exists j :: 0 <= j < i && Outdated(was[j], now)
    {
      if (cs[i].status == CredActive && now >= cs[i].expiresAt)
          || (cs[i].status == CredReplaced && now >= cs[i].overlapUntil) {
        assert Outdated(was[i], now);
        needed := true;
        if clean {
          cs := cs[i := cs[i].(status := CredExpired)];
        }
      }
    }
  }

  /** The last record that carries the token and is accepted, whatever its stored status still says. */
  method MatchCredential(cs: seq<Credential>, now: real, token: string, allowReplaced: bool)
    returns (found: Option<Device>)
    ensures found == Found(cs, now, token, allowReplaced)
  {
    found := None;
    for i := 0 to |cs|
      invariant found == Found(cs[..i], now, token, allowReplaced)
    {
      var status := cs[i].status;
      if (status == CredActive && now >= cs[i].expiresAt) || (status == CredReplaced && now >= cs[i].overlapUntil) {
        status := CredExpired;
      }
      assert cs[..i + 1][..i] == cs[..i];
      if cs[i].token == token && (status == CredActive
          || (allowReplaced && status == CredReplaced && now < cs[i].overlapUntil)) {
        found := Some(DeviceOf(cs[i]));
      }
    }
    assert cs[..|cs|] == cs;
  }

  class Service {
    var state: State

    ghost predicate Valid()
      reads this
    {
      Sound(state)
    }

    constructor ()
      ensures Valid() && state == EMPTY
    {
      state := EMPTY;
      new;
      EmptyIsSound();
    }

    // ------------------------------------------------------ loops over records

    method ExpirePendingGrants(now: real)
      modifies this
      ensures state == old(state).(grants := ExpirePending(old(state).grants, now))
    {
      ghost var was, done := state.grants, ExpirePending(state.grants, now);
      for i := 0 to |state.grants|
        invariant |was| == |done| == |state.grants|
        invariant state == old(state).(grants := done[..i] + was[i..])
      {
        Advance(done, was, i);
        var g := state.grants[i];
        if g.status == GrantPending && now >= g.pendingUntil {
          state := state.(grants := state.grants[i := g.(status := GrantExpired)]);
        }
      }
    }

    method EndDeviceGrants(device: string)
      modifies this
      ensures state == old(state).(grants := EndGrants(old(state).grants, device))
    {
      ghost var was, done := state.grants, EndGrants(state.grants, device);
      for i := 0 to |state.grants|
        invariant |was| == |done| == |state.grants|
        invariant state == old(state).(grants := done[..i] + was[i..])
      {
        Advance(done, was, i);
        var g := state.grants[i];
        if g.device == device && (g.status == GrantActive || g.status == GrantPending) {
          state := state.(grants := state.grants[i := g.(status := GrantRevoked)]);
        }
      }
    }

    method InvalidateReplacements(device: string)
      modifies this
      ensures state == old(state).(replacements := RevokeReplacements(old(state).replacements, device))
    {
      ghost var was, done := state.replacements, RevokeReplacements(state.replacements, device);
      for i := 0 to |state.replacements|
        invariant |was| == |done| == |state.replacements|
        invariant state == old(state).(replacements := done[..i] + was[i..])
      {
        Advance(done, was, i);
        var r := state.replacements[i];
        if r.device == device {
          state := state.(replacements := state.replacements[i := r.(status := RepRevoked, cipher := Erased)]);
        }
      }
    }

    method RevokeMatching(endpoint: string)
      modifies this
      ensures state == old(state).(credentials := RevokeEndpoint(old(state).credentials, endpoint))
    {
      ghost var was, done := state.credentials, RevokeEndpoint(state.credentials, endpoint);
      for i := 0 to |state.credentials|
        invariant |was| == |done| == |state.credentials|
        invariant state == old(state).(credentials := done[..i] + was[i..])
      {
        Advance(done, was, i);
        var c := state.credentials[i];
        if c.endpoint == endpoint {
          state := state.(credentials := state.credentials[i := c.(status := CredRevoked)]);
        }
      }
    }

    method RevokeRecords(device: string)
      modifies this
      ensures state == old(state).(credentials := RevokeDevice(old(state).credentials, device))
    {
      ghost var was, done := state.credentials, RevokeDevice(state.credentials, device);
      for i := 0 to |state.credentials|
        invariant |was| == |done| == |state.credentials|
        invariant state == old(state).(credentials := done[..i] + was[i..])
      {
        Advance(done, was, i);
        var c := state.credentials[i];
        if c.device == device {
          state := state.(credentials := state.credentials[i := c.(status := CredRevoked)]);
        }
      }
    }

    // ------------------------------------------------------------ enrollment

    method CreateOffer(now: real, id: string, code: string, ttl: int) returns (r: Result<real, Error>)
      requires Valid()
      modifies this
      ensures Reply(state, r) == Credentials.CreateOffer(old(state), now, id, code, ttl)
      ensures Valid() && (r.Err? ==> state == old(state))
      ensures r.Ok? && (forall i :: 0 <= i < |old(state).offers| ==> old(state).offers[i].code != code) ==>
        var k := FindOfferByCode(state.offers, code);
        k.Some? && state.offers[k.value].status == OfferOpen && state.offers[k.value].expiresAt == r.value
    {
      StaysSound(state, Event(now, OpOffer(id, code, ttl)));
      if !(1 <= ttl <= 300) || !ValidId(id) || code == "" {
        return Err(Invalid);
      }
      var expiresAt := now + ttl as real;
      state := state.(offers := state.offers + [Offer(id, code, expiresAt, OfferOpen)]);
      if forall i :: 0 <= i < |old(state).offers| ==> old(state).offers[i].code != code {
        Enrollment.NewestCode(state.offers, code, 0);
      }
      return Ok(expiresAt);
    }

    method SubmitRequest(now: real, code: string, id: string, endpoint: string, name: string, kind: string,
            rooms: seq<string>, capabilities: seq<string>, storage: string)
      returns (r: Result<Request, Error>)
      requires Valid()
      modifies this
      ensures Reply(state, r) == Credentials.SubmitRequest(old(state), now, code, id, endpoint, name, kind, rooms,
                                                           capabilities, storage)
      ensures Valid() && (r.Err? ==> state == old(state))
      ensures state.credentials == old(state).credentials && state.grants == old(state).grants
      ensures r.Ok? ==>
        && r.value in state.requests && r.value.status == ReqPending
        && var k := FindOfferByCode(state.offers, code); k.Some? && state.offers[k.value].status != OfferOpen
    {
      StaysSound(state, Event(now, OpSubmit(code, id, endpoint, name, kind, rooms, capabilities, storage)));
      if code == "" || !ValidId(endpoint) || !ValidId(name) || !ValidId(kind) || !StorageOk(kind, storage) {
        return Err(Invalid);
      }
      var scope := Scope(rooms, capabilities, [], None);
      if !ValidScope(scope) || !KindAllows(kind, storage, scope, false) || !ValidId(id) {
        return Err(Invalid);
      }
      var found := FindOfferByCode(state.offers, code);
      if found.None? {
        return Err(Unauthorized);
      }
      var offer := state.offers[found.value];
      if offer.status != OfferOpen || now >= offer.expiresAt {
        return Err(ExpiredOrConsumed);
      }
      var request := Request(id, offer.id, endpoint, name, kind, scope, storage, offer.expiresAt, ReqPending, None, []);
      state := state.(offers := state.offers[found.value := offer.(status := OfferPending)]);
      Enrollment.OfferStays(old(state).offers, state.offers, code, 0);
      state := state.(requests := state.requests + [request]);
      return Ok(request);
    }

    /** `_expire_enrollment_state`. */
    method ExpireEnrollment(now: real)
      modifies this
      ensures state == Credentials.ListRequests(old(state), now).state
    {
      var offers, requests := state.offers, state.requests;
      for i := 0 to |offers|
        invariant |offers| == |state.offers|
        invariant forall j :: 0 <= j < |offers| ==>
                    offers[j] == if j < i then ExpiredOffer(state.offers[j], now) else state.offers[j]
      {
        if (offers[i].status == OfferOpen || offers[i].status == OfferPending) && now >= offers[i].expiresAt {
          offers := offers[i := offers[i].(status := OfferExpired)];
        }
      }
      for i := 0 to |requests|
        invariant |requests| == |state.requests|
        invariant forall j :: 0 <= j < |requests| ==>
                    requests[j] == if j < i then ExpiredRequest(state.requests[j], now) else state.requests[j]
      {
        if (requests[i].status == ReqPending || requests[i].status == ReqApproved) && now >= requests[i].expiresAt {
          requests := requests[i := requests[i].(status := ReqExpired)];
        }
      }
      state := state.(offers := offers, requests := requests);
    }

    method ListRequests(now: real) returns (r: Result<seq<Request>, Error>)
      requires Valid()
      modifies this
      ensures Reply(state, r) == Credentials.ListRequests(old(state), now)
      ensures Valid()
    {
      StaysSound(state, Event(now, OpList));
      ExpireEnrollment(now);
      return Ok(state.requests);
    }

    method ApproveRequest(now: real, id: string, scope: Scope, rooms: set<string>, mappings: set<string>,
            profiles: set<string>, clientProfiles: seq<string>)
      returns (r: Result<Request, Error>)
      requires Valid()
      modifies this
      ensures Reply(state, r) == Credentials.ApproveRequest(old(state), now, id, scope, rooms, mappings, profiles,
                                                            clientProfiles)
      ensures Valid() && (r.Err? ==> state == old(state)) && state.credentials == old(state).credentials
      ensures r.Ok? ==>
        && r.value in state.requests && r.value.approved == Some(scope) && SubsetOf(scope, r.value.requested)
        && CredentialInvariants.Unmixed(scope) && Within(scope.rooms, rooms) && Within(clientProfiles, profiles)
    {
      StaysSound(state, Event(now, OpApprove(id, scope, rooms, mappings, profiles, clientProfiles)));
      if !ValidId(id) || !Bounded(clientProfiles) || |clientProfiles| > MAX_CLIENT_GRANTS {
        return Err(Invalid);
      }
      var pending := PendingRequest(state, now, id);
      if pending.Err? {
        return Err(pending.error);
      }
      var request := state.requests[pending.value];
      if !Approvable(request, scope, rooms, mappings, profiles, clientProfiles) || !ValidScope(scope) {
        return Err(Invalid);
      }
      ApprovalMeans(request, scope, rooms, mappings, profiles, clientProfiles);
      request := request.(approved := Some(scope));
      request := request.(profiles := clientProfiles);
      request := request.(status := ReqApproved);
      state := state.(requests := state.requests[pending.value := request]);
      assert state.requests[pending.value] == request;
      return Ok(request);
    }

    method RejectRequest(now: real, id: string) returns (r: Result<Request, Error>)
      requires Valid()
      modifies this
      ensures Reply(state, r) == Credentials.RejectRequest(old(state), now, id)
      ensures Valid() && (r.Err? ==> state == old(state)) && state.credentials == old(state).credentials
      ensures r.Ok? ==> forall t :: PendingRequest(state, t, id) == Err(Conflict)
    {
      StaysSound(state, Event(now, OpReject(id)));
      var pending := PendingRequest(state, now, id);
      if pending.Err? {
        return Err(pending.error);
      }
      var request := state.requests[pending.value].(status := ReqRejected);
      state := state.(requests := state.requests[pending.value := request]);
      Enrollment.RequestStays(old(state).requests, state.requests, id, 0);
      return Ok(request);
    }

    /** `_issue_client_grants`: the list that is searched for holders grows as grants are issued. */
    method IssueClientGrants(now: real, device: string, request: Request, shared: set<string>, ids: seq<string>)
      returns (issued: seq<Grant>)
      modifies this
      ensures var kept := EndGrants(ExpirePending(old(state).grants, now), device);
        && issued == IssuedGrants(kept, LiveDevices(old(state).credentials, now), device, request, shared, now, ids)
        && state == old(state).(grants := kept + issued)
    {
      ExpirePendingGrants(now);
      EndDeviceGrants(device);
      ghost var kept := state.grants;
      var live := LiveDevices(state.credentials, now);
      ghost var all := IssuedGrants(kept, live, device, request, shared, now, ids);
      issued := [];
      for i := 0 to |request.profiles|
        invariant issued == all[..i] && state == old(state).(grants := kept + issued)
      {
        var profile := request.profiles[i];
        var held := HeldElsewhere(state.grants, live, device, profile);
        OwnGrantsDoNotHold(kept, issued, live, device, profile);
        var status, bootstrap := GrantActive, false;
        if profile !in shared {
          if held {
            status := GrantPending;
          } else {
            bootstrap := true;
          }
        }
        var grant := Grant(IdAt(ids, i), device, profile, status, request.name, request.kind, now, bootstrap,
                           now + PENDING_OWNER_TTL, None);
        assert grant == all[i];
        state := state.(grants := state.grants + [grant]);
        issued := issued + [grant];
      }
    }

    /** The re-enrollment half: an endpoint that is known keeps its device and
        loses its earlier credentials and replacements. */
    method Supersede(endpoint: string, freshDevice: string)
      returns (device: string, generation: nat, event: Option<RevocationEvent>)
      modifies this
      ensures generation == MaxGeneration(old(state).credentials, endpoint) + 1
      ensures var found := FindEndpoint(old(state).credentials, endpoint);
        && device == (if found.Some? then old(state).credentials[found.value].device else freshDevice)
        && event == (if found.Some? then Some(RevocationEvent(device, generation - 1)) else None)
        && state == old(state).(
             credentials := RevokeEndpoint(old(state).credentials, endpoint),
             replacements := if found.Some? then RevokeReplacements(old(state).replacements, device)
                             else old(state).replacements)
    {
      var found := FindEndpoint(state.credentials, endpoint);
      device, generation, event := freshDevice, 1, None;
      RevokeNothing(state.credentials, endpoint);
      if found.Some? {
        device := state.credentials[found.value].device;
        generation := MaxGeneration(state.credentials, endpoint) + 1;
        RevokeMatching(endpoint);
        InvalidateReplacements(device);
        event := Some(RevocationEvent(device, generation - 1));
      }
    }

    /** The writes of `consume_request`. */
    method WriteEnrollment(now: real, k: nat, o: nat, shared: set<string>, token: string, freshDevice: string,
            grantIds: seq<string>)
      returns (r: Result<Enrolled, Error>)
      requires k < |state.requests| && o < |state.offers| && state.requests[k].approved.Some?
      modifies this
      ensures Reply(state, r) == Enroll(old(state), now, k, o, shared, token, freshDevice, grantIds)
    {
      var request, offer := state.requests[k], state.offers[o];
      var device, generation, event := Supersede(request.endpoint, freshDevice);
      var scope := request.approved.value;
      var expiresAt := now + CREDENTIAL_TTL;
      var record := Credential(device, request.endpoint, generation, CredActive, now, expiresAt,
                               0.0, token, scope, request.name, request.kind);
      state := state.(credentials := state.credentials + [record]);
      var issued := IssueClientGrants(now, device, request, shared, grantIds);
      state := state.(requests := state.requests[k := request.(status := ReqConsumed)]);
      state := state.(offers := state.offers[o := offer.(status := OfferConsumed)]);
      return Ok(Enrolled(Material(device, token, generation, expiresAt, scope, issued), event));
    }

    method ConsumeRequest(now: real, id: string, code: string, storage: string, shared: Option<set<string>>,
            token: string, freshDevice: string, grantIds: seq<string>)
      returns (r: Result<Enrolled, Error>)
      requires Valid()
      modifies this
      ensures Reply(state, r) == Credentials.ConsumeRequest(old(state), now, id, code, storage, shared, token,
                                                            freshDevice, grantIds)
      ensures FreshIds(old(state), OpConsume(id, code, storage, shared, token, freshDevice, grantIds)) ==> Valid()
      ensures forall k :: Answers.RequestAt(old(state), id, k) ==>
                var q := old(state).requests[k];
                r.Ok? <==> Answers.Consumes(q, Answers.OfferOf(old(state), q), now, code, storage, shared, token)
    {
      Answers.ConsumptionIsAnswered(state, now, id, code, storage, shared, token, freshDevice, grantIds, Invalid);
      ghost var op := OpConsume(id, code, storage, shared, token, freshDevice, grantIds);
      if FreshIds(state, op) {
        StaysSound(state, Event(now, op));
      }
      var ready := Consumable(state, now, id, code, storage, shared);
      if ready.Err? {
        return Err(ready.error);
      }
      var (k, o) := ready.value;
      if token == "" || state.requests[k].approved.None? {
        return Err(Invalid);
      }
      r := WriteEnrollment(now, k, o, if shared.Some? then shared.value else {}, token, freshDevice, grantIds);
    }

    // -------------------------------------------------------- authentication

    /** `find_device`: both passes, cleaning what they visit or only looking. */
    method FindDevice(now: real, token: string, allowReplaced: bool, clean: bool)
      returns (found: Option<Device>, needed: bool)
      modifies this
      ensures state == if clean then Clean(old(state), now) else old(state)
      ensures needed == NeedsCleaning(old(state), now)
      ensures found == Found(old(state).credentials, now, token, allowReplaced)
    {
      var replacements, lapsed := LapseReplacements(state.replacements, now, clean);
      var credentials, outdated := ExpireCredentials(state.credentials, now, clean);
      found := MatchCredential(state.credentials, now, token, allowReplaced);
      state := state.(replacements := replacements, credentials := credentials);
      needed := lapsed || outdated;
    }

    method AuthenticateDevice(now: real, token: string, allowReplaced: bool) returns (found: Option<Device>)
      requires Valid()
      modifies this
      ensures Reply(state, Ok(found)) == Authenticate(old(state), now, token, allowReplaced)
      ensures Valid()
    {
      StaysSound(state, Event(now, OpAuthenticate(token, allowReplaced)));
      if token == "" {
        return None;
      }
      var needed;
      found, needed := FindDevice(now, token, allowReplaced, false);
      if !needed {
        return;
      }
      found, needed := FindDevice(now, token, allowReplaced, true);
      Authentication.CleaningKeepsAnswers(old(state).credentials, now, now, token, allowReplaced);
    }

    // ----------------------------------------------- replacement, revocation

    /** The transaction of `_replace_credential`. */
    method Replace(now: real, device: string, requestId: string, generation: nat, renewalOnly: bool, token: string)
      returns (r: Result<Material, Error>)
      modifies this
      ensures Reply(state, r) == Credentials.ReplaceCredential(old(state), now, device, requestId, generation,
                                                               renewalOnly, token)
    {
      var found := FindCredential(state.credentials, device, generation);
      if found.None? {
        return Err(NotFound);
      }
      var existing := FindReplacement(state.replacements, device, generation, requestId);
      if existing.Some? {
        var earlier := state.replacements[existing.value];
        if earlier.status != RepActive || now >= earlier.overlapUntil {
          return Err(ExpiredOrConsumed);
        }
        var plain := Decrypt(earlier.cipher, device, generation, requestId);
        if plain.None? {
          return Err(Unavailable);
        }
        return Ok(Material(device, plain.value, earlier.newGeneration, earlier.newExpiresAt, earlier.scope, []));
      }
      if RequestUsed(state.replacements, device, requestId) || Replaced(state.replacements, device, generation) {
        return Err(Conflict);
      }
      var current := state.credentials[found.value];
      if current.status != CredActive || now >= current.expiresAt {
        return Err(ExpiredOrConsumed);
      }
      if renewalOnly && current.expiresAt - now > RENEWAL_WINDOW {
        return Err(Conflict);
      }
      if token == "" {
        return Err(Invalid);
      }
      var overlapUntil, expiresAt := now + ROTATION_OVERLAP, now + CREDENTIAL_TTL;
      current := current.(status := CredReplaced);
      current := current.(overlapUntil := overlapUntil);
      state := state.(credentials := state.credentials[found.value := current]);
      var record := Credential(device, current.endpoint, generation + 1, CredActive, now, expiresAt, 0.0,
                               token, current.scope, current.name, current.kind);
      state := state.(credentials := state.credentials + [record]);
      var replacement := Replacement(device, generation, generation + 1, requestId, RepActive, overlapUntil,
                                     expiresAt, current.scope, Sealed(token, device, generation, requestId));
      state := state.(replacements := state.replacements + [replacement]);
      return Ok(Material(device, token, generation + 1, expiresAt, current.scope, []));
    }

    method ReplaceCredential(now: real, device: string, requestId: string, generation: nat, renewalOnly: bool,
            token: string)
      returns (r: Result<Material, Error>)
      requires Valid()
      modifies this
      ensures Reply(state, r) == Credentials.ReplaceCredential(old(state), now, device, requestId, generation,
                                                               renewalOnly, token)
      ensures Valid() && (r.Err? ==> state == old(state))
      ensures |state.credentials| - |old(state).credentials| == |state.replacements| - |old(state).replacements| <= 1
      ensures r.Ok? ==> r.value.generation == generation + 1 && Stored(state, r.value)
      ensures r.Ok? ==> Credentials.ReplaceCredential(state, now, device, requestId, generation, renewalOnly,
                                                      token) == Reply(state, r)
    {
      StaysSound(state, Event(now, OpReplace(device, requestId, generation, renewalOnly, token)));
      AtMostOneAdded(state, now, device, requestId, generation, renewalOnly, token);
      r := Replace(now, device, requestId, generation, renewalOnly, token);
      if r.Ok? {
        ReplacementMeans(old(state), now, device, requestId, generation, renewalOnly, token);
      }
    }

    method Revoke(device: string) returns (r: Result<RevocationEvent, Error>)
      requires Valid()
      modifies this
      ensures Reply(state, r) == Credentials.Revoke(old(state), device)
      ensures Valid()
    {
      StaysSound(state, Event(0.0, OpRevoke(device)));
      var newest := NewestOf(state.credentials, device);
      if newest.None? {
        return Err(NotFound);
      }
      var live := false;
      for i := 0 to |state.credentials|
        invariant live <==> exists j :: 0 <= j < i && state.credentials[j].device == device
                                        && state.credentials[j].status != CredRevoked
      {
        live := live || (state.credentials[i].device == device && state.credentials[i].status != CredRevoked);
      }
      if !live {
        return Err(Conflict);
      }
      var generation := state.credentials[newest.value].generation;
      RevokeRecords(device);
      InvalidateReplacements(device);
      EndDeviceGrants(device);
      return Ok(RevocationEvent(device, generation));
    }

    // -------------------------------------------------------- client grants

    method AddClientGrant(now: real, offer: GrantOffer, id: string) returns (r: Result<Grant, Error>)
      requires Valid()
      modifies this
      ensures Reply(state, r) == AddGrant(old(state), now, offer, id)
      ensures FreshIds(old(state), OpAddGrant(offer, id)) ==> Valid()
    {
      if FreshIds(state, OpAddGrant(offer, id)) {
        StaysSound(state, Event(now, OpAddGrant(offer, id)));
      }
      var before := state;
      if offer.profile == "*" || !ValidId(offer.device) || !ValidId(offer.profile) || !ValidId(offer.key) {
        return Err(Invalid);
      }
      var live, newest := LiveDevices(state.credentials, now), NewestOf(state.credentials, offer.device);
      if offer.device !in live || newest.None? {
        return Err(NotFound);
      }
      var device := state.credentials[newest.value];
      if device.kind !in CLIENT_ENDPOINT_TYPES || CLIENT_CLAIM !in device.scope.capabilities {
        return Err(Forbidden);
      }
      ExpirePendingGrants(now);
      r := Append(now, offer, id, live, device);
      if r.Err? {
        state := before;
      }
    }

    /** The part of `add_client_grant` behind the device checks. */
    method Append(now: real, offer: GrantOffer, id: string, live: set<string>, device: Credential)
      returns (r: Result<Grant, Error>)
      modifies this
      ensures Reply(state, r) == AppendGrant(old(state), now, offer, id, live, device)
    {
      var earlier := FindGrantRequest(state.grantRequests, offer.device, offer.key);
      if earlier.Some? {
        var q := state.grantRequests[earlier.value];
        if q.profile != offer.profile || q.authorizeBootstrap != offer.authorizeBootstrap {
          return Err(Conflict);
        }
        var g := FindGrant(state.grants, q.grantId);
        if g.None? {
          return Err(NotFound);
        }
        return Ok(state.grants[g.value]);
      }
      var current := FindLive(state.grants, offer.device, offer.profile);
      if current.Some? {
        var held := state.grants[current.value];
        state := Remember(state, offer, held.id);
        return Ok(held);
      }
      if offer.profile !in offer.available || offer.profile !in offer.labels
         || LabelTaken(state.grants, offer.device, offer.labels, offer.labels[offer.profile])
         || LiveCount(state.grants, offer.device) >= MAX_CLIENT_GRANTS
      {
        return Err(Invalid);
      }
      var held := HeldElsewhere(state.grants, live, offer.device, offer.profile);
      var bootstrap := offer.profile !in offer.shared && !held && offer.authorizeBootstrap;
      var status := if offer.profile in offer.shared || bootstrap then GrantActive else GrantPending;
      var grant := Grant(id, offer.device, offer.profile, status, device.name, device.kind, now, bootstrap,
                         now + PENDING_OWNER_TTL, if bootstrap then Some("home_admin") else None);
      state := state.(grants := state.grants + [grant]);
      state := Remember(state, offer, id);
      return Ok(grant);
    }

    method DecideOwnerGrant(now: real, approver: string, id: string, approve: bool) returns (r: Result<Grant, Error>)
      requires Valid()
      modifies this
      ensures Reply(state, r) == DecideGrant(old(state), now, approver, id, approve)
      ensures Valid()
    {
      StaysSound(state, Event(now, OpDecide(approver, id, approve)));
      var before := state;
      if exists i :: 0 <= i < |state.credentials| && state.credentials[i].device == approver
                     && state.credentials[i].kind == "browser" && state.credentials[i].status == CredActive
      {
        return Err(Forbidden);
      }
      ExpirePendingGrants(now);
      var found := FindGrant(state.grants, id);
      if found.None? || state.grants[found.value].status != GrantPending {
        state := before;
        return Err(NotFound);
      }
      var grant := state.grants[found.value];
      if grant.device == approver || !HoldsProfile(state.grants, approver, grant.profile) {
        state := before;
        return Err(Unauthorized);
      }
      grant := grant.(status := if approve then GrantActive else GrantRejected);
      grant := grant.(decidedBy := Some(approver));
      state := state.(grants := state.grants[found.value := grant]);
      return Ok(grant);
    }

    method RevokeClientGrant(now: real, id: string, requester: Option<string>, shared: set<string>)
      returns (r: Result<Grant, Error>)
      requires Valid()
      modifies this
      ensures Reply(state, r) == RevokeGrant(old(state), now, id, requester, shared)
      ensures Valid()
    {
      StaysSound(state, Event(now, OpRevokeGrant(id, requester, shared)));
      var before := state;
      ExpirePendingGrants(now);
      var found := FindGrant(state.grants, id);
      if found.None? || (!LiveGrant(state.grants[found.value]) && state.grants[found.value].status != GrantRevoked) {
        state := before;
        return Err(NotFound);
      }
      var grant := state.grants[found.value];
      if requester.Some? {
        var own := grant.device == requester.value;
        if !HoldsProfile(state.grants, requester.value, grant.profile) || (grant.profile in shared && !own) {
          state := before;
          return Err(Unauthorized);
        }
      }
      grant := grant.(status := GrantRevoked);
      state := state.(grants := state.grants[found.value := grant]);
      return Ok(grant);
    }

    /** `_current_grants` for one device. */
    method ClientGrants(now: real, device: string) returns (current: seq<Grant>)
      ensures current == CurrentGrants(state.grants, now, device)
    {
      current := [];
      for i := 0 to |state.grants|
        invariant current == CurrentGrants(state.grants[..i], now, device)
      {
        var g := state.grants[i];
        assert state.grants[..i + 1][..i] == state.grants[..i];
        if g.device == device && (g.status == GrantActive || (g.status == GrantPending && now < g.pendingUntil)) {
          current := current + [g];
        }
      }
      assert state.grants[..|state.grants|] == state.grants;
    }

    method Project(now: real, device: string, revision: int) returns (projected: int, grants: seq<Grant>)
      requires Valid()
      modifies this
      ensures Reply(state, Ok((projected, grants))) == ClientConfiguration(old(state), now, device, revision)
      ensures Valid()
    {
      StaysSound(state, Event(now, OpProject(device, revision)));
      grants := ClientGrants(now, device);
      var fingerprint := FingerprintOf(revision, grants);
      if device in state.projections {
        var previous := state.projections[device];
        if previous.fingerprint == fingerprint {
          return previous.revision, grants;
        }
        projected := if revision >= previous.revision + 1 then revision else previous.revision + 1;
      } else {
        projected := revision;
      }
      state := state.(projections := state.projections[device := Projection(fingerprint, projected)]);
    }

    /** The read-only `client_configuration_revision`. */
    method PeekRevision(now: real, device: string, revision: int) returns (r: Option<int>)
      ensures r == ProjectedRevision(state, now, device, revision)
    {
      if device !in state.projections {
        return None;
      }
      var grants := ClientGrants(now, device);
      if state.projections[device].fingerprint != FingerprintOf(revision, grants) {
        return None;
      }
      return Some(state.projections[device].revision);
    }
  }

  /** The credential a replacement hands out is in the store, with the scope it names. */
  ghost predicate Stored(s: State, m: Material) {
    exists i :: 0 <= i < |s.credentials|
                && s.credentials[i].device == m.device && s.credentials[i].generation == m.generation
                && s.credentials[i].scope == m.scope && s.credentials[i].expiresAt == m.expiresAt
  }

  lemma AtMostOneAdded(s: State, now: real, device: string, requestId: string, generation: nat, renewalOnly: bool,
          token: string)
    ensures var reply := Credentials.ReplaceCredential(s, now, device, requestId, generation, renewalOnly, token);
      && |reply.state.credentials| - |s.credentials| == |reply.state.replacements| - |s.replacements| <= 1
      && (reply.result.Err? ==> reply.state == s)
  {
  }

  /** What a replacement means for its caller: the next generation is stored, and
      asking again at once gives the same answer without adding another. */
  lemma ReplacementMeans(s: State, now: real, device: string, requestId: string, generation: nat, renewalOnly: bool,
          token: string)
    requires CredentialInvariants.Inv(s)
    requires Credentials.ReplaceCredential(s, now, device, requestId, generation, renewalOnly, token).result.Ok?
    ensures var reply := Credentials.ReplaceCredential(s, now, device, requestId, generation, renewalOnly, token);
      && reply.result.value.generation == generation + 1 && Stored(reply.state, reply.result.value)
      && Credentials.ReplaceCredential(reply.state, now, device, requestId, generation, renewalOnly, token) ==
         Reply(reply.state, reply.result)
  {
    var reply := Credentials.ReplaceCredential(s, now, device, requestId, generation, renewalOnly, token);
    var x, r := Replacements.ReplaceStores(s, now, device, requestId, generation, renewalOnly, token);
    Replacements.HeldAnswers(reply.state, x, r, now, renewalOnly, token);
    HeldIsStored(reply.state, x, r, now, reply.result.value);
  }

  lemma HeldIsStored(s: State, x: nat, r: Replacement, now: real, m: Material)
    requires CredentialInvariants.Inv(s) && Replacements.Holds(s, x, r) && Retry(r, now) == Ok(m)
    ensures m.generation == r.generation + 1 && Stored(s, m)
  {
    var i :| 0 <= i < |s.credentials| && CredentialInvariants.Leads(r, s.credentials[i]);
    assert s.credentials[i].generation == m.generation;
  }

  lemma ApprovalMeans(request: Request, scope: Scope, rooms: set<string>, mappings: set<string>,
          profiles: set<string>, clientProfiles: seq<string>)
    requires Approvable(request, scope, rooms, mappings, profiles, clientProfiles)
    ensures SubsetOf(scope, request.requested) && CredentialInvariants.Unmixed(scope)
    ensures Within(scope.rooms, rooms) && Within(clientProfiles, profiles)
  {
  }

  lemma OwnGrantsDoNotHold(kept: seq<Grant>, issued: seq<Grant>, live: set<string>, device: string, profile: string)
    requires forall i :: 0 <= i < |issued| ==> issued[i].device == device
    ensures HeldElsewhere(kept + issued, live, device, profile) <==> HeldElsewhere(kept, live, device, profile)
  {
    if HeldElsewhere(kept, live, device, profile) {
      var i :| 0 <= i < |kept| && kept[i].profile == profile && kept[i].status == GrantActive
               && kept[i].device != device && kept[i].device in live;
      assert (kept + issued)[i] == kept[i];
    }
  }

  /** Without a record of the endpoint there is nothing to revoke and no generation to follow. */
  lemma RevokeNothing(cs: seq<Credential>, endpoint: string)
    ensures FindEndpoint(cs, endpoint).None? ==> RevokeEndpoint(cs, endpoint) == cs && MaxGeneration(cs, endpoint) == 0
  {
  }
}
