/** Renewal and rotation hand out one replacement per generation, and only one. */
module Replacements {
  import opened Wrappers
  import opened Credentials
  import opened CredentialInvariants

  /** The event revokes the device or enrolls its endpoint again. */
  ghost predicate Disrupts(s: State, e: Event, device: string) {
    match e.op
    case OpRevoke(d) => d == device
    case OpConsume(id, code, storage, shared, token, freshDevice, grantIds) =>
      var reply := ConsumeRequest(s, e.now, id, code, storage, shared, token, freshDevice, grantIds);
      reply.result.Ok? && reply.result.value.material.device == device
    case _ => false
  }

  ghost predicate Undisturbed(s: State, events: seq<Event>, device: string)
    decreases |events|
  {
    events == [] || (!Disrupts(s, events[0], device) && Undisturbed(Next(s, events[0]), events[1..], device))
  }

  /** The replacement at `x` is still the live answer `m` to its request. */
  ghost predicate Holds(s: State, x: nat, r: Replacement) {
    && x < |s.replacements| && s.replacements[x] == r && r.status == RepActive
    && FindCredential(s.credentials, r.device, r.generation).Some?
  }

  /** Credential records keep their identity and replacement records their names. */
  ghost predicate Evolves(s: State, s': State) {
    && |s.credentials| <= |s'.credentials|
    && (forall i :: 0 <= i < |s.credentials| ==>
          s'.credentials[i].device == s.credentials[i].device
              && s'.credentials[i].generation == s.credentials[i].generation)
    && |s.replacements| <= |s'.replacements|
    && (forall i :: 0 <= i < |s.replacements| ==>
          && s'.replacements[i].device == s.replacements[i].device
          && s'.replacements[i].generation == s.replacements[i].generation
          && s'.replacements[i].requestId == s.replacements[i].requestId)
  }

  lemma AuthenticateEvolves(s: State, now: real, token: string, allowReplaced: bool)
    ensures Evolves(s, Authenticate(s, now, token, allowReplaced).state)
  {
  }

  lemma ReplaceEvolves(s: State, now: real, device: string, requestId: string, generation: nat, renewalOnly: bool,
          token: string)
    ensures Evolves(s, ReplaceCredential(s, now, device, requestId, generation, renewalOnly, token).state)
  {
  }

  lemma RevokeEvolves(s: State, device: string)
    ensures Evolves(s, Revoke(s, device).state)
  {
  }

  lemma ConsumeEvolves(s: State, now: real, id: string, code: string, storage: string, shared: Option<set<string>>,
          token: string, freshDevice: string, grantIds: seq<string>)
    ensures Evolves(s, ConsumeRequest(s, now, id, code, storage, shared, token, freshDevice, grantIds).state)
  {
  }

  /** The operations of the other tables. */
  lemma OthersUntouched(s: State, e: Event)
    requires !(e.op.OpConsume? || e.op.OpReplace? || e.op.OpRevoke? || e.op.OpAuthenticate?)
    ensures Next(s, e).credentials == s.credentials && Next(s, e).replacements == s.replacements
  {
    if e.op.OpOffer? || e.op.OpAddGrant? || e.op.OpDecide? || e.op.OpRevokeGrant? || e.op.OpProject? {
      BesideKeeps(s, e);
    }
  }

  lemma StepEvolves(s: State, e: Event)
    ensures Evolves(s, Next(s, e))
  {
    match e.op
    case OpAuthenticate(token, allowReplaced) => AuthenticateEvolves(s, e.now, token, allowReplaced);
    case OpReplace(device, requestId, generation, renewalOnly, token) =>
      ReplaceEvolves(s, e.now, device, requestId, generation, renewalOnly, token);
    case OpRevoke(device) => RevokeEvolves(s, device);
    case OpConsume(id, code, storage, shared, token, freshDevice, grantIds) =>
      ConsumeEvolves(s, e.now, id, code, storage, shared, token, freshDevice, grantIds);
    case _ => OthersUntouched(s, e);
  }

  /** The stored records at `x` are untouched. */
  lemma StillHolds(s: State, s': State, x: nat, r: Replacement)
    requires Holds(s, x, r) && Evolves(s, s') && s'.replacements[x] == r
    ensures Holds(s', x, r)
  {
    var k := FindCredential(s.credentials, r.device, r.generation).value;
    assert s'.credentials[k].device == r.device && s'.credentials[k].generation == r.generation;
  }

  lemma ConsumeSpares(s: State, now: real, id: string, code: string, storage: string, shared: Option<set<string>>,
          token: string, freshDevice: string, grantIds: seq<string>, x: nat)
    requires x < |s.replacements|
    ensures var reply := ConsumeRequest(s, now, id, code, storage, shared, token, freshDevice, grantIds);
      (reply.result.Ok? ==> reply.result.value.material.device != s.replacements[x].device) ==>
        x < |reply.state.replacements| && reply.state.replacements[x] == s.replacements[x]
  {
  }

  lemma StepHolds(s: State, e: Event, x: nat, r: Replacement)
    requires Holds(s, x, r) && e.now < r.overlapUntil
    requires !Disrupts(s, e, r.device)
    ensures Holds(Next(s, e), x, r)
  {
    StepEvolves(s, e);
    match e.op
    case OpConsume(id, code, storage, shared, token, freshDevice, grantIds) =>
      ConsumeSpares(s, e.now, id, code, storage, shared, token, freshDevice, grantIds, x);
      StillHolds(s, Next(s, e), x, r);
    case OpAuthenticate(_, _) => StillHolds(s, Next(s, e), x, r);
    case OpReplace(_, _, _, _, _) => StillHolds(s, Next(s, e), x, r);
    case OpRevoke(_) => StillHolds(s, Next(s, e), x, r);
    case _ =>
      OthersUntouched(s, e);
      StillHolds(s, Next(s, e), x, r);
  }

  ghost function LastTime(clock: real, events: seq<Event>): real {
    if events == [] then clock else events[|events| - 1].now
  }

  lemma {:induction false} RunHolds(clock: real, s: State, events: seq<Event>, x: nat, r: Replacement)
    requires Inv(s) && Runs(clock, s, events)
    requires Holds(s, x, r) && LastTime(clock, events) < r.overlapUntil
    requires Undisturbed(s, events, r.device)
    ensures Holds(Final(s, events), x, r) && Inv(Final(s, events)) && clock <= LastTime(clock, events)
    decreases |events|
  {
    if events != [] {
      TimesOrdered(clock, s, events);
      StepKeeps(s, events[0]);
      StepHolds(s, events[0], x, r);
      RunHolds(events[0].now, Next(s, events[0]), events[1..], x, r);
    }
  }

  lemma {:induction false} TimesOrdered(clock: real, s: State, events: seq<Event>)
    requires Runs(clock, s, events)
    ensures clock <= LastTime(clock, events)
    ensures events != [] ==> events[0].now <= LastTime(clock, events)
    decreases |events|
  {
    if events != [] {
      TimesOrdered(events[0].now, Next(s, events[0]), events[1..]);
    }
  }

  lemma HeldIsFound(s: State, x: nat, r: Replacement)
    requires Unforked(s.replacements) && Holds(s, x, r)
    ensures FindReplacement(s.replacements, r.device, r.generation, r.requestId) == Some(x)
  {
    assert Names(s.replacements[x], r.device, r.generation, r.requestId);
  }

  /** A held replacement answers its own request ID with itself. */
  lemma HeldAnswers(s: State, x: nat, r: Replacement, now: real, renewalOnly: bool, token: string)
    requires Inv(s) && Holds(s, x, r)
    ensures ReplaceCredential(s, now, r.device, r.requestId, r.generation, renewalOnly, token) ==
            Reply(s, Retry(r, now))
  {
    HeldIsFound(s, x, r);
  }

  lemma NewReplacement(s: State, t: real, device: string, requestId: string, generation: nat, renewalOnly: bool,
          token: string)
    returns (x: nat, r: Replacement)
    requires ReplaceCredential(s, t, device, requestId, generation, renewalOnly, token).result.Ok?
    requires FindReplacement(s.replacements, device, generation, requestId).None?
    ensures var reply := ReplaceCredential(s, t, device, requestId, generation, renewalOnly, token);
      && Holds(reply.state, x, r) && r.device == device && r.generation == generation && r.requestId == requestId
      && r.overlapUntil == t + ROTATION_OVERLAP && reply.result == Retry(r, t)
  {
    var reply := ReplaceCredential(s, t, device, requestId, generation, renewalOnly, token);
    x := |s.replacements|;
    r := reply.state.replacements[x];
    var k := FindCredential(s.credentials, device, generation).value;
    assert reply.state.credentials[k].device == device && reply.state.credentials[k].generation == generation;
  }

  /** What a successful replacement leaves in the store. */
  lemma ReplaceStores(s: State, t: real, device: string, requestId: string, generation: nat, renewalOnly: bool,
          token: string)
    returns (x: nat, r: Replacement)
    requires Inv(s)
    requires ReplaceCredential(s, t, device, requestId, generation, renewalOnly, token).result.Ok?
    ensures var reply := ReplaceCredential(s, t, device, requestId, generation, renewalOnly, token);
      && Inv(reply.state) && Holds(reply.state, x, r)
      && r.device == device && r.generation == generation && r.requestId == requestId
      && t < r.overlapUntil
      && (reply.state != s ==> r.overlapUntil == t + ROTATION_OVERLAP)
      && reply.result == Retry(r, t)
  {
    var reply := ReplaceCredential(s, t, device, requestId, generation, renewalOnly, token);
    ReplaceKeeps(s, t, device, requestId, generation, renewalOnly, token);
    var found := FindReplacement(s.replacements, device, generation, requestId);
    if found.Some? {
      x := found.value;
      r := s.replacements[x];
    } else {
      x, r := NewReplacement(s, t, device, requestId, generation, renewalOnly, token);
    }
  }

  /** When the overlap of a replacement ends, as stored with it. */
  ghost function OverlapEnd(s: State, device: string, generation: nat, requestId: string): real {
    var found := FindReplacement(s.replacements, device, generation, requestId);
    if found.Some? then s.replacements[found.value].overlapUntil else 0.0
  }

  /** Until its overlap ends, a retry gives back the same material and stores
      nothing, whatever else happens to the service, unless the device is
      revoked or enrolled again. */
  lemma RetryIsIdempotent(s: State, t: real, device: string, requestId: string, generation: nat, renewalOnly: bool,
          token: string, events: seq<Event>, now: real, renewalOnly': bool, token': string)
    requires Inv(s)
    requires ReplaceCredential(s, t, device, requestId, generation, renewalOnly, token).result.Ok?
    requires var s1 := ReplaceCredential(s, t, device, requestId, generation, renewalOnly, token).state;
      && Runs(t, s1, events) && LastTime(t, events) <= now
      && Undisturbed(s1, events, device)
      && now < OverlapEnd(s1, device, generation, requestId)
    ensures var first := ReplaceCredential(s, t, device, requestId, generation, renewalOnly, token);
      first.state != s ==> OverlapEnd(first.state, device, generation, requestId) == t + ROTATION_OVERLAP
    ensures var first := ReplaceCredential(s, t, device, requestId, generation, renewalOnly, token);
      var s2 := Final(first.state, events);
      ReplaceCredential(s2, now, device, requestId, generation, renewalOnly', token') == Reply(s2, first.result)
  {
    var first := ReplaceCredential(s, t, device, requestId, generation, renewalOnly, token);
    var x, r := ReplaceStores(s, t, device, requestId, generation, renewalOnly, token);
    HeldIsFound(first.state, x, r);
    RunHolds(t, first.state, events, x, r);
    HeldAnswers(Final(first.state, events), x, r, now, renewalOnly', token');
  }

  lemma {:induction false} RunEvolves(s: State, events: seq<Event>)
    ensures Evolves(s, Final(s, events))
    decreases |events|
  {
    if events != [] {
      StepEvolves(s, events[0]);
      RunEvolves(Next(s, events[0]), events[1..]);
    }
  }

  /** Once a generation was replaced under one request ID, every other request
      ID for that generation is refused for ever. */
  lemma OtherRequestsRefused(clock: real, s: State, x: nat, events: seq<Event>, requestId: string, now: real,
          renewalOnly: bool, token: string)
    requires Inv(s) && Runs(clock, s, events)
    requires x < |s.replacements| && s.replacements[x].requestId != requestId
    ensures var s' := Final(s, events);
      var reply := ReplaceCredential(s', now, s.replacements[x].device, requestId, s.replacements[x].generation,
                                     renewalOnly, token);
      reply.result.Err? && reply.state == s'
  {
    RunKeeps(clock, s, events);
    RunEvolves(s, events);
    RefusedNow(Final(s, events), x, requestId, now, renewalOnly, token);
  }

  lemma RefusedNow(s: State, x: nat, requestId: string, now: real, renewalOnly: bool, token: string)
    requires Unforked(s.replacements) && x < |s.replacements| && s.replacements[x].requestId != requestId
    ensures var reply := ReplaceCredential(s, now, s.replacements[x].device, requestId, s.replacements[x].generation,
                                           renewalOnly, token);
      reply.result.Err? && reply.state == s
  {
    var r := s.replacements[x];
    assert Replaced(s.replacements, r.device, r.generation);
    assert FindReplacement(s.replacements, r.device, r.generation, requestId).None?;
  }
}
