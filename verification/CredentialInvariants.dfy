/**
  What every credential operation keeps, and so what holds in every reachable
  credential state: generation chains that never fork, one credential per
  consumed request or replacement, and scopes that stay inside what was asked.
 */
module CredentialInvariants {
  import opened Wrappers
  import opened Credentials

  // ------------------------------------------------------------- statements

  /** Later records of a device have greater generations, only its last record
      can be active, and a revoked last record means all of them are revoked. */
  ghost predicate Chain(cs: seq<Credential>) {
    forall i, j :: 0 <= i < j < |cs| && cs[i].device == cs[j].device ==>
      && cs[i].generation < cs[j].generation
      && cs[i].status != CredActive
      && (cs[j].status == CredRevoked ==> cs[i].status == CredRevoked)
  }

  /** Devices and endpoints name each other. */
  ghost predicate Bound(cs: seq<Credential>) {
    forall i, j :: 0 <= i < |cs| && 0 <= j < |cs| ==>
      (cs[i].device == cs[j].device <==> cs[i].endpoint == cs[j].endpoint)
  }

  ghost predicate Positive(cs: seq<Credential>) {
    forall i :: 0 <= i < |cs| ==> cs[i].generation >= 1
  }

  /** No generation of a device is replaced twice. */
  ghost predicate Unforked(rs: seq<Replacement>) {
    forall i, j :: 0 <= i < j < |rs| ==> !(rs[i].device == rs[j].device && rs[i].generation == rs[j].generation)
  }

  /** A replacement hands out the record of the next generation, with that record's scope. */
  ghost predicate Leads(r: Replacement, c: Credential) {
    c.device == r.device && c.generation == r.newGeneration && c.scope == r.scope && c.expiresAt == r.newExpiresAt
  }

  ghost predicate Linked(rs: seq<Replacement>, cs: seq<Credential>) {
    forall i :: 0 <= i < |rs| ==>
      && rs[i].newGeneration == rs[i].generation + 1
      && exists k :: 0 <= k < |cs| && Leads(rs[i], cs[k])
  }

  function ConsumedCount(rs: seq<Request>): nat {
    if rs == [] then 0
    else ConsumedCount(rs[..|rs| - 1]) + if rs[|rs| - 1].status == ReqConsumed then 1 else 0
  }

  /** Authority that never mixes a personal client with a Room device. */
  ghost predicate Unmixed(scope: Scope) {
    CLIENT_CLAIM in scope.capabilities ==> WAKE_CLAIM !in scope.capabilities && TOUCH_CLAIM !in scope.capabilities
  }

  /** An approval is inside the request it answers. */
  ghost predicate Contained(r: Request) {
    (r.status == ReqApproved || r.status == ReqConsumed) ==>
      && r.approved.Some?
      && SubsetOf(r.approved.value, r.requested)
      && Unmixed(r.approved.value)
      && |r.profiles| <= MAX_CLIENT_GRANTS
      && Bounded(r.profiles)
  }

  /** The consumed request a credential's authority comes from. */
  ghost predicate Authorizes(r: Request, c: Credential) {
    r.status == ReqConsumed && r.endpoint == c.endpoint && r.approved == Some(c.scope)
  }

  ghost predicate HasAuthority(rs: seq<Request>, c: Credential) {
    exists k :: 0 <= k < |rs| && Authorizes(rs[k], c)
  }

  ghost predicate Scoped(s: State) {
    && (forall i :: 0 <= i < |s.requests| ==> Contained(s.requests[i]))
    && (forall i :: 0 <= i < |s.credentials| ==> HasAuthority(s.requests, s.credentials[i]))
  }

  ghost predicate Inv(s: State) {
    && Chain(s.credentials) && Bound(s.credentials) && Positive(s.credentials)
    && Unforked(s.replacements) && Linked(s.replacements, s.credentials)
    && |s.credentials| == ConsumedCount(s.requests) + |s.replacements|
    && Scoped(s)
  }

  // ------------------------------------------------------- counting requests

  lemma {:induction false} CountUpdate(rs: seq<Request>, k: nat, r: Request)
    requires k < |rs| && rs[k].status != ReqConsumed
    ensures ConsumedCount(rs[k := r]) == ConsumedCount(rs) + if r.status == ReqConsumed then 1 else 0
  {
    var n := |rs| - 1;
    if k == n {
      assert rs[k := r][..n] == rs[..n];
    } else {
      assert rs[k := r][..n] == rs[..n][k := r];
      CountUpdate(rs[..n], k, r);
    }
  }

  lemma {:induction false} CountSame(rs: seq<Request>, rs': seq<Request>)
    requires |rs| == |rs'|
    requires forall i :: 0 <= i < |rs| ==> (rs[i].status == ReqConsumed <==> rs'[i].status == ReqConsumed)
    ensures ConsumedCount(rs) == ConsumedCount(rs')
  {
    if rs != [] {
      CountSame(rs[..|rs| - 1], rs'[..|rs| - 1]);
    }
  }

  // ------------------------------------------------- one lemma per operation

  /** Credential edits that only end records keep every chain fact. */
  ghost predicate OnlyEnds(cs: seq<Credential>, cs': seq<Credential>) {
    && |cs| == |cs'|
    && forall i :: 0 <= i < |cs| ==>
         && cs'[i] == cs[i].(status := cs'[i].status)
         && (cs'[i].status == CredActive ==> cs[i].status == CredActive)
         && (cs[i].status == CredRevoked ==> cs'[i].status == CredRevoked)
  }

  /** Appending a newest record for one device, whose older records are not active, keeps the chains. */
  lemma ChainAppend(cs: seq<Credential>, cs': seq<Credential>)
    requires Chain(cs) && Bound(cs) && Positive(cs)
    requires |cs'| == |cs| + 1
    requires cs'[|cs|].generation >= 1 && cs'[|cs|].status == CredActive
    requires forall i :: 0 <= i < |cs| ==>
               && cs'[i].device == cs[i].device && cs'[i].endpoint == cs[i].endpoint
               && cs'[i].generation == cs[i].generation
               && (cs[i].device == cs'[|cs|].device <==> cs[i].endpoint == cs'[|cs|].endpoint)
               && (if cs[i].device == cs'[|cs|].device
                   then cs[i].generation < cs'[|cs|].generation && cs'[i].status != CredActive
                   else cs'[i].status == cs[i].status)
    requires forall i, j :: 0 <= i < j < |cs| && cs[i].device == cs[j].device == cs'[|cs|].device ==>
               (cs'[j].status == CredRevoked ==> cs'[i].status == CredRevoked)
    ensures Chain(cs') && Bound(cs') && Positive(cs')
  {
  }

  lemma LinkedKept(rs: seq<Replacement>, cs: seq<Credential>, rs': seq<Replacement>, cs': seq<Credential>)
    requires Linked(rs, cs)
    requires |rs'| == |rs| && |cs| <= |cs'|
    requires forall i :: 0 <= i < |rs| ==>
               rs'[i] == rs[i].(status := rs'[i].status, cipher := rs'[i].cipher)
    requires forall i :: 0 <= i < |cs| ==>
               cs'[i] == cs[i].(status := cs'[i].status, overlapUntil := cs'[i].overlapUntil)
    ensures Linked(rs', cs')
  {
    forall i | 0 <= i < |rs'|
      ensures exists k :: 0 <= k < |cs'| && Leads(rs'[i], cs'[k])
    {
      var k :| 0 <= k < |cs| && Leads(rs[i], cs[k]);
      assert Leads(rs'[i], cs'[k]);
    }
  }

  /** The records that were there keep the request they come from. */
  lemma AuthorityKept(s: State, s': State, i: nat)
    requires Scoped(s)
    requires i < |s.credentials| && i < |s'.credentials|
    requires s'.credentials[i].endpoint == s.credentials[i].endpoint
             && s'.credentials[i].scope == s.credentials[i].scope
    requires |s.requests| <= |s'.requests|
    requires forall k :: 0 <= k < |s.requests| && s.requests[k].status == ReqConsumed ==>
               s'.requests[k] == s.requests[k]
    ensures HasAuthority(s'.requests, s'.credentials[i])
  {
    var k :| 0 <= k < |s.requests| && Authorizes(s.requests[k], s.credentials[i]);
    assert Authorizes(s'.requests[k], s'.credentials[i]);
  }

  lemma RequestsMove(s: State, s': State)
    requires Inv(s)
    requires s'.credentials == s.credentials && s'.replacements == s.replacements
    requires |s.requests| == |s'.requests|
    requires forall i :: 0 <= i < |s.requests| ==>
               && Contained(s'.requests[i])
               && (s.requests[i].status == ReqConsumed <==> s'.requests[i].status == ReqConsumed)
               && (s.requests[i].status == ReqConsumed ==> s'.requests[i] == s.requests[i])
    ensures Inv(s')
  {
    CountSame(s.requests, s'.requests);
    forall i | 0 <= i < |s'.credentials|
      ensures HasAuthority(s'.requests, s'.credentials[i])
    {
      AuthorityKept(s, s', i);
    }
  }

  lemma CredentialsEnd(s: State, s': State)
    requires Inv(s)
    requires s'.requests == s.requests
    requires EndsInOrder(s, s')
    ensures Inv(s')
  {
    LinkedKept(s.replacements, s.credentials, s'.replacements, s'.credentials);
    forall i | 0 <= i < |s'.credentials|
      ensures HasAuthority(s'.requests, s'.credentials[i])
    {
      AuthorityKept(s, s', i);
    }
  }

  lemma SubmitKeeps(s: State, now: real, code: string, id: string, endpoint: string, name: string, kind: string,
          rooms: seq<string>, capabilities: seq<string>, storage: string)
    requires Inv(s)
    ensures Inv(SubmitRequest(s, now, code, id, endpoint, name, kind, rooms, capabilities, storage).state)
  {
    var s' := SubmitRequest(s, now, code, id, endpoint, name, kind, rooms, capabilities, storage).state;
    if s'.requests != s.requests {
      assert s'.requests[..|s.requests|] == s.requests;
      forall i | 0 <= i < |s'.credentials|
        ensures HasAuthority(s'.requests, s'.credentials[i])
      {
        AuthorityKept(s, s', i);
      }
    }
  }

  /** The list edits of a successful consumption. */
  lemma ConsumeShape(s: State, now: real, id: string, code: string, storage: string, shared: Option<set<string>>,
          token: string, freshDevice: string, grantIds: seq<string>, k: nat, record: Credential)
    requires var reply := ConsumeRequest(s, now, id, code, storage, shared, token, freshDevice, grantIds);
      && reply.result.Ok?
      && k == Consumable(s, now, id, code, storage, shared).value.0
      && record == reply.state.credentials[|reply.state.credentials| - 1]
    ensures var s' := ConsumeRequest(s, now, id, code, storage, shared, token, freshDevice, grantIds).state;
      && s'.requests == s.requests[k := s.requests[k].(status := ReqConsumed)]
      && s'.credentials == RevokeEndpoint(s.credentials, s.requests[k].endpoint) + [record]
      && record.endpoint == s.requests[k].endpoint && Some(record.scope) == s.requests[k].approved
      && record.status == CredActive && record.generation == MaxGeneration(s.credentials, record.endpoint) + 1
      && (s'.replacements == s.replacements || s'.replacements == RevokeReplacements(s.replacements, record.device))
      && (if FindEndpoint(s.credentials, record.endpoint).Some?
          then record.device == s.credentials[FindEndpoint(s.credentials, record.endpoint).value].device
          else record.device == freshDevice)
  {
  }

  /** A consumption announces the device it revoked, if the endpoint was known. */
  lemma ConsumeAnnounces(s: State, now: real, id: string, code: string, storage: string,
          shared: Option<set<string>>, token: string, freshDevice: string, grantIds: seq<string>,
          record: Credential)
    requires var reply := ConsumeRequest(s, now, id, code, storage, shared, token, freshDevice, grantIds);
      reply.result.Ok? && record == reply.state.credentials[|reply.state.credentials| - 1]
    ensures var enrolled := ConsumeRequest(s, now, id, code, storage, shared, token, freshDevice,
                                           grantIds).result.value;
      && enrolled.material.device == record.device
      && enrolled.revoked == if FindEndpoint(s.credentials, record.endpoint).Some?
                             then Some(RevocationEvent(record.device, record.generation - 1)) else None
  {
  }

  lemma ConsumeKeeps(s: State, now: real, id: string, code: string, storage: string, shared: Option<set<string>>,
          token: string, freshDevice: string, grantIds: seq<string>)
    requires Inv(s)
    requires forall i :: 0 <= i < |s.credentials| ==> s.credentials[i].device != freshDevice
    ensures Inv(ConsumeRequest(s, now, id, code, storage, shared, token, freshDevice, grantIds).state)
  {
    var reply := ConsumeRequest(s, now, id, code, storage, shared, token, freshDevice, grantIds);
    if reply.result.Ok? {
      var k := Consumable(s, now, id, code, storage, shared).value.0;
      var record := reply.state.credentials[|reply.state.credentials| - 1];
      ConsumeShape(s, now, id, code, storage, shared, token, freshDevice, grantIds, k, record);
      ConsumedChain(s.credentials, record, freshDevice);
      ConsumedCounts(s, reply.state, k, record);
      ConsumedScoped(s, reply.state, k, record);
    }
  }

  lemma ConsumedChain(cs: seq<Credential>, record: Credential, freshDevice: string)
    requires Chain(cs) && Bound(cs) && Positive(cs)
    requires forall i :: 0 <= i < |cs| ==> cs[i].device != freshDevice
    requires record.status == CredActive && record.generation == MaxGeneration(cs, record.endpoint) + 1
    requires var found := FindEndpoint(cs, record.endpoint);
      record.device == if found.Some? then cs[found.value].device else freshDevice
    ensures var cs' := RevokeEndpoint(cs, record.endpoint) + [record];
      Chain(cs') && Bound(cs') && Positive(cs')
  {
    var cs' := RevokeEndpoint(cs, record.endpoint) + [record];
    var found := FindEndpoint(cs, record.endpoint);
    forall i | 0 <= i < |cs|
      ensures cs[i].device == record.device <==> cs[i].endpoint == record.endpoint
    {
      if found.Some? {
        assert cs[i].device == cs[found.value].device <==> cs[i].endpoint == cs[found.value].endpoint;
      }
    }
    ChainAppend(cs, cs');
  }

  lemma ConsumedCounts(s: State, s': State, k: nat, record: Credential)
    requires Unforked(s.replacements) && Linked(s.replacements, s.credentials)
    requires |s.credentials| == ConsumedCount(s.requests) + |s.replacements|
    requires k < |s.requests| && s.requests[k].status == ReqApproved
    requires s'.requests == s.requests[k := s.requests[k].(status := ReqConsumed)]
    requires s'.credentials == RevokeEndpoint(s.credentials, s.requests[k].endpoint) + [record]
    requires s'.replacements == s.replacements || s'.replacements == RevokeReplacements(s.replacements, record.device)
    ensures Unforked(s'.replacements) && Linked(s'.replacements, s'.credentials)
    ensures |s'.credentials| == ConsumedCount(s'.requests) + |s'.replacements|
  {
    CountUpdate(s.requests, k, s.requests[k].(status := ReqConsumed));
    LinkedKept(s.replacements, s.credentials, s'.replacements, s'.credentials);
  }

  lemma ConsumedScoped(s: State, s': State, k: nat, record: Credential)
    requires Scoped(s)
    requires k < |s.requests| && s.requests[k].status == ReqApproved
    requires s'.requests == s.requests[k := s.requests[k].(status := ReqConsumed)]
    requires s'.credentials == RevokeEndpoint(s.credentials, s.requests[k].endpoint) + [record]
    requires record.endpoint == s.requests[k].endpoint && Some(record.scope) == s.requests[k].approved
    ensures Scoped(s')
  {
    assert Authorizes(s'.requests[k], record);
    forall i | 0 <= i < |s.credentials|
      ensures HasAuthority(s'.requests, s'.credentials[i])
    {
      AuthorityKept(s, s', i);
    }
  }

  lemma ReplaceKeeps(s: State, now: real, device: string, requestId: string, generation: nat, renewalOnly: bool,
          token: string)
    requires Inv(s)
    ensures Inv(ReplaceCredential(s, now, device, requestId, generation, renewalOnly, token).state)
  {
    var s' := ReplaceCredential(s, now, device, requestId, generation, renewalOnly, token).state;
    if s' != s {
      var k := FindCredential(s.credentials, device, generation).value;
      var n := |s.credentials|;
      var m := |s.replacements|;
      assert s'.replacements[..m] == s.replacements;
      ReplacedInv(s, s', k, s'.credentials[k].overlapUntil, s'.credentials[n], s'.replacements[m]);
    }
  }

  lemma ReplacedInv(s: State, s': State, k: nat, overlap: real, record: Credential, r: Replacement)
    requires Inv(s)
    requires k < |s.credentials| && s.credentials[k].status == CredActive
    requires s'.requests == s.requests
    requires s'.credentials == s.credentials[k :=
             s.credentials[k].(status := CredReplaced, overlapUntil := overlap)] + [record]
    requires s'.replacements == s.replacements + [r]
    requires !Replaced(s.replacements, r.device, r.generation)
    requires r.device == s.credentials[k].device == record.device && r.generation == s.credentials[k].generation
    requires record.endpoint == s.credentials[k].endpoint && record.scope == s.credentials[k].scope
    requires record.status == CredActive && record.generation == r.generation + 1
    requires Leads(r, record)
    ensures Inv(s')
  {
    var n := |s.credentials|;
    var cs := s.credentials[k := s.credentials[k].(status := CredReplaced, overlapUntil := overlap)];
    ReplacedChain(s.credentials, k, cs, record);
    ReplacedLinks(s.replacements, s.credentials, cs + [record], r);
    forall i | 0 <= i < |s'.credentials|
      ensures HasAuthority(s'.requests, s'.credentials[i])
    {
      var j := if i == n then k else i;
      assert HasAuthority(s.requests, s.credentials[j]);
      AuthorityCarries(s.requests, s.credentials[j], s'.credentials[i]);
    }
  }

  lemma AuthorityCarries(rs: seq<Request>, c: Credential, c': Credential)
    requires HasAuthority(rs, c) && c'.endpoint == c.endpoint && c'.scope == c.scope
    ensures HasAuthority(rs, c')
  {
    var k :| 0 <= k < |rs| && Authorizes(rs[k], c);
    assert Authorizes(rs[k], c');
  }

  lemma ReplacedChain(was: seq<Credential>, k: nat, cs: seq<Credential>, record: Credential)
    requires Chain(was) && Bound(was) && Positive(was)
    requires k < |was| == |cs| && was[k].status == CredActive
    requires cs == was[k := was[k].(status := CredReplaced, overlapUntil := cs[k].overlapUntil)]
    requires record.device == was[k].device && record.endpoint == was[k].endpoint
    requires record.status == CredActive && record.generation == was[k].generation + 1
    ensures Chain(cs + [record]) && Bound(cs + [record]) && Positive(cs + [record])
  {
    forall i | 0 <= i < |was|
      ensures was[i].device == record.device <==> was[i].endpoint == record.endpoint
    {
      assert was[i].device == was[k].device <==> was[i].endpoint == was[k].endpoint;
    }
    ChainAppend(was, cs + [record]);
  }

  lemma ReplacedLinks(rs: seq<Replacement>, cs: seq<Credential>, cs': seq<Credential>, r: Replacement)
    requires Unforked(rs) && Linked(rs, cs) && !Replaced(rs, r.device, r.generation)
    requires |cs'| == |cs| + 1 && Leads(r, cs'[|cs|]) && r.newGeneration == r.generation + 1
    requires forall i :: 0 <= i < |cs| ==>
               cs'[i] == cs[i].(status := cs'[i].status, overlapUntil := cs'[i].overlapUntil)
    ensures Unforked(rs + [r]) && Linked(rs + [r], cs')
  {
    LinkedKept(rs, cs, rs, cs');
    assert Leads(r, cs'[|cs|]);
  }

  lemma ApproveKeeps(s: State, now: real, id: string, scope: Scope, rooms: set<string>, mappings: set<string>,
          profiles: set<string>, clientProfiles: seq<string>)
    requires Inv(s)
    ensures Inv(ApproveRequest(s, now, id, scope, rooms, mappings, profiles, clientProfiles).state)
  {
    var s' := ApproveRequest(s, now, id, scope, rooms, mappings, profiles, clientProfiles).state;
    RequestsMove(s, s');
  }

  lemma EndingKeeps(s: State, e: Event)
    requires Inv(s)
    requires e.op.OpAuthenticate? || e.op.OpRevoke?
    ensures Inv(Next(s, e))
  {
    var s' := Next(s, e);
    if e.op.OpAuthenticate? {
      if s' != s {
        assert s' == Clean(s, e.now);
        CleanEnds(s, e.now);
        CredentialsEnd(s, s');
      }
    } else if s' != s {
      RevokeEnds(s, e.op.device, s');
      CredentialsEnd(s, s');
    }
  }

  /** Both edits only end records, and a device's older records with its newer ones. */
  ghost predicate EndsInOrder(s: State, s': State) {
    && OnlyEnds(s.credentials, s'.credentials)
    && (forall i, j :: 0 <= i < j < |s.credentials| && s.credentials[i].device == s.credentials[j].device ==>
          (s'.credentials[j].status == CredRevoked ==> s'.credentials[i].status == CredRevoked))
    && |s'.replacements| == |s.replacements|
    && (forall i :: 0 <= i < |s.replacements| ==>
          s'.replacements[i] == s.replacements[i].(status := s'.replacements[i].status,
                                                   cipher := s'.replacements[i].cipher))
  }

  lemma CleanEnds(s: State, now: real)
    requires Chain(s.credentials)
    ensures EndsInOrder(s, Clean(s, now))
  {
    var cs, cs' := s.credentials, Clean(s, now).credentials;
    forall i, j | 0 <= i < j < |cs| && cs[i].device == cs[j].device
      ensures cs'[j].status == CredRevoked ==> cs'[i].status == CredRevoked
    {
      assert cs[j].status == CredRevoked ==> cs[i].status == CredRevoked;
    }
  }

  lemma RevokeEnds(s: State, device: string, s': State)
    requires Chain(s.credentials)
    requires s'.credentials == RevokeDevice(s.credentials, device)
             && s'.replacements == RevokeReplacements(s.replacements, device)
    ensures EndsInOrder(s, s')
  {
    var cs, cs' := s.credentials, s'.credentials;
    forall i, j | 0 <= i < j < |cs| && cs[i].device == cs[j].device
      ensures cs'[j].status == CredRevoked ==> cs'[i].status == CredRevoked
    {
      assert cs[j].status == CredRevoked ==> cs[i].status == CredRevoked;
    }
  }

  lemma ReviewKeeps(s: State, e: Event)
    requires Inv(s)
    requires e.op.OpReject? || e.op.OpList?
    ensures Inv(Next(s, e))
  {
    RequestsMove(s, Next(s, e));
  }

  /** Offers, grants and projections live beside the credentials. */
  ghost predicate Beside(s: State, s': State) {
    s'.requests == s.requests && s'.credentials == s.credentials && s'.replacements == s.replacements
  }

  lemma AddBeside(s: State, now: real, offer: GrantOffer, id: string)
    ensures Beside(s, AddGrant(s, now, offer, id).state)
  {
  }

  lemma BesideKeeps(s: State, e: Event)
    requires e.op.OpOffer? || e.op.OpAddGrant? || e.op.OpDecide? || e.op.OpRevokeGrant? || e.op.OpProject?
    ensures Beside(s, Next(s, e))
  {
    if e.op.OpAddGrant? {
      AddBeside(s, e.now, e.op.offer, e.op.id);
    }
  }

  lemma StepKeeps(s: State, e: Event)
    requires Inv(s) && FreshIds(s, e.op)
    ensures Inv(Next(s, e))
  {
    match e.op
    case OpSubmit(code, id, endpoint, name, kind, rooms, capabilities, storage) =>
      SubmitKeeps(s, e.now, code, id, endpoint, name, kind, rooms, capabilities, storage);
    case OpApprove(id, scope, rooms, mappings, profiles, clientProfiles) =>
      ApproveKeeps(s, e.now, id, scope, rooms, mappings, profiles, clientProfiles);
    case OpConsume(id, code, storage, shared, token, freshDevice, grantIds) =>
      ConsumeKeeps(s, e.now, id, code, storage, shared, token, freshDevice, grantIds);
    case OpReplace(device, requestId, generation, renewalOnly, token) =>
      ReplaceKeeps(s, e.now, device, requestId, generation, renewalOnly, token);
    case OpReject(_) => ReviewKeeps(s, e);
    case OpList => ReviewKeeps(s, e);
    case OpAuthenticate(_, _) => EndingKeeps(s, e);
    case OpRevoke(_) => EndingKeeps(s, e);
    case _ => BesideKeeps(s, e);
  }

  // ----------------------------------------------------------- whole-run law

  lemma {:induction false} RunKeeps(clock: real, s: State, events: seq<Event>)
    requires Inv(s) && Runs(clock, s, events)
    ensures Inv(Final(s, events))
    decreases |events|
  {
    if events != [] {
      StepKeeps(s, events[0]);
      RunKeeps(events[0].now, Next(s, events[0]), events[1..]);
    }
  }

  /** In every reachable state: generations of a device are distinct, an active
      record is the only one and has the greatest generation, each generation
      has at most one replacement, and credentials are counted exactly. */
  lemma ReachableChains(clock: real, events: seq<Event>)
    requires Runs(clock, EMPTY, events)
    ensures
      var s := Final(EMPTY, events);
      && (forall i, j :: 0 <= i < |s.credentials| && 0 <= j < |s.credentials| && i != j
                         && s.credentials[i].device == s.credentials[j].device ==>
            && s.credentials[i].generation != s.credentials[j].generation
            && (s.credentials[i].status == CredActive ==>
                  && s.credentials[j].status != CredActive
                  && s.credentials[j].generation < s.credentials[i].generation))
      && (forall i, j :: 0 <= i < j < |s.replacements| && s.replacements[i].device == s.replacements[j].device ==>
            && s.replacements[i].generation != s.replacements[j].generation
            && s.replacements[i].newGeneration != s.replacements[j].newGeneration)
      && |s.credentials| == ConsumedCount(s.requests) + |s.replacements|
  {
    RunKeeps(clock, EMPTY, events);
  }

  /** Every stored credential carries exactly a scope approved on a consumed
      request of its endpoint, within what that endpoint asked for. */
  lemma ReachableScopes(clock: real, events: seq<Event>, i: nat)
    requires Runs(clock, EMPTY, events)
    requires i < |Final(EMPTY, events).credentials|
    ensures
      var s := Final(EMPTY, events);
      var c := s.credentials[i];
      && Unmixed(c.scope)
      && exists k :: 0 <= k < |s.requests| && s.requests[k].status == ReqConsumed
                     && s.requests[k].endpoint == c.endpoint && s.requests[k].approved == Some(c.scope)
                     && SubsetOf(c.scope, s.requests[k].requested)
  {
    RunKeeps(clock, EMPTY, events);
    var s := Final(EMPTY, events);
    var k :| 0 <= k < |s.requests| && Authorizes(s.requests[k], s.credentials[i]);
    assert Contained(s.requests[k]);
  }
}
