/**
  Client Profile grants: how many a device may hold, that revocation leaves it
  none, and by whose authority a grant became active.
 */
module ClientGrants {
  import opened Wrappers
  import opened Credentials
  import opened CredentialInvariants

  // ------------------------------------------------------------- statements

  ghost predicate DistinctIds(gs: seq<Grant>) {
    forall i, j :: 0 <= i < j < |gs| ==> gs[i].id != gs[j].id
  }

  /** At most one live grant for a device and Profile. */
  ghost predicate OnePerProfile(gs: seq<Grant>) {
    forall i, j :: 0 <= i < j < |gs| && gs[i].device == gs[j].device && gs[i].profile == gs[j].profile ==>
      !(LiveGrant(gs[i]) && LiveGrant(gs[j]))
  }

  ghost predicate Unrevoked(cs: seq<Credential>, device: string) {
    exists k :: 0 <= k < |cs| && cs[k].device == device && cs[k].status != CredRevoked
  }

  /** A live grant belongs to a device with an unrevoked credential. */
  ghost predicate Rooted(gs: seq<Grant>, cs: seq<Credential>) {
    forall i :: 0 <= i < |gs| && LiveGrant(gs[i]) ==> Unrevoked(cs, gs[i].device)
  }

  ghost predicate Limited(gs: seq<Grant>) {
    forall device :: LiveCount(gs, device) <= MAX_CLIENT_GRANTS
  }

  ghost predicate GrantInv(s: State) {
    && DistinctIds(s.grants) && OnePerProfile(s.grants)
    && Rooted(s.grants, s.credentials) && Limited(s.grants)
  }

  /** Grant records keep everything but their status and decision. */
  ghost predicate GrantsEvolve(gs: seq<Grant>, gs': seq<Grant>) {
    && |gs| <= |gs'|
    && forall i :: 0 <= i < |gs| ==> gs'[i] == gs[i].(status := gs'[i].status, decidedBy := gs'[i].decidedBy)
  }

  // --------------------------------------------------------------- counting

  lemma {:induction false} CountShrinks(gs: seq<Grant>, gs': seq<Grant>, device: string)
    requires |gs| == |gs'|
    requires forall i :: 0 <= i < |gs| ==> gs'[i].device == gs[i].device && (LiveGrant(gs'[i]) ==> LiveGrant(gs[i]))
    ensures LiveCount(gs', device) <= LiveCount(gs, device)
  {
    if gs != [] {
      CountShrinks(gs[..|gs| - 1], gs'[..|gs| - 1], device);
    }
  }

  lemma {:induction false} CountNone(gs: seq<Grant>, device: string)
    requires forall i :: 0 <= i < |gs| && gs[i].device == device ==> !LiveGrant(gs[i])
    ensures LiveCount(gs, device) == 0
  {
    if gs != [] {
      CountNone(gs[..|gs| - 1], device);
    }
  }

  lemma {:induction false} CountAppend(gs: seq<Grant>, more: seq<Grant>, device: string)
    ensures LiveCount(gs + more, device) <= LiveCount(gs, device) + |more|
    ensures (forall i :: 0 <= i < |more| ==> more[i].device != device) ==>
              LiveCount(gs + more, device) == LiveCount(gs, device)
  {
    if more == [] {
      assert gs + more == gs;
    } else {
      var n := |more| - 1;
      assert (gs + more)[..|gs| + n] == gs + more[..n];
      CountAppend(gs, more[..n], device);
    }
  }

  // --------------------------------------------------------------- list edits

  /** Edits that revive nothing keep every grant fact over the same credentials. */
  ghost predicate Settles(gs: seq<Grant>, gs': seq<Grant>) {
    && |gs| == |gs'| && GrantsEvolve(gs, gs')
    && forall i :: 0 <= i < |gs| ==> (LiveGrant(gs'[i]) ==> LiveGrant(gs[i]))
  }

  lemma SettlesKeeps(gs: seq<Grant>, gs': seq<Grant>, cs: seq<Credential>)
    requires Settles(gs, gs')
    requires DistinctIds(gs) && OnePerProfile(gs) && Rooted(gs, cs) && Limited(gs)
    ensures DistinctIds(gs') && OnePerProfile(gs') && Rooted(gs', cs) && Limited(gs')
  {
    forall device
      ensures LiveCount(gs', device) <= MAX_CLIENT_GRANTS
    {
      CountShrinks(gs, gs', device);
    }
  }

  lemma RootedMoves(gs: seq<Grant>, cs: seq<Credential>, cs': seq<Credential>)
    requires Rooted(gs, cs) && |cs| <= |cs'|
    requires forall i :: 0 <= i < |cs| ==> cs'[i].device == cs[i].device
    requires forall i :: 0 <= i < |cs| && cs[i].status != CredRevoked ==>
               cs'[i].status != CredRevoked || (forall j :: 0 <= j < |gs| && gs[j].device == cs[i].device ==>
                 !LiveGrant(gs[j]))
    ensures Rooted(gs, cs')
  {
    forall j | 0 <= j < |gs| && LiveGrant(gs[j])
      ensures Unrevoked(cs', gs[j].device)
    {
      var k :| 0 <= k < |cs| && cs[k].device == gs[j].device && cs[k].status != CredRevoked;
      assert cs'[k].device == gs[j].device && cs'[k].status != CredRevoked;
    }
  }

  /** Adding grants of one device that holds few enough and none on those Profiles. */
  lemma AppendKeeps(gs: seq<Grant>, more: seq<Grant>, cs: seq<Credential>, device: string)
    requires DistinctIds(gs) && OnePerProfile(gs) && Rooted(gs, cs) && Limited(gs)
    requires forall i :: 0 <= i < |more| ==> more[i].device == device
    requires DistinctIds(more) && forall i, j :: 0 <= i < |gs| && 0 <= j < |more| ==> gs[i].id != more[j].id
    requires forall i, j :: 0 <= i < j < |more| ==> more[i].profile != more[j].profile
    requires forall i, j :: 0 <= i < |gs| && 0 <= j < |more| ==>
               gs[i].device == device && gs[i].profile == more[j].profile ==> !LiveGrant(gs[i])
    requires Unrevoked(cs, device)
    requires LiveCount(gs, device) + |more| <= MAX_CLIENT_GRANTS
    ensures DistinctIds(gs + more) && OnePerProfile(gs + more) && Rooted(gs + more, cs) && Limited(gs + more)
  {
    forall d
      ensures LiveCount(gs + more, d) <= MAX_CLIENT_GRANTS
    {
      CountAppend(gs, more, d);
    }
  }

  // ------------------------------------------------- one lemma per operation

  lemma RevokeKeeps(s: State, device: string)
    requires GrantInv(s)
    ensures GrantInv(Revoke(s, device).state) && GrantsEvolve(s.grants, Revoke(s, device).state.grants)
  {
    var s' := Revoke(s, device).state;
    if s' != s {
      SettlesKeeps(s.grants, s'.grants, s.credentials);
      RootedMoves(s'.grants, s.credentials, s'.credentials);
    }
  }

  lemma ConsumeKeepsGrants(s: State, now: real, id: string, code: string, storage: string,
          shared: Option<set<string>>, token: string, freshDevice: string, grantIds: seq<string>)
    requires Inv(s) && GrantInv(s)
    requires FreshIds(s, OpConsume(id, code, storage, shared, token, freshDevice, grantIds))
    ensures var s' := ConsumeRequest(s, now, id, code, storage, shared, token, freshDevice, grantIds).state;
      GrantInv(s') && GrantsEvolve(s.grants, s'.grants)
  {
    var reply := ConsumeRequest(s, now, id, code, storage, shared, token, freshDevice, grantIds);
    if reply.result.Ok? {
      var k := Consumable(s, now, id, code, storage, shared).value.0;
      var record := reply.state.credentials[|reply.state.credentials| - 1];
      ConsumeShape(s, now, id, code, storage, shared, token, freshDevice, grantIds, k, record);
      ConsumeIssues(s, now, id, code, storage, shared, token, freshDevice, grantIds, k, record);
      assert Contained(s.requests[k]);
      ConsumedKeepsGrants(s, reply.state, now, if shared.Some? then shared.value else {}, s.requests[k], freshDevice,
                          grantIds, record);
    }
  }

  lemma ConsumedKeepsGrants(s: State, s': State, now: real, shared: set<string>, request: Request,
          freshDevice: string, grantIds: seq<string>, record: Credential)
    requires GrantInv(s) && Bound(s.credentials)
    requires |request.profiles| <= MAX_CLIENT_GRANTS <= |grantIds| && Bounded(request.profiles)
    requires forall i, j :: 0 <= i < j < |grantIds| ==> grantIds[i] != grantIds[j]
    requires forall i, j :: 0 <= i < |grantIds| && 0 <= j < |s.grants| ==> grantIds[i] != s.grants[j].id
    requires record.status == CredActive
    requires var found := FindEndpoint(s.credentials, record.endpoint);
      record.device == if found.Some? then s.credentials[found.value].device else freshDevice
    requires s'.credentials == RevokeEndpoint(s.credentials, record.endpoint) + [record]
    requires var kept := EndGrants(ExpirePending(s.grants, now), record.device);
      s'.grants == kept + IssuedGrants(kept, LiveDevices(s'.credentials, now), record.device, request, shared, now,
                                       grantIds)
    ensures GrantInv(s') && GrantsEvolve(s.grants, s'.grants)
  {
    hide DistinctIds, OnePerProfile, Limited, Rooted;
    var kept := EndGrants(ExpirePending(s.grants, now), record.device);
    var issued := IssuedGrants(kept, LiveDevices(s'.credentials, now), record.device, request, shared, now, grantIds);
    IssueKeeps(s, s'.credentials, kept, issued, record, now, freshDevice, request, grantIds);
  }

  /** The grant records after a consumption: those of the device ended, then the issued ones. */
  lemma ConsumeIssues(s: State, now: real, id: string, code: string, storage: string, shared: Option<set<string>>,
          token: string, freshDevice: string, grantIds: seq<string>, k: nat, record: Credential)
    requires var reply := ConsumeRequest(s, now, id, code, storage, shared, token, freshDevice, grantIds);
      && reply.result.Ok?
      && k == Consumable(s, now, id, code, storage, shared).value.0
      && record == reply.state.credentials[|reply.state.credentials| - 1]
    ensures k < |s.requests|
    ensures var s' := ConsumeRequest(s, now, id, code, storage, shared, token, freshDevice, grantIds).state;
      var kept := EndGrants(ExpirePending(s.grants, now), record.device);
      s'.grants == kept + IssuedGrants(kept, LiveDevices(s'.credentials, now), record.device, s.requests[k],
                                       if shared.Some? then shared.value else {}, now, grantIds)
  {
  }

  lemma IssueKeeps(s: State, cs': seq<Credential>, kept: seq<Grant>, issued: seq<Grant>, record: Credential,
          now: real, freshDevice: string, request: Request, grantIds: seq<string>)
    requires GrantInv(s) && Bound(s.credentials)
    requires kept == EndGrants(ExpirePending(s.grants, now), record.device)
    requires cs' == RevokeEndpoint(s.credentials, record.endpoint) + [record]
    requires record.status == CredActive
    requires var found := FindEndpoint(s.credentials, record.endpoint);
      record.device == if found.Some? then s.credentials[found.value].device else freshDevice
    requires |issued| == |request.profiles| <= MAX_CLIENT_GRANTS <= |grantIds| && Bounded(request.profiles)
    requires forall i :: 0 <= i < |issued| ==>
               issued[i].device == record.device && issued[i].id == IdAt(grantIds, i)
                   && issued[i].profile == request.profiles[i]
    requires forall i, j :: 0 <= i < j < |grantIds| ==> grantIds[i] != grantIds[j]
    requires forall i, j :: 0 <= i < |grantIds| && 0 <= j < |s.grants| ==> grantIds[i] != s.grants[j].id
    ensures DistinctIds(kept + issued) && OnePerProfile(kept + issued) && Rooted(kept + issued, cs')
            && Limited(kept + issued)
    ensures GrantsEvolve(s.grants, kept + issued)
  {
    hide DistinctIds, OnePerProfile, Limited;
    SettlesKeeps(s.grants, kept, s.credentials);
    RootedMoves(kept, s.credentials, cs');
    CountNone(kept, record.device);
    assert cs'[|s.credentials|].device == record.device;
    IssuedAreDistinct(issued, request.profiles, grantIds);
    KeptAreApart(s.grants, kept, issued, grantIds);
    AppendKeeps(kept, issued, cs', record.device);
  }

  lemma IssuedAreDistinct(issued: seq<Grant>, profiles: seq<string>, grantIds: seq<string>)
    requires |issued| == |profiles| <= |grantIds| && Bounded(profiles)
    requires forall i :: 0 <= i < |issued| ==> issued[i].id == IdAt(grantIds, i) && issued[i].profile == profiles[i]
    requires forall i, j :: 0 <= i < j < |grantIds| ==> grantIds[i] != grantIds[j]
    ensures DistinctIds(issued) && forall i, j :: 0 <= i < j < |issued| ==> issued[i].profile != issued[j].profile
  {
  }

  lemma KeptAreApart(gs: seq<Grant>, kept: seq<Grant>, issued: seq<Grant>, grantIds: seq<string>)
    requires |kept| == |gs| && forall i :: 0 <= i < |gs| ==> kept[i].id == gs[i].id
    requires |issued| <= |grantIds| && forall i :: 0 <= i < |issued| ==> issued[i].id == IdAt(grantIds, i)
    requires forall i, j :: 0 <= i < |grantIds| && 0 <= j < |gs| ==> grantIds[i] != gs[j].id
    ensures forall i, j :: 0 <= i < |kept| && 0 <= j < |issued| ==> kept[i].id != issued[j].id
  {
  }

  /** What adding a grant does to the grant records. */
  lemma AddShape(s: State, now: real, offer: GrantOffer, id: string)
    ensures var s' := AddGrant(s, now, offer, id).state;
      var swept := ExpirePending(s.grants, now);
      var live := LiveDevices(s.credentials, now);
      && s'.credentials == s.credentials
      && (|s'.grants| <= |s.grants| ==> s'.grants == s.grants || s'.grants == swept)
      && (|s'.grants| > |s.grants| ==>
            var grant := s'.grants[|swept|];
            && s'.grants == swept + [grant]
            && grant.id == id && grant.device == offer.device && grant.profile == offer.profile
            && offer.device in live
            && FindLive(swept, offer.device, offer.profile).None?
            && LiveCount(swept, offer.device) < MAX_CLIENT_GRANTS
            && (grant.status == GrantActive ==>
                  || offer.profile in offer.shared
                  || (grant.bootstrap && offer.authorizeBootstrap
                      && !HeldElsewhere(swept, live, offer.device, offer.profile))))
  {
  }

  lemma AddKeeps(s: State, now: real, offer: GrantOffer, id: string)
    requires GrantInv(s)
    requires forall j :: 0 <= j < |s.grants| ==> id != s.grants[j].id
    ensures var s' := AddGrant(s, now, offer, id).state;
      GrantInv(s') && GrantsEvolve(s.grants, s'.grants)
  {
    AddShape(s, now, offer, id);
    var s' := AddGrant(s, now, offer, id).state;
    var swept := ExpirePending(s.grants, now);
    SettlesKeeps(s.grants, swept, s.credentials);
    if |s'.grants| > |s.grants| {
      LiveIsUnrevoked(s.credentials, now, offer.device);
      AppendKeeps(swept, [s'.grants[|swept|]], s.credentials, offer.device);
    }
  }

  lemma LiveIsUnrevoked(cs: seq<Credential>, now: real, device: string)
    requires device in LiveDevices(cs, now)
    ensures Unrevoked(cs, device)
  {
    var i :| 0 <= i < |cs| && Accepts(cs[i], now, true) && cs[i].device == device;
    assert cs[i].status != CredRevoked;
  }

  lemma DecideSettles(s: State, now: real, approver: string, id: string, approve: bool)
    ensures var s' := DecideGrant(s, now, approver, id, approve).state;
      Settles(s.grants, s'.grants) && s'.credentials == s.credentials
  {
  }

  lemma DecideKeeps(s: State, now: real, approver: string, id: string, approve: bool)
    requires GrantInv(s)
    ensures var s' := DecideGrant(s, now, approver, id, approve).state;
      GrantInv(s') && GrantsEvolve(s.grants, s'.grants)
  {
    hide DecideGrant;
    DecideSettles(s, now, approver, id, approve);
    SettlesKeeps(s.grants, DecideGrant(s, now, approver, id, approve).state.grants, s.credentials);
  }

  lemma RevokeGrantKeeps(s: State, now: real, id: string, requester: Option<string>, shared: set<string>)
    requires GrantInv(s)
    ensures var s' := RevokeGrant(s, now, id, requester, shared).state;
      GrantInv(s') && GrantsEvolve(s.grants, s'.grants)
  {
    SettlesKeeps(s.grants, RevokeGrant(s, now, id, requester, shared).state.grants, s.credentials);
  }

  lemma AuthenticationSpares(s: State, now: real, token: string, allowReplaced: bool)
    requires GrantInv(s)
    ensures GrantInv(Authenticate(s, now, token, allowReplaced).state)
  {
    RootedMoves(s.grants, s.credentials, Authenticate(s, now, token, allowReplaced).state.credentials);
  }

  lemma ReplacementSpares(s: State, now: real, device: string, requestId: string, generation: nat,
          renewalOnly: bool, token: string)
    requires GrantInv(s)
    ensures GrantInv(ReplaceCredential(s, now, device, requestId, generation, renewalOnly, token).state)
  {
    var s' := ReplaceCredential(s, now, device, requestId, generation, renewalOnly, token).state;
    RootedMoves(s.grants, s.credentials, s'.credentials);
  }

  /** Operations that leave grants alone and revoke no credential. */
  lemma OthersKeep(s: State, e: Event)
    requires GrantInv(s)
    requires e.op.OpOffer? || e.op.OpSubmit? || e.op.OpApprove? || e.op.OpReject? || e.op.OpList?
             || e.op.OpAuthenticate? || e.op.OpReplace? || e.op.OpProject?
    ensures GrantInv(Next(s, e)) && Next(s, e).grants == s.grants
  {
    match e.op
    case OpAuthenticate(token, allowReplaced) => AuthenticationSpares(s, e.now, token, allowReplaced);
    case OpReplace(device, requestId, generation, renewalOnly, token) =>
      ReplacementSpares(s, e.now, device, requestId, generation, renewalOnly, token);
    case _ => GrantsAndCredentialsUntouched(s, e);
  }

  lemma GrantsAndCredentialsUntouched(s: State, e: Event)
    requires e.op.OpOffer? || e.op.OpSubmit? || e.op.OpApprove? || e.op.OpReject? || e.op.OpList? || e.op.OpProject?
    ensures Next(s, e).grants == s.grants && Next(s, e).credentials == s.credentials
  {
  }

  lemma StepGrants(s: State, e: Event)
    requires Inv(s) && GrantInv(s) && FreshIds(s, e.op)
    ensures Inv(Next(s, e)) && GrantInv(Next(s, e)) && GrantsEvolve(s.grants, Next(s, e).grants)
  {
    StepKeeps(s, e);
    match e.op
    case OpConsume(id, code, storage, shared, token, freshDevice, grantIds) =>
      ConsumeKeepsGrants(s, e.now, id, code, storage, shared, token, freshDevice, grantIds);
    case OpRevoke(device) => RevokeKeeps(s, device);
    case OpAddGrant(offer, id) => AddKeeps(s, e.now, offer, id);
    case OpDecide(approver, id, approve) => DecideKeeps(s, e.now, approver, id, approve);
    case OpRevokeGrant(id, requester, shared) => RevokeGrantKeeps(s, e.now, id, requester, shared);
    case _ => OthersKeep(s, e);
  }

  lemma {:induction false} RunGrants(clock: real, s: State, events: seq<Event>)
    requires Inv(s) && GrantInv(s) && Runs(clock, s, events)
    ensures Inv(Final(s, events)) && GrantInv(Final(s, events)) && GrantsEvolve(s.grants, Final(s, events).grants)
    decreases |events|
  {
    if events != [] {
      StepGrants(s, events[0]);
      RunGrants(events[0].now, Next(s, events[0]), events[1..]);
    }
  }

  /** In every run: one live grant per device and Profile, at most 16 per
      device, and none for a device whose credentials are all revoked. */
  lemma ReachableGrants(clock: real, events: seq<Event>)
    requires Runs(clock, EMPTY, events)
    ensures var s := Final(EMPTY, events);
      && (forall i, j :: 0 <= i < |s.grants| && 0 <= j < |s.grants| && i != j
                         && LiveGrant(s.grants[i]) && LiveGrant(s.grants[j]) ==>
            s.grants[i].device != s.grants[j].device || s.grants[i].profile != s.grants[j].profile)
      && (forall device :: LiveCount(s.grants, device) <= 16)
      && (forall i :: 0 <= i < |s.grants| &&
                      (forall k :: 0 <= k < |s.credentials| && s.credentials[k].device == s.grants[i].device ==>
                        s.credentials[k].status == CredRevoked) ==>
            !LiveGrant(s.grants[i]))
  {
    assert EMPTY.grants == [];
    RunGrants(clock, EMPTY, events);
  }

  // -------------------------------------------------------------- activation

  /** Why a grant may become active in one step from `s`. */
  ghost predicate Justified(s: State, e: Event, g: Grant) {
    || (e.op.OpConsume? && e.op.shared.Some? && g.profile in e.op.shared.value)
    || (e.op.OpAddGrant? && g.profile in e.op.offer.shared)
    || ((e.op.OpConsume? || (e.op.OpAddGrant? && e.op.offer.authorizeBootstrap)) && g.bootstrap
        && !HeldElsewhere(s.grants, LiveDevices(s.credentials, e.now), g.device, g.profile))
    || (e.op.OpDecide? && e.op.approver != g.device && HoldsProfile(s.grants, e.op.approver, g.profile))
  }

  ghost predicate ActiveAt(s: State, i: nat) { i < |s.grants| && s.grants[i].status == GrantActive }

  /** A device whose records stay as they are stays as live as it was. */
  lemma LiveSame(cs: seq<Credential>, cs': seq<Credential>, now: real, device: string)
    requires |cs'| == |cs| + 1 && cs'[|cs|].device != device
    requires forall i :: 0 <= i < |cs| ==> cs'[i].device == cs[i].device && (cs[i].device == device ==> cs'[i] == cs[i])
    ensures device in LiveDevices(cs, now) <==> device in LiveDevices(cs', now)
  {
    if device in LiveDevices(cs, now) {
      var i :| 0 <= i < |cs| && Accepts(cs[i], now, true) && cs[i].device == device;
      assert Accepts(cs'[i], now, true) && cs'[i].device == device;
    }
    if device in LiveDevices(cs', now) {
      var i :| 0 <= i < |cs'| && Accepts(cs'[i], now, true) && cs'[i].device == device;
      assert Accepts(cs[i], now, true) && cs[i].device == device;
    }
  }

  /** Revoking the records of one device leaves the others as live as they were. */
  lemma OthersStayLive(cs: seq<Credential>, record: Credential, now: real, freshDevice: string, device: string)
    requires Bound(cs)
    requires forall i :: 0 <= i < |cs| ==> cs[i].device != freshDevice
    requires var found := FindEndpoint(cs, record.endpoint);
      record.device == if found.Some? then cs[found.value].device else freshDevice
    requires device != record.device
    ensures device in LiveDevices(cs, now) <==>
            device in LiveDevices(RevokeEndpoint(cs, record.endpoint) + [record], now)
  {
    var found := FindEndpoint(cs, record.endpoint);
    forall i | 0 <= i < |cs| && cs[i].device == device
      ensures cs[i].endpoint != record.endpoint
    {
      if found.Some? {
        assert cs[i].device == cs[found.value].device <==> cs[i].endpoint == cs[found.value].endpoint;
      }
    }
    LiveSame(cs, RevokeEndpoint(cs, record.endpoint) + [record], now, device);
  }

  /** Grants held by other live devices survive a consumption. */
  lemma HoldersStay(s: State, kept: seq<Grant>, cs': seq<Credential>, record: Credential, now: real,
          freshDevice: string, profile: string)
    requires Bound(s.credentials)
    requires forall i :: 0 <= i < |s.credentials| ==> s.credentials[i].device != freshDevice
    requires kept == EndGrants(ExpirePending(s.grants, now), record.device)
    requires cs' == RevokeEndpoint(s.credentials, record.endpoint) + [record]
    requires var found := FindEndpoint(s.credentials, record.endpoint);
      record.device == if found.Some? then s.credentials[found.value].device else freshDevice
    requires HeldElsewhere(s.grants, LiveDevices(s.credentials, now), record.device, profile)
    ensures HeldElsewhere(kept, LiveDevices(cs', now), record.device, profile)
  {
    var live := LiveDevices(s.credentials, now);
    var x :| 0 <= x < |s.grants| && s.grants[x].profile == profile && s.grants[x].status == GrantActive
             && s.grants[x].device != record.device && s.grants[x].device in live;
    OthersStayLive(s.credentials, record, now, freshDevice, s.grants[x].device);
    assert kept[x] == s.grants[x];
  }

  lemma KeptWereActive(gs: seq<Grant>, now: real, device: string)
    ensures var kept := EndGrants(ExpirePending(gs, now), device);
      |kept| == |gs| && forall i :: 0 <= i < |gs| ==> (kept[i].status == GrantActive ==> gs[i].status == GrantActive)
  {
  }

  lemma ConsumeJustifies(s: State, now: real, id: string, code: string, storage: string,
          shared: Option<set<string>>, token: string, freshDevice: string, grantIds: seq<string>, i: nat)
    requires Inv(s)
    requires FreshIds(s, OpConsume(id, code, storage, shared, token, freshDevice, grantIds))
    requires var s' := ConsumeRequest(s, now, id, code, storage, shared, token, freshDevice, grantIds).state;
      ActiveAt(s', i) && !ActiveAt(s, i)
    ensures Justified(s, Event(now, OpConsume(id, code, storage, shared, token, freshDevice, grantIds)),
                      ConsumeRequest(s, now, id, code, storage, shared, token, freshDevice, grantIds).state.grants[i])
  {
    var reply := ConsumeRequest(s, now, id, code, storage, shared, token, freshDevice, grantIds);
    if reply.result.Ok? {
      var s' := reply.state;
      var k := Consumable(s, now, id, code, storage, shared).value.0;
      var record := s'.credentials[|s'.credentials| - 1];
      ConsumeShape(s, now, id, code, storage, shared, token, freshDevice, grantIds, k, record);
      ConsumeIssues(s, now, id, code, storage, shared, token, freshDevice, grantIds, k, record);
      IssuedIsJustified(s, s', k, record, now, if shared.Some? then shared.value else {}, freshDevice, grantIds, i);
    }
  }

  /** A grant issued as active is on a shared Profile, or is the bootstrap of one nobody else held. */
  lemma IssuedIsJustified(s: State, s': State, k: nat, record: Credential, now: real, shared: set<string>,
          freshDevice: string, grantIds: seq<string>, i: nat)
    requires Bound(s.credentials) && k < |s.requests|
    requires forall j :: 0 <= j < |s.credentials| ==> s.credentials[j].device != freshDevice
    requires s'.credentials == RevokeEndpoint(s.credentials, record.endpoint) + [record]
    requires var found := FindEndpoint(s.credentials, record.endpoint);
      record.device == if found.Some? then s.credentials[found.value].device else freshDevice
    requires var kept := EndGrants(ExpirePending(s.grants, now), record.device);
      s'.grants == kept + IssuedGrants(kept, LiveDevices(s'.credentials, now), record.device, s.requests[k], shared,
                                       now, grantIds)
    requires ActiveAt(s', i) && !ActiveAt(s, i)
    ensures var g := s'.grants[i];
      g.profile in shared || (g.bootstrap && !HeldElsewhere(s.grants, LiveDevices(s.credentials, now), g.device,
                                                            g.profile))
  {
    var kept := EndGrants(ExpirePending(s.grants, now), record.device);
    KeptWereActive(s.grants, now, record.device);
    assert |kept| <= i;
    var g := s'.grants[i];
    if HeldElsewhere(s.grants, LiveDevices(s.credentials, now), g.device, g.profile) {
      HoldersStay(s, kept, s'.credentials, record, now, freshDevice, g.profile);
    }
  }

  lemma AddJustifies(s: State, now: real, offer: GrantOffer, id: string, i: nat)
    requires ActiveAt(AddGrant(s, now, offer, id).state, i) && !ActiveAt(s, i)
    ensures Justified(s, Event(now, OpAddGrant(offer, id)), AddGrant(s, now, offer, id).state.grants[i])
  {
    AddShape(s, now, offer, id);
    var swept := ExpirePending(s.grants, now);
    var live := LiveDevices(s.credentials, now);
    if HeldElsewhere(s.grants, live, offer.device, offer.profile) {
      var x :| 0 <= x < |s.grants| && s.grants[x].profile == offer.profile && s.grants[x].status == GrantActive
               && s.grants[x].device != offer.device && s.grants[x].device in live;
      assert swept[x] == s.grants[x];
    }
  }

  lemma DecideJustifies(s: State, now: real, approver: string, id: string, approve: bool, i: nat)
    requires ActiveAt(DecideGrant(s, now, approver, id, approve).state, i) && !ActiveAt(s, i)
    ensures Justified(s, Event(now, OpDecide(approver, id, approve)),
                      DecideGrant(s, now, approver, id, approve).state.grants[i])
  {
    var swept := ExpirePending(s.grants, now);
    var g := DecideGrant(s, now, approver, id, approve).state.grants[i];
    var x :| 0 <= x < |swept| && swept[x].device == approver && swept[x].profile == g.profile
        && swept[x].status == GrantActive;
    assert s.grants[x] == swept[x];
  }

  lemma StepJustifies(s: State, e: Event, i: nat)
    requires Inv(s) && GrantInv(s) && FreshIds(s, e.op)
    requires ActiveAt(Next(s, e), i) && !ActiveAt(s, i)
    ensures Justified(s, e, Next(s, e).grants[i])
  {
    match e.op
    case OpConsume(id, code, storage, shared, token, freshDevice, grantIds) =>
      ConsumeJustifies(s, e.now, id, code, storage, shared, token, freshDevice, grantIds, i);
    case OpAddGrant(offer, id) => AddJustifies(s, e.now, offer, id, i);
    case OpDecide(approver, id, approve) => DecideJustifies(s, e.now, approver, id, approve, i);
    case OpRevoke(device) =>
    case OpRevokeGrant(id, requester, shared) =>
    case _ => OthersKeep(s, e);
  }

  /** Every grant active at the end of a run became active at a justified step
      of it, unless it was active from the start. */
  lemma {:induction false} RunJustifies(clock: real, s: State, events: seq<Event>, i: nat)
    requires Inv(s) && GrantInv(s) && Runs(clock, s, events)
    requires ActiveAt(Final(s, events), i) && !ActiveAt(s, i)
    ensures exists n :: 0 <= n < |events| && ActivatedBy(s, events, n, i)
    decreases |events|
  {
    var s1 := Next(s, events[0]);
    StepGrants(s, events[0]);
    if ActiveAt(s1, i) {
      StepJustifies(s, events[0], i);
      assert Final(s, events[..0]) == s;
      assert ActivatedBy(s, events, 0, i);
    } else {
      RunJustifies(events[0].now, s1, events[1..], i);
      var n :| 0 <= n < |events[1..]| && ActivatedBy(s1, events[1..], n, i);
      ActivatedLater(s, events, n, i);
    }
  }

  lemma ActivatedLater(s: State, events: seq<Event>, n: nat, i: nat)
    requires events != [] && n < |events[1..]| && ActivatedBy(Next(s, events[0]), events[1..], n, i)
    ensures ActivatedBy(s, events, n + 1, i)
  {
    assert events[..n + 1][1..] == events[1..][..n];
    assert Final(s, events[..n + 1]) == Final(Next(s, events[0]), events[1..][..n]);
  }

  /** Step n of the run turned grant i active, with good reason. */
  ghost predicate ActivatedBy(s: State, events: seq<Event>, n: nat, i: nat)
    requires n < |events|
  {
    var before := Final(s, events[..n]);
    && !ActiveAt(before, i) && ActiveAt(Next(before, events[n]), i)
    && Justified(before, events[n], Next(before, events[n]).grants[i])
  }

  lemma ReachableActivation(clock: real, events: seq<Event>, i: nat)
    requires Runs(clock, EMPTY, events)
    requires ActiveAt(Final(EMPTY, events), i)
    ensures exists n :: 0 <= n < |events| && ActivatedBy(EMPTY, events, n, i)
  {
    RunJustifies(clock, EMPTY, events, i);
  }
}
