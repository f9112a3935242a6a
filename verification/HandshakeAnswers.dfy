/**
  What each access of a claim request comes to, and what a committed authority
  change goes on to close, in terms of the credential records and the grants.
 */
module HandshakeAnswers {
  import opened Wrappers
  import opened Handshake
  import Cr = Credentials
  import CI = CredentialInvariants
  import CG = ClientGrants
  import Cl = Claims
  import Replacements
  import CredentialAnswers
  import GrantAnswers
  import ClaimAnswers

  /** The token still authenticates this generation of the device. */
  ghost predicate TokenStands(s: Cr.State, now: real, token: string, device: string, generation: nat) {
    token != "" && exists i :: CredentialAnswers.LastAnswer(s.credentials, i, now, token, false)
                               && s.credentials[i].device == device && s.credentials[i].generation == generation
  }

  /** The device has an active grant of this ID. */
  ghost predicate GrantStands(s: Cr.State, device: string, grant: string) {
    exists i :: 0 <= i < |s.grants| && s.grants[i].id == grant && s.grants[i].device == device
                && s.grants[i].status == Cr.GrantActive
  }

  lemma TokenStandsExactly(s: Cr.State, now: real, token: string, device: string, generation: nat)
    ensures var found := Cr.Authenticate(s, now, token, false).result.value;
      TokenStands(s, now, token, device, generation) <==>
          found.Some? && found.value.device == device && found.value.generation == generation
  {
    CredentialAnswers.AuthenticationIsAnswered(s, now, token, false);
    if Cr.Authenticate(s, now, token, false).result.value.Some? {
      var i := LastOf(s.credentials, now, token);
    }
  }

  lemma {:induction false} LastOf(cs: seq<Cr.Credential>, now: real, token: string) returns (i: nat)
    requires exists j :: 0 <= j < |cs| && CredentialAnswers.Answers(cs[j], now, token, false)
    ensures CredentialAnswers.LastAnswer(cs, i, now, token, false)
  {
    i := |cs| - 1;
    if !CredentialAnswers.Answers(cs[i], now, token, false) {
      var j :| 0 <= j < |cs| && CredentialAnswers.Answers(cs[j], now, token, false);
      assert cs[..i][j] == cs[j];
      i := LastOf(cs[..i], now, token);
    }
  }

  /** Only the request `id` has moved. */
  ghost predicate OnlyMoves(w: World, w': World, id: nat) { w'.requests - {id} == w.requests - {id} }

  /** A request starts exactly when its token authenticates a device, and keeps
      the generation it was authenticated as. */
  lemma AuthenticationIsAnswered(cfg: Cl.Settings, w: World, id: nat, now: real, token: string, client: bool,
          device: string, generation: nat)
    requires id !in w.requests
    ensures var w' := Apply(cfg, w, Authenticate(id, now, token, client));
      && w'.claims == w.claims && OnlyMoves(w, w', id)
      && (TokenStands(w.creds, now, token, device, generation) <==>
            id in w'.requests && w'.requests[id] == Authenticated(token, device, generation, client))
  {
    TokenStandsExactly(w.creds, now, token, device, generation);
  }

  /** A client request goes on exactly when its device has the grant active. */
  lemma GrantCheckIsAnswered(cfg: Cl.Settings, w: World, id: nat, now: real, grant: string)
    requires id in w.requests && w.requests[id].Authenticated? && w.requests[id].client
    ensures var w', r := Apply(cfg, w, CheckGrant(id, now, grant)), w.requests[id];
      && w'.creds == w.creds && w'.claims == w.claims && OnlyMoves(w, w', id) && id in w'.requests
      && w'.requests[id] ==
         if GrantStands(w.creds, r.device, grant) then GrantChecked(r.token, r.device, r.generation, grant) else r
  {
    GrantAnswers.ActiveGrantExactly(w.creds, now, w.requests[id].device, grant);
  }

  /** A claim that is made waits for its re-check; a refused request is over. */
  lemma CreationIsAnswered(cfg: Cl.Settings, w: World, id: nat, now: real, d: Cl.Decision, q: Cl.ClientRequest,
          handle: string, ref: string)
    requires id in w.requests
    ensures var w', r := Apply(cfg, w, CreateRoomClaim(id, now, d, handle)), w.requests[id];
      r.Authenticated? && !r.client && d.device == r.device ==>
        var (claims, made) := Cl.CreateRoom(cfg, w.claims, now, d, Some(r.generation), handle, Cl.NoFault);
        && w'.creds == w.creds && w'.claims == claims && OnlyMoves(w, w', id) && (made.Made? <==> id in w'.requests)
        && (made.Made? ==> w'.requests[id] == ClaimMade(r.token, r.device, r.generation, handle, None))
    ensures var w', r := Apply(cfg, w, CreateClientClaim(id, now, q, handle, ref)), w.requests[id];
      r.GrantChecked? && q.device == r.device && q.grant == r.grant ==>
        var (claims, made) := Cl.CreateClient(cfg, w.claims, now, q, Some(r.generation), handle, ref, Cl.NoFault);
        && w'.creds == w.creds && w'.claims == claims && OnlyMoves(w, w', id) && (made.Made? <==> id in w'.requests)
        && (made.Made? ==> w'.requests[id] == ClaimMade(r.token, r.device, r.generation, handle, Some(r.grant)))
  {
  }

  /** A re-check that works changes no claim. It passes exactly when the token
      still authenticates the generation the claim was made under: a Room
      request is then finished and a client's goes on to its grant, and
      otherwise, or when the store cannot be read, the claim is to be discarded. */
  lemma RecheckIsAnswered(cfg: Cl.Settings, w: World, id: nat, now: real, fails: bool)
    requires id in w.requests && w.requests[id].ClaimMade?
    ensures var w', r := Apply(cfg, w, RecheckDevice(id, now, fails)), w.requests[id];
      && w'.claims == w.claims && OnlyMoves(w, w', id)
      && w'.creds == (if fails then w.creds else Cr.Authenticate(w.creds, now, r.token, false).state)
      && (if fails || !TokenStands(w.creds, now, r.token, r.device, r.generation)
          then id in w'.requests && w'.requests[id] == Discarding(r.device, r.handle)
          else if r.grantUsed.None? then id !in w'.requests
          else id in w'.requests && w'.requests[id] == DeviceRechecked(r.device, r.handle, r.grantUsed.value))
  {
    var r := w.requests[id];
    TokenStandsExactly(w.creds, now, r.token, r.device, r.generation);
  }

  /** The grant is checked again last: while it is active the request is
      finished and its claim stays, and otherwise the claim is to be discarded. */
  lemma GrantRecheckIsAnswered(cfg: Cl.Settings, w: World, id: nat, now: real, fails: bool)
    requires id in w.requests && w.requests[id].DeviceRechecked?
    ensures var w', r := Apply(cfg, w, RecheckGrant(id, now, fails)), w.requests[id];
      && w'.creds == w.creds && w'.claims == w.claims && OnlyMoves(w, w', id)
      && (if fails || !GrantStands(w.creds, r.device, r.grant)
          then id in w'.requests && w'.requests[id] == Discarding(r.device, r.handle)
          else id !in w'.requests)
  {
    var r := w.requests[id];
    GrantAnswers.ActiveGrantExactly(w.creds, now, r.device, r.grant);
  }

  /** A discard ends the request and closes the device's own claim, if it is still active. */
  lemma DiscardIsAnswered(cfg: Cl.Settings, w: World, id: nat)
    requires id in w.requests && w.requests[id].Discarding?
    ensures var w', h := Apply(cfg, w, Discard(id)), w.requests[id].handle;
      && w'.creds == w.creds && w'.requests == w.requests - {id}
      && w'.claims.rows ==
         if h in w.claims.rows && w.claims.rows[h].device == w.requests[id].device
            && w.claims.rows[h].status == Cl.Active
         then w.claims.rows[h := ClaimAnswers.ClosedFor(w.claims.rows[h], Cl.EndpointRevoked)]
         else w.claims.rows
  {
  }

  /** The closing half of a commit ends its request and exactly the active
      claims it watches, for the change that was committed. */
  lemma ClosingIsAnswered(cfg: Cl.Settings, w: World, id: nat)
    requires id in w.requests && (w.requests[id].ClosingDevice? || w.requests[id].ClosingGrant?)
    ensures var w', r := Apply(cfg, w, Close(id)), w.requests[id];
      && w'.creds == w.creds && w'.requests == w.requests - {id} && w'.claims.rows.Keys == w.claims.rows.Keys
      && forall h :: h in w.claims.rows ==>
           w'.claims.rows[h] ==
           if w.claims.rows[h].status == Cl.Active && Watches(r, h, w.claims.rows[h])
           then ClaimAnswers.ClosedFor(w.claims.rows[h],
                                       if r.ClosingGrant? then Cl.GrantRevoked else Cl.EndpointRevoked)
           else w.claims.rows[h]
  {
    var r := w.requests[id];
    assert Apply(cfg, w, Close(id)) == AfterClosing(w, id);
    hide Apply;
    forall h | h in w.claims.rows
      ensures Cl.Selects(Sweeps(r), h, w.claims.rows[h]) <==> Watches(r, h, w.claims.rows[h])
    {
    }
  }

  // --------------------------------------------------- what a commit closes

  /** The claim has the newest generation of its device and, if it is a
      client's, an active grant of it. */
  ghost predicate Current(s: Cr.State, row: Cl.Row) {
    && row.generation.Some? && Newest(s, row.device, row.generation.value)
    && (if row.kind == Cl.ClientClaim then row.grant.Some? && GrantStands(s, row.device, row.grant.value)
        else row.grant.None?)
  }

  ghost predicate Watches(r: Request, h: string, row: Cl.Row) { WatchesDevice(r, h, row) || WatchesGrant(r, h, row) }

  /** A renewal or rotation request repeated after the generation it made was replaced in its turn. */
  ghost predicate LateRetry(e: Cr.Event, row: Cl.Row) {
    e.op.OpReplace? && e.op.device == row.device && row.generation != Some(e.op.generation + 1)
  }

  /** A commit goes on to close a claim that it leaves current exactly when it
      is a late retry: the answer is that of the older generation, and every
      claim of another one is closed, the newest included. */
  lemma CommitsSpareCurrent(s: Cr.State, e: Cr.Event, h: string, row: Cl.Row)
    requires CI.Inv(s) && CG.GrantInv(s) && Cr.FreshIds(s, e.op) && Closer(s, e).Some?
    requires Current(s, row) && Current(Cr.Next(s, e), row)
    ensures Watches(Closer(s, e).value, h, row) <==> LateRetry(e, row)
  {
    CommitsThatClose(s, e);
    hide CI.Inv, CG.GrantInv, Cr.FreshIds, Closer, Watches, Current, Cr.Next;
    match e.op
    case OpReplace(_, _, _, _, _) => ReplacementSparesCurrent(s, e, h, row);
    case OpRevoke(_) => RevocationSparesCurrent(s, e, h, row);
    case OpConsume(_, _, _, _, _, _, _) => ConsumptionSparesCurrent(s, e, h, row);
    case OpRevokeGrant(_, _, _) => GrantRevocationSparesCurrent(s, e, h, row);
  }

  lemma CommitsThatClose(s: Cr.State, e: Cr.Event)
    ensures Closer(s, e).Some? ==> e.op.OpReplace? || e.op.OpRevoke? || e.op.OpConsume? || e.op.OpRevokeGrant?
  {
  }

  lemma ReplacementSparesCurrent(s: Cr.State, e: Cr.Event, h: string, row: Cl.Row)
    requires CI.Inv(s) && e.op.OpReplace? && Closer(s, e).Some? && Current(s, row) && Current(Cr.Next(s, e), row)
    ensures Watches(Closer(s, e).value, h, row) <==> LateRetry(e, row)
  {
    ReplacementAnswersNext(s, e);
  }

  /** A replacement, first or repeated, answers the generation after the named one. */
  lemma ReplacementAnswersNext(s: Cr.State, e: Cr.Event)
    requires CI.Inv(s) && e.op.OpReplace? && Closer(s, e).Some?
    ensures Closer(s, e).value == ClosingDevice(e.op.device, Some(e.op.generation + 1))
  {
    var found := Cr.FindReplacement(s.replacements, e.op.device, e.op.generation, e.op.requestId);
    if found.Some? {
      assert s.replacements[found.value].newGeneration == s.replacements[found.value].generation + 1;
    }
  }

  lemma RevocationSparesCurrent(s: Cr.State, e: Cr.Event, h: string, row: Cl.Row)
    requires e.op.OpRevoke? && Closer(s, e).Some? && Current(Cr.Next(s, e), row)
    ensures !Watches(Closer(s, e).value, h, row)
  {
    RevokedIsNotNewest(s, e.op.device, if row.generation.Some? then row.generation.value else 0);
  }

  lemma RevokedIsNotNewest(s: Cr.State, device: string, generation: nat)
    requires Cr.Revoke(s, device).result.Ok?
    ensures !Newest(Cr.Revoke(s, device).state, device, generation)
  {
  }

  lemma ConsumptionSparesCurrent(s: Cr.State, e: Cr.Event, h: string, row: Cl.Row)
    requires CI.Inv(s) && Cr.FreshIds(s, e.op) && e.op.OpConsume? && Closer(s, e).Some?
    requires Current(s, row) && Current(Cr.Next(s, e), row)
    ensures !Watches(Closer(s, e).value, h, row)
  {
    hide CI.Inv, Current, Closer, Cr.Next, Cr.ConsumeRequest, Cr.FreshIds, Newest;
    ConsumersThatClose(s, e);
    ConsumptionStarts(s, e, row);
    ConsumptionStarts(Cr.Next(s, e), e, row);
    var record := ConsumeCommits(s, e);
    ReenrollmentEnds(s, Cr.Next(s, e), record, e.op.freshDevice, row.generation.value);
  }

  lemma ConsumptionStarts(s: Cr.State, e: Cr.Event, row: Cl.Row)
    requires e.op.OpConsume?
    ensures CI.Inv(s) ==> CI.Bound(s.credentials)
    ensures Cr.FreshIds(s, e.op) ==>
              forall i :: 0 <= i < |s.credentials| ==> s.credentials[i].device != e.op.freshDevice
    ensures Current(s, row) ==> row.generation.Some? && Newest(s, row.device, row.generation.value)
  {
  }

  lemma ConsumersThatClose(s: Cr.State, e: Cr.Event)
    requires e.op.OpConsume? && Closer(s, e).Some?
    ensures Cr.ConsumeRequest(s, e.now, e.op.id, e.op.code, e.op.storage, e.op.shared, e.op.token, e.op.freshDevice,
                              e.op.grantIds).result.Ok?
  {
  }

  /** After a re-enrollment only the new generation is not revoked, and it is none of the old ones. */
  lemma ReenrollmentEnds(s: Cr.State, s': Cr.State, record: Cr.Credential, freshDevice: string, generation: nat)
    requires CI.Bound(s.credentials) && forall i :: 0 <= i < |s.credentials| ==> s.credentials[i].device != freshDevice
    requires s'.credentials == Cr.RevokeEndpoint(s.credentials, record.endpoint) + [record]
    requires record.generation == Cr.MaxGeneration(s.credentials, record.endpoint) + 1
    requires var found := Cr.FindEndpoint(s.credentials, record.endpoint);
      record.device == if found.Some? then s.credentials[found.value].device else freshDevice
    ensures Newest(s, record.device, generation) ==> !Newest(s', record.device, generation)
  {
    SameDeviceSameEndpoint(s.credentials, record, freshDevice);
  }

  lemma GrantRevocationSparesCurrent(s: Cr.State, e: Cr.Event, h: string, row: Cl.Row)
    requires CG.GrantInv(s) && e.op.OpRevokeGrant? && Closer(s, e).Some? && Current(Cr.Next(s, e), row)
    ensures !Watches(Closer(s, e).value, h, row)
  {
    RevokedIsNotActive(s, e.now, e.op.id, e.op.requester, e.op.sharedProfiles, row.device);
  }

  lemma RevokedIsNotActive(s: Cr.State, now: real, id: string, requester: Option<string>, shared: set<string>,
          device: string)
    requires CG.DistinctIds(s.grants) && Cr.RevokeGrant(s, now, id, requester, shared).result.Ok?
    ensures var reply := Cr.RevokeGrant(s, now, id, requester, shared);
      !GrantStands(reply.state, device, id) && reply.result.value.id == id
  {
    assert forall i :: 0 <= i < |s.grants| ==>
             Cr.RevokeGrant(s, now, id, requester, shared).state.grants[i].id == s.grants[i].id;
  }

  /** A first replacement makes the newest generation of its device. */
  lemma ReplacementIsNewest(s: Cr.State, t: real, device: string, requestId: string, generation: nat, token: string)
    requires CI.Inv(s) && Cr.FindReplacement(s.replacements, device, generation, requestId).None?
    requires Cr.ReplaceCredential(s, t, device, requestId, generation, false, token).result.Ok?
    ensures var reply := Cr.ReplaceCredential(s, t, device, requestId, generation, false, token);
      && CI.Inv(reply.state) && reply.state != s && Newest(reply.state, device, generation + 1)
      && reply.result.value.generation == generation + 1
  {
    CI.ReplaceKeeps(s, t, device, requestId, generation, false, token);
    var cs := Cr.ReplaceCredential(s, t, device, requestId, generation, false, token).state.credentials;
    assert cs[|cs| - 1].device == device && cs[|cs| - 1].generation == generation + 1;
  }

  /** Two rotations of a device within the overlap of the first: repeating the
      first one answers its own generation, and goes on to close the claims made
      under the newest. */
  lemma LateRetryClosesNewest(s: Cr.State, t: real, device: string, generation: nat, first: string, token: string,
          t': real, second: string, token': string, now: real, h: string, row: Cl.Row)
    requires CI.Inv(s) && first != second && t <= t' <= now < t + Cr.ROTATION_OVERLAP
    requires Cr.FindReplacement(s.replacements, device, generation, first).None?
    requires Cr.ReplaceCredential(s, t, device, first, generation, false, token).result.Ok?
    requires var s1 := Cr.ReplaceCredential(s, t, device, first, generation, false, token).state;
      Cr.ReplaceCredential(s1, t', device, second, generation + 1, false, token').result.Ok?
    requires row.device == device && row.generation == Some(generation + 2)
    ensures var s1 := Cr.ReplaceCredential(s, t, device, first, generation, false, token).state;
      var s2 := Cr.ReplaceCredential(s1, t', device, second, generation + 1, false, token').state;
      var retry := Cr.Event(now, Cr.OpReplace(device, first, generation, false, ""));
      && Newest(s2, device, generation + 2) && Cr.Next(s2, retry) == s2
      && Closer(s2, retry) == Some(ClosingDevice(device, Some(generation + 1)))
      && Watches(Closer(s2, retry).value, h, row)
  {
    hide CI.Inv, Cr.ReplaceCredential;
    var s1 := Cr.ReplaceCredential(s, t, device, first, generation, false, token).state;
    var s2 := Cr.ReplaceCredential(s1, t', device, second, generation + 1, false, token').state;
    var retry := Cr.Event(now, Cr.OpReplace(device, first, generation, false, ""));
    ReplacementIsNewest(s, t, device, first, generation, token);
    NotReplacedYet(s, t, device, first, generation, token, second);
    ReplacementIsNewest(s1, t', device, second, generation + 1, token');
    RetriedAfter(s, t, device, generation, first, token, t', second, token', now);
    ReplacementAnswersNext(s2, retry);
  }

  /** The generation just made has no replacement yet. */
  lemma NotReplacedYet(s: Cr.State, t: real, device: string, requestId: string, generation: nat, token: string,
          second: string)
    requires CI.Inv(s) && Cr.FindReplacement(s.replacements, device, generation, requestId).None?
    requires Cr.ReplaceCredential(s, t, device, requestId, generation, false, token).result.Ok?
    ensures var s1 := Cr.ReplaceCredential(s, t, device, requestId, generation, false, token).state;
      Cr.FindReplacement(s1.replacements, device, generation + 1, second).None?
  {
    ReplacementIsNewest(s, t, device, requestId, generation, token);
    NewestIsUnreplaced(Cr.ReplaceCredential(s, t, device, requestId, generation, false, token).state, device,
                       generation + 1);
  }

  lemma NewestIsUnreplaced(s: Cr.State, device: string, generation: nat)
    requires CI.Inv(s) && Newest(s, device, generation)
    ensures forall x :: 0 <= x < |s.replacements| ==>
              !(s.replacements[x].device == device && s.replacements[x].generation == generation)
  {
    forall x | 0 <= x < |s.replacements| && s.replacements[x].device == device
      ensures s.replacements[x].generation != generation
    {
      var k :| 0 <= k < |s.credentials| && CI.Leads(s.replacements[x], s.credentials[k]);
      var i :| 0 <= i < |s.credentials| && s.credentials[i].device == device
               && s.credentials[i].generation == generation && s.credentials[i].status != Cr.CredRevoked;
    }
  }

  lemma RetriedAfter(s: Cr.State, t: real, device: string, generation: nat, first: string, token: string, t': real,
          second: string, token': string, now: real)
    requires CI.Inv(s) && t <= t' <= now < t + Cr.ROTATION_OVERLAP
    requires Cr.ReplaceCredential(s, t, device, first, generation, false, token).result.Ok?
    requires Cr.ReplaceCredential(s, t, device, first, generation, false, token).state != s
    ensures var s1 := Cr.ReplaceCredential(s, t, device, first, generation, false, token).state;
      var s2 := Cr.ReplaceCredential(s1, t', device, second, generation + 1, false, token').state;
      && Cr.ReplaceCredential(s2, now, device, first, generation, false, "").state == s2
      && Cr.ReplaceCredential(s2, now, device, first, generation, false, "").result.Ok?
  {
    var s1 := Cr.ReplaceCredential(s, t, device, first, generation, false, token).state;
    var rotation := Cr.Event(t', Cr.OpReplace(device, second, generation + 1, false, token'));
    OneRotation(t, s1, rotation, device);
    OverlapIsSet(s, t, device, first, generation, token);
    hide CI.Inv, Cr.ReplaceCredential, Cr.Runs, Cr.Final, Replacements.Undisturbed, Replacements.OverlapEnd;
    Replacements.RetryIsIdempotent(s, t, device, first, generation, false, token, [rotation], now, false, "");
  }

  lemma OneRotation(t: real, s: Cr.State, e: Cr.Event, device: string)
    requires e.op.OpReplace? && t <= e.now
    ensures Cr.Runs(t, s, [e]) && Replacements.Undisturbed(s, [e], device)
    ensures Cr.Final(s, [e]) == Cr.Next(s, e)
    ensures Cr.Next(s, e) == Cr.ReplaceCredential(s, e.now, e.op.device, e.op.requestId, e.op.generation,
                                                  e.op.renewalOnly, e.op.token).state
  {
    hide Cr.ReplaceCredential;
    assert [e][1..] == [];
  }

  lemma OverlapIsSet(s: Cr.State, t: real, device: string, requestId: string, generation: nat, token: string)
    requires CI.Inv(s) && Cr.ReplaceCredential(s, t, device, requestId, generation, false, token).result.Ok?
    requires Cr.ReplaceCredential(s, t, device, requestId, generation, false, token).state != s
    ensures var s1 := Cr.ReplaceCredential(s, t, device, requestId, generation, false, token).state;
      Replacements.OverlapEnd(s1, device, generation, requestId) == t + Cr.ROTATION_OVERLAP
  {
    var x, r := Replacements.ReplaceStores(s, t, device, requestId, generation, false, token);
    Replacements.HeldIsFound(Cr.ReplaceCredential(s, t, device, requestId, generation, false, token).state, x, r);
  }
}
