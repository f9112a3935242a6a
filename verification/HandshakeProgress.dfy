/**
  The handshake does not get stuck: requests in flight can always finish by
  their own next accesses, claims nobody watches are left alone meanwhile, and
  quiet states with an active claim are reached.
 */
module HandshakeProgress {
  import opened Wrappers
  import opened Handshake
  import Cr = Credentials
  import Cl = Claims
  import KI = ClaimInvariants
  import CredentialAnswers
  import GrantAnswers
  import Answers = HandshakeAnswers

  // ------------------------------------------------------ finishing requests

  /** The next store access of an in-flight request, with its checks answered. */
  predicate Finishing(m: Move) {
    match m
    case RecheckDevice(_, _, fails) => !fails
    case RecheckGrant(_, _, fails) => !fails
    case _ => m.Abandon? || m.Discard? || m.Close?
  }

  predicate AllFinishing(moves: seq<Move>) { forall i :: 0 <= i < |moves| ==> Finishing(moves[i]) }

  function NextMove(r: Request, id: nat, now: real): Move {
    match r
    case Authenticated(_, _, _, _) => Abandon(id)
    case GrantChecked(_, _, _, _) => Abandon(id)
    case ClaimMade(_, _, _, _, _) => RecheckDevice(id, now, false)
    case DeviceRechecked(_, _, _) => RecheckGrant(id, now, false)
    case Discarding(_, _) => Discard(id)
    case ClosingDevice(_, _) => Close(id)
    case ClosingGrant(_) => Close(id)
  }

  /** How many accesses a request still has to make at most. */
  function Rank(r: Request): nat {
    if r.ClaimMade? then 3 else if r.DeviceRechecked? then 2 else 1
  }

  /** The request will let the claim be: its re-checks of it will pass, and what
      it closes or discards is not this one. */
  ghost predicate Clears(s: Cr.State, r: Request, h: string, row: Cl.Row, now: real) {
    match r
    case ClaimMade(token, device, generation, handle, grant) =>
      h == handle ==>
        Answers.TokenStands(s, now, token, device, generation)
        && (grant.Some? ==> Answers.GrantStands(s, device, grant.value))
    case DeviceRechecked(device, handle, grant) => h == handle ==> Answers.GrantStands(s, device, grant)
    case _ => !Answers.Watches(r, h, row)
  }

  /** Every request in flight will let the claim be. */
  ghost predicate Entitled(w: World, h: string, now: real)
    requires h in w.claims.rows
  {
    forall id :: id in w.requests ==> Clears(w.creds, w.requests[id], h, w.claims.rows[h], now)
  }

  /** A claim that no request in flight will look at, close or discard is let be. */
  lemma UnwatchedIsEntitled(w: World, h: string, now: real)
    requires h in w.claims.rows
    requires forall id :: id in w.requests ==> !Answers.Watches(w.requests[id], h, w.claims.rows[h])
    ensures Entitled(w, h, now)
  {
  }

  /** An entitled claim stays as it is, and entitled; a closed one stays closed. */
  ghost predicate Spares(w: World, w': World, now: real) {
    forall h :: h in w.claims.rows ==>
      && h in w'.claims.rows && KI.Keeps(w.claims.rows[h], w'.claims.rows[h])
      && (Entitled(w, h, now) ==> w'.claims.rows[h] == w.claims.rows[h] && Entitled(w', h, now))
  }

  /** An active claim that is not entitled is closed, or still not entitled. */
  ghost predicate Dooms(w: World, w': World, now: real) {
    forall h :: h in w.claims.rows && w.claims.rows[h].status == Cl.Active && !Entitled(w, h, now) ==>
      h in w'.claims.rows && (w'.claims.rows[h].status == Cl.Closed || !Entitled(w', h, now))
  }

  /** One request has gone one access further. */
  ghost predicate Forwards(w: World, w': World, id: nat, now: real)
    requires id in w.requests
  {
    && w'.requests - {id} == w.requests - {id}
    && (id in w'.requests ==> Rank(w'.requests[id]) < Rank(w.requests[id]))
    && Spares(w, w', now)
  }

  /** The stores as one access may leave them: the same authority at this
      reading, and rows that end only if the request does not clear them. */
  ghost predicate StoresMove(w: World, w': World, id: nat, now: real)
    requires id in w.requests
  {
    && (forall r, h, row :: Clears(w'.creds, r, h, row, now) <==> Clears(w.creds, r, h, row, now))
    && (forall h :: h in w.claims.rows ==>
          && h in w'.claims.rows && KI.Keeps(w.claims.rows[h], w'.claims.rows[h])
          && (Clears(w.creds, w.requests[id], h, w.claims.rows[h], now) ==> w'.claims.rows[h] == w.claims.rows[h]))
  }

  lemma AccessSpares(w: World, w': World, id: nat, now: real)
    requires id in w.requests && w'.requests - {id} == w.requests - {id} && StoresMove(w, w', id, now)
    requires id in w'.requests ==> forall h, row ::
               Clears(w.creds, w.requests[id], h, row, now) ==> Clears(w.creds, w'.requests[id], h, row, now)
    ensures Spares(w, w', now)
  {
    hide Clears;
    forall h | h in w.claims.rows && Entitled(w, h, now)
      ensures w'.claims.rows[h] == w.claims.rows[h] && Entitled(w', h, now)
    {
      forall i | i in w'.requests
        ensures Clears(w'.creds, w'.requests[i], h, w.claims.rows[h], now)
      {
        if i != id {
          assert i in w'.requests - {id};
          assert w'.requests[i] == w.requests[i];
        }
      }
    }
  }

  lemma AccessDooms(w: World, w': World, id: nat, now: real)
    requires id in w.requests && w'.requests - {id} == w.requests - {id} && StoresMove(w, w', id, now)
    requires forall h :: h in w.claims.rows && w.claims.rows[h].status == Cl.Active
                         && !Clears(w.creds, w.requests[id], h, w.claims.rows[h], now) ==>
               w'.claims.rows[h].status == Cl.Closed
               || (id in w'.requests && !Clears(w.creds, w'.requests[id], h, w.claims.rows[h], now))
    ensures Dooms(w, w', now)
  {
    forall h | h in w.claims.rows && w.claims.rows[h].status == Cl.Active && !Entitled(w, h, now)
        && w'.claims.rows[h].status != Cl.Closed
      ensures !Entitled(w', h, now)
    {
      var i :| i in w.requests && !Clears(w.creds, w.requests[i], h, w.claims.rows[h], now);
      if i != id {
        assert i in w.requests - {id};
        assert w'.requests[i] == w.requests[i];
      }
      SameClears(w'.creds, w'.requests[i], h, w.claims.rows[h], w'.claims.rows[h], now);
    }
  }

  /** What a request lets be depends on columns that never change. */
  lemma SameClears(s: Cr.State, r: Request, h: string, row: Cl.Row, row': Cl.Row, now: real)
    requires KI.Keeps(row, row')
    ensures Clears(s, r, h, row', now) <==> Clears(s, r, h, row, now)
  {
  }

  /** Marking records out of time at this reading changes no answer at it. */
  lemma MarkingKeepsAuthority(s: Cr.State, now: real, token: string)
    ensures var s' := Cr.Authenticate(s, now, token, false).state;
      forall r, h, row :: Clears(s', r, h, row, now) <==> Clears(s, r, h, row, now)
  {
    var s' := Cr.Authenticate(s, now, token, false).state;
    CredentialAnswers.AuthenticationMarks(s, now, token, false);
    forall t, device, generation
      ensures Answers.TokenStands(s', now, t, device, generation) <==>
              Answers.TokenStands(s, now, t, device, generation)
    {
      if token != "" {
        SameStanding(s, s', now, t, device, generation);
      }
    }
  }

  lemma SameStanding(s: Cr.State, s': Cr.State, now: real, token: string, device: string, generation: nat)
    requires |s'.credentials| == |s.credentials|
    requires forall i :: 0 <= i < |s.credentials| ==>
               s'.credentials[i] == CredentialAnswers.Marked(s.credentials[i], now)
    ensures Answers.TokenStands(s', now, token, device, generation) <==>
            Answers.TokenStands(s, now, token, device, generation)
  {
    forall i | 0 <= i < |s.credentials|
      ensures CredentialAnswers.Answers(s'.credentials[i], now, token, false) <==>
              CredentialAnswers.Answers(s.credentials[i], now, token, false)
    {
    }
    assert forall i :: CredentialAnswers.LastAnswer(s'.credentials, i, now, token, false) <==>
                       CredentialAnswers.LastAnswer(s.credentials, i, now, token, false);
  }

  lemma DeviceRecheckForwards(w: World, id: nat, now: real)
    requires id in w.requests && w.requests[id].ClaimMade?
    ensures var w' := AfterDeviceRecheck(w, id, now, false); Forwards(w, w', id, now) && Dooms(w, w', now)
  {
    var r, w' := w.requests[id], AfterDeviceRecheck(w, id, now, false);
    Answers.TokenStandsExactly(w.creds, now, r.token, r.device, r.generation);
    MarkingKeepsAuthority(w.creds, now, r.token);
    AccessSpares(w, w', id, now);
    AccessDooms(w, w', id, now);
  }

  lemma GrantRecheckForwards(w: World, id: nat, now: real)
    requires id in w.requests && w.requests[id].DeviceRechecked?
    ensures var w' := AfterGrantRecheck(w, id, now, false); Forwards(w, w', id, now) && Dooms(w, w', now)
  {
    var r, w' := w.requests[id], AfterGrantRecheck(w, id, now, false);
    GrantAnswers.ActiveGrantExactly(w.creds, now, r.device, r.grant);
    AccessSpares(w, w', id, now);
    AccessDooms(w, w', id, now);
  }

  lemma DiscardForwards(w: World, id: nat, now: real)
    requires id in w.requests && w.requests[id].Discarding?
    ensures var w' := AfterDiscard(w, id);
      && Forwards(w, w', id, now)
      && (RequestFits(w.creds, w.claims.rows, w.requests[id]) ==> Dooms(w, w', now))
  {
    AccessSpares(w, AfterDiscard(w, id), id, now);
    if RequestFits(w.creds, w.claims.rows, w.requests[id]) {
      AccessDooms(w, AfterDiscard(w, id), id, now);
    }
  }

  lemma CloseForwards(w: World, id: nat, now: real)
    requires id in w.requests && (w.requests[id].ClosingDevice? || w.requests[id].ClosingGrant?)
    ensures var w' := AfterClosing(w, id); Forwards(w, w', id, now) && Dooms(w, w', now)
  {
    forall h | h in w.claims.rows
      ensures Cl.Selects(Sweeps(w.requests[id]), h, w.claims.rows[h]) <==>
              Answers.Watches(w.requests[id], h, w.claims.rows[h])
    {
    }
    AccessSpares(w, AfterClosing(w, id), id, now);
    AccessDooms(w, AfterClosing(w, id), id, now);
  }

  lemma AbandonForwards(w: World, id: nat, now: real)
    requires id in w.requests && (w.requests[id].Authenticated? || w.requests[id].GrantChecked?)
    ensures var w' := AfterAbandoning(w, id); Forwards(w, w', id, now) && Dooms(w, w', now)
  {
    AccessSpares(w, AfterAbandoning(w, id), id, now);
    AccessDooms(w, AfterAbandoning(w, id), id, now);
  }

  lemma MoveForwards(cfg: Cl.Settings, w: World, id: nat, now: real)
    requires id in w.requests
    ensures var w' := Apply(cfg, w, NextMove(w.requests[id], id, now));
      Forwards(w, w', id, now) && (Sound(cfg, w) ==> Sound(cfg, w') && Dooms(w, w', now))
  {
    SoundFits(cfg, w, id);
    hide Forwards, Dooms, Sound, RequestFits, AfterDiscard, AfterClosing, AfterAbandoning, AfterDeviceRecheck,
      AfterGrantRecheck;
    NextIsLegal(w, id, now);
    if Sound(cfg, w) {
      MoveKeeps(cfg, w, NextMove(w.requests[id], id, now));
    }
    match w.requests[id]
    case Authenticated(_, _, _, _) => AbandonForwards(w, id, now);
    case GrantChecked(_, _, _, _) => AbandonForwards(w, id, now);
    case ClaimMade(_, _, _, _, _) => DeviceRecheckForwards(w, id, now);
    case DeviceRechecked(_, _, _) => GrantRecheckForwards(w, id, now);
    case Discarding(_, _) => DiscardForwards(w, id, now);
    case ClosingDevice(_, _) => CloseForwards(w, id, now);
    case ClosingGrant(_) => CloseForwards(w, id, now);
  }

  lemma SoundFits(cfg: Cl.Settings, w: World, id: nat)
    requires id in w.requests
    ensures Sound(cfg, w) ==> RequestFits(w.creds, w.claims.rows, w.requests[id])
  {
  }

  lemma SparesOn(w: World, w': World, w'': World, now: real)
    requires Spares(w, w', now) && Spares(w', w'', now)
    ensures Spares(w, w'', now)
    ensures Dooms(w, w', now) && Dooms(w', w'', now) ==> Dooms(w, w'', now)
  {
  }

  lemma {:induction false} RunsOn(cfg: Cl.Settings, w: World, a: seq<Move>, b: seq<Move>)
    requires Runs(cfg, w, a) && Runs(cfg, Final(cfg, w, a), b)
    ensures Runs(cfg, w, a + b) && Final(cfg, w, a + b) == Final(cfg, Final(cfg, w, a), b)
    decreases |a|
  {
    if a == [] {
      assert a + b == b;
    } else {
      RunsOn(cfg, Apply(cfg, w, a[0]), a[1..], b);
      assert (a + b)[0] == a[0] && (a + b)[1..] == a[1..] + b;
    }
  }

  lemma {:induction false} RequestFinishes(cfg: Cl.Settings, w: World, id: nat, now: real) returns (moves: seq<Move>)
    requires id in w.requests
    ensures Runs(cfg, w, moves) && AllFinishing(moves)
    ensures var w' := Final(cfg, w, moves);
      && w'.requests == w.requests - {id} && Spares(w, w', now)
      && (Sound(cfg, w) ==> Sound(cfg, w') && Dooms(w, w', now))
    decreases Rank(w.requests[id])
  {
    hide Sound, Spares, Dooms, Apply;
    var m := NextMove(w.requests[id], id, now);
    var w' := Apply(cfg, w, m);
    MoveForwards(cfg, w, id, now);
    NextIsLegal(w, id, now);
    if id in w'.requests {
      var rest := RequestFinishes(cfg, w', id, now);
      moves := [m] + rest;
      assert moves[1..] == rest;
      SparesOn(w, w', Final(cfg, w', rest), now);
    } else {
      moves := [m];
      assert moves[1..] == [];
      assert w'.requests - {id} == w'.requests;
    }
  }

  lemma NextIsLegal(w: World, id: nat, now: real)
    requires id in w.requests
    ensures Legal(w, NextMove(w.requests[id], id, now)) && Finishing(NextMove(w.requests[id], id, now))
  {
  }

  lemma {:induction false} AllFinish(cfg: Cl.Settings, w: World, now: real) returns (moves: seq<Move>)
    ensures Runs(cfg, w, moves) && AllFinishing(moves)
    ensures var w' := Final(cfg, w, moves);
      && w'.requests == map[] && Spares(w, w', now) && (Sound(cfg, w) ==> Dooms(w, w', now))
    decreases |w.requests|
  {
    hide Sound, Spares, Dooms;
    if w.requests == map[] {
      moves := [];
      SparesNothing(w, now);
    } else {
      var id :| id in w.requests;
      var first := RequestFinishes(cfg, w, id, now);
      var w' := Final(cfg, w, first);
      assert w'.requests.Keys == w.requests.Keys - {id};
      var rest := AllFinish(cfg, w', now);
      RunsOn(cfg, w, first, rest);
      moves := first + rest;
      SparesOn(w, w', Final(cfg, w', rest), now);
    }
  }

  lemma SparesNothing(w: World, now: real)
    ensures Spares(w, w, now) && Dooms(w, w, now)
  {
  }

  /** From every state of the handshake the requests in flight can all finish by
      their own accesses alone, with no restart and no failing re-check, and a
      claim that they all let be is untouched by that: each re-check of it
      passes, and nothing closes or discards it. In a sound state exactly those
      claims are still active at the end. */
  lemma RequestsCanFinish(cfg: Cl.Settings, w: World, now: real) returns (moves: seq<Move>)
    ensures Runs(cfg, w, moves) && AllFinishing(moves)
    ensures var w' := Final(cfg, w, moves);
      && w'.requests == map[]
      && (forall h :: h in w.claims.rows && Entitled(w, h, now) ==>
            h in w'.claims.rows && w'.claims.rows[h] == w.claims.rows[h])
      && (Sound(cfg, w) ==> forall h :: h in w.claims.rows && w.claims.rows[h].status == Cl.Active ==>
            h in w'.claims.rows && (w'.claims.rows[h].status == Cl.Active <==> Entitled(w, h, now)))
  {
    moves := AllFinish(cfg, w, now);
  }

  // ------------------------------------------------- a quiet state with a claim

  /** A phone enrolls for the Profile "chef" and claims a conversation with it. */
  const PHONE_SCOPE := Cr.Scope([], [Cr.CLIENT_CLAIM], [], None)
  const CHEF_ID := "g"

  function GrantIds(): seq<string> { seq(Cr.MAX_CLIENT_GRANTS, (i: nat) => seq(i + 1, _ => 'g')) }

  const OFFERS := Cr.Event(0.0, Cr.OpOffer("offer", "code", 300))
  const ASKS := Cr.Event(1.0, Cr.OpSubmit("code", "request", "phone", "Phone", "ios", [], [Cr.CLIENT_CLAIM],
                                          Cr.PLATFORM_STORAGE))
  const ALLOWS := Cr.Event(2.0, Cr.OpApprove("request", PHONE_SCOPE, {}, {}, {"chef"}, ["chef"]))
  const ENROLLS := Cr.Event(3.0, Cr.OpConsume("request", "code", Cr.PLATFORM_STORAGE, Some({}), "token", "device",
                                             GrantIds()))
  const ENROLLMENT: seq<Move> := [Credential(0, OFFERS), Credential(0, ASKS), Credential(0, ALLOWS),
                                 Credential(0, ENROLLS)]

  const PHONE := Cr.Credential("device", "phone", 1, Cr.CredActive, 3.0, 3.0 + Cr.CREDENTIAL_TTL, 0.0, "token",
                               PHONE_SCOPE, "Phone", "ios")
  const CHEF := Cr.Grant(CHEF_ID, "device", "chef", Cr.GrantActive, "Phone", "ios", 3.0, true,
                         3.0 + Cr.PENDING_OWNER_TTL, None)

  function Asked(status: Cr.RequestStatus, approved: Option<Cr.Scope>, profiles: seq<string>): Cr.Request {
    Cr.Request("request", "offer", "phone", "Phone", "ios", PHONE_SCOPE, Cr.PLATFORM_STORAGE, 300.0, status, approved,
               profiles)
  }

  function WithOffer(status: Cr.OfferStatus): Cr.State {
    Cr.EMPTY.(offers := [Cr.Offer("offer", "code", 300.0, status)])
  }

  const OFFERED := WithOffer(Cr.OfferOpen)
  const WAITING := WithOffer(Cr.OfferPending).(requests := [Asked(Cr.ReqPending, None, [])])
  const ALLOWED := WithOffer(Cr.OfferPending).(requests := [Asked(Cr.ReqApproved, Some(PHONE_SCOPE), ["chef"])])
  const ENROLLED := WithOffer(Cr.OfferConsumed).(
                      requests := [Asked(Cr.ReqConsumed, Some(PHONE_SCOPE), ["chef"])],
                      credentials := [PHONE], grants := [CHEF])

  lemma PhoneIsOffered()
    ensures Cr.Next(Cr.EMPTY, OFFERS) == OFFERED
  {
  }

  lemma PhoneAsks()
    ensures Cr.Next(OFFERED, ASKS) == WAITING
  {
  }

  lemma PhoneIsAllowed()
    ensures Cr.Next(WAITING, ALLOWS) == ALLOWED
  {
  }

  lemma PhoneMayConsume()
    ensures Cr.Consumable(ALLOWED, 3.0, "request", "code", Cr.PLATFORM_STORAGE, Some({})) == Ok((0, 0))
  {
  }

  lemma ChefIsFree(live: set<string>)
    ensures Cr.IssuedGrants([], live, "device", ALLOWED.requests[0], {}, 3.0, GrantIds()) == [CHEF]
  {
    assert GrantIds()[0] == CHEF_ID;
  }

  lemma PhoneIsWritten()
    ensures Cr.Enroll(ALLOWED, 3.0, 0, 0, {}, "token", "device", GrantIds()).state == ENROLLED
    ensures Cr.Enroll(ALLOWED, 3.0, 0, 0, {}, "token", "device", GrantIds()).result.value.revoked == None
  {
    assert Cr.RevokeEndpoint([], "phone") == [];
    assert Cr.EndGrants(Cr.ExpirePending([], 3.0), "device") == [];
    ChefIsFree(Cr.LiveDevices([PHONE], 3.0));
  }

  lemma PhoneConsumes()
    ensures Cr.ConsumeRequest(ALLOWED, 3.0, "request", "code", Cr.PLATFORM_STORAGE, Some({}), "token", "device",
                              GrantIds()) ==
            Cr.Enroll(ALLOWED, 3.0, 0, 0, {}, "token", "device", GrantIds())
  {
    hide Cr.Enroll, Cr.Consumable;
    PhoneMayConsume();
  }

  lemma PhoneEnrolls()
    ensures Cr.Next(ALLOWED, ENROLLS) == ENROLLED && Closer(ALLOWED, ENROLLS).None?
  {
    hide Cr.Enroll, Cr.ConsumeRequest;
    PhoneConsumes();
    PhoneIsWritten();
  }

  const CLAIM := Cl.ClientRequest("claim", "device", CHEF_ID, "chef", 7, None)
  const CLAIMING: seq<Move> := [
    Authenticate(1, 4.0, "token", true), CheckGrant(1, 4.0, CHEF_ID),
    CreateClientClaim(1, 5.0, CLAIM, "h", "ref"), RecheckDevice(1, 6.0, false), RecheckGrant(1, 6.0, false)]

  lemma PhoneAuthenticates(now: real)
    requires 4.0 <= now <= 6.0
    ensures Cr.Authenticate(ENROLLED, now, "token", false) ==
            Cr.Reply(ENROLLED, Ok(Some(Cr.Device("device", "phone", 1, PHONE_SCOPE))))
  {
    assert ENROLLED.credentials == [PHONE];
    assert Cr.Found([PHONE], now, "token", false) == Some(Cr.DeviceOf(PHONE));
  }

  lemma ChefIsGranted(now: real)
    ensures Cr.ActiveClientGrant(ENROLLED, now, "device", CHEF_ID)
  {
    assert ENROLLED.grants == [CHEF];
    assert Cr.CurrentGrant(CHEF, now);
    assert CHEF in Cr.CurrentGrants(ENROLLED.grants, now, "device");
  }

  function Claimed(cfg: Cl.Settings): Cl.Row { Cl.ClientRow(CLAIM, Some(1), 5.0 + cfg.firstOpen, "ref") }

  lemma PhoneClaims(cfg: Cl.Settings)
    requires cfg.perDevice > 0
    ensures var (s, made) := Cl.CreateClient(cfg, Cl.EMPTY, 5.0, CLAIM, Some(1), "h", "ref", Cl.NoFault);
      made.Made? && s.rows == map["h" := Claimed(cfg)]
  {
    assert Cl.Sweep(Cl.EMPTY, 5.0) == Cl.EMPTY;
    assert Cl.ActiveClients(Cl.EMPTY.rows, "device") == {};
  }

  /** The phone's request at one stage, over the enrolled state. */
  function Serving(claims: Cl.Store, r: Request): World { World(ENROLLED, claims, map[1 := r]) }

  const QUIET := World(ENROLLED, Cl.EMPTY, map[])
  const KNOWN := Authenticated("token", "device", 1, true)
  const GRANTED := GrantChecked("token", "device", 1, CHEF_ID)
  const MADE := ClaimMade("token", "device", 1, "h", Some(CHEF_ID))
  const RECHECKED := DeviceRechecked("device", "h", CHEF_ID)

  lemma PhoneIsKnown()
    ensures AfterAuthenticating(QUIET, 1, 4.0, "token", true) == Serving(Cl.EMPTY, KNOWN)
    ensures AfterGrantCheck(Serving(Cl.EMPTY, KNOWN), 1, 4.0, CHEF_ID) == Serving(Cl.EMPTY, GRANTED)
  {
    PhoneAuthenticates(4.0);
    ChefIsGranted(4.0);
  }

  lemma PhoneHasClaim(cfg: Cl.Settings) returns (claims: Cl.Store)
    requires cfg.perDevice > 0
    ensures AfterClientClaim(cfg, Serving(Cl.EMPTY, GRANTED), 1, 5.0, CLAIM, "h", "ref") == Serving(claims, MADE)
    ensures claims.rows == map["h" := Claimed(cfg)]
  {
    PhoneClaims(cfg);
    claims := Cl.CreateClient(cfg, Cl.EMPTY, 5.0, CLAIM, Some(1), "h", "ref", Cl.NoFault).0;
  }

  lemma PhoneKeepsClaim(claims: Cl.Store)
    ensures AfterDeviceRecheck(Serving(claims, MADE), 1, 6.0, false) == Serving(claims, RECHECKED)
    ensures AfterGrantRecheck(Serving(claims, RECHECKED), 1, 6.0, false) == World(ENROLLED, claims, map[])
  {
    PhoneAuthenticates(6.0);
    ChefIsGranted(6.0);
  }

  lemma OneMore(cfg: Cl.Settings, w: World, m: Move, rest: seq<Move>)
    requires Legal(w, m) && Runs(cfg, Apply(cfg, w, m), rest)
    ensures Runs(cfg, w, [m] + rest) && Final(cfg, w, [m] + rest) == Final(cfg, Apply(cfg, w, m), rest)
  {
    assert ([m] + rest)[1..] == rest;
  }

  lemma PhoneIsServed(cfg: Cl.Settings)
    requires cfg.perDevice > 0
    ensures Runs(cfg, QUIET, CLAIMING)
    ensures var w := Final(cfg, QUIET, CLAIMING);
      w.creds == ENROLLED && w.requests == map[] && w.claims.rows == map["h" := Claimed(cfg)]
  {
    hide AfterAuthenticating, AfterGrantCheck, AfterClientClaim, AfterDeviceRecheck, AfterGrantRecheck, Claimed;
    PhoneIsKnown();
    var claims := PhoneHasClaim(cfg);
    PhoneKeepsClaim(claims);
    OneMore(cfg, Serving(claims, RECHECKED), CLAIMING[4], []);
    OneMore(cfg, Serving(claims, MADE), CLAIMING[3], [CLAIMING[4]]);
    OneMore(cfg, Serving(Cl.EMPTY, GRANTED), CLAIMING[2], [CLAIMING[3]] + [CLAIMING[4]]);
    OneMore(cfg, Serving(Cl.EMPTY, KNOWN), CLAIMING[1], [CLAIMING[2]] + ([CLAIMING[3]] + [CLAIMING[4]]));
    OneMore(cfg, QUIET, CLAIMING[0], [CLAIMING[1]] + ([CLAIMING[2]] + ([CLAIMING[3]] + [CLAIMING[4]])));
    assert CLAIMING == [CLAIMING[0]] + ([CLAIMING[1]] + ([CLAIMING[2]] + ([CLAIMING[3]] + [CLAIMING[4]])));
  }

  /** An event that has nothing to close leads from one quiet state to the next. */
  ghost predicate Quietly(s: Cr.State, e: Cr.Event, s': Cr.State) {
    Cr.FreshIds(s, e.op) && Closer(s, e).None? && Cr.Next(s, e) == s'
  }

  lemma OneEvent(cfg: Cl.Settings, s: Cr.State, e: Cr.Event, s': Cr.State, rest: seq<Move>)
    requires Quietly(s, e, s') && Runs(cfg, World(s', Cl.EMPTY, map[]), rest)
    ensures var w := World(s, Cl.EMPTY, map[]);
      && Runs(cfg, w, [Credential(0, e)] + rest)
      && Final(cfg, w, [Credential(0, e)] + rest) == Final(cfg, World(s', Cl.EMPTY, map[]), rest)
  {
    OneMore(cfg, World(s, Cl.EMPTY, map[]), Credential(0, e), rest);
  }

  lemma FreshGrantIds()
    ensures Cr.FreshIds(ALLOWED, ENROLLS.op)
  {
    forall i, j | 0 <= i < j < Cr.MAX_CLIENT_GRANTS
      ensures GrantIds()[i] != GrantIds()[j]
    {
      assert |GrantIds()[i]| == i + 1 && |GrantIds()[j]| == j + 1;
    }
  }

  lemma PhoneSteps()
    ensures Quietly(Cr.EMPTY, OFFERS, OFFERED) && Quietly(OFFERED, ASKS, WAITING)
    ensures Quietly(WAITING, ALLOWS, ALLOWED) && Quietly(ALLOWED, ENROLLS, ENROLLED)
  {
    PhoneIsOffered();
    PhoneAsks();
    PhoneIsAllowed();
    PhoneEnrolls();
    FreshGrantIds();
  }

  lemma PhoneGetsIn(cfg: Cl.Settings)
    ensures Runs(cfg, START, ENROLLMENT) && Final(cfg, START, ENROLLMENT) == QUIET
  {
    hide Quietly, Apply, Legal;
    PhoneSteps();
    OneEvent(cfg, ALLOWED, ENROLLS, ENROLLED, []);
    OneEvent(cfg, WAITING, ALLOWS, ALLOWED, [ENROLLMENT[3]]);
    OneEvent(cfg, OFFERED, ASKS, WAITING, [ENROLLMENT[2]] + [ENROLLMENT[3]]);
    OneEvent(cfg, Cr.EMPTY, OFFERS, OFFERED, [ENROLLMENT[1]] + ([ENROLLMENT[2]] + [ENROLLMENT[3]]));
    assert ENROLLMENT == [ENROLLMENT[0]] + ([ENROLLMENT[1]] + ([ENROLLMENT[2]] + [ENROLLMENT[3]]));
  }

  /** Quiet states with an active claim are reached: a phone enrols, claims a
      conversation, passes both re-checks, and nothing is in flight any more. */
  lemma QuietClaimIsReached(cfg: Cl.Settings)
    requires cfg.perDevice > 0
    ensures Runs(cfg, START, ENROLLMENT + CLAIMING)
    ensures var w := Final(cfg, START, ENROLLMENT + CLAIMING);
      && w.requests == map[] && "h" in w.claims.rows
      && w.claims.rows["h"].status == Cl.Active && w.claims.rows["h"].kind == Cl.ClientClaim
  {
    PhoneGetsIn(cfg);
    PhoneIsServed(cfg);
    RunsOn(cfg, START, ENROLLMENT, CLAIMING);
  }
}
