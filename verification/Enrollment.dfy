/**
  Enrollment over whole runs: an offer makes at most one request, a request is
  consumed at most once and never after it was rejected, and what a scope may
  bind to touch.
 */
module Enrollment {
  import opened Wrappers
  import opened Credentials
  import opened CredentialInvariants

  // --------------------------------------------------------------- counting

  function UsedOffers(os: seq<Offer>): nat {
    if os == [] then 0
    else UsedOffers(os[..|os| - 1]) + if os[|os| - 1].status != OfferOpen then 1 else 0
  }

  function ConsumedOffers(os: seq<Offer>): nat {
    if os == [] then 0
    else ConsumedOffers(os[..|os| - 1]) + if os[|os| - 1].status == OfferConsumed then 1 else 0
  }

  /** Every request has used up an offer of its own, and every consumed request a consumed one. */
  ghost predicate EnrollmentInv(s: State) {
    |s.requests| <= UsedOffers(s.offers) && ConsumedCount(s.requests) == ConsumedOffers(s.offers)
  }

  lemma {:induction false} CountsUpdate(os: seq<Offer>, k: nat, o: Offer)
    requires k < |os|
    ensures UsedOffers(os[k := o]) == UsedOffers(os)
            - (if os[k].status != OfferOpen then 1 else 0) + (if o.status != OfferOpen then 1 else 0)
    ensures ConsumedOffers(os[k := o]) == ConsumedOffers(os)
            - (if os[k].status == OfferConsumed then 1 else 0) + (if o.status == OfferConsumed then 1 else 0)
  {
    var n := |os| - 1;
    if k == n {
      assert os[k := o][..n] == os[..n];
    } else {
      assert os[k := o][..n] == os[..n][k := o];
      CountsUpdate(os[..n], k, o);
    }
  }

  lemma {:induction false} CountsExpire(os: seq<Offer>, os': seq<Offer>, now: real)
    requires |os'| == |os| && forall i :: 0 <= i < |os| ==> os'[i] == ExpiredOffer(os[i], now)
    ensures UsedOffers(os) <= UsedOffers(os') && ConsumedOffers(os') == ConsumedOffers(os)
  {
    if os != [] {
      CountsExpire(os[..|os| - 1], os'[..|os| - 1], now);
    }
  }

  // ------------------------------------------------------- one lemma per step

  lemma OfferKeeps(s: State, now: real, id: string, code: string, ttl: int)
    requires EnrollmentInv(s)
    ensures EnrollmentInv(CreateOffer(s, now, id, code, ttl).state)
  {
    var s' := CreateOffer(s, now, id, code, ttl).state;
    if s' != s {
      assert s'.offers[..|s.offers|] == s.offers;
    }
  }

  lemma SubmitKeepsEnrollment(s: State, now: real, code: string, id: string, endpoint: string, name: string,
          kind: string, rooms: seq<string>, capabilities: seq<string>, storage: string)
    requires EnrollmentInv(s)
    ensures EnrollmentInv(SubmitRequest(s, now, code, id, endpoint, name, kind, rooms, capabilities, storage).state)
  {
    var reply := SubmitRequest(s, now, code, id, endpoint, name, kind, rooms, capabilities, storage);
    if reply.result.Ok? {
      var k := FindOfferByCode(s.offers, code).value;
      CountsUpdate(s.offers, k, s.offers[k].(status := OfferPending));
      assert reply.state.requests[..|s.requests|] == s.requests;
    }
  }

  lemma ListKeepsEnrollment(s: State, now: real)
    requires EnrollmentInv(s)
    ensures EnrollmentInv(ListRequests(s, now).state)
  {
    var s' := ListRequests(s, now).state;
    CountsExpire(s.offers, s'.offers, now);
    CountSame(s.requests, s'.requests);
  }

  lemma ConsumeKeepsEnrollment(s: State, now: real, id: string, code: string, storage: string,
          shared: Option<set<string>>, token: string, freshDevice: string, grantIds: seq<string>)
    requires EnrollmentInv(s)
    ensures EnrollmentInv(ConsumeRequest(s, now, id, code, storage, shared, token, freshDevice, grantIds).state)
  {
    var reply := ConsumeRequest(s, now, id, code, storage, shared, token, freshDevice, grantIds);
    if reply.result.Ok? {
      var (k, o) := Consumable(s, now, id, code, storage, shared).value;
      assert s.offers[o].status == OfferPending;
      CountsUpdate(s.offers, o, s.offers[o].(status := OfferConsumed));
      CountUpdate(s.requests, k, s.requests[k].(status := ReqConsumed));
    }
  }

  lemma ReviewKeepsEnrollment(s: State, e: Event)
    requires EnrollmentInv(s) && (e.op.OpApprove? || e.op.OpReject?)
    ensures EnrollmentInv(Next(s, e))
  {
    CountSame(s.requests, Next(s, e).requests);
  }

  lemma EnrollmentUntouched(s: State, e: Event)
    requires e.op.OpAuthenticate? || e.op.OpReplace? || e.op.OpRevoke? || e.op.OpAddGrant? || e.op.OpDecide?
             || e.op.OpRevokeGrant? || e.op.OpProject?
    ensures Next(s, e).offers == s.offers && Next(s, e).requests == s.requests
  {
  }

  lemma StepEnrollment(s: State, e: Event)
    requires EnrollmentInv(s)
    ensures EnrollmentInv(Next(s, e))
  {
    match e.op
    case OpOffer(id, code, ttl) => OfferKeeps(s, e.now, id, code, ttl);
    case OpSubmit(code, id, endpoint, name, kind, rooms, capabilities, storage) =>
      SubmitKeepsEnrollment(s, e.now, code, id, endpoint, name, kind, rooms, capabilities, storage);
    case OpApprove(_, _, _, _, _, _) => ReviewKeepsEnrollment(s, e);
    case OpReject(_) => ReviewKeepsEnrollment(s, e);
    case OpList => ListKeepsEnrollment(s, e.now);
    case OpConsume(id, code, storage, shared, token, freshDevice, grantIds) =>
      ConsumeKeepsEnrollment(s, e.now, id, code, storage, shared, token, freshDevice, grantIds);
    case _ => EnrollmentUntouched(s, e);
  }

  lemma {:induction false} RunEnrollment(s: State, events: seq<Event>)
    requires EnrollmentInv(s)
    ensures EnrollmentInv(Final(s, events))
    decreases |events|
  {
    if events != [] {
      StepEnrollment(s, events[0]);
      RunEnrollment(Next(s, events[0]), events[1..]);
    }
  }

  /** In every reachable state there are at most as many requests as offers that
      were used, and credentials number consumed offers plus replacements. */
  lemma ReachableEnrollment(clock: real, events: seq<Event>)
    requires Runs(clock, EMPTY, events)
    ensures var s := Final(EMPTY, events);
      && |s.requests| <= UsedOffers(s.offers)
      && |s.credentials| == ConsumedOffers(s.offers) + |s.replacements|
  {
    RunEnrollment(EMPTY, events);
    RunKeeps(clock, EMPTY, events);
  }

  // -------------------------------------------------------- what stays decided

  /** Records stay where they are, an offer once used is never open again, and a
      rejected request stays rejected. */
  ghost predicate Settled(s: State, s': State) {
    && |s.offers| <= |s'.offers| && |s.requests| <= |s'.requests|
    && (forall i :: 0 <= i < |s.offers| ==>
          s'.offers[i].code == s.offers[i].code && (s.offers[i].status != OfferOpen ==>
            s'.offers[i].status != OfferOpen))
    && (forall i :: 0 <= i < |s.requests| ==>
          s'.requests[i].id == s.requests[i].id && (s.requests[i].status == ReqRejected ==>
            s'.requests[i].status == ReqRejected))
  }

  lemma StepSettles(s: State, e: Event)
    ensures Settled(s, Next(s, e))
  {
    if e.op.OpAuthenticate? || e.op.OpReplace? || e.op.OpRevoke? || e.op.OpAddGrant? || e.op.OpDecide?
       || e.op.OpRevokeGrant? || e.op.OpProject?
    {
      EnrollmentUntouched(s, e);
    } else if e.op.OpConsume? {
      ConsumeSettles(s, e.now, e.op.id, e.op.code, e.op.storage, e.op.shared, e.op.token, e.op.freshDevice,
                     e.op.grantIds);
    }
  }

  lemma ConsumeSettles(s: State, now: real, id: string, code: string, storage: string, shared: Option<set<string>>,
          token: string, freshDevice: string, grantIds: seq<string>)
    ensures Settled(s, ConsumeRequest(s, now, id, code, storage, shared, token, freshDevice, grantIds).state)
  {
  }

  lemma {:induction false} RunSettles(s: State, events: seq<Event>)
    ensures Settled(s, Final(s, events))
    decreases |events|
  {
    if events != [] {
      StepSettles(s, events[0]);
      RunSettles(Next(s, events[0]), events[1..]);
    }
  }

  lemma {:induction false} OfferStays(os: seq<Offer>, os': seq<Offer>, code: string, from: nat)
    requires from <= |os| <= |os'| && forall i :: 0 <= i < |os| ==> os'[i].code == os[i].code
    requires FindOfferByCode(os, code, from).Some?
    ensures FindOfferByCode(os', code, from) == FindOfferByCode(os, code, from)
    decreases |os| - from
  {
    if os[from].code != code {
      OfferStays(os, os', code, from + 1);
    }
  }

  lemma {:induction false} RequestStays(rs: seq<Request>, rs': seq<Request>, id: string, from: nat)
    requires from <= |rs| <= |rs'| && forall i :: 0 <= i < |rs| ==> rs'[i].id == rs[i].id
    requires FindRequest(rs, id, from).Some?
    ensures FindRequest(rs', id, from) == FindRequest(rs, id, from)
    decreases |rs| - from
  {
    if rs[from].id != id {
      RequestStays(rs, rs', id, from + 1);
    }
  }

  /** A code that made a request makes no other, whatever happens in between. */
  lemma CodeWorksOnce(s: State, now: real, code: string, id: string, endpoint: string, name: string, kind: string,
          rooms: seq<string>, capabilities: seq<string>, storage: string, events: seq<Event>, now': real,
          id': string, endpoint': string, name': string, kind': string, rooms': seq<string>,
          capabilities': seq<string>, storage': string)
    requires SubmitRequest(s, now, code, id, endpoint, name, kind, rooms, capabilities, storage).result.Ok?
    ensures var s1 := SubmitRequest(s, now, code, id, endpoint, name, kind, rooms, capabilities, storage).state;
      var s2 := Final(s1, events);
      var reply := SubmitRequest(s2, now', code, id', endpoint', name', kind', rooms', capabilities', storage');
      reply.result.Err? && reply.state == s2
  {
    var s1 := SubmitRequest(s, now, code, id, endpoint, name, kind, rooms, capabilities, storage).state;
    OfferStays(s.offers, s1.offers, code, 0);
    RunSettles(s1, events);
    OfferStays(s1.offers, Final(s1, events).offers, code, 0);
  }

  /** A new code works until its offer runs out, and not from then on. */
  lemma NewCodeWorksUntilItRunsOut(s: State, t: real, offerId: string, code: string, ttl: int, now: real,
          id: string, endpoint: string, name: string, kind: string, rooms: seq<string>, capabilities: seq<string>,
          storage: string)
    requires CreateOffer(s, t, offerId, code, ttl).result.Ok?
    requires forall i :: 0 <= i < |s.offers| ==> s.offers[i].code != code
    requires ValidId(id) && ValidId(endpoint) && ValidId(name) && ValidId(kind) && StorageOk(kind, storage)
    requires ValidScope(Scope(rooms, capabilities, [], None))
    requires KindAllows(kind, storage, Scope(rooms, capabilities, [], None), false)
    ensures var s1 := CreateOffer(s, t, offerId, code, ttl).state;
      SubmitRequest(s1, now, code, id, endpoint, name, kind, rooms, capabilities, storage).result.Ok? <==>
          now < t + ttl as real
  {
    NewestCode(CreateOffer(s, t, offerId, code, ttl).state.offers, code, 0);
  }

  lemma {:induction false} NewestCode(os: seq<Offer>, code: string, from: nat)
    requires from < |os| && os[|os| - 1].code == code && forall i :: 0 <= i < |os| - 1 ==> os[i].code != code
    ensures FindOfferByCode(os, code, from) == Some(|os| - 1)
    decreases |os| - from
  {
    if from < |os| - 1 {
      NewestCode(os, code, from + 1);
    }
  }

  /** A rejected request is never consumed nor approved, whatever happens in between. */
  lemma RejectionIsFinal(s: State, t: real, id: string, events: seq<Event>, now: real, code: string,
          storage: string, shared: Option<set<string>>, token: string, freshDevice: string, grantIds: seq<string>)
    requires RejectRequest(s, t, id).result.Ok?
    ensures var s' := Final(RejectRequest(s, t, id).state, events);
      && ConsumeRequest(s', now, id, code, storage, shared, token, freshDevice, grantIds) ==
      Reply(s', Err(RequestRejected))
      && PendingRequest(s', now, id) == Err(Conflict)
  {
    var s1 := RejectRequest(s, t, id).state;
    RequestStays(s.requests, s1.requests, id, 0);
    RunSettles(s1, events);
    RequestStays(s1.requests, Final(s1, events).requests, id, 0);
  }

  // ------------------------------------------------------------ touch bindings

  /** A touch binding is read as a list of distinct values, so a scope may carry
      one exactly when its Room and its Profile have different identifiers. */
  lemma TouchBindingNeedsTwoNames(scope: Scope, room: string, profile: string)
    requires ValidScope(scope.(touch := None)) && ValidId(room) && ValidId(profile)
    ensures ValidScope(scope.(touch := Some(TouchBinding(room, profile)))) <==> room != profile
  {
    var values := [room, profile];
    assert values[0] == room && values[1] == profile;
  }

  const PANEL: seq<Event> := [
    Event(0.0, OpOffer("offer", "code", 300)),
    Event(1.0, OpSubmit("code", "request", "panel", "Panel", "panel", ["kitchen"], ["touch_claim"], PLATFORM_STORAGE))]

  function PanelScope(profile: string): Scope {
    Scope(["kitchen"], ["touch_claim"], [], Some(TouchBinding("kitchen", profile)))
  }

  lemma PanelAsks()
    ensures var s := Final(EMPTY, PANEL);
      s.requests == [Request("request", "offer", "panel", "Panel", "panel",
                             Scope(["kitchen"], ["touch_claim"], [], None),
                             PLATFORM_STORAGE, 300.0, ReqPending, None, [])]
  {
    var s1 := Next(EMPTY, PANEL[0]);
    assert s1.offers == [Offer("offer", "code", 300.0, OfferOpen)];
    var s2 := Next(s1, PANEL[1]);
    assert PANEL[1..] == [PANEL[1]] && PANEL[1..][1..] == [];
    assert Final(EMPTY, PANEL) == Final(s1, [PANEL[1]]) == s2;
  }

  /** A household whose kitchen Profile is called "kitchen" too cannot bind it to
      the kitchen panel, though the policy allows it; under another name it can. */
  lemma SameNameIsRefused()
    ensures var s := Final(EMPTY, PANEL);
      && |s.requests| == 1
      && Approvable(s.requests[0], PanelScope("kitchen"), {"kitchen"}, {}, {"kitchen", "chef"}, [])
      && ApproveRequest(s, 2.0, "request", PanelScope("kitchen"), {"kitchen"}, {}, {"kitchen", "chef"}, []).result ==
      Err(Invalid)
      && ApproveRequest(s, 2.0, "request", PanelScope("chef"), {"kitchen"}, {}, {"kitchen", "chef"}, []).result.Ok?
  {
    PanelAsks();
    TouchBindingNeedsTwoNames(PanelScope("kitchen"), "kitchen", "kitchen");
    TouchBindingNeedsTwoNames(PanelScope("chef"), "kitchen", "chef");
    hide ValidScope;
  }
}
