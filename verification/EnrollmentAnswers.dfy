/**
  When an offer, a request for it, its approval and its consumption succeed,
  which error they give otherwise, and what they write, in terms of the stored
  records alone.
 */
module EnrollmentAnswers {
  import opened Wrappers
  import opened Credentials

  // --------------------------------------------------------------- the record

  /** The records a lookup goes by: the first with the ID, or with the code. */
  ghost predicate RequestAt(s: State, id: string, k: int) {
    0 <= k < |s.requests| && s.requests[k].id == id && forall j :: 0 <= j < k ==> s.requests[j].id != id
  }

  ghost predicate OfferAt(s: State, id: string, k: int) {
    0 <= k < |s.offers| && s.offers[k].id == id && forall j :: 0 <= j < k ==> s.offers[j].id != id
  }

  ghost predicate CodeAt(s: State, code: string, k: int) {
    0 <= k < |s.offers| && s.offers[k].code == code && forall j :: 0 <= j < k ==> s.offers[j].code != code
  }

  lemma {:induction false} FindsRequest(s: State, id: string, from: nat)
    requires from <= |s.requests| && forall j :: 0 <= j < from ==> s.requests[j].id != id
    ensures var r := FindRequest(s.requests, id, from);
      (forall k :: RequestAt(s, id, k) <==> r == Some(k)) && (r.None? <==> forall k :: !RequestAt(s, id, k))
    decreases |s.requests| - from
  {
    if from < |s.requests| {
      if s.requests[from].id == id {
        assert RequestAt(s, id, from);
      } else {
        FindsRequest(s, id, from + 1);
      }
    }
  }

  lemma {:induction false} FindsOffer(s: State, id: string, from: nat)
    requires from <= |s.offers| && forall j :: 0 <= j < from ==> s.offers[j].id != id
    ensures var r := FindOffer(s.offers, id, from);
      (forall k :: OfferAt(s, id, k) <==> r == Some(k)) && (r.None? <==> forall k :: !OfferAt(s, id, k))
    decreases |s.offers| - from
  {
    if from < |s.offers| {
      if s.offers[from].id == id {
        assert OfferAt(s, id, from);
      } else {
        FindsOffer(s, id, from + 1);
      }
    }
  }

  lemma {:induction false} FindsCode(s: State, code: string, from: nat)
    requires from <= |s.offers| && forall j :: 0 <= j < from ==> s.offers[j].code != code
    ensures var r := FindOfferByCode(s.offers, code, from);
      (forall k :: CodeAt(s, code, k) <==> r == Some(k)) && (r.None? <==> forall k :: !CodeAt(s, code, k))
    decreases |s.offers| - from
  {
    if from < |s.offers| {
      if s.offers[from].code == code {
        assert CodeAt(s, code, from);
      } else {
        FindsCode(s, code, from + 1);
      }
    }
  }

  // -------------------------------------------------------------- consumption

  /** Approved, and its time has not run out. */
  ghost predicate Ready(q: Request, now: real) { q.status == ReqApproved && now < q.expiresAt }

  /** The storage is the one the request attested, and one its endpoint type may use. */
  ghost predicate Attested(q: Request, storage: string) {
    && storage == q.storage
    && ((storage == "platform_secure_store" && q.kind != "browser")
        || (storage == "service_private_file" && (q.kind == "browser" || q.kind == "puck")))
  }

  /** Shared Profiles can be told apart from owned ones, where the request has any. */
  ghost predicate ProfilesKnown(q: Request, shared: Option<set<string>>) { q.profiles == [] || shared.Some? }

  ghost predicate CodeFits(offer: Option<Offer>, code: string) { offer.Some? && offer.value.code == code }

  ghost predicate Consumes(q: Request, offer: Option<Offer>, now: real, code: string, storage: string,
          shared: Option<set<string>>, token: string)
  {
    && Ready(q, now) && q.approved.Some? && Attested(q, storage) && ProfilesKnown(q, shared)
    && CodeFits(offer, code) && offer.value.status == OfferPending && token != ""
  }

  /** When each error is given for a stored request. */
  ghost predicate ConsumeFails(e: Error, q: Request, offer: Option<Offer>, now: real, code: string, storage: string,
          shared: Option<set<string>>, token: string)
  {
    var fit := Ready(q, now) && Attested(q, storage) && ProfilesKnown(q, shared);
    match e
    case ExpiredOrConsumed =>
      || q.status == ReqConsumed || q.status == ReqExpired
      || (q.status != ReqRejected && q.expiresAt <= now)
      || (fit && CodeFits(offer, code) && offer.value.status != OfferPending)
    case ApprovalPending => q.status == ReqPending && now < q.expiresAt
    case RequestRejected => q.status == ReqRejected
    case Unavailable => Ready(q, now) && Attested(q, storage) && !ProfilesKnown(q, shared)
    case Unauthorized => fit && !CodeFits(offer, code)
    case Invalid =>
      || (Ready(q, now) && !Attested(q, storage))
      || (fit && CodeFits(offer, code) && offer.value.status == OfferPending && (token == "" || q.approved.None?))
    case _ => false
  }

  /** The offer a request was made with. */
  ghost function OfferOf(s: State, q: Request): Option<Offer> {
    if k :| OfferAt(s, q.offerId, k) then Some(s.offers[k]) else None
  }

  /** A consumption succeeds exactly when the named request is approved and in
      time, the storage is the attested one, shared Profiles are known if they
      are needed, and the code is that of the request's own offer, still
      pending; each error has its own condition and leaves the state unchanged. */
  lemma ConsumptionIsAnswered(s: State, now: real, id: string, code: string, storage: string,
          shared: Option<set<string>>, token: string, freshDevice: string, grantIds: seq<string>, e: Error)
    ensures var reply := ConsumeRequest(s, now, id, code, storage, shared, token, freshDevice, grantIds);
      && (reply.result.Err? ==> reply.state == s)
      && (forall k :: RequestAt(s, id, k) ==>
            var q := s.requests[k];
            && (reply.result.Ok? <==> Consumes(q, OfferOf(s, q), now, code, storage, shared, token))
            && (reply.result == Err(e) <==> ConsumeFails(e, q, OfferOf(s, q), now, code, storage, shared, token)))
      && ((forall k :: !RequestAt(s, id, k)) ==> reply.result == Err(NotFound))
  {
    FindsRequest(s, id, 0);
    var found := FindRequest(s.requests, id);
    if found.Some? {
      FindsOffer(s, s.requests[found.value].offerId, 0);
      KnownRequestConsumes(s, now, id, code, storage, shared, token, freshDevice, grantIds, e);
    }
  }

  lemma KnownRequestConsumes(s: State, now: real, id: string, code: string, storage: string,
          shared: Option<set<string>>, token: string, freshDevice: string, grantIds: seq<string>, e: Error)
    requires FindRequest(s.requests, id).Some?
    requires var q := s.requests[FindRequest(s.requests, id).value];
      forall k :: OfferAt(s, q.offerId, k) <==> FindOffer(s.offers, q.offerId) == Some(k)
    ensures var reply := ConsumeRequest(s, now, id, code, storage, shared, token, freshDevice, grantIds);
      var q := s.requests[FindRequest(s.requests, id).value];
      && (reply.result.Err? ==> reply.state == s)
      && (reply.result.Ok? <==> Consumes(q, OfferOf(s, q), now, code, storage, shared, token))
      && (reply.result == Err(e) <==> ConsumeFails(e, q, OfferOf(s, q), now, code, storage, shared, token))
  {
    hide Enroll, Consumable;
    var k := FindRequest(s.requests, id).value;
    var o := FindOffer(s.offers, s.requests[k].offerId);
    assert o.Some? ==> OfferAt(s, s.requests[k].offerId, o.value);
    var offer := if o.Some? then Some(s.offers[o.value]) else None;
    assert OfferOf(s, s.requests[k]) == offer;
    ChecksAreExact(s, now, id, code, storage, shared, offer, e);
    ChecksAreExact(s, now, id, code, storage, shared, offer, Invalid);
    var checked := Consumable(s, now, id, code, storage, shared);
    if checked.Ok? && token != "" && s.requests[k].approved.Some? {
      EnrollmentSucceeds(s, now, checked.value.0, checked.value.1, if shared.Some? then shared.value else {}, token,
                         freshDevice, grantIds);
    }
  }

  /** The checks before the token is drawn. */
  lemma ChecksAreExact(s: State, now: real, id: string, code: string, storage: string, shared: Option<set<string>>,
          offer: Option<Offer>, e: Error)
    requires FindRequest(s.requests, id).Some?
    requires var o := FindOffer(s.offers, s.requests[FindRequest(s.requests, id).value].offerId);
      offer == if o.Some? then Some(s.offers[o.value]) else None
    ensures var k := FindRequest(s.requests, id).value;
      var q := s.requests[k].(approved := Some(Scope([], [], [], None)));
      var r := Consumable(s, now, id, code, storage, shared);
      && (r.Ok? ==> r.value.0 == k)
      && (r.Ok? <==> Consumes(q, offer, now, code, storage, shared, "token"))
      && (r == Err(e) <==> ConsumeFails(e, q, offer, now, code, storage, shared, "token"))
  {
  }

  lemma EnrollmentSucceeds(s: State, now: real, k: nat, o: nat, shared: set<string>, token: string,
          freshDevice: string, grantIds: seq<string>)
    requires k < |s.requests| && o < |s.offers| && s.requests[k].approved.Some?
    ensures Enroll(s, now, k, o, shared, token, freshDevice, grantIds).result.Ok?
  {
  }

  /** The endpoint's records are all revoked, and a new one of the next
      generation is the device's: its old device ID if the endpoint had one. */
  ghost predicate Reenrolled(cs: seq<Credential>, cs': seq<Credential>, q: Request, now: real, token: string,
          freshDevice: string)
  {
    && |cs'| == |cs| + 1
    && (forall i :: 0 <= i < |cs| ==>
          cs'[i] == if cs[i].endpoint == q.endpoint then cs[i].(status := CredRevoked) else cs[i])
    && var c := cs'[|cs|];
       && q.approved == Some(c.scope) && c.endpoint == q.endpoint && c.name == q.name && c.kind == q.kind
       && c.status == CredActive && c.token == token && c.issuedAt == now && c.expiresAt == now + 7776000.0
       && c.generation >= 1
       && (forall i :: 0 <= i < |cs| && cs[i].endpoint == q.endpoint ==> cs[i].generation < c.generation)
       && (c.generation > 1 ==>
             exists i :: 0 <= i < |cs| && cs[i].endpoint == q.endpoint && cs[i].generation == c.generation - 1)
       && (if exists i :: 0 <= i < |cs| && cs[i].endpoint == q.endpoint
           then exists i :: 0 <= i < |cs| && cs[i].endpoint == q.endpoint && cs[i].device == c.device
           else c.device == freshDevice)
  }

  /** Another device holds an active grant on the Profile and can still authenticate. */
  ghost predicate OwnedElsewhere(gs: seq<Grant>, cs: seq<Credential>, now: real, device: string, profile: string) {
    exists i, j :: 0 <= i < |gs| && 0 <= j < |cs| && gs[i].profile == profile && gs[i].status == GrantActive
                   && gs[i].device != device && gs[i].device == cs[j].device && CanAuthenticate(cs[j], now)
  }

  /** Active and in time, or replaced and within the overlap. */
  ghost predicate CanAuthenticate(c: Credential, now: real) {
    (c.status == CredActive && now < c.expiresAt) || (c.status == CredReplaced && now < c.overlapUntil)
  }

  /** The device's live grants end, pending ones out of time expire, and each
      approved Profile gets a grant: active if it is shared or nobody else's,
      else waiting a day for its owner. */
  ghost predicate Granted(gs: seq<Grant>, gs': seq<Grant>, cs': seq<Credential>, q: Request, device: string,
          shared: set<string>, now: real, grantIds: seq<string>)
  {
    && |gs'| == |gs| + |q.profiles|
    && (forall i :: 0 <= i < |gs| ==> gs'[i] == gs[i].(status := AfterReenrolment(gs[i], device, now)))
    && forall i :: 0 <= i < |q.profiles| ==>
         var g, owned := gs'[|gs| + i], OwnedElsewhere(gs, cs', now, device, q.profiles[i]);
         && g.device == device && g.profile == q.profiles[i] && g.name == q.name && g.kind == q.kind
         && (i < |grantIds| ==> g.id == grantIds[i])
         && g.status == (if q.profiles[i] !in shared && owned then GrantPending else GrantActive)
         && (g.bootstrap <==> q.profiles[i] !in shared && !owned)
         && g.createdAt == now && g.pendingUntil == now + 86400.0 && g.decidedBy == None
  }

  function AfterReenrolment(g: Grant, device: string, now: real): GrantStatus {
    if g.status == GrantPending && g.pendingUntil <= now then GrantExpired
    else if g.device == device && (g.status == GrantActive || g.status == GrantPending) then GrantRevoked
    else g.status
  }

  /** What a consumption of request `k` under offer `o` writes. */
  ghost predicate ConsumptionWrites(s: State, s': State, k: nat, o: nat, now: real, shared: set<string>,
          token: string, freshDevice: string, grantIds: seq<string>)
    requires k < |s.requests| && o < |s.offers|
  {
    && s'.offers == s.offers[o := s.offers[o].(status := OfferConsumed)]
    && s'.requests == s.requests[k := s.requests[k].(status := ReqConsumed)]
    && Reenrolled(s.credentials, s'.credentials, s.requests[k], now, token, freshDevice)
    && Granted(s.grants, s'.grants, s'.credentials, s.requests[k], s'.credentials[|s.credentials|].device, shared, now,
               grantIds)
    && (s'.replacements == s.replacements
        || AllErased(s.replacements, s'.replacements, s'.credentials[|s.credentials|].device))
    && s'.grantRequests == s.grantRequests && s'.projections == s.projections
  }

  /** The device's replacements are revoked and their tokens erased. */
  ghost predicate AllErased(rs: seq<Replacement>, rs': seq<Replacement>, device: string) {
    && |rs'| == |rs|
    && forall i :: 0 <= i < |rs| ==>
         rs'[i] == if rs[i].device == device then rs[i].(status := RepRevoked, cipher := Erased) else rs[i]
  }

  /** A consumption that succeeds writes all of that, for the named request and
      its own offer, and answers the new record. */
  lemma ConsumptionIsWritten(s: State, now: real, id: string, code: string, storage: string,
          shared: Option<set<string>>, token: string, freshDevice: string, grantIds: seq<string>, k: nat, o: nat)
    requires ConsumeRequest(s, now, id, code, storage, shared, token, freshDevice, grantIds).result.Ok?
    requires RequestAt(s, id, k) && OfferAt(s, s.requests[k].offerId, o)
    ensures var reply := ConsumeRequest(s, now, id, code, storage, shared, token, freshDevice, grantIds);
      && ConsumptionWrites(s, reply.state, k, o, now, if shared.Some? then shared.value else {}, token, freshDevice,
                           grantIds)
      && var m, c := reply.result.value.material, reply.state.credentials[|s.credentials|];
         && m.device == c.device && m.token == token && m.generation == c.generation && m.expiresAt == c.expiresAt
         && m.scope == c.scope && m.grants == reply.state.grants[|s.grants|..]
  {
    FindsRequest(s, id, 0);
    FindsOffer(s, s.requests[k].offerId, 0);
    CheckedPair(s, now, id, code, storage, shared, k, o);
    EnrollWrites(s, now, k, o, if shared.Some? then shared.value else {}, token, freshDevice, grantIds);
    hide Enroll, ConsumptionWrites;
  }

  lemma CheckedPair(s: State, now: real, id: string, code: string, storage: string, shared: Option<set<string>>,
          k: nat, o: nat)
    requires FindRequest(s.requests, id) == Some(k) && FindOffer(s.offers, s.requests[k].offerId) == Some(o)
    requires Consumable(s, now, id, code, storage, shared).Ok?
    ensures Consumable(s, now, id, code, storage, shared) == Ok((k, o))
  {
  }

  lemma EnrollWrites(s: State, now: real, k: nat, o: nat, shared: set<string>, token: string, freshDevice: string,
          grantIds: seq<string>)
    requires k < |s.requests| && o < |s.offers| && s.requests[k].approved.Some?
    ensures var reply := Enroll(s, now, k, o, shared, token, freshDevice, grantIds);
      && ConsumptionWrites(s, reply.state, k, o, now, shared, token, freshDevice, grantIds)
      && reply.result.Ok?
      && var m, c := reply.result.value.material, reply.state.credentials[|s.credentials|];
         && m.device == c.device && m.token == token && m.generation == c.generation && m.expiresAt == c.expiresAt
         && m.scope == c.scope && m.grants == reply.state.grants[|s.grants|..]
  {
    var s' := Enroll(s, now, k, o, shared, token, freshDevice, grantIds).state;
    var device := s'.credentials[|s.credentials|].device;
    var kept := EndGrants(ExpirePending(s.grants, now), device);
    IssuedOn(s.grants, kept, s'.credentials, s.requests[k], device, shared, now, grantIds);
    assert s'.grants[|s.grants|..] ==
           IssuedGrants(kept, LiveDevices(s'.credentials, now), device, s.requests[k], shared, now, grantIds);
  }

  lemma IssuedOn(gs: seq<Grant>, kept: seq<Grant>, cs: seq<Credential>, q: Request, device: string,
          shared: set<string>, now: real, grantIds: seq<string>)
    requires kept == EndGrants(ExpirePending(gs, now), device)
    ensures var issued := IssuedGrants(kept, LiveDevices(cs, now), device, q, shared, now, grantIds);
      Granted(gs, kept + issued, cs, q, device, shared, now, grantIds)
  {
    forall i | 0 <= i < |q.profiles|
      ensures HeldElsewhere(kept, LiveDevices(cs, now), device, q.profiles[i]) <==>
              OwnedElsewhere(gs, cs, now, device, q.profiles[i])
    {
      HeldIsOwned(gs, kept, cs, now, device, q.profiles[i]);
    }
  }

  lemma HeldIsOwned(gs: seq<Grant>, kept: seq<Grant>, cs: seq<Credential>, now: real, device: string, profile: string)
    requires kept == EndGrants(ExpirePending(gs, now), device)
    ensures HeldElsewhere(kept, LiveDevices(cs, now), device, profile) <==>
            OwnedElsewhere(gs, cs, now, device, profile)
  {
    LiveAre(cs, now);
    assert forall i :: 0 <= i < |gs| && gs[i].device != device ==>
             (kept[i].status == GrantActive <==> gs[i].status == GrantActive);
    if OwnedElsewhere(gs, cs, now, device, profile) {
      var i, j :| 0 <= i < |gs| && 0 <= j < |cs| && gs[i].profile == profile && gs[i].status == GrantActive
                  && gs[i].device != device && gs[i].device == cs[j].device && CanAuthenticate(cs[j], now);
      assert kept[i].device in LiveDevices(cs, now);
    }
  }

  lemma LiveAre(cs: seq<Credential>, now: real)
    ensures forall d :: d in LiveDevices(cs, now) <==>
              exists j :: 0 <= j < |cs| && cs[j].device == d && CanAuthenticate(cs[j], now)
  {
    assert forall j :: 0 <= j < |cs| ==> (Accepts(cs[j], now, true) <==> CanAuthenticate(cs[j], now));
  }

  // --------------------------------------------------- offers and requests

  /** An offer stands for 1 to 300 seconds from the reading it is made at. */
  lemma OfferIsAnswered(s: State, now: real, id: string, code: string, ttl: int)
    ensures var reply := CreateOffer(s, now, id, code, ttl);
      if 1 <= ttl <= 300 && 1 <= |id| <= 128 && code != "" then
        && reply.result == Ok(now + ttl as real)
        && reply.state == s.(offers := s.offers + [Offer(id, code, now + ttl as real, OfferOpen)])
      else reply == Reply(s, Err(Invalid))
  {
  }

  ghost predicate Identifier(value: string) { 1 <= |value| <= 128 }

  ghost predicate DistinctIdentifiers(values: seq<string>) {
    && (forall i :: 0 <= i < |values| ==> Identifier(values[i]))
    && (forall i, j :: 0 <= i < j < |values| ==> values[i] != values[j])
  }

  /** The storage an endpoint type may attest, and what an endpoint with private storage may ask for. */
  ghost predicate MayAsk(kind: string, storage: string, rooms: seq<string>, capabilities: seq<string>) {
    && ((storage == "platform_secure_store" && kind != "browser")
        || (storage == "service_private_file" && (kind == "browser" || kind == "puck")))
    && (kind == "browser" ==> capabilities == ["client_claim"] && rooms == [])
    && (kind == "puck" && storage == "service_private_file" ==> |rooms| == 1 && capabilities == ["wake_claim"])
  }

  ghost predicate WellAsked(code: string, id: string, endpoint: string, name: string, kind: string,
          rooms: seq<string>, capabilities: seq<string>, storage: string)
  {
    && code != "" && Identifier(id) && Identifier(endpoint) && Identifier(name) && Identifier(kind)
    && DistinctIdentifiers(rooms) && DistinctIdentifiers(capabilities)
    && (forall i :: 0 <= i < |capabilities| ==> capabilities[i] in SUPPORTED_CAPABILITIES)
    && MayAsk(kind, storage, rooms, capabilities)
  }

  /** A request is stored exactly when it is well asked and its code is that of
      an offer still open and in time, which it then uses up. */
  lemma SubmissionIsAnswered(s: State, now: real, code: string, id: string, endpoint: string, name: string,
          kind: string, rooms: seq<string>, capabilities: seq<string>, storage: string)
    ensures var reply := SubmitRequest(s, now, code, id, endpoint, name, kind, rooms, capabilities, storage);
      var well := WellAsked(code, id, endpoint, name, kind, rooms, capabilities, storage);
      && (!well ==> reply == Reply(s, Err(Invalid)))
      && (well && (forall k :: !CodeAt(s, code, k)) ==> reply == Reply(s, Err(Unauthorized)))
      && (forall k :: CodeAt(s, code, k) && well ==>
            if s.offers[k].status == OfferOpen && now < s.offers[k].expiresAt then
              var q := Request(id, s.offers[k].id, endpoint, name, kind, Scope(rooms, capabilities, [], None), storage,
                               s.offers[k].expiresAt, ReqPending, None, []);
              reply == Reply(s.(offers := s.offers[k := s.offers[k].(status := OfferPending)],
                                requests := s.requests + [q]), Ok(q))
            else reply == Reply(s, Err(ExpiredOrConsumed)))
  {
    FindsCode(s, code, 0);
    AskedExactly(code, id, endpoint, name, kind, rooms, capabilities, storage);
  }

  lemma AskedExactly(code: string, id: string, endpoint: string, name: string, kind: string, rooms: seq<string>,
          capabilities: seq<string>, storage: string)
    ensures var scope := Scope(rooms, capabilities, [], None);
      WellAsked(code, id, endpoint, name, kind, rooms, capabilities, storage) <==>
          !(code == "" || !ValidId(endpoint) || !ValidId(name) || !ValidId(kind) || !StorageOk(kind, storage)
            || !ValidScope(scope) || !KindAllows(kind, storage, scope, false) || !ValidId(id))
  {
  }

  ghost predicate Covers(ys: seq<string>, xs: seq<string>) { forall i :: 0 <= i < |xs| ==> xs[i] in ys }

  /** The scope is one the endpoint asked for and the household has, its touch
      binding is within it, and client claims come with Profiles and with no
      Room claims. */
  ghost predicate MayApprove(q: Request, scope: Scope, rooms: set<string>, mappings: set<string>,
          profiles: set<string>, clientProfiles: seq<string>)
  {
    && DistinctIdentifiers(scope.rooms) && DistinctIdentifiers(scope.capabilities)
    && DistinctIdentifiers(scope.wakeMappings)
    && Covers(q.requested.rooms, scope.rooms) && Covers(q.requested.capabilities, scope.capabilities)
    && (forall i :: 0 <= i < |scope.capabilities| ==> scope.capabilities[i] in SUPPORTED_CAPABILITIES)
    && (forall i :: 0 <= i < |scope.rooms| ==> scope.rooms[i] in rooms)
    && (forall i :: 0 <= i < |scope.wakeMappings| ==> scope.wakeMappings[i] in mappings)
    && (scope.touch.Some? ==>
          && "touch_claim" in scope.capabilities && scope.touch.value.room in scope.rooms
          && scope.touch.value.profile in profiles && scope.touch.value.room != scope.touch.value.profile
          && Identifier(scope.touch.value.room) && Identifier(scope.touch.value.profile))
    && ("client_claim" in scope.capabilities ==>
          && "wake_claim" !in scope.capabilities && "touch_claim" !in scope.capabilities
          && q.kind in {"tui", "ios", "macos", "android", "browser"} && clientProfiles != []
          && forall i :: 0 <= i < |clientProfiles| ==> clientProfiles[i] in profiles)
    && ("client_claim" !in scope.capabilities ==> clientProfiles == [])
    && (q.kind == "browser" ==>
          scope.capabilities == ["client_claim"] && scope.rooms == [] && scope.wakeMappings == [] && scope.touch.None?)
    && (q.kind == "puck" && q.storage == "service_private_file" ==>
          && |scope.rooms| == 1 && scope.capabilities == ["wake_claim"] && scope.wakeMappings != []
          && scope.touch.None?)
  }

  /** The error a decision on a request gives when the request is not open. */
  ghost function ClosedError(q: Request, now: real): Option<Error> {
    if q.status == ReqExpired || (q.status == ReqPending && q.expiresAt <= now) then Some(ExpiredOrConsumed)
    else if q.status != ReqPending then Some(Conflict)
    else None
  }

  /** A request is approved exactly when it is pending and in time, the Profiles
      are at most 16 distinct ones and the policy allows the scope. */
  lemma ApprovalIsAnswered(s: State, now: real, id: string, scope: Scope, rooms: set<string>, mappings: set<string>,
          profiles: set<string>, clientProfiles: seq<string>)
    ensures var reply := ApproveRequest(s, now, id, scope, rooms, mappings, profiles, clientProfiles);
      var well := Identifier(id) && DistinctIdentifiers(clientProfiles) && |clientProfiles| <= 16;
      && (!well ==> reply == Reply(s, Err(Invalid)))
      && (well && (forall k :: !RequestAt(s, id, k)) ==> reply == Reply(s, Err(NotFound)))
      && (forall k :: RequestAt(s, id, k) && well ==>
            var q := s.requests[k];
            if ClosedError(q, now).Some? then reply == Reply(s, Err(ClosedError(q, now).value))
            else if !MayApprove(q, scope, rooms, mappings, profiles, clientProfiles)
            then reply == Reply(s, Err(Invalid))
            else
              var q' := q.(status := ReqApproved, approved := Some(scope), profiles := clientProfiles);
              reply == Reply(s.(requests := s.requests[k := q']), Ok(q')))
  {
    FindsRequest(s, id, 0);
    var found := FindRequest(s.requests, id);
    if found.Some? {
      MayApproveExactly(s.requests[found.value], scope, rooms, mappings, profiles, clientProfiles);
    }
  }

  lemma MayApproveExactly(q: Request, scope: Scope, rooms: set<string>, mappings: set<string>,
          profiles: set<string>, clientProfiles: seq<string>)
    ensures MayApprove(q, scope, rooms, mappings, profiles, clientProfiles) <==>
            Approvable(q, scope, rooms, mappings, profiles, clientProfiles) && ValidScope(scope)
  {
    if scope.touch.Some? {
      var pair := [scope.touch.value.room, scope.touch.value.profile];
      assert pair[0] == scope.touch.value.room && pair[1] == scope.touch.value.profile;
    }
  }

  lemma RejectionIsAnswered(s: State, now: real, id: string)
    ensures var reply := RejectRequest(s, now, id);
      && ((forall k :: !RequestAt(s, id, k)) ==> reply == Reply(s, Err(NotFound)))
      && (forall k :: RequestAt(s, id, k) ==>
            var q := s.requests[k];
            if ClosedError(q, now).Some? then reply == Reply(s, Err(ClosedError(q, now).value))
            else
              reply == Reply(s.(requests := s.requests[k := q.(status := ReqRejected)]),
                             Ok(q.(status := ReqRejected))))
  {
    FindsRequest(s, id, 0);
  }

  /** Listing marks exactly the offers still open or in use and the requests not
      yet consumed whose time has run out, and answers the requests so marked. */
  lemma ListingIsAnswered(s: State, now: real)
    ensures var reply := ListRequests(s, now);
      && |reply.state.offers| == |s.offers| && |reply.state.requests| == |s.requests|
      && (forall i :: 0 <= i < |s.offers| ==>
            reply.state.offers[i] ==
            if s.offers[i].status in {OfferOpen, OfferPending} && s.offers[i].expiresAt <= now
            then s.offers[i].(status := OfferExpired) else s.offers[i])
      && (forall i :: 0 <= i < |s.requests| ==>
            reply.state.requests[i] ==
            if s.requests[i].status in {ReqPending, ReqApproved} && s.requests[i].expiresAt <= now
            then s.requests[i].(status := ReqExpired) else s.requests[i])
      && reply.result == Ok(reply.state.requests)
      && reply.state == s.(offers := reply.state.offers, requests := reply.state.requests)
  {
  }
}
