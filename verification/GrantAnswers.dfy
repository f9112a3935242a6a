/**
  What adding, deciding and revoking a client grant answer and write, and which
  grants are current, in terms of the stored records alone.
 */
module GrantAnswers {
  import opened Wrappers
  import opened Credentials
  import opened EnrollmentAnswers

  // --------------------------------------------------------------- the record

  ghost predicate GrantAt(gs: seq<Grant>, id: string, k: int) {
    0 <= k < |gs| && gs[k].id == id && forall j :: 0 <= j < k ==> gs[j].id != id
  }

  lemma {:induction false} FindsGrant(gs: seq<Grant>, id: string, from: nat)
    requires from <= |gs| && forall j :: 0 <= j < from ==> gs[j].id != id
    ensures var r := FindGrant(gs, id, from);
      (forall k :: GrantAt(gs, id, k) <==> r == Some(k)) && (r.None? <==> forall k :: !GrantAt(gs, id, k))
    decreases |gs| - from
  {
    if from < |gs| {
      if gs[from].id == id {
        assert GrantAt(gs, id, from);
      } else {
        FindsGrant(gs, id, from + 1);
      }
    }
  }

  // ------------------------------------------------------------ client grants

  /** The records with those pending out of time marked expired. */
  ghost function Swept(gs: seq<Grant>, now: real): seq<Grant> {
    seq(|gs|, i requires 0 <= i < |gs| =>
      if gs[i].status == GrantPending && gs[i].pendingUntil <= now then gs[i].(status := GrantExpired) else gs[i])
  }

  lemma SweptIsExpired(gs: seq<Grant>, now: real)
    ensures Swept(gs, now) == ExpirePending(gs, now)
  {
  }

  /** The device holds an active grant on the Profile. */
  ghost predicate Owns(gs: seq<Grant>, device: string, profile: string) {
    exists i :: 0 <= i < |gs| && gs[i].device == device && gs[i].profile == profile && gs[i].status == GrantActive
  }

  /** An owner's decision takes effect exactly when it does not come from an
      active browser, the grant is pending in time and another device's, and the
      approver holds an active grant on its Profile. */
  lemma DecisionIsAnswered(s: State, now: real, approver: string, id: string, approve: bool)
    ensures var reply := DecideGrant(s, now, approver, id, approve);
      var browser := exists i :: 0 <= i < |s.credentials| && s.credentials[i].device == approver
                                 && s.credentials[i].kind == "browser" && s.credentials[i].status == CredActive;
      && (browser ==> reply == Reply(s, Err(Forbidden)))
      && (!browser && (forall k :: !GrantAt(s.grants, id, k)) ==> reply == Reply(s, Err(NotFound)))
      && (forall k :: GrantAt(s.grants, id, k) && !browser ==>
            var g := s.grants[k];
            if !(g.status == GrantPending && now < g.pendingUntil) then reply == Reply(s, Err(NotFound))
            else if g.device == approver || !Owns(s.grants, approver, g.profile)
            then reply == Reply(s, Err(Unauthorized))
            else
              var g' := g.(status := if approve then GrantActive else GrantRejected, decidedBy := Some(approver));
              reply == Reply(s.(grants := Swept(s.grants, now)[k := g']), Ok(g')))
  {
    GrantsAreFound(s, now, id);
    forall profile
      ensures HoldsProfile(ExpirePending(s.grants, now), approver, profile) <==> Owns(s.grants, approver, profile)
    {
      SweepingKeepsOwners(s.grants, now, approver, profile);
    }
  }

  lemma GrantsAreFound(s: State, now: real, id: string)
    ensures Swept(s.grants, now) == ExpirePending(s.grants, now)
    ensures var r := FindGrant(ExpirePending(s.grants, now), id);
      (forall k :: GrantAt(s.grants, id, k) <==> r == Some(k)) && (r.None? <==> forall k :: !GrantAt(s.grants, id, k))
  {
    SweptIsExpired(s.grants, now);
    FindsGrant(ExpirePending(s.grants, now), id, 0);
    SameIds(s.grants, ExpirePending(s.grants, now), id);
  }

  lemma SameIds(gs: seq<Grant>, gs': seq<Grant>, id: string)
    requires |gs'| == |gs| && forall j :: 0 <= j < |gs| ==> gs'[j].id == gs[j].id
    ensures forall k :: GrantAt(gs, id, k) <==> GrantAt(gs', id, k)
  {
    forall k | GrantAt(gs', id, k)
      ensures GrantAt(gs, id, k)
    {
      assert forall j :: 0 <= j < k ==> gs'[j].id != id;
    }
  }

  lemma SweepingKeepsOwners(gs: seq<Grant>, now: real, device: string, profile: string)
    ensures HoldsProfile(ExpirePending(gs, now), device, profile) <==> Owns(gs, device, profile)
  {
    if Owns(gs, device, profile) {
      var i :| 0 <= i < |gs| && gs[i].device == device && gs[i].profile == profile && gs[i].status == GrantActive;
      assert ExpirePending(gs, now)[i] == gs[i];
    }
  }

  /** A grant is revoked exactly when it is live or already revoked and, if a
      device asks, that device owns its Profile and a shared one is its own. */
  lemma GrantRevocationIsAnswered(s: State, now: real, id: string, requester: Option<string>, shared: set<string>)
    ensures var reply := RevokeGrant(s, now, id, requester, shared);
      && ((forall k :: !GrantAt(s.grants, id, k)) ==> reply == Reply(s, Err(NotFound)))
      && (forall k :: GrantAt(s.grants, id, k) ==>
            var g := s.grants[k];
            var ended := g.status in {GrantRejected, GrantExpired}
                         || (g.status == GrantPending && g.pendingUntil <= now);
            var allowed := requester.Some? ==>
              Owns(s.grants, requester.value, g.profile) && (g.profile in shared ==> g.device == requester.value);
            if ended then reply == Reply(s, Err(NotFound))
            else if !allowed then reply == Reply(s, Err(Unauthorized))
            else
              reply == Reply(s.(grants := Swept(s.grants, now)[k := g.(status := GrantRevoked)]),
                             Ok(g.(status := GrantRevoked))))
  {
    GrantsAreFound(s, now, id);
    if requester.Some? {
      forall profile
        ensures HoldsProfile(ExpirePending(s.grants, now), requester.value, profile) <==>
                Owns(s.grants, requester.value, profile)
      {
        SweepingKeepsOwners(s.grants, now, requester.value, profile);
      }
    }
  }

  /** A claim's grant is active exactly when the device has such a record. */
  lemma ActiveGrantExactly(s: State, now: real, device: string, id: string)
    ensures ActiveClientGrant(s, now, device, id) <==>
            exists i :: 0 <= i < |s.grants| && s.grants[i].id == id && s.grants[i].device == device
                        && s.grants[i].status == GrantActive
  {
    var grants := CurrentGrants(s.grants, now, device);
    forall i | 0 <= i < |s.grants| && s.grants[i].device == device && s.grants[i].status == GrantActive
      ensures s.grants[i] in grants
    {
      assert CurrentGrant(s.grants[i], now);
    }
  }

  /** The current grants are the active ones and those pending in time, in the
      order of their records. */
  lemma {:induction false} CurrentGrantsInOrder(a: seq<Grant>, b: seq<Grant>, now: real, device: string)
    ensures CurrentGrants(a + b, now, device) == CurrentGrants(a, now, device) + CurrentGrants(b, now, device)
  {
    if b == [] {
      assert a + b == a;
    } else {
      var n := |b| - 1;
      CurrentGrantsInOrder(a, b[..n], now, device);
      assert (a + b)[..|a + b| - 1] == a + b[..n];
      assert (a + b)[|a + b| - 1] == b[n];
    }
  }

  lemma OneCurrentGrant(g: Grant, now: real, device: string)
    ensures CurrentGrants([g], now, device) ==
            if g.device == device && (g.status == GrantActive || (g.status == GrantPending && now < g.pendingUntil))
            then [g] else []
  {
    assert [g][..0] == [];
  }

  /** The offer names a Profile, and its device has a credential that can still authenticate. */
  ghost predicate WellOffered(offer: GrantOffer) {
    offer.profile != "*" && Identifier(offer.device) && Identifier(offer.profile) && Identifier(offer.key)
  }

  ghost predicate LiveDevice(cs: seq<Credential>, now: real, device: string) {
    exists j :: 0 <= j < |cs| && cs[j].device == device && CanAuthenticate(cs[j], now)
  }

  /** The request the device made under the same key. */
  ghost predicate EarlierAt(s: State, offer: GrantOffer, x: int) {
    && 0 <= x < |s.grantRequests| && s.grantRequests[x].device == offer.device && s.grantRequests[x].key == offer.key
    && forall j :: 0 <= j < x ==> !(s.grantRequests[j].device == offer.device && s.grantRequests[j].key == offer.key)
  }

  ghost predicate LiveNow(g: Grant, now: real) {
    g.status == GrantActive || (g.status == GrantPending && now < g.pendingUntil)
  }

  /** The device's first live grant on the Profile. */
  ghost predicate HeldAt(gs: seq<Grant>, now: real, offer: GrantOffer, k: int) {
    && 0 <= k < |gs| && gs[k].device == offer.device && gs[k].profile == offer.profile && LiveNow(gs[k], now)
    && forall j :: 0 <= j < k ==>
         !(gs[j].device == offer.device && gs[j].profile == offer.profile && LiveNow(gs[j], now))
  }

  /** The Profile is available, its label is not on another live grant of the device, and there is room for it. */
  ghost predicate HasRoom(gs: seq<Grant>, now: real, offer: GrantOffer) {
    && offer.profile in offer.available && offer.profile in offer.labels
    && (forall i :: 0 <= i < |gs| && gs[i].device == offer.device && LiveNow(gs[i], now) ==>
          gs[i].profile in offer.labels ==> offer.labels[gs[i].profile] != offer.labels[offer.profile])
    && |set i | 0 <= i < |gs| && gs[i].device == offer.device && LiveNow(gs[i], now)| < 16
  }

  /** A new grant: active if its Profile is shared, or if the administrator
      authorized it and nobody else owns it; else waiting a day for the owner. */
  ghost predicate NewGrant(g: Grant, s: State, now: real, offer: GrantOffer, id: string, device: Credential) {
    var owned := OwnedElsewhere(s.grants, s.credentials, now, offer.device, offer.profile);
    && g.id == id && g.device == offer.device && g.profile == offer.profile && g.name == device.name
    && g.kind == device.kind && g.createdAt == now && g.pendingUntil == now + 86400.0
    && (g.bootstrap <==> offer.profile !in offer.shared && !owned && offer.authorizeBootstrap)
    && g.status == (if offer.profile in offer.shared || g.bootstrap then GrantActive else GrantPending)
    && g.decidedBy == (if g.bootstrap then Some("home_admin") else None)
  }

  /** Which devices may get grants at all. */
  lemma GrantOfferIsChecked(s: State, now: real, offer: GrantOffer, id: string)
    ensures var reply, newest := AddGrant(s, now, offer, id), NewestOf(s.credentials, offer.device);
      && (!WellOffered(offer) ==> reply == Reply(s, Err(Invalid)))
      && (WellOffered(offer) && !LiveDevice(s.credentials, now, offer.device) ==> reply == Reply(s, Err(NotFound)))
      && (WellOffered(offer) && LiveDevice(s.credentials, now, offer.device) ==>
            && newest.Some?
            && (s.credentials[newest.value].kind !in {"tui", "ios", "macos", "android", "browser"}
                || "client_claim" !in s.credentials[newest.value].scope.capabilities ==>
                  reply == Reply(s, Err(Forbidden))))
  {
    LiveAre(s.credentials, now);
  }

  ghost predicate MayReceive(s: State, now: real, offer: GrantOffer) {
    && WellOffered(offer) && LiveDevice(s.credentials, now, offer.device)
    && var newest := NewestOf(s.credentials, offer.device);
       && newest.Some? && s.credentials[newest.value].kind in {"tui", "ios", "macos", "android", "browser"}
       && "client_claim" in s.credentials[newest.value].scope.capabilities
  }

  lemma {:induction false} FindsEarlier(s: State, offer: GrantOffer, from: nat)
    requires from <= |s.grantRequests|
    requires forall j :: 0 <= j < from ==>
               !(s.grantRequests[j].device == offer.device && s.grantRequests[j].key == offer.key)
    ensures var r := FindGrantRequest(s.grantRequests, offer.device, offer.key, from);
      (forall x :: EarlierAt(s, offer, x) <==> r == Some(x)) && (r.None? <==> forall x :: !EarlierAt(s, offer, x))
    decreases |s.grantRequests| - from
  {
    if from < |s.grantRequests| {
      if s.grantRequests[from].device == offer.device && s.grantRequests[from].key == offer.key {
        assert EarlierAt(s, offer, from);
      } else {
        FindsEarlier(s, offer, from + 1);
      }
    }
  }

  lemma {:induction false} FindsHeld(gs: seq<Grant>, now: real, offer: GrantOffer, from: nat)
    requires from <= |gs|
    requires forall j :: 0 <= j < from ==>
               !(gs[j].device == offer.device && gs[j].profile == offer.profile && LiveNow(gs[j], now))
    ensures var r := FindLive(ExpirePending(gs, now), offer.device, offer.profile, from);
      && (forall k :: HeldAt(gs, now, offer, k) <==> r == Some(k))
      && (r.None? <==> forall k :: !HeldAt(gs, now, offer, k))
    decreases |gs| - from
  {
    if from < |gs| {
      assert LiveGrant(ExpirePending(gs, now)[from]) <==> LiveNow(gs[from], now);
      if gs[from].device == offer.device && gs[from].profile == offer.profile && LiveNow(gs[from], now) {
        assert HeldAt(gs, now, offer, from);
      } else {
        FindsHeld(gs, now, offer, from + 1);
      }
    }
  }

  ghost function LiveIndices(gs: seq<Grant>, now: real, device: string): set<int> {
    set i | 0 <= i < |gs| && gs[i].device == device && LiveNow(gs[i], now)
  }

  lemma {:induction false} LiveAreCounted(gs: seq<Grant>, now: real, device: string)
    ensures LiveCount(ExpirePending(gs, now), device) == |LiveIndices(gs, now, device)|
  {
    hide LiveCount, ExpirePending, LiveIndices, LiveNow;
    if gs == [] {
      NothingCounted(now, device);
    } else {
      LiveAreCounted(gs[..|gs| - 1], now, device);
      OneMoreCounted(gs, now, device);
      OneMoreIndex(gs, now, device);
    }
  }

  lemma NothingCounted(now: real, device: string)
    ensures LiveCount(ExpirePending([], now), device) == 0 && LiveIndices([], now, device) == {}
  {
  }

  lemma OneMoreCounted(gs: seq<Grant>, now: real, device: string)
    requires gs != []
    ensures var n := |gs| - 1;
      var counted := gs[n].device == device && LiveNow(gs[n], now);
      LiveCount(ExpirePending(gs, now), device) ==
          LiveCount(ExpirePending(gs[..n], now), device) + if counted then 1 else 0
  {
    assert ExpirePending(gs, now)[..|gs| - 1] == ExpirePending(gs[..|gs| - 1], now);
  }

  lemma OneMoreIndex(gs: seq<Grant>, now: real, device: string)
    requires gs != []
    ensures var n := |gs| - 1;
      |LiveIndices(gs, now, device)| ==
          |LiveIndices(gs[..n], now, device)| + if gs[n].device == device && LiveNow(gs[n], now) then 1 else 0
  {
    var n := |gs| - 1;
    var counted := gs[n].device == device && LiveNow(gs[n], now);
    assert LiveIndices(gs, now, device) == LiveIndices(gs[..n], now, device) + if counted then {n} else {};
  }

  lemma RoomIsThere(gs: seq<Grant>, now: real, offer: GrantOffer)
    ensures HasRoom(gs, now, offer) <==>
            && offer.profile in offer.available && offer.profile in offer.labels
            && !LabelTaken(ExpirePending(gs, now), offer.device, offer.labels, offer.labels[offer.profile])
            && LiveCount(ExpirePending(gs, now), offer.device) < 16
  {
    LiveAreCounted(gs, now, offer.device);
    assert LiveIndices(gs, now, offer.device) ==
           set i | 0 <= i < |gs| && gs[i].device == offer.device && LiveNow(gs[i], now);
    forall i | 0 <= i < |gs|
      ensures LiveGrant(ExpirePending(gs, now)[i]) <==> LiveNow(gs[i], now)
    {
    }
  }

  /** Behind those checks the part on the swept state decides. */
  lemma OfferReaches(s: State, now: real, offer: GrantOffer, id: string)
    requires MayReceive(s, now, offer)
    ensures var device := s.credentials[NewestOf(s.credentials, offer.device).value];
      var reply := AppendGrant(s.(grants := ExpirePending(s.grants, now)), now, offer, id,
                               LiveDevices(s.credentials, now), device);
      AddGrant(s, now, offer, id) == if reply.result.Err? then Reply(s, reply.result) else reply
  {
    LiveAre(s.credentials, now);
  }

  /** A repeated key gives back the grant it made, and only for the same request. */
  lemma RepeatedOfferIsAnswered(s: State, now: real, offer: GrantOffer, id: string, x: nat)
    requires MayReceive(s, now, offer) && EarlierAt(s, offer, x)
    ensures var reply, earlier := AddGrant(s, now, offer, id), s.grantRequests[x];
      if earlier.profile != offer.profile || earlier.authorizeBootstrap != offer.authorizeBootstrap
      then reply == Reply(s, Err(Conflict))
      else
        && ((forall k :: !GrantAt(s.grants, earlier.grantId, k)) ==> reply == Reply(s, Err(NotFound)))
        && (forall k :: GrantAt(s.grants, earlier.grantId, k) ==>
              reply == Reply(s.(grants := Swept(s.grants, now)), Ok(Swept(s.grants, now)[k])))
  {
    hide MayReceive;
    OfferReaches(s, now, offer, id);
    FindsEarlier(s, offer, 0);
    GrantsAreFound(s, now, s.grantRequests[x].grantId);
  }

  ghost function Remembered(s: State, offer: GrantOffer, grantId: string): seq<GrantRequest> {
    s.grantRequests + [GrantRequest(offer.device, offer.key, offer.profile, offer.authorizeBootstrap, grantId)]
  }

  /** Under a new key a live grant on the Profile is given back and remembered;
      without one a new grant is made exactly when there is room for it. */
  lemma NewOfferIsAnswered(s: State, now: real, offer: GrantOffer, id: string)
    requires MayReceive(s, now, offer) && forall x :: !EarlierAt(s, offer, x)
    ensures var reply := AddGrant(s, now, offer, id);
      && (forall k :: HeldAt(s.grants, now, offer, k) ==>
            reply == Reply(s.(grants := Swept(s.grants, now), grantRequests := Remembered(s, offer, s.grants[k].id)),
                           Ok(s.grants[k])))
      && ((forall k :: !HeldAt(s.grants, now, offer, k)) && !HasRoom(s.grants, now, offer) ==>
            reply == Reply(s, Err(Invalid)))
      && ((forall k :: !HeldAt(s.grants, now, offer, k)) && HasRoom(s.grants, now, offer) ==>
            && reply.result.Ok?
            && NewGrant(reply.result.value, s, now, offer, id,
                        s.credentials[NewestOf(s.credentials, offer.device).value])
            && reply.state == s.(grants := Swept(s.grants, now) + [reply.result.value],
                                 grantRequests := Remembered(s, offer, id)))
  {
    hide MayReceive, HasRoom;
    OfferReaches(s, now, offer, id);
    SweptIsExpired(s.grants, now);
    FindsEarlier(s, offer, 0);
    FindsHeld(s.grants, now, offer, 0);
    RoomIsThere(s.grants, now, offer);
    SweptHoldersOwn(s.grants, s.credentials, now, offer.device, offer.profile);
    forall k | HeldAt(s.grants, now, offer, k)
      ensures ExpirePending(s.grants, now)[k] == s.grants[k]
    {
    }
  }

  lemma SweptHoldersOwn(gs: seq<Grant>, cs: seq<Credential>, now: real, device: string, profile: string)
    ensures HeldElsewhere(ExpirePending(gs, now), LiveDevices(cs, now), device, profile) <==>
            OwnedElsewhere(gs, cs, now, device, profile)
  {
    LiveAre(cs, now);
    var swept := ExpirePending(gs, now);
    assert forall i :: 0 <= i < |gs| ==> (swept[i].status == GrantActive <==> gs[i].status == GrantActive);
    if OwnedElsewhere(gs, cs, now, device, profile) {
      var i, j :| 0 <= i < |gs| && 0 <= j < |cs| && gs[i].profile == profile && gs[i].status == GrantActive
                  && gs[i].device != device && gs[i].device == cs[j].device && CanAuthenticate(cs[j], now);
      assert swept[i].device in LiveDevices(cs, now);
    }
  }
}
