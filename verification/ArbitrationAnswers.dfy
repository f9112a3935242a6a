/** What a submission is answered, and when a pending round is decided, in terms of the records alone. */
module ArbitrationAnswers {
  import opened Wrappers
  import opened Arbitration
  import opened ArbitrationLaws
  import Configuration

  // -------------------------------------------------------------- submission

  /** The claim names the revision it is judged under. */
  ghost predicate UpToDate(c: Claim, view: Snapshot) { c.revision >= 0 && c.revision == view.revision }

  ghost predicate Named(c: Claim) {
    1 <= |c.id| <= 128 && 1 <= |c.device| <= 128 && 1 <= |c.mapping| <= 128
  }

  /** The device may wake in its Room, and with this mapping, as far as its credential limits that. */
  ghost predicate InScope(c: Claim, a: Authority, d: Configuration.Device) {
    && (a.wake.Some? ==> a.wake.value && a.rooms.Some? && d.room in a.rooms.value)
    && (a.mappings.Some? ==> c.mapping in a.mappings.value)
  }

  /** The mapping's Profile can take the conversation. */
  ghost predicate Served(m: Configuration.Mapping, view: Snapshot) {
    var p := FindProfile(view.candidate.profiles, m.profile);
    p.Some? && p.value.available
  }

  /** When each reason is given to a claim that is judged under `view`. */
  ghost predicate Denies(reason: Denial, c: Claim, a: Authority, view: Snapshot, accepted: set<string>) {
    var d := FindDevice(view.candidate.devices, c.device);
    var m := FindMapping(view.candidate.mappings, c.mapping);
    var named := UpToDate(c, view) && Named(c);
    var own := named && c.id !in accepted && a.device == Some(c.device);
    var able := own && c.ready && d.Some? && d.value.wakeClaim;
    match reason
    case InvalidRequest => c.revision < 0 || (UpToDate(c, view) && !Named(c))
    case StaleConfiguration => c.revision >= 0 && c.revision != view.revision
    case DuplicateClaim => named && c.id in accepted
    case Unauthorized => named && c.id !in accepted && a.device != Some(c.device)
    case ClaimDenied =>
      || (own && !c.ready)
      || (own && c.ready && d.Some? && !d.value.wakeClaim)
      || (able && InScope(c, a, d.value) && m.Some? && m.value.active && !Served(m.value, view))
    case NotFound =>
      || (own && c.ready && d.None?)
      || (able && InScope(c, a, d.value) && m.None?)
    case Forbidden => able && !InScope(c, a, d.value)
    case StaleMapping => able && InScope(c, a, d.value) && m.Some? && !m.value.active
    case _ => false
  }

  /** A claim that every test lets through. */
  ghost predicate Eligibility(c: Claim, a: Authority, view: Snapshot, accepted: set<string>) {
    var d := FindDevice(view.candidate.devices, c.device);
    var m := FindMapping(view.candidate.mappings, c.mapping);
    && UpToDate(c, view) && Named(c) && c.id !in accepted && a.device == Some(c.device) && c.ready
    && d.Some? && d.value.wakeClaim && InScope(c, a, d.value)
    && m.Some? && m.value.active && Served(m.value, view)
  }

  lemma ClaimIsJudged(c: Claim, a: Authority, view: Snapshot, accepted: set<string>, sequence: nat, now: real,
          reason: Denial)
    ensures var r := ValidateClaim(c, a, view, accepted, sequence, now);
      && (r.Ok? <==> Eligibility(c, a, view, accepted))
      && (r == Err(reason) <==> Denies(reason, c, a, view, accepted))
  {
  }

  /** The pending round of a Room. */
  ghost predicate RoundOf(s: State, room: string, k: int) { 0 <= k < |s.pending| && s.pending[k].room == room }

  /** The Room's round has been open for the whole window. */
  ghost predicate TooLate(s: State, room: string, now: real) {
    exists k :: RoundOf(s, room, k) && now >= s.pending[k].openedAt + 0.250
  }

  /** The snapshot a claim of this Room is judged under: that of the pending
      round if it has the current revision, else the current one. */
  ghost function ViewOf(s: State, room: string, snapshot: Snapshot): Snapshot {
    var found := FindRound(s.pending, room);
    if found.Some? && s.pending[found.value].snapshot.revision == snapshot.revision
    then s.pending[found.value].snapshot else snapshot
  }

  /** A claim comes too late exactly when its Room's round has been open for the
      whole window; otherwise it is judged under the round it would join, is
      admitted exactly when every test lets it through, and is told the first
      test that does not. */
  lemma SubmissionIsAnswered(s: State, snapshot: Snapshot, c: Claim, a: Authority, now: real, ids: string -> string,
          reason: Denial)
    requires OnePerRoom(s.pending) && FindDevice(snapshot.candidate.devices, c.device).Some?
    ensures var r := Submit(s, Valid(snapshot), c, a, now, ids).1;
      var room := FindDevice(snapshot.candidate.devices, c.device).value.room;
      var late := TooLate(s, room, now);
      var view := ViewOf(s, room, snapshot);
      && (r == Denied(Late) <==> late)
      && (r.Admitted? <==> !late && Eligibility(c, a, view, s.accepted))
      && (reason != Late ==> (r == Denied(reason) <==> !late && Denies(reason, c, a, view, s.accepted)))
  {
    hide ValidateClaim, Denies, Eligibility;
    var room := FindDevice(snapshot.candidate.devices, c.device).value.room;
    var view := ViewOf(s, room, snapshot);
    LateIsFound(s, room, now);
    ClaimIsJudged(c, a, view, s.accepted, s.sequence, now, reason);
    ClaimIsJudged(c, a, view, s.accepted, s.sequence, now, Late);
    NeverLate(c, a, view, s.accepted);
    if !TooLate(s, room, now) {
      KeptRound(s.pending, now, room);
      JoinIsJudged(FinalizeDue(s, now, ids), snapshot, room, c, a, now, ids);
    }
  }

  lemma LateIsFound(s: State, room: string, now: real)
    requires OnePerRoom(s.pending)
    ensures var found := FindRound(s.pending, room);
      && (TooLate(s, room, now) <==> found.Some? && now >= Deadline(s.pending[found.value]))
      && (found.Some? ==> forall k :: RoundOf(s, room, k) ==> k == found.value)
  {
    var found := FindRound(s.pending, room);
    assert found.Some? ==> RoundOf(s, room, found.value);
  }

  lemma NeverLate(c: Claim, a: Authority, view: Snapshot, accepted: set<string>)
    ensures !Denies(Late, c, a, view, accepted)
  {
  }

  lemma JoinIsJudged(s: State, snapshot: Snapshot, room: string, c: Claim, a: Authority, now: real,
          ids: string -> string)
    ensures var r := Join(s, snapshot, room, c, a, now, ids).1;
      var judged := ValidateClaim(c, a, ViewOf(s, room, snapshot), s.accepted, s.sequence, now);
      && (r.Admitted? <==> judged.Ok?) && (judged.Err? ==> r == Denied(judged.error))
  {
  }

  /** A round that is not due is still the round of its Room after the due ones are gone. */
  lemma {:induction false} KeptRound(rounds: seq<Round>, now: real, room: string)
    requires OnePerRoom(rounds)
    requires forall k :: 0 <= k < |rounds| && rounds[k].room == room ==> now < rounds[k].openedAt + 0.250
    ensures var before, after := FindRound(rounds, room), FindRound(Kept(rounds, now), room);
      && (before.Some? <==> after.Some?)
      && (before.Some? ==> Kept(rounds, now)[after.value] == rounds[before.value])
  {
    if rounds != [] {
      var n := |rounds| - 1;
      KeptRound(rounds[..n], now, room);
      var kept := Kept(rounds[..n], now);
      assert (kept + [rounds[n]])[..|kept|] == kept;
    }
  }

  /** Without a configuration or a device of that ID nothing changes. */
  lemma UnservedIsRefused(s: State, reading: Reading, c: Claim, a: Authority, now: real, ids: string -> string)
    requires reading.Valid? ==>
               forall i :: 0 <= i < |reading.snapshot.candidate.devices| ==>
                 reading.snapshot.candidate.devices[i].id != c.device
    ensures Submit(s, reading, c, a, now, ids) ==
            (s, Denied(match reading
                       case Missing => Unavailable
                       case Migrating(revision) => MigrationRequired(revision)
                       case Valid(_) => NotFound))
  {
  }

  // ------------------------------------------------------------ finalization

  /** The round's decisions are among the resolved ones. */
  ghost predicate Resolves(resolved: map<string, Decision>, r: Round, id: string) {
    exists decisions :: Decided(r, decisions, id)
                        && forall x :: x in decisions ==> x in resolved && resolved[x] == decisions[x]
  }

  /** A pending round is decided exactly when it has been open for the window;
      its decisions are then all in the resolved ones, under the ID drawn for its
      Room, and decisions not yet collected stay as they are. */
  lemma DueRoundsAreDecided(clock: real, ops: seq<Op>, published: int -> Configuration.Candidate,
          norm: string -> string, now: real, ids: string -> string, i: nat)
    requires Runs(clock, EMPTY, ops, published, norm) && i < |Final(EMPTY, ops).pending|
    ensures var s := Final(EMPTY, ops);
      var s', r := FinalizeDue(s, now, ids), s.pending[i];
      && (r in s'.pending <==> now < r.openedAt + 0.250)
      && (forall j :: 0 <= j < |r.claims| ==>
            (r.claims[j].id in s'.resolved <==> now >= r.openedAt + 0.250))
      && (now >= r.openedAt + 0.250 ==> Resolves(s'.resolved, r, ids(r.room)))
      && (forall x :: x in s.resolved ==> x in s'.resolved && s'.resolved[x] == s.resolved[x])
  {
    EmptyIsGood(clock, published, norm);
    var _ := RunKeeps(clock, EMPTY, ops, published, norm);
    RunConserves(EMPTY, ops);
    var s := Final(EMPTY, ops);
    OneBestWinner(clock, ops, published, norm, i, ids(s.pending[i].room));
    RoundIsDecided(s, now, ids, i);
    KeptExactly(s.pending, now, i);
  }

  lemma RoundIsDecided(s: State, now: real, ids: string -> string, i: nat)
    requires Conserved(s) && i < |s.pending|
    requires var r := s.pending[i]; Decided(r, Outcome(r, ids(r.room)), ids(r.room))
    ensures var resolved, r := FinalizeDue(s, now, ids).resolved, s.pending[i];
      && (forall j :: 0 <= j < |r.claims| ==> (r.claims[j].id in resolved <==> now >= r.openedAt + 0.250))
      && (now >= r.openedAt + 0.250 ==> Resolves(resolved, r, ids(r.room)))
      && (forall x :: x in s.resolved ==> x in resolved && resolved[x] == s.resolved[x])
  {
    hide Decided, Settled, Conserved, ConservedAt;
    var r := s.pending[i];
    var decisions, resolved := Outcome(r, ids(r.room)), FinalizeDue(s, now, ids).resolved;
    forall j | 0 <= j < |r.claims|
      ensures r.claims[j].id in resolved <==> now >= r.openedAt + 0.250
    {
      CountMember(r.claims, j);
      RoundSettles(s, now, ids, i, r.claims[j].id);
    }
    forall x | x in decisions && now >= r.openedAt + 0.250
      ensures x in resolved && resolved[x] == decisions[x]
    {
      OutcomeKeys(r, ids(r.room), x);
      RoundSettles(s, now, ids, i, x);
    }
    forall x | x in s.resolved
      ensures x in resolved && resolved[x] == s.resolved[x]
    {
      ResolvedStays(s, now, ids, x);
    }
  }

  lemma ResolvedStays(s: State, now: real, ids: string -> string, x: string)
    requires Conserved(s) && x in s.resolved
    ensures var resolved := FinalizeDue(s, now, ids).resolved; x in resolved && resolved[x] == s.resolved[x]
  {
    assert ConservedAt(s, x);
    SettledElsewhere(s.resolved, s.pending, now, ids, x);
  }

  lemma {:induction false} KeptExactly(rounds: seq<Round>, now: real, i: nat)
    requires OnePerRoom(rounds) && i < |rounds|
    ensures rounds[i] in Kept(rounds, now) <==> now < rounds[i].openedAt + 0.250
  {
    var n := |rounds| - 1;
    if i < n {
      KeptExactly(rounds[..n], now, i);
    } else {
      assert rounds[n] !in rounds[..n];
    }
  }

  /** What the pass does with an ID that one pending round holds. */
  lemma RoundSettles(s: State, now: real, ids: string -> string, i: nat, x: string)
    requires Conserved(s) && i < |s.pending| && ClaimCount(s.pending[i].claims, x) >= 1
    ensures var resolved := FinalizeDue(s, now, ids).resolved;
      var r := s.pending[i];
      && (x in resolved <==> now >= r.openedAt + 0.250)
      && (x in resolved ==> x in Outcome(r, ids(r.room)) && resolved[x] == Outcome(r, ids(r.room))[x])
  {
    assert ConservedAt(s, x);
    CountRemove(s.pending, i, x);
    SettledOnce(s.resolved, s.pending, now, ids, i, x);
  }

  lemma {:induction false} SettledOnce(resolved: map<string, Decision>, rounds: seq<Round>, now: real,
          ids: string -> string, i: nat, x: string)
    requires i < |rounds| && x !in resolved && ClaimCount(rounds[i].claims, x) >= 1 && RoundCount(rounds, x) <= 1
    ensures var after := Settled(resolved, rounds, now, ids);
      && (x in after <==> now >= rounds[i].openedAt + 0.250)
      && (x in after ==> x in Outcome(rounds[i], ids(rounds[i].room))
                         && after[x] == Outcome(rounds[i], ids(rounds[i].room))[x])
  {
    var n := |rounds| - 1;
    OutcomeKeys(rounds[n], ids(rounds[n].room), x);
    if i < n {
      CountRemove(rounds[..n], i, x);
      SettledOnce(resolved, rounds[..n], now, ids, i, x);
    } else {
      SettledElsewhere(resolved, rounds[..n], now, ids, x);
    }
  }

  /** An ID that no pending round holds keeps the decision it has, or has none. */
  lemma {:induction false} SettledElsewhere(resolved: map<string, Decision>, rounds: seq<Round>, now: real,
          ids: string -> string, x: string)
    requires RoundCount(rounds, x) == 0
    ensures var after := Settled(resolved, rounds, now, ids);
      (x in after <==> x in resolved) && (x in resolved ==> after[x] == resolved[x])
  {
    if rounds != [] {
      var n := |rounds| - 1;
      OutcomeKeys(rounds[n], ids(rounds[n].room), x);
      SettledElsewhere(resolved, rounds[..n], now, ids, x);
    }
  }
}
