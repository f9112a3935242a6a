/** Conservation of claim IDs, bounded rounds, and an order-free winner. */
module ArbitrationLaws {
  import opened Wrappers
  import opened Arbitration
  import Configuration

  // ------------------------------------------------------------ conservation

  function One(b: bool): nat { if b then 1 else 0 }

  /** How often an ID occurs among claims, and among the claims of rounds. */
  function ClaimCount(claims: seq<Eligible>, id: string): nat {
    if claims == [] then 0 else ClaimCount(claims[..|claims| - 1], id) + One(claims[|claims| - 1].id == id)
  }

  function RoundCount(rounds: seq<Round>, id: string): nat {
    if rounds == [] then 0 else RoundCount(rounds[..|rounds| - 1], id) + ClaimCount(rounds[|rounds| - 1].claims, id)
  }

  /** An accepted ID is held exactly once among reserved, pending, resolved and
      collected; any other ID is in none of them. */
  ghost predicate ConservedAt(s: State, id: string) {
    One(id in s.reserved) + RoundCount(s.pending, id) + One(id in s.resolved) + One(id in s.collected) ==
        One(id in s.accepted)
  }

  ghost predicate Conserved(s: State) { forall id :: ConservedAt(s, id) }

  lemma ClaimSnoc(claims: seq<Eligible>, c: Eligible, id: string)
    ensures ClaimCount(claims + [c], id) == ClaimCount(claims, id) + One(c.id == id)
  {
    assert (claims + [c])[..|claims|] == claims;
  }

  lemma RoundSnoc(rounds: seq<Round>, r: Round, id: string)
    ensures RoundCount(rounds + [r], id) == RoundCount(rounds, id) + ClaimCount(r.claims, id)
  {
    assert (rounds + [r])[..|rounds|] == rounds;
  }

  lemma {:induction false} CountMember(claims: seq<Eligible>, i: nat)
    requires i < |claims|
    ensures ClaimCount(claims, claims[i].id) >= 1
  {
    if i < |claims| - 1 {
      CountMember(claims[..|claims| - 1], i);
    }
  }

  /** A round's decisions are about exactly its claims. */
  lemma {:induction false} DecisionKeys(r: Round, claims: seq<Eligible>, id: string, x: string)
    requires r.claims != []
    ensures x in Decisions(r, claims, id) <==> ClaimCount(claims, x) >= 1
  {
    if claims != [] {
      DecisionKeys(r, claims[..|claims| - 1], id, x);
    }
  }

  lemma OutcomeKeys(r: Round, id: string, x: string)
    ensures x in Outcome(r, id) <==> ClaimCount(r.claims, x) >= 1
  {
    if r.claims != [] {
      DecisionKeys(r, r.claims, id, x);
    }
  }

  lemma {:induction false} SettledConserves(resolved: map<string, Decision>, rounds: seq<Round>, now: real,
          ids: string -> string, x: string)
    requires One(x in resolved) + RoundCount(rounds, x) <= 1
    ensures One(x in Settled(resolved, rounds, now, ids)) + RoundCount(Kept(rounds, now), x) ==
            One(x in resolved) + RoundCount(rounds, x)
  {
    if rounds != [] {
      var n := |rounds| - 1;
      SettledConserves(resolved, rounds[..n], now, ids, x);
      OutcomeKeys(rounds[n], ids(rounds[n].room), x);
      RoundSnoc(Kept(rounds[..n], now), rounds[n], x);
    }
  }

  lemma {:induction false} RoundConcat(a: seq<Round>, b: seq<Round>, id: string)
    ensures RoundCount(a + b, id) == RoundCount(a, id) + RoundCount(b, id)
  {
    assert RoundCount([], id) == 0;
    hide RoundCount;
    if b == [] {
      assert a + b == a;
    } else {
      var n := |b| - 1;
      RoundConcat(a, b[..n], id);
      RoundSnoc(a + b[..n], b[n], id);
      RoundSnoc(b[..n], b[n], id);
      assert a + b == (a + b[..n]) + [b[n]] && b == b[..n] + [b[n]];
    }
  }

  lemma CountRemove(rounds: seq<Round>, k: nat, id: string)
    requires k < |rounds|
    ensures RoundCount(rounds, id) == RoundCount(rounds[..k] + rounds[k + 1..], id) + ClaimCount(rounds[k].claims, id)
  {
    var a, b := rounds[..k], rounds[k + 1..];
    RoundSnoc(a, rounds[k], id);
    RoundConcat(a + [rounds[k]], b, id);
    RoundConcat(a, b, id);
    assert rounds == (a + [rounds[k]]) + b;
  }

  lemma {:induction false} CountGrow(rounds: seq<Round>, k: nat, c: Eligible, id: string)
    requires k < |rounds|
    ensures RoundCount(rounds[k := rounds[k].(claims := rounds[k].claims + [c])], id) ==
            RoundCount(rounds, id) + One(c.id == id)
  {
    var n := |rounds| - 1;
    var grown := rounds[k].(claims := rounds[k].claims + [c]);
    if k == n {
      ClaimSnoc(rounds[k].claims, c, id);
      RoundSnoc(rounds[..n], grown, id);
      assert rounds[k := grown] == rounds[..n] + [grown];
    } else {
      CountGrow(rounds[..n], k, c, id);
      RoundSnoc(rounds[..n][k := grown], rounds[n], id);
      assert rounds[k := grown] == rounds[..n][k := grown] + [rounds[n]];
    }
  }

  lemma FinalizeConserves(s: State, now: real, ids: string -> string)
    requires Conserved(s)
    ensures Conserved(FinalizeDue(s, now, ids))
  {
    forall x
      ensures ConservedAt(FinalizeDue(s, now, ids), x)
    {
      assert ConservedAt(s, x);
      SettledConserves(s.resolved, s.pending, now, ids, x);
    }
  }

  lemma FinalizeAtConserves(s: State, k: nat, ids: string -> string)
    requires Conserved(s) && k < |s.pending|
    ensures Conserved(FinalizeAt(s, k, ids))
  {
    forall x
      ensures ConservedAt(FinalizeAt(s, k, ids), x)
    {
      assert ConservedAt(s, x);
      CountRemove(s.pending, k, x);
      OutcomeKeys(s.pending[k], ids(s.pending[k].room), x);
    }
  }

  lemma AdmitConserves(s: State, room: string, snapshot: Snapshot, claim: Eligible, now: real)
    requires Conserved(s) && claim.id !in s.accepted
    ensures Conserved(Admit(s, room, snapshot, claim, now))
  {
    forall x
      ensures ConservedAt(Admit(s, room, snapshot, claim, now), x)
    {
      assert ConservedAt(s, x);
      AdmitCounts(s, room, snapshot, claim, now, x);
    }
  }

  lemma AdmitCounts(s: State, room: string, snapshot: Snapshot, claim: Eligible, now: real, x: string)
    ensures RoundCount(Admit(s, room, snapshot, claim, now).pending, x) == RoundCount(s.pending, x) + One(claim.id == x)
  {
    var found := FindRound(s.pending, room);
    if found.Some? {
      CountGrow(s.pending, found.value, claim, x);
    } else {
      RoundSnoc(s.pending, Round(room, snapshot, now, [claim]), x);
      ClaimSnoc([], claim, x);
      assert [] + [claim] == [claim];
    }
  }

  /** The stages of a submission that found its device. */
  ghost function Ready(s: State, reading: Reading, room: string, now: real, ids: string -> string): State
    requires reading.Valid?
  {
    var settled := FinalizeDue(s, now, ids);
    var found := FindRound(settled.pending, room);
    if found.Some? && settled.pending[found.value].snapshot.revision != reading.snapshot.revision
    then FinalizeAt(settled, found.value, ids) else settled
  }

  /** The snapshot the claim is judged by: the pending round's own, when it joins one. */
  ghost function Judged(s: State, reading: Reading, room: string, now: real, ids: string -> string): Snapshot
    requires reading.Valid?
  {
    var settled := FinalizeDue(s, now, ids);
    var found := FindRound(settled.pending, room);
    if found.Some? && settled.pending[found.value].snapshot.revision == reading.snapshot.revision
    then settled.pending[found.value].snapshot else reading.snapshot
  }

  lemma SubmitShape(s: State, reading: Reading, c: Claim, a: Authority, now: real, ids: string -> string)
    ensures var (s', r) := Submit(s, reading, c, a, now, ids);
      if !reading.Valid? || FindDevice(reading.snapshot.candidate.devices, c.device).None? then s' == s && r.Denied?
      else
        var room := FindDevice(reading.snapshot.candidate.devices, c.device).value.room;
        var view := Judged(s, reading, room, now, ids);
        var checked := ValidateClaim(c, a, view, s.accepted, s.sequence, now);
        if r.Denied? then s' == FinalizeDue(s, now, ids) || s' == Ready(s, reading, room, now, ids)
        else
          && checked.Ok? && s' == Admit(Ready(s, reading, room, now, ids), room, view, checked.value, now)
          && !(FindRound(s.pending, room).Some? && now >= Deadline(s.pending[FindRound(s.pending, room).value]))
  {
  }

  lemma SubmitConserves(s: State, reading: Reading, c: Claim, a: Authority, now: real, ids: string -> string)
    requires Conserved(s)
    ensures Conserved(Submit(s, reading, c, a, now, ids).0)
  {
    SubmitShape(s, reading, c, a, now, ids);
    if reading.Valid? && FindDevice(reading.snapshot.candidate.devices, c.device).Some? {
      var room := FindDevice(reading.snapshot.candidate.devices, c.device).value.room;
      ReadyConserves(s, reading, room, now, ids);
      if Submit(s, reading, c, a, now, ids).1.Admitted? {
        var view := Judged(s, reading, room, now, ids);
        AdmittedIsNew(c, a, view, s.accepted, s.sequence, now);
        AdmitConserves(Ready(s, reading, room, now, ids), room, view,
                       ValidateClaim(c, a, view, s.accepted, s.sequence, now).value, now);
      }
    }
  }

  lemma AdmittedIsNew(c: Claim, a: Authority, snapshot: Snapshot, existing: set<string>, sequence: nat, now: real)
    requires ValidateClaim(c, a, snapshot, existing, sequence, now).Ok?
    ensures ValidateClaim(c, a, snapshot, existing, sequence, now).value.id !in existing
  {
  }

  lemma ReadyConserves(s: State, reading: Reading, room: string, now: real, ids: string -> string)
    requires Conserved(s) && reading.Valid?
    ensures Conserved(FinalizeDue(s, now, ids)) && Conserved(Ready(s, reading, room, now, ids))
    ensures Ready(s, reading, room, now, ids).accepted == s.accepted
  {
    FinalizeConserves(s, now, ids);
    var settled := FinalizeDue(s, now, ids);
    var found := FindRound(settled.pending, room);
    if found.Some? {
      FinalizeAtConserves(settled, found.value, ids);
    }
  }

  lemma CollectConserves(s: State, id: string)
    requires Conserved(s)
    ensures Conserved(Collect(s, id).0)
  {
    forall x
      ensures ConservedAt(Collect(s, id).0, x)
    {
      assert ConservedAt(s, x);
    }
  }

  lemma ReserveConserves(s: State, id: string)
    requires Conserved(s)
    ensures Conserved(Reserve(s, id).0)
  {
    forall x
      ensures ConservedAt(Reserve(s, id).0, x)
    {
      assert ConservedAt(s, x);
    }
  }

  lemma StepConserves(s: State, op: Op)
    requires Conserved(s)
    ensures Conserved(Next(s, op))
  {
    match op
    case OpReserve(id) => ReserveConserves(s, id);
    case OpSubmit(reading, c, a, now, ids) => SubmitConserves(s, reading, c, a, now, ids);
    case OpFinalize(now, ids) => FinalizeConserves(s, now, ids);
    case OpCollect(id) => CollectConserves(s, id);
  }

  // ------------------------------------------------------------------ rounds

  /** The claim carries what the snapshot says about its device. */
  ghost predicate FromSnapshot(c: Eligible, snapshot: Snapshot) {
    exists i :: 0 <= i < |snapshot.candidate.devices| && snapshot.candidate.devices[i].id == c.device
                && snapshot.candidate.devices[i].room == c.room && snapshot.candidate.devices[i].priority == c.priority
  }

  ghost predicate GoodRound(r: Round, sequence: nat, published: int -> Configuration.Candidate) {
    && r.claims != [] && r.snapshot.candidate == published(r.snapshot.revision)
    && r.claims[0].admittedAt == r.openedAt
    && (forall i :: 0 <= i < |r.claims| ==>
          && r.claims[i].room == r.room && FromSnapshot(r.claims[i], r.snapshot)
          && r.claims[i].revision == r.snapshot.revision
          && r.openedAt <= r.claims[i].admittedAt < Deadline(r) && r.claims[i].sequence < sequence)
    && (forall i, j :: 0 <= i < j < |r.claims| ==> r.claims[i].sequence < r.claims[j].sequence)
  }

  ghost predicate OnePerRoom(rounds: seq<Round>) {
    forall i, j :: 0 <= i < j < |rounds| ==> rounds[i].room != rounds[j].room
  }

  ghost predicate GoodRounds(rounds: seq<Round>, clock: real, sequence: nat,
          published: int -> Configuration.Candidate)
  {
    && (forall r :: r in rounds ==> GoodRound(r, sequence, published) && r.openedAt <= clock)
    && OnePerRoom(rounds)
  }

  lemma {:induction false} KeptIsSublist(rounds: seq<Round>, now: real)
    requires OnePerRoom(rounds)
    ensures OnePerRoom(Kept(rounds, now))
  {
    if rounds != [] {
      var n := |rounds| - 1;
      KeptIsSublist(rounds[..n], now);
      var before := Kept(rounds[..n], now);
      forall i | 0 <= i < |before|
        ensures before[i].room != rounds[n].room
      {
        assert before[i] in rounds[..n];
      }
      assert Kept(rounds, now) == before || Kept(rounds, now) == before + [rounds[n]];
    }
  }

  lemma KeptAreGood(rounds: seq<Round>, clock: real, sequence: nat, now: real,
          published: int -> Configuration.Candidate)
    requires GoodRounds(rounds, clock, sequence, published)
    ensures GoodRounds(Kept(rounds, now), clock, sequence, published)
    ensures forall r :: r in Kept(rounds, now) ==> now < Deadline(r) && r in rounds
  {
    KeptIsSublist(rounds, now);
  }

  lemma RestOnePerRoom(rounds: seq<Round>, k: nat)
    requires OnePerRoom(rounds) && k < |rounds|
    ensures OnePerRoom(rounds[..k] + rounds[k + 1..])
    ensures FindRound(rounds[..k] + rounds[k + 1..], rounds[k].room).None?
  {
    var rest := rounds[..k] + rounds[k + 1..];
    forall i | 0 <= i < |rest|
      ensures rest[i] == rounds[if i < k then i else i + 1]
    {
    }
  }

  lemma RestAreGood(rounds: seq<Round>, k: nat, clock: real, sequence: nat, published: int -> Configuration.Candidate)
    requires GoodRounds(rounds, clock, sequence, published) && k < |rounds|
    ensures GoodRounds(rounds[..k] + rounds[k + 1..], clock, sequence, published)
    ensures FindRound(rounds[..k] + rounds[k + 1..], rounds[k].room).None?
    ensures forall r :: r in rounds[..k] + rounds[k + 1..] ==> r in rounds
  {
    RestOnePerRoom(rounds, k);
  }

  lemma ReadyRounds(s: State, reading: Reading, room: string, clock: real, now: real, ids: string -> string,
          published: int -> Configuration.Candidate)
    requires GoodRounds(s.pending, clock, s.sequence, published) && reading.Valid?
    ensures GoodRounds(Ready(s, reading, room, now, ids).pending, clock, s.sequence, published)
    ensures forall r :: r in Ready(s, reading, room, now, ids).pending ==> now < Deadline(r) && r in s.pending
    ensures Viewed(Ready(s, reading, room, now, ids).pending, room, reading.snapshot,
                   Judged(s, reading, room, now, ids))
    ensures Ready(s, reading, room, now, ids).sequence == s.sequence
            && Ready(s, reading, room, now, ids).accepted == s.accepted
  {
    KeptAreGood(s.pending, clock, s.sequence, now, published);
    ReadyPending(s, reading, room, now, ids);
    var kept := Kept(s.pending, now);
    var found := FindRound(kept, room);
    if found.Some? && kept[found.value].snapshot.revision != reading.snapshot.revision {
      RestAreGood(kept, found.value, clock, s.sequence, published);
    }
  }

  lemma ReadyPending(s: State, reading: Reading, room: string, now: real, ids: string -> string)
    requires reading.Valid?
    ensures var ready := Ready(s, reading, room, now, ids);
      var kept := Kept(s.pending, now);
      var found := FindRound(kept, room);
      && ready.sequence == s.sequence && ready.accepted == s.accepted
      && if found.Some? && kept[found.value].snapshot.revision != reading.snapshot.revision
         then ready.pending == kept[..found.value] + kept[found.value + 1..]
             && Judged(s, reading, room, now, ids) == reading.snapshot
         else ready.pending == kept && Viewed(kept, room, reading.snapshot, Judged(s, reading, room, now, ids))
  {
  }

  /** The snapshot a claim is judged by is that of the round it joins, else the current one. */
  ghost predicate Viewed(rounds: seq<Round>, room: string, current: Snapshot, view: Snapshot) {
    var found := FindRound(rounds, room);
    view.revision == current.revision && if found.Some? then rounds[found.value].snapshot == view else view == current
  }

  lemma GrownIsGood(r: Round, claim: Eligible, sequence: nat, published: int -> Configuration.Candidate)
    requires GoodRound(r, sequence, published)
    requires claim.sequence == sequence && claim.room == r.room && FromSnapshot(claim, r.snapshot)
    requires claim.revision == r.snapshot.revision
    requires r.openedAt <= claim.admittedAt < Deadline(r)
    ensures GoodRound(r.(claims := r.claims + [claim]), sequence + 1, published)
  {
  }

  /** A claim that fits the snapshot and comes next in sequence. */
  ghost predicate Fits(claim: Eligible, room: string, snapshot: Snapshot, sequence: nat, now: real) {
    && claim.sequence == sequence && claim.admittedAt == now && claim.room == room
    && FromSnapshot(claim, snapshot) && claim.revision == snapshot.revision
  }

  lemma AdmitOnePerRoom(s: State, room: string, snapshot: Snapshot, claim: Eligible, now: real)
    requires OnePerRoom(s.pending)
    ensures OnePerRoom(Admit(s, room, snapshot, claim, now).pending)
  {
  }

  lemma JoinRound(rounds: seq<Round>, k: nat, claim: Eligible, sequence: nat, now: real,
          published: int -> Configuration.Candidate)
    requires GoodRounds(rounds, now, sequence, published) && k < |rounds| && now < Deadline(rounds[k])
    requires Fits(claim, rounds[k].room, rounds[k].snapshot, sequence, now)
    ensures GoodRounds(rounds[k := rounds[k].(claims := rounds[k].claims + [claim])], now, sequence + 1, published)
  {
    var grown := rounds[k := rounds[k].(claims := rounds[k].claims + [claim])];
    assert rounds[k] in rounds;
    GrownIsGood(rounds[k], claim, sequence, published);
    forall i | 0 <= i < |grown|
      ensures GoodRound(grown[i], sequence + 1, published) && grown[i].openedAt <= now
    {
      assert rounds[i] in rounds;
    }
  }

  lemma OpenRound(rounds: seq<Round>, r: Round, claim: Eligible, sequence: nat,
          published: int -> Configuration.Candidate)
    requires GoodRounds(rounds, r.openedAt, sequence, published) && forall i :: 0 <= i < |rounds| ==>
               rounds[i].room != r.room
    requires Fits(claim, r.room, r.snapshot, sequence, r.openedAt) && r.claims == [claim]
    requires r.snapshot.candidate == published(r.snapshot.revision)
    ensures GoodRounds(rounds + [r], r.openedAt, sequence + 1, published)
  {
    forall x | x in rounds + [r]
      ensures GoodRound(x, sequence + 1, published) && x.openedAt <= r.openedAt
    {
      assert x in rounds || x == r;
    }
  }

  lemma AdmitRounds(s: State, room: string, snapshot: Snapshot, claim: Eligible, now: real,
          published: int -> Configuration.Candidate)
    requires GoodRounds(s.pending, now, s.sequence, published) && Fits(claim, room, snapshot, s.sequence, now)
    requires snapshot.candidate == published(snapshot.revision)
    requires forall r :: r in s.pending ==> now < Deadline(r)
    requires var found := FindRound(s.pending, room); found.Some? ==> s.pending[found.value].snapshot == snapshot
    ensures var s' := Admit(s, room, snapshot, claim, now); GoodRounds(s'.pending, now, s'.sequence, published)
  {
    var found := FindRound(s.pending, room);
    if found.Some? {
      JoinRound(s.pending, found.value, claim, s.sequence, now, published);
    } else {
      OpenRound(s.pending, Round(room, snapshot, now, [claim]), claim, s.sequence, published);
    }
  }

  lemma ClaimFromSnapshot(c: Claim, a: Authority, snapshot: Snapshot, existing: set<string>, sequence: nat, now: real)
    requires ValidateClaim(c, a, snapshot, existing, sequence, now).Ok?
    ensures var e := ValidateClaim(c, a, snapshot, existing, sequence, now).value;
      && FromSnapshot(e, snapshot) && e.sequence == sequence && e.admittedAt == now && e.id == c.id
      && e.device == c.device
      && e.revision == snapshot.revision
      && e.room == FindDevice(snapshot.candidate.devices, c.device).value.room
  {
    var device := FindDevice(snapshot.candidate.devices, c.device).value;
    assert device in snapshot.candidate.devices;
  }

  lemma LaterIsGood(rounds: seq<Round>, clock: real, now: real, sequence: nat,
          published: int -> Configuration.Candidate)
    requires GoodRounds(rounds, clock, sequence, published) && clock <= now
    ensures GoodRounds(rounds, now, sequence, published)
  {
  }

  lemma SubmitRounds(s: State, clock: real, reading: Reading, c: Claim, a: Authority, now: real,
          ids: string -> string, published: int -> Configuration.Candidate)
    requires GoodRounds(s.pending, clock, s.sequence, published) && clock <= now
    requires reading.Valid? ==> reading.snapshot.candidate == published(reading.snapshot.revision)
    ensures var s' := Submit(s, reading, c, a, now, ids).0; GoodRounds(s'.pending, now, s'.sequence, published)
  {
    SubmitShape(s, reading, c, a, now, ids);
    LaterIsGood(s.pending, clock, now, s.sequence, published);
    if reading.Valid? && FindDevice(reading.snapshot.candidate.devices, c.device).Some? {
      var room := FindDevice(reading.snapshot.candidate.devices, c.device).value.room;
      var ready := Ready(s, reading, room, now, ids);
      KeptAreGood(s.pending, now, s.sequence, now, published);
      ReadyRounds(s, reading, room, now, now, ids, published);
      if Submit(s, reading, c, a, now, ids).1.Admitted? {
        var view := Judged(s, reading, room, now, ids);
        JudgedIsCurrent(ready, room, view, reading.snapshot, now, published);
        ClaimFromSnapshot(c, a, view, s.accepted, s.sequence, now);
        AdmitRounds(ready, room, view, ValidateClaim(c, a, view, s.accepted, s.sequence, now).value, now, published);
      }
    }
  }

  /** A round that is joined was opened under the very configuration that is current. */
  lemma JudgedIsCurrent(ready: State, room: string, view: Snapshot, current: Snapshot, now: real,
          published: int -> Configuration.Candidate)
    requires GoodRounds(ready.pending, now, ready.sequence, published)
    requires Viewed(ready.pending, room, current, view) && current.candidate == published(current.revision)
    ensures view == current
  {
    var found := FindRound(ready.pending, room);
    if found.Some? {
      assert GoodRound(ready.pending[found.value], ready.sequence, published);
    }
  }

  lemma StepRounds(s: State, clock: real, op: Op, published: int -> Configuration.Candidate, norm: string -> string)
    requires Legal(clock, op, published, norm) && GoodRounds(s.pending, clock, s.sequence, published)
    ensures GoodRounds(Next(s, op).pending, Clock(clock, op), Next(s, op).sequence, published)
  {
    match op
    case OpSubmit(reading, c, a, now, ids) => SubmitRounds(s, clock, reading, c, a, now, ids, published);
    case OpFinalize(now, ids) => KeptAreGood(s.pending, clock, s.sequence, now, published);
    case OpReserve(id) =>
    case OpCollect(id) =>
  }

  /** Every pending round was opened under a configuration the validator accepts. */
  ghost predicate Validated(rounds: seq<Round>, norm: string -> string) {
    forall r :: r in rounds ==> Configuration.ValidCandidate(r.snapshot.candidate, norm)
  }

  lemma AdmitValidated(s: State, room: string, snapshot: Snapshot, claim: Eligible, now: real, norm: string -> string)
    requires Validated(s.pending, norm) && Configuration.ValidCandidate(snapshot.candidate, norm)
    ensures Validated(Admit(s, room, snapshot, claim, now).pending, norm)
  {
    var s' := Admit(s, room, snapshot, claim, now);
    forall i | 0 <= i < |s'.pending|
      ensures s'.pending[i].snapshot == snapshot
              || exists k :: 0 <= k < |s.pending| && s'.pending[i].snapshot == s.pending[k].snapshot
    {
      if i < |s.pending| {
        assert s'.pending[i].snapshot == s.pending[i].snapshot;
      }
    }
  }

  lemma SubmitValidated(s: State, clock: real, reading: Reading, c: Claim, a: Authority, now: real,
          ids: string -> string, published: int -> Configuration.Candidate, norm: string -> string)
    requires GoodRounds(s.pending, clock, s.sequence, published) && Validated(s.pending, norm)
    requires reading.Valid? ==> Configuration.ValidCandidate(reading.snapshot.candidate, norm)
    ensures Validated(Submit(s, reading, c, a, now, ids).0.pending, norm)
  {
    SubmitShape(s, reading, c, a, now, ids);
    if reading.Valid? && FindDevice(reading.snapshot.candidate.devices, c.device).Some? {
      var room := FindDevice(reading.snapshot.candidate.devices, c.device).value.room;
      ReadyRounds(s, reading, room, clock, now, ids, published);
      if Submit(s, reading, c, a, now, ids).1.Admitted? {
        var view := Judged(s, reading, room, now, ids);
        AdmitValidated(Ready(s, reading, room, now, ids), room, view,
                       ValidateClaim(c, a, view, s.accepted, s.sequence, now).value, now, norm);
      }
    }
  }

  lemma StepValidated(s: State, clock: real, op: Op, published: int -> Configuration.Candidate, norm: string -> string)
    requires Legal(clock, op, published, norm) && GoodRounds(s.pending, clock, s.sequence, published)
             && Validated(s.pending, norm)
    ensures Validated(Next(s, op).pending, norm)
  {
    if op.OpSubmit? {
      SubmitValidated(s, clock, op.reading, op.claim, op.authority, op.now, op.ids, published, norm);
    }
  }

  /** What every reachable state keeps. */
  ghost predicate Inv(s: State, clock: real, published: int -> Configuration.Candidate, norm: string -> string) {
    Conserved(s) && GoodRounds(s.pending, clock, s.sequence, published) && Validated(s.pending, norm)
  }

  lemma {:induction false} RunKeeps(clock: real, s: State, ops: seq<Op>, published: int -> Configuration.Candidate,
          norm: string -> string)
    returns (end: real)
    requires Inv(s, clock, published, norm) && Runs(clock, s, ops, published, norm)
    ensures Inv(Final(s, ops), end, published, norm)
    decreases |ops|
  {
    if ops == [] {
      end := clock;
    } else {
      StepConserves(s, ops[0]);
      StepRounds(s, clock, ops[0], published, norm);
      StepValidated(s, clock, ops[0], published, norm);
      end := RunKeeps(Clock(clock, ops[0]), Next(s, ops[0]), ops[1..], published, norm);
    }
  }

  // ---------------------------------------------------------------- theorems

  ghost predicate HasId(claims: seq<Eligible>, id: string) {
    exists j :: 0 <= j < |claims| && claims[j].id == id
  }

  ghost predicate PendingId(rounds: seq<Round>, id: string) {
    exists i :: 0 <= i < |rounds| && HasId(rounds[i].claims, id)
  }

  lemma {:induction false} CountedIsThere(claims: seq<Eligible>, id: string)
    ensures ClaimCount(claims, id) >= 1 <==> HasId(claims, id)
  {
    if claims != [] {
      CountedIsThere(claims[..|claims| - 1], id);
      if j :| 0 <= j < |claims| && claims[j].id == id {
        CountMember(claims, j);
      }
    }
  }

  lemma {:induction false} CountedIsPending(rounds: seq<Round>, id: string)
    ensures RoundCount(rounds, id) >= 1 <==> PendingId(rounds, id)
  {
    if rounds != [] {
      var n := |rounds| - 1;
      CountedIsPending(rounds[..n], id);
      CountedIsThere(rounds[n].claims, id);
      PendingNext(rounds, id);
    }
  }

  lemma PendingNext(rounds: seq<Round>, id: string)
    requires rounds != []
    ensures PendingId(rounds, id) <==> PendingId(rounds[..|rounds| - 1], id) || HasId(rounds[|rounds| - 1].claims, id)
  {
    var n := |rounds| - 1;
    if i :| 0 <= i < |rounds| && HasId(rounds[i].claims, id) && i < n {
      assert rounds[..n][i] == rounds[i];
    }
  }

  /** The ID is in exactly one of the four places if it was accepted, else in none. */
  ghost predicate InOnePlace(s: State, id: string) {
    One(id in s.reserved) + One(PendingId(s.pending, id)) + One(id in s.resolved) + One(id in s.collected) ==
        One(id in s.accepted)
  }

  lemma ConservedIsOnePlace(s: State, id: string)
    requires Conserved(s)
    ensures InOnePlace(s, id)
  {
    assert ConservedAt(s, id);
    CountedIsPending(s.pending, id);
  }

  /** At all times every accepted ID is in exactly one of reserved, pending,
      resolved and collected, and nothing else is in any of them. */
  lemma AcceptedIsDisjointUnion(ops: seq<Op>, id: string)
    ensures InOnePlace(Final(EMPTY, ops), id)
  {
    RunConserves(EMPTY, ops);
    ConservedIsOnePlace(Final(EMPTY, ops), id);
  }

  lemma EmptyIsGood(clock: real, published: int -> Configuration.Candidate, norm: string -> string)
    ensures Inv(EMPTY, clock, published, norm)
  {
    assert EMPTY == State([], map[], {}, 0, {}, {});
  }

  /** The round of `room` that a claim has just entered, as the last of its claims. */
  ghost predicate Entered(s: State, k: nat, room: string, c: Claim, sequence: nat, now: real) {
    && k < |s.pending| && s.pending[k].room == room && s.pending[k].claims != []
    && var last, view := s.pending[k].claims[|s.pending[k].claims| - 1], s.pending[k].snapshot;
       var d, m := FindDevice(view.candidate.devices, c.device), FindMapping(view.candidate.mappings, c.mapping);
       && d.Some? && m.Some? && view.revision == c.revision
       && last == Eligible(c.id, c.device, d.value.room, c.mapping, m.value.profile, c.score, d.value.priority,
                           sequence, c.revision, now)
  }

  /** An admitted claim was never accepted before, is accepted now, and waits in
      the round of its device's Room that was opened under the claim's own
      revision; the answer is that round's deadline. */
  lemma AdmissionEntersItsRound(s: State, reading: Reading, c: Claim, a: Authority, now: real, ids: string -> string)
    returns (k: nat)
    requires OnePerRoom(s.pending) && Submit(s, reading, c, a, now, ids).1.Admitted?
    ensures var (s', r) := Submit(s, reading, c, a, now, ids);
      && c.id !in s.accepted && s'.accepted == s.accepted + {c.id} && a.device == Some(c.device)
      && reading.Valid? && FindDevice(reading.snapshot.candidate.devices, c.device).Some?
      && Entered(s', k, FindDevice(reading.snapshot.candidate.devices, c.device).value.room, c, s.sequence,
                 now)
      && s'.sequence == s.sequence + 1 && r.deadline == Deadline(s'.pending[k])
  {
    var room := FindDevice(reading.snapshot.candidate.devices, c.device).value.room;
    var settled := FinalizeDue(s, now, ids);
    KeptIsSublist(s.pending, now);
    k := AdmissionAfterSettling(settled, reading.snapshot, room, c, a, now, ids);
  }

  lemma AdmissionAfterSettling(s: State, snapshot: Snapshot, room: string, c: Claim, a: Authority, now: real,
          ids: string -> string)
    returns (k: nat)
    requires OnePerRoom(s.pending) && Join(s, snapshot, room, c, a, now, ids).1.Admitted?
    ensures var (s', r) := Join(s, snapshot, room, c, a, now, ids);
      && c.id !in s.accepted && s'.accepted == s.accepted + {c.id} && a.device == Some(c.device)
      && Entered(s', k, room, c, s.sequence, now) && s'.sequence == s.sequence + 1
      && r.deadline == Deadline(s'.pending[k])
  {
    var found := FindRound(s.pending, room);
    if found.Some? && s.pending[found.value].snapshot.revision != snapshot.revision {
      var ready := FinalizeAt(s, found.value, ids);
      RestOnePerRoom(s.pending, found.value);
      AdmitEnters(ready, room, snapshot, c, a, s.accepted, now);
      k := |ready.pending|;
    } else {
      var view := if found.Some? then s.pending[found.value].snapshot else snapshot;
      AdmitEnters(s, room, view, c, a, s.accepted, now);
      k := if found.Some? then found.value else |s.pending|;
    }
  }

  lemma AdmitEnters(s: State, room: string, view: Snapshot, c: Claim, a: Authority, existing: set<string>, now: real)
    requires ValidateClaim(c, a, view, existing, s.sequence, now).Ok?
    requires var found := FindRound(s.pending, room); found.Some? ==> s.pending[found.value].snapshot == view
    ensures var found := FindRound(s.pending, room);
      Entered(Admit(s, room, view, ValidateClaim(c, a, view, existing, s.sequence, now).value, now),
              if found.Some? then found.value else |s.pending|, room, c, s.sequence, now)
    ensures c.id !in existing && a.device == Some(c.device)
            && ValidateClaim(c, a, view, existing, s.sequence, now).value.id == c.id
  {
  }

  /** Every pending round is non-empty, one per Room, and holds only claims of its
      Room and revision that fit its snapshot and were admitted within the window of its first. */
  lemma PendingRoundsAreBounded(clock: real, ops: seq<Op>, published: int -> Configuration.Candidate,
          norm: string -> string, i: nat)
    requires Runs(clock, EMPTY, ops, published, norm) && i < |Final(EMPTY, ops).pending|
    ensures var r := Final(EMPTY, ops).pending[i];
      && r.claims != []
      && (forall j :: 0 <= j < |r.claims| ==>
            && r.claims[j].room == r.room && FromSnapshot(r.claims[j], r.snapshot)
            && r.claims[j].revision == r.snapshot.revision
            && r.claims[0].admittedAt <= r.claims[j].admittedAt < r.claims[0].admittedAt + 0.250)
      && (forall k :: 0 <= k < |Final(EMPTY, ops).pending| && k != i ==> Final(EMPTY, ops).pending[k].room != r.room)
  {
    EmptyIsGood(clock, published, norm);
    var _ := RunKeeps(clock, EMPTY, ops, published, norm);
  }

  /** Each claim of the round has a decision, nothing else has, and exactly one is
      granted: the claim that beats all others. */
  ghost predicate Decided(r: Round, decisions: map<string, Decision>, id: string) {
    && (forall j :: 0 <= j < |r.claims| ==> r.claims[j].id in decisions)
    && (forall x :: x in decisions ==> HasId(r.claims, x))
    && exists w :: 0 <= w < |r.claims| && Wins(r, decisions, w) && Tells(r, decisions, id)
  }

  /** A greater score beats all, then a smaller priority number, then the earlier arrival. */
  ghost predicate Beats(a: Eligible, b: Eligible) {
    && a.score >= b.score
    && (a.score == b.score ==> a.priority <= b.priority)
    && (a.score == b.score && a.priority == b.priority ==> a.sequence < b.sequence)
  }

  ghost predicate Wins(r: Round, decisions: map<string, Decision>, w: nat)
    requires w < |r.claims| && forall j :: 0 <= j < |r.claims| ==> r.claims[j].id in decisions
  {
    && (forall k :: 0 <= k < |r.claims| && k != w ==> Beats(r.claims[w], r.claims[k]))
    && (forall j :: 0 <= j < |r.claims| ==> (decisions[r.claims[j].id].granted <==> j == w))
  }

  /** Each decision is about its own claim: its device, Room, mapping and
      Profile, under the round's revision and the arbitration ID drawn for it. */
  ghost predicate Tells(r: Round, decisions: map<string, Decision>, id: string)
    requires forall j :: 0 <= j < |r.claims| ==> r.claims[j].id in decisions
  {
    forall j :: 0 <= j < |r.claims| ==>
      var c, d := r.claims[j], decisions[r.claims[j].id];
      && d.id == c.id && d.device == c.device && d.room == c.room && d.mapping == c.mapping
      && d.profile == c.profile && d.revision == r.snapshot.revision && d.arbitrationId == id
  }

  /** Finalizing a round of a reachable state decides each of its claims and
      grants exactly one, the lexicographically best. */
  lemma OneBestWinner(clock: real, ops: seq<Op>, published: int -> Configuration.Candidate, norm: string -> string,
          i: nat, id: string)
    requires Runs(clock, EMPTY, ops, published, norm) && i < |Final(EMPTY, ops).pending|
    ensures Decided(Final(EMPTY, ops).pending[i], Outcome(Final(EMPTY, ops).pending[i], id), id)
  {
    EmptyIsGood(clock, published, norm);
    var _ := RunKeeps(clock, EMPTY, ops, published, norm);
    var s := Final(EMPTY, ops);
    assert s.pending[i] in s.pending;
    RoundIsDistinct(s, i);
    RoundDecides(s.pending[i], id);
  }

  ghost predicate DistinctIds(claims: seq<Eligible>) {
    forall i, j :: 0 <= i < j < |claims| ==> claims[i].id != claims[j].id
  }

  lemma RoundIsDistinct(s: State, i: nat)
    requires Conserved(s) && i < |s.pending|
    ensures DistinctIds(s.pending[i].claims)
  {
    forall x
      ensures ClaimCount(s.pending[i].claims, x) <= 1
    {
      assert ConservedAt(s, x);
      CountRemove(s.pending, i, x);
    }
    CountedOnce(s.pending[i].claims);
  }

  lemma {:induction false} CountedOnce(claims: seq<Eligible>)
    requires forall x :: ClaimCount(claims, x) <= 1
    ensures DistinctIds(claims)
  {
    if claims != [] {
      var n := |claims| - 1;
      forall x
        ensures ClaimCount(claims[..n], x) <= 1
      {
        assert ClaimCount(claims, x) <= 1;
      }
      CountedOnce(claims[..n]);
      forall i | 0 <= i < n
        ensures claims[i].id != claims[n].id
      {
        CountMember(claims[..n], i);
        assert ClaimCount(claims, claims[n].id) <= 1;
      }
    }
  }

  lemma {:induction false} DecisionValues(r: Round, claims: seq<Eligible>, id: string, i: nat)
    requires r.claims != [] && DistinctIds(claims) && i < |claims|
    ensures claims[i].id in Decisions(r, claims, id)
            && Decisions(r, claims, id)[claims[i].id] == DecisionFor(r, claims[i], id)
  {
    if i < |claims| - 1 {
      DecisionValues(r, claims[..|claims| - 1], id, i);
    }
  }

  lemma RoundDecides(r: Round, id: string)
    requires r.claims != [] && DistinctIds(r.claims)
    requires forall i, j :: 0 <= i < j < |r.claims| ==> r.claims[i].sequence < r.claims[j].sequence
    ensures Decided(r, Outcome(r, id), id)
  {
    forall i | 0 <= i < |r.claims|
      ensures r.claims[i].id in Outcome(r, id) && Outcome(r, id)[r.claims[i].id] == DecisionFor(r, r.claims[i], id)
    {
      DecisionValues(r, r.claims, id, i);
    }
    forall x | x in Outcome(r, id)
      ensures HasId(r.claims, x)
    {
      DecisionKeys(r, r.claims, id, x);
      CountedIsThere(r.claims, x);
    }
    BestWins(r, Outcome(r, id), id);
  }

  lemma BestWins(r: Round, decisions: map<string, Decision>, id: string)
    requires r.claims != [] && DistinctIds(r.claims)
    requires forall i, j :: 0 <= i < j < |r.claims| ==> r.claims[i].sequence < r.claims[j].sequence
    requires forall i :: 0 <= i < |r.claims| ==>
               r.claims[i].id in decisions && decisions[r.claims[i].id] == DecisionFor(r, r.claims[i], id)
    ensures Wins(r, decisions, Best(r.claims)) && Tells(r, decisions, id)
  {
    var w := Best(r.claims);
    BestBeatsAll(r.claims);
    forall j | 0 <= j < |r.claims|
      ensures decisions[r.claims[j].id].granted <==> j == w
    {
      assert decisions[r.claims[j].id] == DecisionFor(r, r.claims[j], id);
      assert j < w ==> r.claims[j].id != r.claims[w].id;
      assert w < j ==> r.claims[w].id != r.claims[j].id;
    }
  }

  lemma BestBeatsAll(claims: seq<Eligible>)
    requires claims != [] && forall i, j :: 0 <= i < j < |claims| ==> claims[i].sequence < claims[j].sequence
    ensures forall k :: 0 <= k < |claims| && k != Best(claims) ==> Beats(claims[Best(claims)], claims[k])
  {
    var w := Best(claims);
    forall k | 0 <= k < |claims| && k != w
      ensures Beats(claims[w], claims[k])
    {
      assert !Better(claims[k], claims[w]);
      assert k < w ==> claims[k].sequence < claims[w].sequence;
      assert w < k ==> claims[w].sequence < claims[k].sequence;
    }
  }

  /** An ID once accepted is never accepted again. */
  lemma NeverTwice(s: State, ops: seq<Op>, id: string, reading: Reading, c: Claim, a: Authority, now: real,
          ids: string -> string)
    requires id in s.accepted && c.id == id
    ensures !Reserve(Final(s, ops), id).1
    ensures Submit(Final(s, ops), reading, c, a, now, ids).1.Denied?
  {
    AcceptedGrows(s, ops);
  }

  lemma {:induction false} AcceptedGrows(s: State, ops: seq<Op>)
    ensures s.accepted <= Final(s, ops).accepted && s.collected <= Final(s, ops).collected
    decreases |ops|
  {
    if ops != [] {
      if ops[0].OpSubmit? {
        SubmitShape(s, ops[0].reading, ops[0].claim, ops[0].authority, ops[0].now, ops[0].ids);
      }
      AcceptedGrows(Next(s, ops[0]), ops[1..]);
    }
  }

  /** A decision that was handed out is never handed out again. */
  lemma CollectedOnce(before: seq<Op>, after: seq<Op>, id: string)
    requires Collect(Final(EMPTY, before), id).1.Some?
    ensures Collect(Final(Collect(Final(EMPTY, before), id).0, after), id).1.None?
  {
    RunConserves(EMPTY, before);
    var s := Collect(Final(EMPTY, before), id).0;
    CollectConserves(Final(EMPTY, before), id);
    RunConserves(s, after);
    AcceptedGrows(s, after);
    var s' := Final(s, after);
    assert ConservedAt(s', id);
  }

  lemma {:induction false} RunConserves(s: State, ops: seq<Op>)
    requires Conserved(s)
    ensures Conserved(Final(s, ops))
    decreases |ops|
  {
    if ops != [] {
      StepConserves(s, ops[0]);
      RunConserves(Next(s, ops[0]), ops[1..]);
    }
  }

  // ----------------------------------------------------- arrival order is moot

  /** What a claim says, apart from when it arrived. */
  function Content(c: Eligible): (string, string, string, real, int) { (c.id, c.device, c.room, c.score, c.priority) }

  function Contents(claims: seq<Eligible>): seq<(string, string, string, real, int)> {
    seq(|claims|, i requires 0 <= i < |claims| => Content(claims[i]))
  }

  /** Claims of one Room judged by one accepted configuration. */
  ghost predicate Entrants(claims: seq<Eligible>, room: string, snapshot: Snapshot) {
    claims != [] && forall i :: 0 <= i < |claims| ==> claims[i].room == room && FromSnapshot(claims[i], snapshot)
  }

  lemma Counterpart(xs: seq<Eligible>, ys: seq<Eligible>, i: nat) returns (j: nat)
    requires i < |xs| && multiset(Contents(xs)) == multiset(Contents(ys))
    ensures j < |ys| && Content(ys[j]) == Content(xs[i])
  {
    assert Contents(xs)[i] in multiset(Contents(xs));
    assert Contents(xs)[i] in Contents(ys);
    j :| 0 <= j < |ys| && Contents(ys)[j] == Contents(xs)[i];
  }

  /** Under a configuration the validator accepts, the same claims in any arrival
      order give the same winning device, because priorities never repeat in a Room. */
  lemma WinnerIgnoresArrivalOrder(xs: seq<Eligible>, ys: seq<Eligible>, room: string, snapshot: Snapshot,
          norm: string -> string)
    requires Configuration.ValidCandidate(snapshot.candidate, norm)
    requires Entrants(xs, room, snapshot) && Entrants(ys, room, snapshot)
    requires multiset(Contents(xs)) == multiset(Contents(ys))
    ensures xs[Best(xs)].device == ys[Best(ys)].device && xs[Best(xs)].score == ys[Best(ys)].score
  {
    var x, y := xs[Best(xs)], ys[Best(ys)];
    var j := Counterpart(xs, ys, Best(xs));
    var i := Counterpart(ys, xs, Best(ys));
    assert !Better(ys[j], y) && !Better(xs[i], x);
    assert x.score == y.score && x.priority == y.priority;
    SamePriority(snapshot.candidate, x, y);
  }

  /** In an accepted configuration a Room and a priority name one device. */
  lemma SamePriority(c: Configuration.Candidate, x: Eligible, y: Eligible)
    requires Configuration.ValidDevices(c.devices, c.rooms, c.mappings, c.profiles)
    requires FromSnapshot(x, Snapshot(0, c)) && FromSnapshot(y, Snapshot(0, c)) && x.room == y.room
             && x.priority == y.priority
    ensures x.device == y.device
  {
    var ds := c.devices;
    var p :| 0 <= p < |ds| && ds[p].id == x.device && ds[p].room == x.room && ds[p].priority == x.priority;
    var q :| 0 <= q < |ds| && ds[q].id == y.device && ds[q].room == y.room && ds[q].priority == y.priority;
    assert p < q ==> Configuration.Compatible(ds[p], ds[q]);
    assert q < p ==> Configuration.Compatible(ds[q], ds[p]);
  }

  /** So in every run a pending round's winner is the one any other arrival order
      of its claims would give. */
  lemma ReachableWinnerIgnoresOrder(clock: real, ops: seq<Op>, published: int -> Configuration.Candidate,
          norm: string -> string, i: nat, ys: seq<Eligible>)
    requires Runs(clock, EMPTY, ops, published, norm) && i < |Final(EMPTY, ops).pending|
    requires multiset(Contents(ys)) == multiset(Contents(Final(EMPTY, ops).pending[i].claims))
    ensures var xs := Final(EMPTY, ops).pending[i].claims;
      xs != [] && ys != [] && xs[Best(xs)].device == ys[Best(ys)].device
  {
    EmptyIsGood(clock, published, norm);
    var _ := RunKeeps(clock, EMPTY, ops, published, norm);
    var r := Final(EMPTY, ops).pending[i];
    assert r in Final(EMPTY, ops).pending;
    var j := Counterpart(r.claims, ys, 0);
    forall k | 0 <= k < |ys|
      ensures ys[k].room == r.room && FromSnapshot(ys[k], r.snapshot)
    {
      var m := Counterpart(ys, r.claims, k);
      assert FromSnapshot(r.claims[m], r.snapshot);
    }
    WinnerIgnoresArrivalOrder(r.claims, ys, r.room, r.snapshot, norm);
  }
}
