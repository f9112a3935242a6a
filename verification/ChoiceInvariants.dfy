/** What holds over every run of the choice authority. */
module ChoiceInvariants {
  import opened Wrappers
  import opened Choices

  // ------------------------------------------------------------- statements

  /** Tables only name arena objects, under their own keys. */
  ghost predicate WellNamed(s: State) {
    && (forall k :: k in s.objects ==> s.objects[k] < |s.arena| && s.arena[s.objects[k]].source == k)
    && (forall t :: t in s.current ==> s.current[t] < |s.arena| && TurnOf(s.arena[s.current[t]]) == t)
  }

  /** An open choice is its turn's current one, and still in the table. */
  ghost predicate OpenIsCurrent(s: State) {
    forall i :: 0 <= i < |s.arena| && s.arena[i].state == Offered ==>
      && IsCurrent(s, TurnOf(s.arena[i]), i)
      && s.arena[i].source in s.objects && s.objects[s.arena[i].source] == i
  }

  /** The current choice of a turn is the last one minted for it. */
  ghost predicate CurrentIsLatest(s: State) {
    forall t, j :: t in s.current && s.current[t] < j < |s.arena| ==> TurnOf(s.arena[j]) != t
  }

  ghost predicate FewObjects(s: State) {
    forall t :: |ObjectsOf(s.objects, t)| <= MAX_OBJECTS_PER_TURN
  }

  ghost predicate ObjectInv(s: State) {
    WellNamed(s) && OpenIsCurrent(s) && CurrentIsLatest(s) && FewObjects(s)
  }

  /** A correlation names an object of its own turn. */
  ghost predicate Points(s: State, c: Correlation) {
    && c.choice < |s.arena| && TurnOf(s.arena[c.choice]) == (c.key.handle, c.key.turn)
    && c.record < s.issued
  }

  /** Correlation records have their own keys and their own numbers. */
  ghost predicate Distinct(cs: seq<Correlation>) {
    forall i, j :: 0 <= i < j < |cs| ==> cs[i].record != cs[j].record && cs[i].key != cs[j].key
  }

  ghost predicate CorrelationInv(s: State) {
    && |s.correlations| <= MAX_CORRELATIONS
    && (forall i :: 0 <= i < |s.correlations| ==> Points(s, s.correlations[i]))
    && Distinct(s.correlations)
  }

  ghost predicate Inv(s: State) { ObjectInv(s) && CorrelationInv(s) }

  /** Objects keep their contents, never reopen, and keep a deadline once they have one. */
  ghost predicate Ages(c: Choice, c': Choice) {
    && c' == c.(state := c'.state, expiresAt := c'.expiresAt)
    && (c'.state == Offered ==> c.state == Offered)
    && (c.expiresAt.Some? ==> c'.expiresAt == c.expiresAt)
  }

  ghost predicate Evolves(s: State, s': State) {
    && |s.arena| <= |s'.arena| && s.issued <= s'.issued
    && forall i :: 0 <= i < |s.arena| ==> Ages(s.arena[i], s'.arena[i])
  }

  /** The record with this number can no longer be accepted. */
  ghost predicate Spent(s: State, record: nat) {
    && record < s.issued
    && forall i :: 0 <= i < |s.correlations| && s.correlations[i].record == record ==> s.correlations[i].consumed
  }

  // ------------------------------------------------------- state-only edits

  /** Same correlations; open objects may end, deadlines may start, table entries may go. */
  ghost predicate Settles(s: State, s': State) {
    && |s'.arena| == |s.arena| && s'.issued == s.issued
    && (forall i :: 0 <= i < |s.arena| ==> Ages(s.arena[i], s'.arena[i]))
    && (forall k :: k in s'.objects ==> k in s.objects && s'.objects[k] == s.objects[k])
    && (forall t :: t in s'.current ==> t in s.current && s'.current[t] == s.current[t])
    && (forall i :: 0 <= i < |s'.arena| && s'.arena[i].state == Offered ==>
          TurnOf(s'.arena[i]) in s'.current && s'.arena[i].source in s'.objects)
    && s'.correlations == s.correlations
  }

  lemma CorrelationsStay(s: State, s': State)
    requires CorrelationInv(s) && Evolves(s, s') && s'.correlations == s.correlations
    ensures CorrelationInv(s')
  {
    forall i | 0 <= i < |s'.correlations|
      ensures Points(s', s'.correlations[i])
    {
      assert Points(s, s.correlations[i]);
    }
  }

  lemma FewerObjects(s: State, s': State)
    requires FewObjects(s)
    requires forall k :: k in s'.objects ==> k in s.objects && s'.objects[k] == s.objects[k]
    ensures FewObjects(s')
  {
    forall t
      ensures |ObjectsOf(s'.objects, t)| <= MAX_OBJECTS_PER_TURN
    {
      SubsetSize(ObjectsOf(s'.objects, t), ObjectsOf(s.objects, t));
    }
  }

  lemma SettlesNames(s: State, s': State)
    requires WellNamed(s) && CurrentIsLatest(s) && Settles(s, s')
    ensures WellNamed(s') && CurrentIsLatest(s')
  {
    forall i | 0 <= i < |s'.arena|
      ensures s'.arena[i].source == s.arena[i].source
    {
      assert Ages(s.arena[i], s'.arena[i]);
    }
  }

  lemma SettlesOpen(s: State, s': State)
    requires OpenIsCurrent(s) && Settles(s, s')
    ensures OpenIsCurrent(s')
  {
    forall i | 0 <= i < |s'.arena| && s'.arena[i].state == Offered
      ensures IsCurrent(s', TurnOf(s'.arena[i]), i)
      ensures s'.arena[i].source in s'.objects && s'.objects[s'.arena[i].source] == i
    {
      assert Ages(s.arena[i], s'.arena[i]);
      assert IsCurrent(s, TurnOf(s.arena[i]), i);
    }
  }

  lemma SettlesKeeps(s: State, s': State)
    requires Inv(s) && Settles(s, s')
    ensures Inv(s') && Evolves(s, s')
  {
    hide WellNamed, OpenIsCurrent, CurrentIsLatest, FewObjects, CorrelationInv;
    FewerObjects(s, s');
    SettlesNames(s, s');
    SettlesOpen(s, s');
    CorrelationsStay(s, s');
  }

  lemma DropSettles(s: State, c: nat, state: ChoiceState)
    requires ObjectInv(s) && c < |s.arena| && state != Offered
    ensures Settles(s, Drop(s, c, TurnOf(s.arena[c]), state)) && Settles(s, SetState(s, c, state))
  {
    SetStateSettles(s, c, state);
  }

  lemma SetStateSettles(s: State, c: nat, state: ChoiceState)
    requires ObjectInv(s) && c < |s.arena| && state != Offered
    ensures Settles(s, SetState(s, c, state))
  {
  }

  lemma StartSettles(s: State, c: nat, now: real)
    requires ObjectInv(s) && c < |s.arena| && s.arena[c].expiresAt.None?
    ensures Settles(s, Start(s, c, now))
  {
  }

  // ------------------------------------------------------------- operations

  lemma {:induction false} AnswerablesDistinct(s: State, cs: seq<Correlation>)
    requires Distinct(cs)
    ensures Distinct(Answerables(s, cs))
  {
    if cs != [] {
      var n := |cs| - 1;
      AnswerablesDistinct(s, cs[..n]);
      var before := Answerables(s, cs[..n]);
      forall i | 0 <= i < |before|
        ensures before[i].record != cs[n].record && before[i].key != cs[n].key
      {
        assert before[i] in cs[..n];
      }
    }
  }

  lemma PruneKeeps(s: State)
    requires Inv(s)
    ensures Inv(Prune(s))
  {
    AnswerablesDistinct(s, s.correlations);
    forall i | 0 <= i < |Prune(s).correlations|
      ensures Points(Prune(s), Prune(s).correlations[i])
    {
      assert Prune(s).correlations[i] in s.correlations;
    }
  }

  lemma AppendKeeps(s: State, key: PromptKey, event: nat, c: nat)
    requires CorrelationInv(s) && |s.correlations| < MAX_CORRELATIONS
    requires c < |s.arena| && TurnOf(s.arena[c]) == (key.handle, key.turn)
    requires forall i :: 0 <= i < |s.correlations| ==> s.correlations[i].key != key
    ensures CorrelationInv(s.(correlations := s.correlations + [Correlation(key, event, c, false, s.issued)],
                              issued := s.issued + 1))
  {
    assert forall i :: 0 <= i < |s.correlations| ==> Points(s, s.correlations[i]);
  }

  lemma CorrelateKeeps(s: State, key: PromptKey, event: nat, c: nat, now: real)
    requires Inv(s) && c < |s.arena| && TurnOf(s.arena[c]) == (key.handle, key.turn)
    requires forall i :: 0 <= i < |s.correlations| ==> s.correlations[i].key != key
    ensures Inv(Correlate(s, key, event, c, now).0) && Evolves(s, Correlate(s, key, event, c, now).0)
  {
    var room := if |s.correlations| >= MAX_CORRELATIONS then Prune(s) else s;
    PruneKeeps(s);
    forall i | 0 <= i < |room.correlations|
      ensures room.correlations[i].key != key
    {
      assert room.correlations[i] in s.correlations;
    }
    if |room.correlations| < MAX_CORRELATIONS {
      AppendKeeps(room, key, event, c);
    }
  }

  lemma ReuseKeeps(s: State, c: nat, p: Prompt, turn: TurnKey, supported: seq<Operation>, now: real)
    requires Inv(s) && c < |s.arena| && turn == TurnOf(s.arena[c])
    ensures var r := Reuse(s, c, p, turn, supported, now);
      && Settles(s, r.state) && Inv(r.state) && Evolves(s, r.state) && (r.choice.Some? ==> r.choice.value == c)
  {
    ReuseSettles(s, c, p, turn, supported, now);
    SettlesKeeps(s, Reuse(s, c, p, turn, supported, now).state);
  }

  lemma ReuseSettles(s: State, c: nat, p: Prompt, turn: TurnKey, supported: seq<Operation>, now: real)
    requires ObjectInv(s) && c < |s.arena| && turn == TurnOf(s.arena[c])
    ensures var r := Reuse(s, c, p, turn, supported, now);
      Settles(s, r.state) && (r.choice.Some? ==> r.choice.value == c)
  {
    var choice := s.arena[c];
    if choice.state == Offered {
      if choice.options != p.options || choice.sourceOperations != p.operations {
        SetStateSettles(s, c, Replaced);
      } else if choice.supported != supported {
        DropSettles(s, c, Revoked);
      } else if choice.expiresAt.Some? && now >= choice.expiresAt.value {
        DropSettles(s, c, Expired);
      }
    }
  }

  /** The turn's current choice, if open, is replaced before a new one is minted. */
  function Superseded(s: State, turn: TurnKey): State {
    if turn in s.current && s.current[turn] < |s.arena| && s.arena[s.current[turn]].state == Offered
    then SetState(s, s.current[turn], Replaced) else s
  }

  lemma SupersededKeeps(s: State, turn: TurnKey)
    requires Inv(s)
    ensures var s' := Superseded(s, turn);
      && Settles(s, s') && Inv(s') && Evolves(s, s') && s'.objects == s.objects && s'.current == s.current
      && (turn in s'.current ==> s'.arena[s'.current[turn]].state != Offered)
  {
    if Superseded(s, turn) != s {
      DropSettles(s, s.current[turn], Replaced);
    }
    SettlesKeeps(s, Superseded(s, turn));
  }

  /** What minting does: nothing, a replacement, or a replacement and one new object. */
  lemma MintShape(s: State, key: SourceKey, turn: TurnKey, p: Prompt, supported: seq<Operation>, id: Option<string>,
          freshness: Option<string>)
    ensures var r := Mint(s, key, turn, p, supported, id, freshness);
      var replaced := Superseded(s, turn);
      && (r.choice.None? ==> r.state == s || r.state == replaced)
      && (r.choice.Some? ==>
            && |ObjectsOf(s.objects, turn)| < MAX_OBJECTS_PER_TURN && r.choice.value == |s.arena|
            && |r.state.arena| == |s.arena| + 1 && r.state.arena[|s.arena|].source == key
            && (forall i :: 0 <= i < |s.arena| ==> r.state.arena[i] == replaced.arena[i])
            && r.state == replaced.(arena := r.state.arena, objects := s.objects[key := |s.arena|],
                                    current := s.current[turn := |s.arena|]))
  {
  }

  lemma MintKeeps(s: State, key: SourceKey, turn: TurnKey, p: Prompt, supported: seq<Operation>, id: Option<string>,
          freshness: Option<string>)
    requires Inv(s) && turn == (key.handle, key.turn) && key !in s.objects
    ensures var r := Mint(s, key, turn, p, supported, id, freshness);
      && Inv(r.state) && Evolves(s, r.state) && r.state.correlations == s.correlations && r.state.issued == s.issued
      && (r.choice.Some? ==> r.choice.value < |r.state.arena| && TurnOf(r.state.arena[r.choice.value]) == turn)
  {
    var r := Mint(s, key, turn, p, supported, id, freshness);
    MintShape(s, key, turn, p, supported, id, freshness);
    SupersededKeeps(s, turn);
    if r.choice.Some? {
      AddKeeps(Superseded(s, turn), r.state, key, turn);
      CorrelationsStay(Superseded(s, turn), r.state);
      EvolvesTrans(s, Superseded(s, turn), r.state);
    }
  }

  lemma AddFew(s: State, s': State, key: SourceKey, turn: TurnKey)
    requires FewObjects(s) && key !in s.objects && turn == (key.handle, key.turn)
    requires |ObjectsOf(s.objects, turn)| < MAX_OBJECTS_PER_TURN
    requires s'.objects == s.objects[key := |s.arena|]
    ensures FewObjects(s')
  {
    forall t
      ensures |ObjectsOf(s'.objects, t)| <= MAX_OBJECTS_PER_TURN
    {
      if t == turn {
        assert ObjectsOf(s'.objects, t) == ObjectsOf(s.objects, t) + {key};
      } else {
        assert ObjectsOf(s'.objects, t) == ObjectsOf(s.objects, t);
      }
    }
  }

  lemma AddKeeps(s: State, s': State, key: SourceKey, turn: TurnKey)
    requires ObjectInv(s) && key !in s.objects && turn == (key.handle, key.turn)
    requires turn in s.current ==> s.arena[s.current[turn]].state != Offered
    requires |ObjectsOf(s.objects, turn)| < MAX_OBJECTS_PER_TURN
    requires |s'.arena| == |s.arena| + 1 && s'.arena[|s.arena|].source == key
    requires forall i :: 0 <= i < |s.arena| ==> s'.arena[i] == s.arena[i]
    requires s'.objects == s.objects[key := |s.arena|] && s'.current == s.current[turn := |s.arena|]
    requires s'.issued == s.issued
    ensures ObjectInv(s') && Evolves(s, s')
  {
    AddFew(s, s', key, turn);
    AddOpen(s, s', key, turn);
    AddLatest(s, s', key, turn);
  }

  lemma AddOpen(s: State, s': State, key: SourceKey, turn: TurnKey)
    requires WellNamed(s) && OpenIsCurrent(s) && key !in s.objects && turn == (key.handle, key.turn)
    requires turn in s.current ==> s.arena[s.current[turn]].state != Offered
    requires |s'.arena| == |s.arena| + 1 && s'.arena[|s.arena|].source == key
    requires forall i :: 0 <= i < |s.arena| ==> s'.arena[i] == s.arena[i]
    requires s'.objects == s.objects[key := |s.arena|] && s'.current == s.current[turn := |s.arena|]
    ensures WellNamed(s') && OpenIsCurrent(s')
  {
    forall i | 0 <= i < |s.arena| && s'.arena[i].state == Offered
      ensures IsCurrent(s', TurnOf(s'.arena[i]), i) && s'.arena[i].source in s'.objects
              && s'.objects[s'.arena[i].source] == i
    {
      assert IsCurrent(s, TurnOf(s.arena[i]), i);
      assert TurnOf(s.arena[i]) != turn && s.arena[i].source != key;
    }
  }

  lemma AddLatest(s: State, s': State, key: SourceKey, turn: TurnKey)
    requires CurrentIsLatest(s) && turn == (key.handle, key.turn)
    requires |s'.arena| == |s.arena| + 1 && s'.arena[|s.arena|].source == key
    requires forall i :: 0 <= i < |s.arena| ==> s'.arena[i] == s.arena[i]
    requires s'.current == s.current[turn := |s.arena|]
    ensures CurrentIsLatest(s')
  {
  }

  lemma LocateKeeps(s: State, p: Prompt, turn: string, now: real, id: Option<string>, freshness: Option<string>)
    requires Inv(s)
    ensures var r := Locate(s, p, turn, now, id, freshness);
      && Inv(r.state) && Evolves(s, r.state) && r.state.correlations == s.correlations && r.state.issued == s.issued
      && (r.choice.Some? ==>
            r.choice.value < |r.state.arena| && TurnOf(r.state.arena[r.choice.value]) == (p.handle, turn))
  {
    var source := SourceKey(p.handle, turn, p.session, p.revision, p.objectId, p.freshness);
    var supported := Supported(p.operations, p.capabilities);
    if source in s.objects {
      ReuseKeeps(s, s.objects[source], p, (p.handle, turn), supported, now);
    } else {
      MintKeeps(s, source, (p.handle, turn), p, supported, id, freshness);
    }
  }

  lemma ProjectKeeps(s: State, p: Prompt, handle: string, now: real, id: Option<string>, freshness: Option<string>)
    requires Inv(s)
    ensures Inv(Project(s, p, handle, now, id, freshness).0) && Evolves(s, Project(s, p, handle, now, id, freshness).0)
  {
    if ValidPrompt(p, handle) {
      var key := PromptKey(handle, p.turn.value, p.correlation.value);
      if Find(s.correlations, key).None? {
        LocateKeeps(s, p, p.turn.value, now, id, freshness);
        var located := Locate(s, p, p.turn.value, now, id, freshness);
        if located.choice.Some? {
          CorrelateKeeps(located.state, key, p.identity, located.choice.value, now);
          EvolvesTrans(s, located.state, Correlate(located.state, key, p.identity, located.choice.value, now).0);
        }
      }
    }
  }

  lemma EvolvesTrans(a: State, b: State, c: State)
    requires Evolves(a, b) && Evolves(b, c)
    ensures Evolves(a, c)
  {
  }

  lemma DropKeeps(s: State, c: nat, turn: TurnKey)
    requires Inv(s) && c < |s.arena| && turn == TurnOf(s.arena[c])
    ensures Inv(Drop(s, c, turn, Expired)) && Evolves(s, Drop(s, c, turn, Expired))
  {
    DropSettles(s, c, Expired);
    SettlesKeeps(s, Drop(s, c, turn, Expired));
  }

  lemma StartKeeps(s: State, c: nat, now: real)
    requires Inv(s) && c < |s.arena| && s.arena[c].expiresAt.None?
    ensures Inv(Start(s, c, now)) && Evolves(s, Start(s, c, now))
  {
    StartSettles(s, c, now);
    SettlesKeeps(s, Start(s, c, now));
  }

  lemma EntryPoints(s: State, key: PromptKey)
    requires CorrelationInv(s) && Find(s.correlations, key).Some?
    ensures var c := s.correlations[Find(s.correlations, key).value].choice;
      c < |s.arena| && TurnOf(s.arena[c]) == (key.handle, key.turn)
  {
    assert Points(s, s.correlations[Find(s.correlations, key).value]);
  }

  lemma DeliverKeeps(s: State, key: PromptKey, now: real)
    requires Inv(s)
    ensures Inv(Delivered(s, key, now)) && Evolves(s, Delivered(s, key, now))
  {
    var found := Find(s.correlations, key);
    if found.Some? {
      EntryPoints(s, key);
      var c := s.correlations[found.value].choice;
      var turn := (key.handle, key.turn);
      if s.arena[c].state != Offered || !IsCurrent(s, turn, c) {
        assert Delivered(s, key, now) == s;
      } else if s.arena[c].expiresAt.None? {
        StartKeeps(s, c, now);
      } else if now >= s.arena[c].expiresAt.value {
        DropKeeps(s, c, turn);
      } else {
        assert Delivered(s, key, now) == s;
      }
    }
  }

  lemma ConsumeKeeps(s: State, k: nat)
    requires CorrelationInv(s) && k < |s.correlations|
    ensures CorrelationInv(s.(correlations := s.correlations[k := s.correlations[k].(consumed := true)]))
  {
    assert forall i :: 0 <= i < |s.correlations| ==> Points(s, s.correlations[i]);
  }

  /** What an authorization may do to the state. */
  lemma AuthorizeShape(s: State, a: Attempt, now: real)
    ensures var (s', d) := Authorize(s, a, now);
      var found := Find(s.correlations, a.key);
      if d.Accepted?
      then
        && found.Some? && d.record == s.correlations[found.value].record
        && d.choice == s.correlations[found.value].choice
        && s' == s.(correlations := s.correlations[found.value := s.correlations[found.value].(consumed := true)])
      else
        || s' == s
        || (&& found.Some? && s.correlations[found.value].choice < |s.arena|
            && s' == SetState(s, s.correlations[found.value].choice, Expired))
  {
  }

  lemma AuthorizeKeeps(s: State, a: Attempt, now: real)
    requires Inv(s)
    ensures Inv(Authorize(s, a, now).0) && Evolves(s, Authorize(s, a, now).0)
  {
    AuthorizeShape(s, a, now);
    var (s', d) := Authorize(s, a, now);
    var found := Find(s.correlations, a.key);
    if d.Accepted? {
      ConsumeKeeps(s, found.value);
    } else if s' != s {
      DropSettles(s, s.correlations[found.value].choice, Expired);
      SettlesKeeps(s, s');
    }
  }

  lemma CompleteKeeps(s: State, d: Decision)
    requires Inv(s)
    ensures Inv(Complete(s, d)) && Evolves(s, Complete(s, d))
  {
    if Complete(s, d) != s {
      DropSettles(s, d.choice, Chosen);
      SettlesKeeps(s, Complete(s, d));
    }
  }

  lemma ExpireKeeps(s: State, key: PromptKey)
    requires Inv(s)
    ensures Inv(ExpireCorrelation(s, key)) && Evolves(s, ExpireCorrelation(s, key))
  {
    var found := Find(s.correlations, key);
    if found.Some? && ExpireCorrelation(s, key) != s {
      assert Points(s, s.correlations[found.value]);
      DropSettles(s, s.correlations[found.value].choice, Expired);
      SettlesKeeps(s, ExpireCorrelation(s, key));
    }
  }

  /** Revoking a turn leaves no choice of that turn open and the others alone. */
  lemma RevokeTurnSettles(s: State, turn: TurnKey)
    requires ObjectInv(s)
    ensures Settles(s, RevokeTurn(s, turn))
  {
    var s' := RevokeTurn(s, turn);
    forall i | 0 <= i < |s.arena| && s'.arena[i].state == Offered
      ensures TurnOf(s'.arena[i]) in s'.current && s'.arena[i].source in s'.objects
    {
      assert IsCurrent(s, TurnOf(s.arena[i]), i);
      assert TurnOf(s.arena[i]) != turn;
    }
  }

  lemma RevokeAllSettles(s: State)
    requires ObjectInv(s)
    ensures Settles(s, RevokeAll(s))
  {
    forall i | 0 <= i < |s.arena|
      ensures RevokeAll(s).arena[i].state != Offered
    {
      if s.arena[i].state == Offered {
        assert s.objects[s.arena[i].source] == i;
      }
    }
  }

  lemma StepKeeps(s: State, op: Op)
    requires Inv(s)
    ensures Inv(Next(s, op)) && Evolves(s, Next(s, op))
  {
    match op
    case OpProject(p, handle, now, id, freshness) => ProjectKeeps(s, p, handle, now, id, freshness);
    case OpDeliver(key, now) => DeliverKeeps(s, key, now);
    case OpAuthorize(a, now) => AuthorizeKeeps(s, a, now);
    case OpComplete(d) => CompleteKeeps(s, d);
    case OpExpire(key) => ExpireKeeps(s, key);
    case OpRevokeTurn(turn) =>
      RevokeTurnSettles(s, turn);
      SettlesKeeps(s, RevokeTurn(s, turn));
    case OpRevokeAll =>
      RevokeAllSettles(s);
      SettlesKeeps(s, RevokeAll(s));
  }

  lemma {:induction false} RunKeeps(s: State, ops: seq<Op>)
    requires Inv(s)
    ensures Inv(Final(s, ops)) && Evolves(s, Final(s, ops))
    decreases |ops|
  {
    if ops != [] {
      StepKeeps(s, ops[0]);
      RunKeeps(Next(s, ops[0]), ops[1..]);
    }
  }

  lemma EmptyIsSafe()
    ensures Inv(EMPTY)
  {
    assert forall t :: ObjectsOf(EMPTY.objects, t) == {};
  }

  // ---------------------------------------------------------------- theorems

  /** Over any run: at most one open choice per turn, and it is the turn's
      current and latest one; both tables stay within their limits. */
  lemma OneOpenChoicePerTurn(ops: seq<Op>)
    ensures var s := Final(EMPTY, ops);
      && (forall i, j :: 0 <= i < j < |s.arena| && s.arena[i].state == Offered && s.arena[j].state == Offered ==>
            TurnOf(s.arena[i]) != TurnOf(s.arena[j]))
      && (forall i :: 0 <= i < |s.arena| && s.arena[i].state == Offered ==>
            && IsCurrent(s, TurnOf(s.arena[i]), i)
            && forall j :: i < j < |s.arena| ==> TurnOf(s.arena[j]) != TurnOf(s.arena[i]))
      && |s.correlations| <= MAX_CORRELATIONS
      && (forall t :: |ObjectsOf(s.objects, t)| <= MAX_OBJECTS_PER_TURN)
  {
    EmptyIsSafe();
    RunKeeps(EMPTY, ops);
  }

  /** A choice that is not open is never open again. */
  lemma NeverReopens(before: seq<Op>, after: seq<Op>, c: nat)
    requires c < |Final(EMPTY, before).arena| && Final(EMPTY, before).arena[c].state != Offered
    ensures var s' := Final(Final(EMPTY, before), after); c < |s'.arena| && s'.arena[c].state != Offered
  {
    EmptyIsSafe();
    RunKeeps(EMPTY, before);
    RunKeeps(Final(EMPTY, before), after);
  }

  /** The response names the tokens of its turn's latest choice, a listed option
      and a supported operation, while that choice is open and before its
      deadline; the answer sent on carries the source's own tokens. */
  ghost predicate FreshAnswer(s: State, a: Attempt, d: Decision, now: real)
    requires d.Accepted?
  {
    && d.choice < |s.arena|
    && OpenChoice(s, a, d.choice, now)
    && Answers(s.arena[d.choice], a, d)
  }

  ghost predicate OpenChoice(s: State, a: Attempt, i: nat, now: real)
    requires i < |s.arena|
  {
    var c := s.arena[i];
    && c.state == Offered && c.expiresAt.Some? && now < c.expiresAt.value
    && TurnOf(c) == (a.key.handle, a.key.turn) && IsCurrent(s, TurnOf(c), i)
    && (forall j :: i < j < |s.arena| ==> TurnOf(s.arena[j]) != TurnOf(c))
  }

  ghost predicate Answers(c: Choice, a: Attempt, d: Decision)
    requires d.Accepted?
  {
    && a.response.Response? && a.response.objectId == c.publicId && a.response.freshness == c.publicFreshness
    && Lists(c.options, a.response.option) && d.operation in c.supported && a.response.operation == Some(d.operation)
    && d.option == a.response.option && d.objectId == c.source.objectId && d.freshness == c.source.freshness
    && a.ready && a.activeTurn == Some(a.key.turn) && a.event == Some(d.event)
  }

  /** Over any run every accepted response is a fresh answer. */
  lemma AcceptedIsFresh(ops: seq<Op>, a: Attempt, now: real)
    requires Authorize(Final(EMPTY, ops), a, now).1.Accepted?
    ensures FreshAnswer(Final(EMPTY, ops), a, Authorize(Final(EMPTY, ops), a, now).1, now)
  {
    EmptyIsSafe();
    RunKeeps(EMPTY, ops);
    AcceptedNow(Final(EMPTY, ops), a, now);
  }

  lemma AcceptedNow(s: State, a: Attempt, now: real)
    requires Inv(s) && Authorize(s, a, now).1.Accepted?
    ensures FreshAnswer(s, a, Authorize(s, a, now).1, now)
  {
    EntryPoints(s, a.key);
    AcceptedAnswers(s, a, now);
    var c := Authorize(s, a, now).1.choice;
    assert IsCurrent(s, TurnOf(s.arena[c]), c);
  }

  lemma AcceptedAnswers(s: State, a: Attempt, now: real)
    requires Authorize(s, a, now).1.Accepted?
    ensures var d := Authorize(s, a, now).1;
      var found := Find(s.correlations, a.key);
      && found.Some? && d.choice == s.correlations[found.value].choice < |s.arena|
      && var c := s.arena[d.choice];
         && c.state == Offered && c.expiresAt.Some? && now < c.expiresAt.value
         && IsCurrent(s, (a.key.handle, a.key.turn), d.choice) && Answers(c, a, d)
  {
  }

  /** A choice that is not open now is not accepted now or later. */
  lemma ClosedIsNeverAccepted(s: State, c: nat, ops: seq<Op>, a: Attempt, now: real)
    requires Inv(s) && c < |s.arena| && s.arena[c].state != Offered
    ensures var d := Authorize(Final(s, ops), a, now).1; d.Accepted? ==> d.choice != c
  {
    hide Inv, Authorize;
    RunKeeps(s, ops);
    var s' := Final(s, ops);
    assert Ages(s.arena[c], s'.arena[c]);
    if Authorize(s', a, now).1.Accepted? {
      AcceptedAnswers(s', a, now);
    }
  }

  /** Nothing is accepted for an object once a choose of it has been completed. */
  lemma CompletedIsFinal(before: seq<Op>, d: Decision, after: seq<Op>, a: Attempt, now: real)
    requires d.Accepted? && d.operation == Choose && d.choice < |Final(EMPTY, before).arena|
    ensures var s := Complete(Final(EMPTY, before), d);
      var d' := Authorize(Final(s, after), a, now).1;
      d'.Accepted? ==> d'.choice != d.choice
  {
    EmptyIsSafe();
    RunKeeps(EMPTY, before);
    var s := Final(EMPTY, before);
    CompleteKeeps(s, d);
    ClosedIsNeverAccepted(Complete(s, d), d.choice, after, a, now);
  }

  // ---------------------------------------------------------- accepted once

  lemma {:induction false} AnswerablesSpent(s: State, cs: seq<Correlation>, record: nat)
    requires forall i :: 0 <= i < |cs| && cs[i].record == record ==> cs[i].consumed
    ensures var r := Answerables(s, cs); forall i :: 0 <= i < |r| && r[i].record == record ==> r[i].consumed
  {
    if cs != [] {
      AnswerablesSpent(s, cs[..|cs| - 1], record);
    }
  }

  lemma ProjectSpent(s: State, p: Prompt, handle: string, now: real, id: Option<string>, freshness: Option<string>,
          record: nat)
    requires Inv(s) && Spent(s, record)
    ensures Spent(Project(s, p, handle, now, id, freshness).0, record)
  {
    if ValidPrompt(p, handle) {
      LocateKeeps(s, p, p.turn.value, now, id, freshness);
      var located := Locate(s, p, p.turn.value, now, id, freshness);
      if located.choice.Some? {
        CorrelateSpent(located.state, PromptKey(handle, p.turn.value, p.correlation.value), p.identity,
                       located.choice.value, now, record);
      }
    }
  }

  lemma CorrelateSpent(s: State, key: PromptKey, event: nat, c: nat, now: real, record: nat)
    requires c < |s.arena| && Spent(s, record)
    ensures Spent(Correlate(s, key, event, c, now).0, record)
  {
    AnswerablesSpent(s, s.correlations, record);
  }

  lemma StepSpent(s: State, op: Op, record: nat)
    requires Inv(s) && Spent(s, record)
    ensures Spent(Next(s, op), record)
  {
    match op
    case OpProject(p, handle, now, id, freshness) => ProjectSpent(s, p, handle, now, id, freshness, record);
    case OpAuthorize(a, now) => AuthorizeShape(s, a, now);
    case _ =>
  }

  lemma {:induction false} RunSpent(s: State, ops: seq<Op>, record: nat)
    requires Inv(s) && Spent(s, record)
    ensures Spent(Final(s, ops), record)
    decreases |ops|
  {
    if ops != [] {
      StepSpent(s, ops[0], record);
      StepKeeps(s, ops[0]);
      RunSpent(Next(s, ops[0]), ops[1..], record);
    }
  }

  /** A correlation record is accepted at most once in any run. */
  lemma AcceptedOnce(before: seq<Op>, a: Attempt, now: real, after: seq<Op>, a': Attempt, now': real)
    requires Authorize(Final(EMPTY, before), a, now).1.Accepted?
    ensures var (s, d) := Authorize(Final(EMPTY, before), a, now);
      var d' := Authorize(Final(s, after), a', now').1;
      d'.Accepted? ==> d'.record != d.record
  {
    EmptyIsSafe();
    RunKeeps(EMPTY, before);
    var s0 := Final(EMPTY, before);
    var (s, d) := Authorize(s0, a, now);
    AuthorizeKeeps(s0, a, now);
    AuthorizeShape(s0, a, now);
    var k := Find(s0.correlations, a.key).value;
    assert Points(s0, s0.correlations[k]);
    RunSpent(s, after, d.record);
    SpentIsRejected(Final(s, after), d.record, a', now');
  }

  lemma SpentIsRejected(s: State, record: nat, a: Attempt, now: real)
    requires Spent(s, record)
    ensures Authorize(s, a, now).1.Accepted? ==> Authorize(s, a, now).1.record != record
  {
  }

  // --------------------------------------------------------------- deadlines

  lemma LocateKeepsDeadline(s: State, p: Prompt, turn: string, now: real, id: Option<string>,
          freshness: Option<string>, c: nat)
    requires c < |s.arena|
    ensures var s' := Locate(s, p, turn, now, id, freshness).state;
      c < |s'.arena| && s'.arena[c].expiresAt == s.arena[c].expiresAt
  {
    var source := SourceKey(p.handle, turn, p.session, p.revision, p.objectId, p.freshness);
    var supported := Supported(p.operations, p.capabilities);
    if source in s.objects && s.objects[source] < |s.arena| {
      ReuseKeepsDeadline(s, s.objects[source], p, (p.handle, turn), supported, now, c);
    } else {
      MintShape(s, source, (p.handle, turn), p, supported, id, freshness);
    }
  }

  lemma ReuseKeepsDeadline(s: State, found: nat, p: Prompt, turn: TurnKey, supported: seq<Operation>, now: real, c: nat)
    requires found < |s.arena| && c < |s.arena|
    ensures var s' := Reuse(s, found, p, turn, supported, now).state;
      c < |s'.arena| && s'.arena[c].expiresAt == s.arena[c].expiresAt
  {
  }

  lemma ProjectKeepsDeadline(s: State, p: Prompt, handle: string, now: real, id: Option<string>,
          freshness: Option<string>, c: nat)
    requires c < |s.arena|
    ensures var s' := Project(s, p, handle, now, id, freshness).0;
      c < |s'.arena| && s'.arena[c].expiresAt == s.arena[c].expiresAt
  {
    if ValidPrompt(p, handle) {
      LocateKeepsDeadline(s, p, p.turn.value, now, id, freshness, c);
    }
  }

  lemma EndingKeepsDeadline(s: State, op: Op, c: nat)
    requires op.OpComplete? || op.OpExpire? || op.OpRevokeTurn? || op.OpRevokeAll?
    requires c < |s.arena|
    ensures c < |Next(s, op).arena| && Next(s, op).arena[c].expiresAt == s.arena[c].expiresAt
  {
  }

  /** Only a first delivery gives an existing choice its deadline: the window from then. */
  lemma DeadlineStartsAtDelivery(s: State, op: Op, c: nat)
    requires Inv(s) && c < |s.arena| && c < |Next(s, op).arena|
    requires s.arena[c].expiresAt.None? && Next(s, op).arena[c].expiresAt.Some?
    ensures op.OpDeliver? && Next(s, op).arena[c].expiresAt == Some(op.now + s.arena[c].ttl)
  {
    match op
    case OpProject(p, handle, now, id, freshness) => ProjectKeepsDeadline(s, p, handle, now, id, freshness, c);
    case OpAuthorize(a, now) => AuthorizeShape(s, a, now);
    case OpDeliver(key, now) =>
    case _ => EndingKeepsDeadline(s, op, c);
  }

  /** Over any run a deadline that is set never moves. */
  lemma DeadlineNeverMoves(before: seq<Op>, after: seq<Op>, c: nat)
    requires c < |Final(EMPTY, before).arena| && Final(EMPTY, before).arena[c].expiresAt.Some?
    ensures var s' := Final(Final(EMPTY, before), after);
      c < |s'.arena| && s'.arena[c].expiresAt == Final(EMPTY, before).arena[c].expiresAt
  {
    EmptyIsSafe();
    RunKeeps(EMPTY, before);
    RunKeeps(Final(EMPTY, before), after);
    assert Ages(Final(EMPTY, before).arena[c], Final(Final(EMPTY, before), after).arena[c]);
  }

  lemma CeilMonotone(x: real, y: real)
    requires x <= y
    ensures Ceil(x) <= Ceil(y)
  {
  }

  /** Successive deliveries of one choice never report more time left. */
  lemma DeliveriesNeverGrow(before: seq<Op>, key: PromptKey, now: real, after: seq<Op>, key': PromptKey, now': real,
          c: nat)
    requires now <= now'
    requires var s := Final(EMPTY, before);
      var found := Find(s.correlations, key); found.Some? && s.correlations[found.value].choice == c
    requires var s' := Final(Deliver(Final(EMPTY, before), key, now).0, after);
      var found := Find(s'.correlations, key'); found.Some? && s'.correlations[found.value].choice == c
    ensures var first := Deliver(Final(EMPTY, before), key, now);
      var second := Deliver(Final(first.0, after), key', now');
      first.1.Some? && second.1.Some? && 0 <= second.1.value <= first.1.value
  {
    EmptyIsSafe();
    RunKeeps(EMPTY, before);
    var s := Final(EMPTY, before);
    var s1 := Deliver(s, key, now).0;
    DeliverKeeps(s, key, now);
    RunKeeps(s1, after);
    var s2 := Final(s1, after);
    DeliverAgain(s, key, now, s2, key', now', c);
  }

  /** A delivery reports what is left of the window it leaves behind. */
  lemma DeliveryReports(s: State, key: PromptKey, now: real, c: nat)
    requires Inv(s)
    requires var found := Find(s.correlations, key); found.Some? && s.correlations[found.value].choice == c
    ensures var (s', r) := Deliver(s, key, now);
      && c < |s.arena| == |s'.arena| && r.Some? && Ages(s.arena[c], s'.arena[c])
      && (if s'.arena[c].state == Offered then s'.arena[c].expiresAt.Some? && r.value == Remaining(s'.arena[c], now)
          else r.value == 0)
  {
    assert Points(s, s.correlations[Find(s.correlations, key).value]);
    if s.arena[c].state == Offered {
      assert IsCurrent(s, TurnOf(s.arena[c]), c);
    }
  }

  lemma RemainingShrinks(c: Choice, c': Choice, now: real, now': real)
    requires Ages(c, c') && c.expiresAt.Some? && now <= now'
    ensures 0 <= Remaining(c', now') <= Remaining(c, now)
  {
    CeilMonotone(c.expiresAt.value - now', c.expiresAt.value - now);
  }

  lemma DeliverAgain(s: State, key: PromptKey, now: real, s2: State, key': PromptKey, now': real, c: nat)
    requires Inv(s) && Inv(s2) && now <= now'
    requires var found := Find(s.correlations, key); found.Some? && s.correlations[found.value].choice == c
    requires var found := Find(s2.correlations, key'); found.Some? && s2.correlations[found.value].choice == c
    requires Evolves(Deliver(s, key, now).0, s2)
    ensures var first, second := Deliver(s, key, now).1, Deliver(s2, key', now').1;
      first.Some? && second.Some? && 0 <= second.value <= first.value
  {
    DeliveryReports(s, key, now, c);
    DeliveryReports(s2, key', now', c);
    var c1, c3 := Deliver(s, key, now).0.arena[c], Deliver(s2, key', now').0.arena[c];
    assert Ages(c1, s2.arena[c]) && Ages(c1, c3);
    if c1.state == Offered {
      RemainingShrinks(c1, c3, now, now');
    }
  }

  // ----------------------------------------------------------------- pruning

  lemma {:induction false} AnswerablesFind(s: State, cs: seq<Correlation>, key: PromptKey)
    requires Distinct(cs)
    ensures var r, p := Find(cs, key), Find(Answerables(s, cs), key);
      && (r.Some? && Answerable(s, cs[r.value]) ==> p.Some? && Answerables(s, cs)[p.value] == cs[r.value])
      && (p.Some? ==> r.Some? && Answerable(s, cs[r.value]))
  {
    if cs != [] {
      var n := |cs| - 1;
      var before := Answerables(s, cs[..n]);
      if cs[n].key != key {
        AnswerablesFind(s, cs[..n], key);
        assert (before + [cs[n]])[..|before|] == before;
      } else if !Answerable(s, cs[n]) {
        forall i | 0 <= i < |before|
          ensures before[i].key != key
        {
          assert before[i] in cs[..n];
        }
      }
    }
  }

  lemma ClosedIsRejected(s: State, a: Attempt, now: real)
    requires var r := Find(s.correlations, a.key); r.None? || !Answerable(s, s.correlations[r.value])
    requires CorrelationInv(s)
    ensures !Authorize(s, a, now).1.Accepted?
  {
    var r := Find(s.correlations, a.key);
    if r.Some? {
      assert Points(s, s.correlations[r.value]);
    }
  }

  /** The decision depends on the table only through the entry it finds. */
  lemma DecisionFollowsEntry(s: State, s': State, a: Attempt, now: real)
    requires s' == s.(correlations := s'.correlations)
    requires var r, r' := Find(s.correlations, a.key), Find(s'.correlations, a.key);
      r.Some? && r'.Some? && s.correlations[r.value] == s'.correlations[r'.value]
    ensures Authorize(s, a, now).1 == Authorize(s', a, now).1
  {
  }

  /** Pruning changes no acceptance: an attempt is accepted after it exactly
      when it was before, with the same decision, and no record it removed
      belongs to a choice that is still open. */
  lemma PruningIsHarmless(ops: seq<Op>, a: Attempt, now: real)
    ensures var s := Final(EMPTY, ops);
      var before, after := Authorize(s, a, now).1, Authorize(Prune(s), a, now).1;
      (before.Accepted? || after.Accepted?) ==> before == after
    ensures var s := Final(EMPTY, ops);
      forall i :: 0 <= i < |s.correlations| && s.correlations[i] !in Prune(s).correlations ==>
        s.correlations[i].choice < |s.arena| && s.arena[s.correlations[i].choice].state != Offered
  {
    EmptyIsSafe();
    RunKeeps(EMPTY, ops);
    var s := Final(EMPTY, ops);
    AnswerablesFind(s, s.correlations, a.key);
    var found := Find(s.correlations, a.key);
    if found.Some? && Answerable(s, s.correlations[found.value]) {
      DecisionFollowsEntry(s, Prune(s), a, now);
    } else {
      ClosedIsRejected(s, a, now);
      PruneKeeps(s);
      ClosedIsRejected(Prune(s), a, now);
    }
    forall i | 0 <= i < |s.correlations| && s.correlations[i] !in Prune(s).correlations
      ensures s.correlations[i].choice < |s.arena| && s.arena[s.correlations[i].choice].state != Offered
    {
      assert Points(s, s.correlations[i]);
      if s.arena[s.correlations[i].choice].state == Offered {
        AnswerablesAll(s, s.correlations, i);
      }
    }
  }

  /** Nor does it later: the choice behind a record that pruning removed is
      accepted under no record at any time after. */
  lemma PrunedIsNeverAccepted(before: seq<Op>, i: nat, after: seq<Op>, a: Attempt, now: real)
    requires var s := Final(EMPTY, before); i < |s.correlations| && s.correlations[i] !in Prune(s).correlations
    ensures var s := Final(EMPTY, before);
      var d := Authorize(Final(Prune(s), after), a, now).1;
      d.Accepted? ==> d.choice != s.correlations[i].choice
  {
    hide Inv, Authorize;
    EmptyIsSafe();
    RunKeeps(EMPTY, before);
    var s := Final(EMPTY, before);
    PruningIsHarmless(before, a, now);
    PruneKeeps(s);
    ClosedIsNeverAccepted(Prune(s), s.correlations[i].choice, after, a, now);
  }

  lemma {:induction false} AnswerablesAll(s: State, cs: seq<Correlation>, i: nat)
    requires i < |cs| && Answerable(s, cs[i])
    ensures cs[i] in Answerables(s, cs)
  {
    if i < |cs| - 1 {
      AnswerablesAll(s, cs[..|cs| - 1], i);
    }
  }
}
