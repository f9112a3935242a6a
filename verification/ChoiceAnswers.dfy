/**
  What projecting, delivering and answering a choice come to, in terms of the
  prompt, the object and the response alone.
 */
module ChoiceAnswers {
  import opened Wrappers
  import opened Choices
  import opened ChoiceInvariants

  // -------------------------------------------------------------- projection

  /** Exactly the operations of a prompt that its endpoint is capable of, each once and in the prompt's order. */
  ghost predicate OffersOf(offered: seq<Operation>, operations: seq<Operation>, capabilities: set<Operation>) {
    && (forall o :: o in offered <==> o in operations && o in capabilities)
    && (forall i, j :: 0 <= i < j < |offered| ==> offered[i] != offered[j])
    && (forall i, j, a, b :: 0 <= i < j < |offered| && 0 <= a < |operations| && 0 <= b < |operations| ==>
          operations[a] == offered[i] && operations[b] == offered[j] ==> a < b)
  }

  lemma {:induction false} SupportedOffers(operations: seq<Operation>, capabilities: set<Operation>)
    requires forall i, j :: 0 <= i < j < |operations| ==> operations[i] != operations[j]
    ensures OffersOf(Supported(operations, capabilities), operations, capabilities)
  {
    if operations != [] {
      var first, rest := operations[0], operations[1..];
      var offered := Supported(rest, capabilities);
      SupportedOffers(rest, capabilities);
      assert operations == [first] + rest;
      assert first !in offered;
    }
  }

  /** Whole seconds left: those until the deadline, rounded up, or the whole
      window rounded down before it has started; none once the choice is closed. */
  ghost predicate SecondsLeft(c: Choice, now: real, n: int) {
    if c.state != Offered then n == 0
    else if c.expiresAt.None? then (n as real) <= c.ttl < (n + 1) as real
    else if c.expiresAt.value <= now then n == 0
    else n > 0 && ((n - 1) as real) < c.expiresAt.value - now <= n as real
  }

  lemma RemainingSeconds(c: Choice, now: real)
    ensures SecondsLeft(c, now, Remaining(c, now))
  {
    if c.expiresAt.Some? {
      CeilBounds(c.expiresAt.value - now);
    }
  }

  lemma CeilBounds(x: real)
    ensures ((Ceil(x) - 1) as real) < x <= Ceil(x) as real
  {
    var f := (-x).Floor;
    assert f as real <= -x < (f + 1) as real;
  }

  /** The key under which a source revision of the prompt is known. */
  ghost function SourceOf(p: Prompt, turn: string): SourceKey {
    SourceKey(p.handle, turn, p.session, p.revision, p.objectId, p.freshness)
  }

  /** The choice shows what the prompt says. */
  ghost predicate Shows(c: Choice, p: Prompt, turn: string) {
    c.source == SourceOf(p, turn) && c.options == p.options && c.sourceOperations == p.operations
  }

  /** What the endpoint sees of choice `c`: its own tokens and time, and the
      operations it can use, if the choice is open and the turn's current one. */
  ghost predicate Displays(s: State, c: nat, p: Prompt, now: real, v: View) {
    && c < |s.arena| && p.turn.Some? && p.correlation.Some? && Shows(s.arena[c], p, p.turn.value)
    && v.correlation == p.correlation.value
    && v.objectId == s.arena[c].publicId && v.freshness == s.arena[c].publicFreshness
    && SecondsLeft(s.arena[c], now, v.timeout)
    && (if s.arena[c].state == Offered && IsCurrent(s, (p.handle, p.turn.value), c)
        then OffersOf(v.operations, p.operations, p.capabilities) && s.arena[c].supported == v.operations
        else v.operations == [])
  }

  /** A new record ties the prompt to the choice. */
  ghost predicate Recorded(s: State, s': State, p: Prompt, c: nat) {
    && p.turn.Some? && p.correlation.Some? && s'.issued == s.issued + 1 && s'.correlations != []
    && s'.correlations[|s'.correlations| - 1] ==
       Correlation(PromptKey(p.handle, p.turn.value, p.correlation.value), p.identity, c, false, s.issued)
  }

  lemma LocatedShows(s: State, p: Prompt, turn: string, now: real, id: Option<string>, freshness: Option<string>)
    requires WellNamed(s) && ValidOperations(p.operations)
    ensures var r := Locate(s, p, turn, now, id, freshness);
      r.choice.Some? && r.choice.value < |r.state.arena| ==>
        var c := r.state.arena[r.choice.value];
        && Shows(c, p, turn)
        && (c.state == Offered && IsCurrent(r.state, (p.handle, turn), r.choice.value) ==>
              OffersOf(c.supported, p.operations, p.capabilities))
  {
    SupportedOffers(p.operations, p.capabilities);
  }

  /** A projected view shows the prompt's own choice, with exactly the operations
      of the prompt that the endpoint is capable of while it can be answered. */
  lemma ProjectionDisplays(s: State, p: Prompt, handle: string, now: real, id: Option<string>,
          freshness: Option<string>)
    returns (c: nat)
    requires Inv(s) && Project(s, p, handle, now, id, freshness).1.Some?
    ensures var (s', v) := Project(s, p, handle, now, id, freshness);
      Displays(s', c, p, now, v.value) && Recorded(s, s', p, c)
  {
    LocateKeeps(s, p, p.turn.value, now, id, freshness);
    LocatedShows(s, p, p.turn.value, now, id, freshness);
    var r := Locate(s, p, p.turn.value, now, id, freshness);
    c := r.choice.value;
    RemainingSeconds(r.state.arena[c], now);
  }

  /** Two usable tokens: valid, different, and not in use by an object of the table. */
  ghost predicate UsableTokens(s: State, id: Option<string>, freshness: Option<string>) {
    && id.Some? && freshness.Some? && id != freshness && ValidId(id.value) && ValidId(freshness.value)
    && forall k :: k in s.objects && s.objects[k] < |s.arena| ==>
         var o := s.arena[s.objects[k]];
         && o.publicId != id.value && o.publicFreshness != id.value
         && o.publicId != freshness.value && o.publicFreshness != freshness.value
  }

  /** The source revisions known of a turn. */
  ghost function KnownOf(s: State, handle: string, turn: string): set<SourceKey> {
    set k | k in s.objects && k.handle == handle && k.turn == turn
  }

  /** The prompt's source revision is known and unchanged, or it is new and an object can be made for it. */
  ghost predicate CanShow(s: State, p: Prompt, turn: string, id: Option<string>, freshness: Option<string>) {
    var key := SourceOf(p, turn);
    if key in s.objects && s.objects[key] < |s.arena|
    then Shows(s.arena[s.objects[key]], p, turn)
    else |KnownOf(s, p.handle, turn)| < 128 && UsableTokens(s, id, freshness)
  }

  /** A typed choice as the bridge may show it: not a sensitive one, with a text,
      distinct operations and 1 to 32 labelled options of distinct IDs. */
  ghost predicate Presentable(p: Prompt, handle: string) {
    && p.handle == handle && p.turn.Some? && p.correlation.Some? && p.session != "" && p.revision >= 0
    && !p.sensitive && !Blank(p.text) && |p.text| <= 1024 && ValidId(p.objectId) && ValidId(p.freshness)
    && (p.ttl.Some? ==> 0.0 < p.ttl.value <= 3600.0)
    && |p.operations| >= 1 && (forall i, j :: 0 <= i < j < |p.operations| ==> p.operations[i] != p.operations[j])
    && 1 <= |p.options| <= 32
    && (forall i :: 0 <= i < |p.options| ==>
          ValidId(p.options[i].0) && !Blank(p.options[i].1) && |p.options[i].1| <= 256)
    && (forall i, j :: 0 <= i < j < |p.options| ==> p.options[i].0 != p.options[j].0)
  }

  /** The prompt key is not in the table. */
  ghost predicate NewKey(s: State, key: PromptKey) {
    forall i :: 0 <= i < |s.correlations| ==> s.correlations[i].key != key
  }

  ghost predicate Projectable(s: State, p: Prompt, handle: string, id: Option<string>, freshness: Option<string>) {
    && Presentable(p, handle) && NewKey(s, PromptKey(handle, p.turn.value, p.correlation.value))
    && CanShow(s, p, p.turn.value, id, freshness)
  }

  /** The table holds as many records as it may, each of a choice that is still open. */
  ghost predicate Crowded(s: State) {
    |s.correlations| >= 256 && forall i :: 0 <= i < |s.correlations| ==> Answerable(s, s.correlations[i])
  }

  /** A prompt is refused unless it is presentable, its key is new and its choice
      can be shown; otherwise only a table full of open choices keeps it out. */
  lemma ProjectionIsAnswered(s: State, p: Prompt, handle: string, now: real, id: Option<string>,
          freshness: Option<string>)
    requires Inv(s)
    ensures var (s', v) := Project(s, p, handle, now, id, freshness);
      && (v.Some? ==> Projectable(s, p, handle, id, freshness))
      && (Projectable(s, p, handle, id, freshness) && v.None? ==> Crowded(s'))
  {
    hide Inv, Locate, Correlate, CanShow, Presentable, Crowded;
    PresentableIsValid(p, handle);
    if ValidPrompt(p, handle) {
      ValidIsAnswered(s, p, handle, now, id, freshness);
    }
  }

  lemma ValidIsAnswered(s: State, p: Prompt, handle: string, now: real, id: Option<string>, freshness: Option<string>)
    requires Inv(s) && ValidPrompt(p, handle)
    ensures var key, (s', v) := PromptKey(handle, p.turn.value, p.correlation.value),
        Project(s, p, handle, now, id, freshness);
      && (v.Some? ==> NewKey(s, key) && CanShow(s, p, p.turn.value, id, freshness))
      && (NewKey(s, key) && CanShow(s, p, p.turn.value, id, freshness) && v.None? ==> Crowded(s'))
  {
    hide Inv, Locate, Correlate, CanShow, Crowded;
    LocateAnswers(s, p, p.turn.value, now, id, freshness);
    LocateKeeps(s, p, p.turn.value, now, id, freshness);
    var r := Locate(s, p, p.turn.value, now, id, freshness);
    if r.choice.Some? {
      CorrelateAnswers(r.state, PromptKey(handle, p.turn.value, p.correlation.value), p.identity, r.choice.value, now);
    }
  }

  lemma PresentableIsValid(p: Prompt, handle: string)
    ensures Presentable(p, handle) <==> ValidPrompt(p, handle)
  {
  }

  lemma CorrelateAnswers(s: State, key: PromptKey, event: nat, c: nat, now: real)
    requires c < |s.arena|
    ensures var (s', v) := Correlate(s, key, event, c, now); v.None? ==> Crowded(s')
  {
  }

  lemma LocateAnswers(s: State, p: Prompt, turn: string, now: real, id: Option<string>, freshness: Option<string>)
    requires Inv(s)
    ensures Locate(s, p, turn, now, id, freshness).choice.Some? <==> CanShow(s, p, turn, id, freshness)
  {
    assert WellNamed(s);
    hide Inv, WellNamed, Mint, Reuse, Shows, UsableTokens, Supported, KnownOf;
    var key := SourceOf(p, turn);
    if key in s.objects && s.objects[key] < |s.arena| {
      KnownIsShown(s, p, turn, Supported(p.operations, p.capabilities), now);
    } else {
      NewIsShown(s, p, turn, Supported(p.operations, p.capabilities), id, freshness);
    }
  }

  lemma KnownIsShown(s: State, p: Prompt, turn: string, supported: seq<Operation>, now: real)
    requires WellNamed(s) && SourceOf(p, turn) in s.objects && s.objects[SourceOf(p, turn)] < |s.arena|
    ensures var c := s.objects[SourceOf(p, turn)];
      Reuse(s, c, p, (p.handle, turn), supported, now).choice.Some? <==> Shows(s.arena[c], p, turn)
  {
  }

  lemma NewIsShown(s: State, p: Prompt, turn: string, supported: seq<Operation>, id: Option<string>,
          freshness: Option<string>)
    requires Inv(s)
    ensures Mint(s, SourceOf(p, turn), (p.handle, turn), p, supported, id, freshness).choice.Some? <==>
            |KnownOf(s, p.handle, turn)| < 128 && UsableTokens(s, id, freshness)
  {
    assert KnownOf(s, p.handle, turn) == ObjectsOf(s.objects, (p.handle, turn));
    SupersededRows(s, (p.handle, turn));
    hide Inv, Mint, ValidId, UsableTokens, Superseded, KnownOf, ObjectsOf, Collides;
    SameTokens(s, Superseded(s, (p.handle, turn)), id, freshness);
    MintExactly(s, SourceOf(p, turn), (p.handle, turn), p, supported, id, freshness);
  }

  lemma SameTokens(s: State, s': State, id: Option<string>, freshness: Option<string>)
    requires s'.objects == s.objects && |s'.arena| == |s.arena|
    requires forall i :: 0 <= i < |s.arena| ==> Ages(s.arena[i], s'.arena[i])
    ensures UsableTokens(s, id, freshness) <==>
            !(id.None? || !ValidId(id.value) || Collides(s', id.value)
              || freshness.None? || !ValidId(freshness.value) || Collides(s', freshness.value) || id == freshness)
  {
    forall k | k in s.objects && s.objects[k] < |s.arena|
      ensures s'.arena[s'.objects[k]].publicId == s.arena[s.objects[k]].publicId
      ensures s'.arena[s'.objects[k]].publicFreshness == s.arena[s.objects[k]].publicFreshness
    {
      assert Ages(s.arena[s.objects[k]], s'.arena[s.objects[k]]);
    }
  }

  /** There is only one such list. */
  lemma OffersUnique(a: seq<Operation>, b: seq<Operation>, operations: seq<Operation>, capabilities: set<Operation>)
    requires OffersOf(a, operations, capabilities) && OffersOf(b, operations, capabilities)
    ensures a == b
  {
    FewOperations(a);
    FewOperations(b);
    assert |a| == 2 ==> a[0] in b && a[1] in b;
    assert |b| == 2 ==> b[0] in a && b[1] in a;
    assert |a| == 1 ==> a[0] in b;
    assert |b| == 1 ==> b[0] in a;
  }

  lemma FewOperations(a: seq<Operation>)
    requires forall i, j :: 0 <= i < j < |a| ==> a[i] != a[j]
    ensures |a| <= 2
  {
    assert |a| > 2 ==> a[0] != a[1] && a[1] != a[2] && a[0] != a[2];
  }

  /** What a prompt makes of the object its source revision is already known by:
      other contents replace it, other capabilities revoke it and its deadline
      expires it, as long as it is open. */
  ghost function KnownFate(o: Choice, p: Prompt, now: real): ChoiceState {
    if o.state != Offered then o.state
    else if o.options != p.options || o.sourceOperations != p.operations then Replaced
    else if !OffersOf(o.supported, p.operations, p.capabilities) then Revoked
    else if o.expiresAt.Some? && o.expiresAt.value <= now then Expired
    else Offered
  }

  /** The object a new source revision is shown by. */
  ghost function NewObject(p: Prompt, turn: string, id: string, freshness: string, supported: seq<Operation>): Choice {
    Choice(SourceOf(p, turn), id, freshness, p.operations, supported, p.options, None, Offered,
           if p.ttl.Some? then p.ttl.value else 300.0)
  }

  /** A known source revision keeps its one object, which the prompt may end; a
      new one replaces the turn's open choice and, given two usable tokens, gets
      an open object that becomes the current one. */
  lemma ProjectionChangesObjects(s: State, p: Prompt, handle: string, now: real, id: Option<string>,
          freshness: Option<string>)
    requires Inv(s) && Presentable(p, handle) && NewKey(s, PromptKey(handle, p.turn.value, p.correlation.value))
    ensures var s', turn := Project(s, p, handle, now, id, freshness).0, (handle, p.turn.value);
      var key := SourceOf(p, p.turn.value);
      if key in s.objects then
        && s'.objects == s.objects && |s'.arena| == |s.arena|
        && var c := s.objects[key];
           && s'.arena == s.arena[c := s.arena[c].(state := KnownFate(s.arena[c], p, now))]
           && (s.arena[c].state == Offered && s'.arena[c].state in {Revoked, Expired} ==> turn !in s'.current)
      else
        && (forall i :: 0 <= i < |s.arena| ==>
              s'.arena[i] == s.arena[i]
              || (s.arena[i].state == Offered && IsCurrent(s, turn, i)
                  && s'.arena[i] == s.arena[i].(state := Replaced)))
        && (if |KnownOf(s, handle, p.turn.value)| < 128 && UsableTokens(s, id, freshness) then
              && |s'.arena| == |s.arena| + 1 && s'.objects == s.objects[key := |s.arena|]
              && s'.current == s.current[turn := |s.arena|]
              && s'.arena[|s.arena|] ==
                 NewObject(p, p.turn.value, id.value, freshness.value, s'.arena[|s.arena|].supported)
              && OffersOf(s'.arena[|s.arena|].supported, p.operations, p.capabilities)
              && (turn in s.current ==> s'.arena[s.current[turn]].state != Offered)
            else
              |s'.arena| == |s.arena| && s'.objects == s.objects && s'.current == s.current)
  {
    PresentableIsValid(p, handle);
    ProjectKeepsObjects(s, p, handle, now, id, freshness);
    SupportedOffers(p.operations, p.capabilities);
    if SourceOf(p, p.turn.value) in s.objects {
      KnownChanges(s, s.objects[SourceOf(p, p.turn.value)], p, p.turn.value, now);
    } else {
      NewChanges(s, p, p.turn.value, id, freshness);
    }
  }

  lemma ProjectKeepsObjects(s: State, p: Prompt, handle: string, now: real, id: Option<string>,
          freshness: Option<string>)
    requires Inv(s) && ValidPrompt(p, handle) && p.turn.Some? && p.correlation.Some?
    requires NewKey(s, PromptKey(handle, p.turn.value, p.correlation.value))
    ensures var s', located := Project(s, p, handle, now, id, freshness).0,
        Locate(s, p, p.turn.value, now, id, freshness).state;
      s'.arena == located.arena && s'.objects == located.objects && s'.current == located.current
  {
    hide Inv, Locate, ValidPrompt;
    LocateKeeps(s, p, p.turn.value, now, id, freshness);
  }

  lemma KnownChanges(s: State, c: nat, p: Prompt, turn: string, now: real)
    requires Inv(s) && ValidOperations(p.operations) && c < |s.arena| && TurnOf(s.arena[c]) == (p.handle, turn)
    ensures var r := Reuse(s, c, p, (p.handle, turn), Supported(p.operations, p.capabilities), now).state;
      && r.objects == s.objects
      && r.arena == s.arena[c := s.arena[c].(state := KnownFate(s.arena[c], p, now))]
      && (s.arena[c].state == Offered && r.arena[c].state in {Revoked, Expired} ==> (p.handle, turn) !in r.current)
  {
    var supported := Supported(p.operations, p.capabilities);
    SupportedOffers(p.operations, p.capabilities);
    if OffersOf(s.arena[c].supported, p.operations, p.capabilities) {
      OffersUnique(s.arena[c].supported, supported, p.operations, p.capabilities);
    }
    assert s.arena[c].state == Offered ==> IsCurrent(s, (p.handle, turn), c);
    assert s.arena == s.arena[c := s.arena[c].(state := s.arena[c].state)];
  }

  lemma MintExactly(s: State, key: SourceKey, turn: TurnKey, p: Prompt, supported: seq<Operation>,
          id: Option<string>, freshness: Option<string>)
    ensures var replaced := Superseded(s, turn);
      Mint(s, key, turn, p, supported, id, freshness).choice.Some? <==>
        |ObjectsOf(s.objects, turn)| < 128
        && !(id.None? || !ValidId(id.value) || Collides(replaced, id.value)
             || freshness.None? || !ValidId(freshness.value) || Collides(replaced, freshness.value) || id == freshness)
    ensures var replaced, r := Superseded(s, turn), Mint(s, key, turn, p, supported, id, freshness).state;
      if |ObjectsOf(s.objects, turn)| < 128
         && !(id.None? || !ValidId(id.value) || Collides(replaced, id.value)
              || freshness.None? || !ValidId(freshness.value) || Collides(replaced, freshness.value) || id == freshness)
      then
        r == replaced.(arena := replaced.arena +
                         [Choice(key, id.value, freshness.value, p.operations, supported, p.options, None, Offered,
                                 if p.ttl.Some? then p.ttl.value else 300.0)],
                       objects := s.objects[key := |s.arena|], current := s.current[turn := |s.arena|])
      else r == s || r == replaced
  {
  }

  lemma NewChanges(s: State, p: Prompt, turn: string, id: Option<string>, freshness: Option<string>)
    requires Inv(s) && ValidOperations(p.operations)
    ensures var key, turnKey, supported := SourceOf(p, turn), (p.handle, turn), Supported(p.operations, p.capabilities);
      var r := Mint(s, key, turnKey, p, supported, id, freshness).state;
      && |s.arena| <= |r.arena|
      && (forall i :: 0 <= i < |s.arena| ==>
            r.arena[i] == s.arena[i]
            || (s.arena[i].state == Offered && IsCurrent(s, turnKey, i)
                && r.arena[i] == s.arena[i].(state := Replaced)))
      && (if |KnownOf(s, p.handle, turn)| < 128 && UsableTokens(s, id, freshness) then
            && |r.arena| == |s.arena| + 1 && r.objects == s.objects[key := |s.arena|]
            && r.current == s.current[turnKey := |s.arena|]
            && r.arena[|s.arena|] == NewObject(p, turn, id.value, freshness.value, supported)
            && (turnKey in s.current ==> r.arena[s.current[turnKey]].state != Offered)
          else
            |r.arena| == |s.arena| && r.objects == s.objects && r.current == s.current)
  {
    assert KnownOf(s, p.handle, turn) == ObjectsOf(s.objects, (p.handle, turn));
    SupersededRows(s, (p.handle, turn));
    SameTokens(s, Superseded(s, (p.handle, turn)), id, freshness);
    hide Inv, Mint, ValidId, UsableTokens, Superseded, Supported;
    MintExactly(s, SourceOf(p, turn), (p.handle, turn), p, Supported(p.operations, p.capabilities), id, freshness);
  }

  /** Only the turn's open choice is replaced. */
  lemma SupersededRows(s: State, turn: TurnKey)
    requires Inv(s)
    ensures var s' := Superseded(s, turn);
      && |s'.arena| == |s.arena| && s'.objects == s.objects && s'.current == s.current
      && (forall i :: 0 <= i < |s.arena| ==>
            && Ages(s.arena[i], s'.arena[i])
            && (s'.arena[i] == s.arena[i]
                || (s.arena[i].state == Offered && IsCurrent(s, turn, i)
                    && s'.arena[i] == s.arena[i].(state := Replaced))))
      && (turn in s.current ==> s.current[turn] < |s.arena| && s'.arena[s.current[turn]].state != Offered)
  {
    SupersededKeeps(s, turn);
  }

  // ------------------------------------------------------------------ answers

  /** The attempt comes from the endpoint that was asked, for the turn and event
      that are still on, while its choice can be answered. */
  ghost predicate InTime(s: State, a: Attempt, e: Correlation, now: real)
    requires e.choice < |s.arena|
  {
    var c := s.arena[e.choice];
    && a.isChoiceEvent && !e.consumed && a.ready
    && c.state == Offered && IsCurrent(s, (a.key.handle, a.key.turn), e.choice)
    && c.expiresAt.Some? && now < c.expiresAt.value
    && a.activeTurn == Some(a.key.turn) && a.event == Some(e.event)
  }

  /** The response names the object's own tokens, one of its options and an operation it was shown with. */
  ghost predicate Matches(a: Attempt, c: Choice) {
    && a.response.Response? && a.response.operation.Some? && a.response.operation.value in c.supported
    && a.response.objectId == c.publicId && a.response.freshness == c.publicFreshness
    && exists i :: 0 <= i < |c.options| && c.options[i].0 == a.response.option
  }

  ghost predicate WellLabelled(c: Choice) {
    && ValidId(c.publicId) && ValidId(c.publicFreshness)
    && forall j :: 0 <= j < |c.options| ==> ValidId(c.options[j].0)
  }

  /** Every object has usable tokens and option IDs. */
  ghost predicate WellMade(s: State) {
    forall i :: 0 <= i < |s.arena| ==> WellLabelled(s.arena[i])
  }

  lemma ProjectMakesWell(s: State, p: Prompt, handle: string, now: real, id: Option<string>,
          freshness: Option<string>)
    requires Inv(s) && WellMade(s)
    ensures WellMade(Project(s, p, handle, now, id, freshness).0)
  {
    hide Inv;
    PresentableIsValid(p, handle);
    if ValidPrompt(p, handle) && Find(s.correlations, PromptKey(handle, p.turn.value, p.correlation.value)).None? {
      NewObjectsAreWell(s, p, handle, now, id, freshness);
    }
  }

  lemma NewObjectsAreWell(s: State, p: Prompt, handle: string, now: real, id: Option<string>,
          freshness: Option<string>)
    requires Inv(s) && WellMade(s) && Presentable(p, handle)
    requires NewKey(s, PromptKey(handle, p.turn.value, p.correlation.value))
    ensures WellMade(Project(s, p, handle, now, id, freshness).0)
  {
    hide Inv, Project, KnownFate, ValidId;
    ProjectionChangesObjects(s, p, handle, now, id, freshness);
    var s' := Project(s, p, handle, now, id, freshness).0;
    forall i | 0 <= i < |s'.arena|
      ensures WellLabelled(s'.arena[i])
    {
      assert i < |s.arena| ==> WellLabelled(s.arena[i]);
    }
  }

  lemma StepMakesWell(s: State, op: Op)
    requires Inv(s) && WellMade(s)
    ensures WellMade(Next(s, op))
  {
    if op.OpProject? {
      ProjectMakesWell(s, op.prompt, op.handle, op.now, op.id, op.freshness);
    } else {
      OthersMakeNone(s, op);
      StepKeeps(s, op);
      forall i | 0 <= i < |s.arena|
        ensures Next(s, op).arena[i].publicId == s.arena[i].publicId
        ensures Next(s, op).arena[i].publicFreshness == s.arena[i].publicFreshness
        ensures Next(s, op).arena[i].options == s.arena[i].options
      {
        assert Ages(s.arena[i], Next(s, op).arena[i]);
      }
    }
  }

  lemma OthersMakeNone(s: State, op: Op)
    requires !op.OpProject?
    ensures |Next(s, op).arena| == |s.arena|
  {
  }

  lemma {:induction false} RunMakesWell(s: State, ops: seq<Op>)
    requires Inv(s) && WellMade(s)
    ensures WellMade(Final(s, ops))
    decreases |ops|
  {
    if ops != [] {
      StepMakesWell(s, ops[0]);
      StepKeeps(s, ops[0]);
      RunMakesWell(Next(s, ops[0]), ops[1..]);
    }
  }

  /** The record of a prompt key. */
  ghost predicate RecordOf(s: State, key: PromptKey, i: int) {
    0 <= i < |s.correlations| && s.correlations[i].key == key
  }

  /** A response is accepted exactly when it matches the choice of its own record
      and comes in time, and it is then passed on under the source's tokens. */
  lemma AcceptedExactly(ops: seq<Op>, a: Attempt, now: real)
    ensures var s := Final(EMPTY, ops);
      var d := Authorize(s, a, now).1;
      && (forall i :: RecordOf(s, a.key, i) ==>
            var e := s.correlations[i];
            && e.choice < |s.arena|
            && (d.Accepted? <==> InTime(s, a, e, now) && Matches(a, s.arena[e.choice]))
            && (d.Accepted? ==>
                  d == Accepted(a.response.operation.value, e.event, a.response.option,
                                s.arena[e.choice].source.objectId, s.arena[e.choice].source.freshness, e.choice,
                                e.record)))
      && (d.Accepted? ==> exists i :: RecordOf(s, a.key, i))
  {
    EmptyIsSafe();
    RunKeeps(EMPTY, ops);
    RunMakesWell(EMPTY, ops);
    var s := Final(EMPTY, ops);
    var found := Find(s.correlations, a.key);
    forall i | RecordOf(s, a.key, i)
      ensures found == Some(i)
    {
    }
    if found.Some? {
      assert RecordOf(s, a.key, found.value);
      RecordDecides(s, a, now);
    }
  }

  lemma RecordDecides(s: State, a: Attempt, now: real)
    requires Inv(s) && WellMade(s) && Find(s.correlations, a.key).Some?
    ensures var e, d := s.correlations[Find(s.correlations, a.key).value], Authorize(s, a, now).1;
      && e.choice < |s.arena|
      && (d.Accepted? <==> InTime(s, a, e, now) && Matches(a, s.arena[e.choice]))
      && (d.Accepted? ==>
            d == Accepted(a.response.operation.value, e.event, a.response.option,
                          s.arena[e.choice].source.objectId, s.arena[e.choice].source.freshness, e.choice, e.record))
  {
    EntryPoints(s, a.key);
    var c := s.arena[s.correlations[Find(s.correlations, a.key).value].choice];
    assert a.response.Response? && Lists(c.options, a.response.option) ==> ValidId(a.response.option);
  }

  // ---------------------------------------------------- from view to response

  ghost predicate Answered(s: State, op: Op, record: nat) {
    op.OpAuthorize? && var d := Authorize(s, op.attempt, op.now).1; d.Accepted? && d.record == record
  }

  /** No attempt in the run is accepted for the record. */
  ghost predicate Unanswered(s: State, ops: seq<Op>, record: nat)
    decreases |ops|
  {
    ops == [] || (!Answered(s, ops[0], record) && Unanswered(Next(s, ops[0]), ops[1..], record))
  }

  lemma ProjectKeepsRecord(s: State, p: Prompt, handle: string, now: real, id: Option<string>,
          freshness: Option<string>, e: Correlation)
    requires Inv(s) && e in s.correlations && ValidPrompt(p, handle)
    requires var s' := Project(s, p, handle, now, id, freshness).0;
      e.choice < |s'.arena| && s'.arena[e.choice].state == Offered
    ensures e in Project(s, p, handle, now, id, freshness).0.correlations
  {
    hide Locate;
    LocateKeeps(s, p, p.turn.value, now, id, freshness);
    var r := Locate(s, p, p.turn.value, now, id, freshness);
    if r.choice.Some? && Find(s.correlations, PromptKey(handle, p.turn.value, p.correlation.value)).None? {
      var i :| 0 <= i < |r.state.correlations| && r.state.correlations[i] == e;
      AnswerablesAll(r.state, r.state.correlations, i);
    }
  }

  lemma StepKeepsRecord(s: State, op: Op, e: Correlation)
    requires Inv(s) && e in s.correlations && e.choice < |Next(s, op).arena|
    requires Next(s, op).arena[e.choice].state == Offered && !Answered(s, op, e.record)
    ensures e in Next(s, op).correlations
  {
    hide Inv;
    match op
    case OpProject(p, handle, now, id, freshness) =>
      if ValidPrompt(p, handle) {
        ProjectKeepsRecord(s, p, handle, now, id, freshness, e);
      }
    case OpAuthorize(a, now) => AuthorizeKeepsRecord(s, a, now, e);
    case _ => OthersKeepRecords(s, op);
  }

  lemma AuthorizeKeepsRecord(s: State, a: Attempt, now: real, e: Correlation)
    requires e in s.correlations && !Answered(s, OpAuthorize(a, now), e.record)
    ensures e in Authorize(s, a, now).0.correlations
  {
    hide Authorize;
    AuthorizeShape(s, a, now);
    var i :| 0 <= i < |s.correlations| && s.correlations[i] == e;
    assert Authorize(s, a, now).0.correlations[i] == e;
  }

  lemma OthersKeepRecords(s: State, op: Op)
    requires !op.OpProject? && !op.OpAuthorize?
    ensures Next(s, op).correlations == s.correlations
  {
  }

  lemma {:induction false} RunKeepsRecord(s: State, ops: seq<Op>, e: Correlation)
    requires Inv(s) && e in s.correlations && e.choice < |s.arena|
    requires e.choice < |Final(s, ops).arena| && Final(s, ops).arena[e.choice].state == Offered
    requires Unanswered(s, ops, e.record)
    ensures e in Final(s, ops).correlations
    decreases |ops|
  {
    hide Inv, Next, Answered;
    if ops != [] {
      StepKeeps(s, ops[0]);
      RunKeeps(Next(s, ops[0]), ops[1..]);
      assert Ages(Next(s, ops[0]).arena[e.choice], Final(s, ops).arena[e.choice]);
      StepKeepsRecord(s, ops[0], e);
      RunKeepsRecord(Next(s, ops[0]), ops[1..], e);
    }
  }

  /** The response of the endpoint a prompt was shown to. */
  ghost function Reply(p: Prompt, v: View, operation: Operation, option: string): Attempt
    requires p.turn.Some? && p.correlation.Some?
  {
    Attempt(PromptKey(p.handle, p.turn.value, p.correlation.value), true,
            Response(Some(operation), option, v.objectId, v.freshness), p.turn, true, Some(p.identity))
  }

  /** A projected prompt can be answered by any of its options under any of its
      operations that the endpoint is capable of, as long as its choice is open
      and in time and its record was not answered before. */
  lemma ShownIsAccepted(before: seq<Op>, p: Prompt, handle: string, t: real, id: Option<string>,
          freshness: Option<string>, after: seq<Op>, operation: Operation, option: string, now: real)
    requires Project(Final(EMPTY, before), p, handle, t, id, freshness).1.Some? && p.turn.Some? && p.correlation.Some?
    requires var s, s1 := Final(EMPTY, before), Project(Final(EMPTY, before), p, handle, t, id, freshness).0;
      && Unanswered(s1, after, s.issued) && s1.correlations != []
      && var c, s2 := s1.correlations[|s1.correlations| - 1].choice, Final(s1, after);
         && c < |s2.arena| && s2.arena[c].state == Offered
         && s2.arena[c].expiresAt.Some? && now < s2.arena[c].expiresAt.value
    requires operation in p.operations && operation in p.capabilities
    requires exists i :: 0 <= i < |p.options| && p.options[i].0 == option
    ensures var (s1, v) := Project(Final(EMPTY, before), p, handle, t, id, freshness);
      var c := s1.correlations[|s1.correlations| - 1].choice;
      Authorize(Final(s1, after), Reply(p, v.value, operation, option), now).1 ==
          Accepted(operation, p.identity, option, p.objectId, p.freshness, c, Final(EMPTY, before).issued)
  {
    EmptyIsSafe();
    RunKeeps(EMPTY, before);
    RunMakesWell(EMPTY, before);
    var s := Final(EMPTY, before);
    var (s1, v) := Project(s, p, handle, t, id, freshness);
    var op := OpProject(p, handle, t, id, freshness);
    assert s1 == Next(s, op);
    StepKeeps(s, op);
    StepMakesWell(s, op);
    RunKeeps(s1, after);
    RunMakesWell(s1, after);
    var c := ProjectionDisplays(s, p, handle, t, id, freshness);
    ShownNow(s, s1, p, v.value, c, t, Final(s1, after), after, operation, option, now);
  }

  lemma ShownNow(s: State, s1: State, p: Prompt, v: View, c: nat, t: real, s2: State, after: seq<Op>,
          operation: Operation, option: string, now: real)
    requires Inv(s1) && Inv(s2) && WellMade(s2) && Evolves(s1, s2) && s2 == Final(s1, after)
    requires Displays(s1, c, p, t, v) && Recorded(s, s1, p, c) && Unanswered(s1, after, s.issued)
    requires c < |s2.arena| && s2.arena[c].state == Offered
    requires s2.arena[c].expiresAt.Some? && now < s2.arena[c].expiresAt.value
    requires operation in p.operations && operation in p.capabilities
    requires exists i :: 0 <= i < |p.options| && p.options[i].0 == option
    ensures Authorize(s2, Reply(p, v, operation, option), now).1 ==
            Accepted(operation, p.identity, option, p.objectId, p.freshness, c, s.issued)
  {
    hide Inv, WellMade, Authorize, Final, Unanswered;
    var e := s1.correlations[|s1.correlations| - 1];
    var a := Reply(p, v, operation, option);
    assert e in s1.correlations;
    RunKeepsRecord(s1, after, e);
    FoundAgain(s2, e);
    assert Ages(s1.arena[c], s2.arena[c]);
    OpenIsCurrentNow(s1, c);
    OpenIsCurrentNow(s2, c);
    RecordDecides(s2, a, now);
  }

  lemma OpenIsCurrentNow(s: State, c: nat)
    requires Inv(s) && c < |s.arena| && s.arena[c].state == Offered
    ensures IsCurrent(s, TurnOf(s.arena[c]), c)
  {
  }

  lemma FoundAgain(s: State, e: Correlation)
    requires Inv(s) && e in s.correlations
    ensures var found := Find(s.correlations, e.key); found.Some? && s.correlations[found.value] == e
  {
    var i :| 0 <= i < |s.correlations| && s.correlations[i] == e;
    assert Find(s.correlations, e.key) == Some(i);
  }

  // --------------------------------------------------------------- rejections

  /** When each reason is given to an attempt on the record `e`. */
  ghost predicate RejectsFor(s: State, a: Attempt, e: Correlation, now: real, reason: Rejection)
    requires e.choice < |s.arena|
  {
    var c := s.arena[e.choice];
    var late := c.expiresAt.Some? && c.expiresAt.value <= now;
    var asked := a.isChoiceEvent && !e.consumed;
    var live := asked && a.ready && c.state != Revoked && c.state != Expired && !late;
    var current := c.state != Replaced && IsCurrent(s, (a.key.handle, a.key.turn), e.choice);
    var here := a.activeTurn == Some(a.key.turn) && a.event == Some(e.event);
    var open := live && current && c.expiresAt.Some? && here && c.state != Chosen;
    var able := open && a.response.Response? && a.response.operation.Some? && a.response.operation.value in c.supported;
    var named := able && ValidId(a.response.option) && ValidId(a.response.objectId) && ValidId(a.response.freshness);
    match reason
    case Stale =>
      || !a.isChoiceEvent
      || (live && current && c.expiresAt.Some? && !here)
      || (named && (a.response.objectId != c.publicId || a.response.freshness != c.publicFreshness))
    case Duplicate =>
      || (a.isChoiceEvent && e.consumed)
      || (live && current && c.expiresAt.Some? && here && c.state == Chosen)
    case WasRevoked => asked && (!a.ready || c.state == Revoked)
    case WasExpired => asked && a.ready && c.state != Revoked && (c.state == Expired || late)
    case WasReplaced => live && !current
    case Unsupported => open && !able
    case UnknownChoice =>
      || (live && current && c.expiresAt.None?)
      || (able && !named)
      || (named && a.response.objectId == c.publicId && a.response.freshness == c.publicFreshness
          && forall i :: 0 <= i < |c.options| ==> c.options[i].0 != a.response.option)
  }

  /** Each reason is given exactly when its own condition holds, and a choice
      found past its deadline is the only thing a rejection changes. */
  lemma RejectedExactly(s: State, a: Attempt, now: real, reason: Rejection)
    requires Inv(s) && Find(s.correlations, a.key).Some?
    ensures var e, (s', d) := s.correlations[Find(s.correlations, a.key).value], Authorize(s, a, now);
      && e.choice < |s.arena|
      && (d == Rejected(reason) <==> RejectsFor(s, a, e, now, reason))
      && (d.Rejected? ==>
            var c := s.arena[e.choice];
            var over := d == Rejected(WasExpired) && c.state != Expired;
            s' == if over then s.(arena := s.arena[e.choice := c.(state := Expired)]) else s)
  {
    EntryPoints(s, a.key);
    hide Inv, Authorize, RejectsFor;
    var e := s.correlations[Find(s.correlations, a.key).value];
    ReasonIsExact(s, a, e, now, reason);
    RejectionChanges(s, a, e, now);
  }

  lemma ReasonIsExact(s: State, a: Attempt, e: Correlation, now: real, reason: Rejection)
    requires var found := Find(s.correlations, a.key); found.Some? && s.correlations[found.value] == e
    requires e.choice < |s.arena| && TurnOf(s.arena[e.choice]) == (a.key.handle, a.key.turn)
    ensures Authorize(s, a, now).1 == Rejected(reason) <==> RejectsFor(s, a, e, now, reason)
  {
  }

  lemma RejectionChanges(s: State, a: Attempt, e: Correlation, now: real)
    requires var found := Find(s.correlations, a.key); found.Some? && s.correlations[found.value] == e
    requires e.choice < |s.arena|
    ensures var (s', d), c := Authorize(s, a, now), s.arena[e.choice];
      d.Rejected? ==>
        s' == if d == Rejected(WasExpired) && c.state != Expired
              then s.(arena := s.arena[e.choice := c.(state := Expired)]) else s
  {
  }

  /** A prompt key outside the table: the oldest record that shares its
      correlation ID tells what is wrong with it. */
  lemma UnknownKeyIsRejected(s: State, a: Attempt, now: real)
    requires NewKey(s, a.key)
    ensures var (s', d) := Authorize(s, a, now);
      && s' == s
      && (d == Rejected(UnknownChoice) <==>
            forall i :: 0 <= i < |s.correlations| ==> s.correlations[i].key.correlation != a.key.correlation)
      && (forall i :: OldestSharing(s.correlations, a.key, i) ==>
            d == Rejected(if s.correlations[i].key.handle != a.key.handle then WasRevoked else Stale))
  {
    FirstSharing(s.correlations, a.key);
  }

  ghost predicate OldestSharing(cs: seq<Correlation>, key: PromptKey, i: int) {
    && 0 <= i < |cs| && cs[i].key.correlation == key.correlation
    && forall j :: 0 <= j < i ==> cs[j].key.correlation != key.correlation
  }

  lemma {:induction false} FirstSharing(cs: seq<Correlation>, key: PromptKey)
    requires forall i :: 0 <= i < |cs| ==> cs[i].key != key
    ensures UnknownReason(cs, key) == UnknownChoice <==>
            forall i :: 0 <= i < |cs| ==> cs[i].key.correlation != key.correlation
    ensures forall i :: OldestSharing(cs, key, i) ==>
              UnknownReason(cs, key) == if cs[i].key.handle != key.handle then WasRevoked else Stale
  {
    if cs != [] {
      FirstSharing(cs[1..], key);
      forall i | OldestSharing(cs, key, i) && i > 0
        ensures UnknownReason(cs, key) == if cs[i].key.handle != key.handle then WasRevoked else Stale
      {
        assert cs[0].key.correlation != key.correlation;
        assert OldestSharing(cs[1..], key, i - 1);
      }
    }
  }

  // ----------------------------------------------------------------- delivery

  /** The window of an open choice starts with its first delivery; a delivery
      past its end expires it. */
  ghost function DeliveredAs(c: Choice, now: real): Choice {
    if c.state != Offered then c
    else if c.expiresAt.None? then c.(expiresAt := Some(now + c.ttl))
    else if c.expiresAt.value <= now then c.(state := Expired)
    else c
  }

  /** A delivery answers the time its choice has left, none if another choice is
      the turn's current one, and touches no other object. */
  lemma DeliveryIsAnswered(s: State, key: PromptKey, now: real)
    requires Inv(s)
    ensures var found, (s', r) := Find(s.correlations, key), Deliver(s, key, now);
      if NewKey(s, key) then s' == s && r.None?
      else
        && found.Some? && r.Some?
        && var c := s.correlations[found.value].choice;
           && c < |s.arena| && s'.arena == s.arena[c := DeliveredAs(s.arena[c], now)]
           && (if IsCurrent(s, (key.handle, key.turn), c) then SecondsLeft(s'.arena[c], now, r.value) else r.value == 0)
  {
    var found := Find(s.correlations, key);
    if found.Some? {
      EntryPoints(s, key);
      var c := s.correlations[found.value].choice;
      DeliveredShape(s, key, now, c);
      RemainingSeconds(DeliveredAs(s.arena[c], now), now);
    }
  }

  lemma DeliveredShape(s: State, key: PromptKey, now: real, c: nat)
    requires Inv(s) && Find(s.correlations, key).Some?
    requires c == s.correlations[Find(s.correlations, key).value].choice && c < |s.arena|
    requires TurnOf(s.arena[c]) == (key.handle, key.turn)
    ensures Delivered(s, key, now).arena == s.arena[c := DeliveredAs(s.arena[c], now)]
  {
    if s.arena[c].state == Offered {
      OpenIsCurrentNow(s, c);
    }
    assert s.arena == s.arena[c := s.arena[c]];
  }

  // ------------------------------------------------------------------ endings

  /** Ending a prompt expires its choice if that is still open. */
  lemma ExpiryEnds(s: State, key: PromptKey, i: nat)
    requires Inv(s) && Find(s.correlations, key) == Some(i)
    ensures var s', c := ExpireCorrelation(s, key), s.correlations[i].choice;
      && c < |s.arena|
      && s'.arena == s.arena[c := if s.arena[c].state == Offered then s.arena[c].(state := Expired) else s.arena[c]]
      && s'.objects == s.objects && s'.correlations == s.correlations
      && s'.current == if s.arena[c].state == Offered then s.current - {TurnOf(s.arena[c])} else s.current
  {
    EntryPoints(s, key);
    var c := s.correlations[i].choice;
    if s.arena[c].state == Offered {
      OpenIsCurrentNow(s, c);
    } else {
      assert s.arena == s.arena[c := s.arena[c]];
    }
  }

  /** Revoking a turn ends its open choice, and only that; revoking all ends every open choice. */
  lemma RevocationsEnd(s: State, turn: TurnKey, i: nat)
    requires Inv(s) && i < |s.arena|
    ensures |RevokeTurn(s, turn).arena| == |RevokeAll(s).arena| == |s.arena|
    ensures RevokeTurn(s, turn).arena[i] ==
            if s.arena[i].state == Offered && TurnOf(s.arena[i]) == turn then s.arena[i].(state := Revoked)
            else s.arena[i]
    ensures RevokeAll(s).arena[i] ==
            if s.arena[i].state == Offered then s.arena[i].(state := Revoked) else s.arena[i]
  {
    if s.arena[i].state == Offered {
      OpenIsCurrentNow(s, i);
      assert s.objects[s.arena[i].source] == i;
    }
  }

  /** A confirmed choose closes its choice if that is still open; an exploration closes nothing. */
  lemma CompletionEnds(s: State, d: Decision)
    requires Inv(s) && d.Accepted? && d.choice < |s.arena|
    ensures Complete(s, d) ==
            if d.operation == Choose && s.arena[d.choice].state == Offered
            then s.(arena := s.arena[d.choice := s.arena[d.choice].(state := Chosen)]) else s
  {
    if s.arena[d.choice].state == Offered {
      OpenIsCurrentNow(s, d.choice);
    }
  }
}
