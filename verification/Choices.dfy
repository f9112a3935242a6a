/**
  Typed choice prompts: the state of the choice authority and its operations
  as functions.

  Choice objects are shared by reference in the program, so they live in an
  arena here and are named by their index. `issued` counts the correlation
  records ever made and gives each its own number; nothing reads it back.
 */
module Choices {
  import opened Wrappers

  const CHOICE_TTL: real := 300.0
  const CLARIFY_TTL: real := 3600.0
  const MAX_CORRELATIONS: nat := 256
  const MAX_OBJECTS_PER_TURN: nat := 128
  const MAX_OPTIONS: nat := 32
  const MAX_ID_LENGTH: nat := 64
  const MAX_TEXT_LENGTH: nat := 1024
  const MAX_LABEL_LENGTH: nat := 256

  datatype Operation = Choose | Explore
  datatype ChoiceState = Offered | Expired | Replaced | Revoked | Chosen

  datatype SourceKey = SourceKey(
    handle: string, turn: string, session: string, revision: int, objectId: string, freshness: string)
  datatype PromptKey = PromptKey(handle: string, turn: string, correlation: string)
  type TurnKey = (string, string)

  datatype Choice = Choice(
    source: SourceKey, publicId: string, publicFreshness: string,
    sourceOperations: seq<Operation>, supported: seq<Operation>, options: seq<(string, string)>,
    expiresAt: Option<real>, state: ChoiceState, ttl: real)

  datatype Correlation = Correlation(key: PromptKey, event: nat, choice: nat, consumed: bool, record: nat)

  datatype State = State(
    arena: seq<Choice>, objects: map<SourceKey, nat>, current: map<TurnKey, nat>,
    correlations: seq<Correlation>, issued: nat)

  const EMPTY := State([], map[], map[], [], 0)

  /** The fields of a bridge event that a choice prompt is made from. */
  datatype Prompt = Prompt(
    identity: nat, handle: string, turn: Option<string>, correlation: Option<string>,
    session: string, revision: int, ttl: Option<real>, text: string, objectId: string, freshness: string,
    operations: seq<Operation>, options: seq<(string, string)>, sensitive: bool, capabilities: set<Operation>)

  function TurnOf(c: Choice): TurnKey { (c.source.handle, c.source.turn) }

  // ------------------------------------------------------------- validation

  predicate ValidId(value: string) {
    && 1 <= |value| <= MAX_ID_LENGTH
    && !Space(value[0]) && !Space(value[|value| - 1])
    && forall i :: 0 <= i < |value| ==> value[i] >= ' '
  }

  predicate ValidOptions(options: seq<(string, string)>) {
    && 1 <= |options| <= MAX_OPTIONS
    && (forall i :: 0 <= i < |options| ==>
          ValidId(options[i].0) && !Blank(options[i].1) && |options[i].1| <= MAX_LABEL_LENGTH)
    && (forall i, j :: 0 <= i < j < |options| ==> options[i].0 != options[j].0)
  }

  predicate ValidOperations(operations: seq<Operation>) {
    operations != [] && forall i, j :: 0 <= i < j < |operations| ==> operations[i] != operations[j]
  }

  predicate ValidPrompt(p: Prompt, handle: string) {
    && p.handle == handle && p.turn.Some? && p.correlation.Some?
    && !p.sensitive && !Blank(p.text) && |p.text| <= MAX_TEXT_LENGTH
    && ValidId(p.objectId) && ValidId(p.freshness)
    && ValidOperations(p.operations) && ValidOptions(p.options)
    && (p.ttl.Some? ==> 0.0 < p.ttl.value <= CLARIFY_TTL)
    && p.session != "" && p.revision >= 0
  }

  // ---------------------------------------------------------------- helpers

  function Supported(operations: seq<Operation>, capabilities: set<Operation>): seq<Operation> {
    if operations == [] then []
    else if operations[0] in capabilities then [operations[0]] + Supported(operations[1..], capabilities)
    else Supported(operations[1..], capabilities)
  }

  function Find(cs: seq<Correlation>, key: PromptKey): (r: Option<nat>)
    ensures r.Some? ==> r.value < |cs| && cs[r.value].key == key
    ensures r.None? ==> forall i :: 0 <= i < |cs| ==> cs[i].key != key
  {
    if cs == [] then None
    else if cs[|cs| - 1].key == key then Some(|cs| - 1)
    else Find(cs[..|cs| - 1], key)
  }

  predicate IsCurrent(s: State, turn: TurnKey, c: nat) { turn in s.current && s.current[turn] == c }

  function SetState(s: State, c: nat, state: ChoiceState): State
    requires c < |s.arena|
  {
    s.(arena := s.arena[c := s.arena[c].(state := state)])
  }

  /** End a choice and stop it being the current one of its turn. */
  function Drop(s: State, c: nat, turn: TurnKey, state: ChoiceState): State
    requires c < |s.arena|
  {
    var ended := SetState(s, c, state);
    if IsCurrent(s, turn, c) then ended.(current := s.current - {turn}) else ended
  }

  function ObjectsOf(objects: map<SourceKey, nat>, turn: TurnKey): set<SourceKey> {
    set k | k in objects && (k.handle, k.turn) == turn
  }

  predicate Collides(s: State, token: string) {
    exists k :: k in s.objects && s.objects[k] < |s.arena|
                && (token == s.arena[s.objects[k]].publicId || token == s.arena[s.objects[k]].publicFreshness)
  }

  /** A correlation whose choice can still be answered. */
  predicate Answerable(s: State, c: Correlation) {
    c.choice < |s.arena| && s.arena[c.choice].state == Offered && IsCurrent(s, TurnOf(s.arena[c.choice]), c.choice)
  }

  function Answerables(s: State, cs: seq<Correlation>): (r: seq<Correlation>)
    ensures |r| <= |cs|
    ensures forall i :: 0 <= i < |r| ==> r[i] in cs && Answerable(s, r[i])
  {
    if cs == [] then []
    else
      var before := Answerables(s, cs[..|cs| - 1]);
      if Answerable(s, cs[|cs| - 1]) then before + [cs[|cs| - 1]] else before
  }

  function Prune(s: State): State { s.(correlations := Answerables(s, s.correlations)) }

  function Ceil(x: real): int { -((-x).Floor) }

  function Remaining(c: Choice, now: real): int {
    if c.state != Offered then 0
    else if c.expiresAt.None? then c.ttl.Floor
    else if Ceil(c.expiresAt.value - now) > 0 then Ceil(c.expiresAt.value - now) else 0
  }

  // ------------------------------------------------------------- projection

  datatype View = View(correlation: string, timeout: int, objectId: string, freshness: string,
                       operations: seq<Operation>)
  datatype Located = Located(state: State, choice: Option<nat>)

  /** Reuse the object of a known source revision, ending it if it may no longer be answered. */
  function Reuse(s: State, c: nat, p: Prompt, turn: TurnKey, supported: seq<Operation>, now: real): Located
    requires c < |s.arena|
  {
    var choice := s.arena[c];
    if choice.options != p.options || choice.sourceOperations != p.operations
    then Located(if choice.state == Offered then SetState(s, c, Replaced) else s, None)
    else if choice.state == Offered && choice.supported != supported then Located(Drop(s, c, turn, Revoked), Some(c))
    else if choice.state == Offered && choice.expiresAt.Some? && now >= choice.expiresAt.value
    then Located(Drop(s, c, turn, Expired), Some(c))
    else Located(s, Some(c))
  }

  /** Mint an object for a new source revision, replacing the turn's current one. */
  function Mint(s: State, key: SourceKey, turn: TurnKey, p: Prompt, supported: seq<Operation>, id: Option<string>,
          freshness: Option<string>): Located
  {
    if |ObjectsOf(s.objects, turn)| >= MAX_OBJECTS_PER_TURN then Located(s, None)
    else
      var replaced :=
        if turn in s.current && s.current[turn] < |s.arena| && s.arena[s.current[turn]].state == Offered
        then SetState(s, s.current[turn], Replaced) else s;
      if id.None? || !ValidId(id.value) || Collides(replaced, id.value)
         || freshness.None? || !ValidId(freshness.value) || Collides(replaced, freshness.value) || id == freshness
      then Located(replaced, None)
      else
        var ttl := if p.ttl.Some? then p.ttl.value else CHOICE_TTL;
        var choice := Choice(key, id.value, freshness.value, p.operations, supported, p.options, None, Offered, ttl);
        var c := |s.arena|;
        Located(replaced.(arena := replaced.arena + [choice], objects := s.objects[key := c],
                          current := s.current[turn := c]), Some(c))
  }

  function Locate(s: State, p: Prompt, turn: string, now: real, id: Option<string>,
          freshness: Option<string>): Located
  {
    var key := SourceKey(p.handle, turn, p.session, p.revision, p.objectId, p.freshness);
    var supported := Supported(p.operations, p.capabilities);
    if key in s.objects && s.objects[key] < |s.arena|
    then Reuse(s, s.objects[key], p, (p.handle, turn), supported, now)
    else Mint(s, key, (p.handle, turn), p, supported, id, freshness)
  }

  /** `project`: a refused prompt may still have ended the choice it clashed with. */
  function Project(s: State, p: Prompt, handle: string, now: real, id: Option<string>,
          freshness: Option<string>): (State, Option<View>)
  {
    if !ValidPrompt(p, handle) then (s, None)
    else
      var key := PromptKey(handle, p.turn.value, p.correlation.value);
      if Find(s.correlations, key).Some? then (s, None)
      else
        var located := Locate(s, p, p.turn.value, now, id, freshness);
        if located.choice.None? || located.choice.value >= |located.state.arena| then (located.state, None)
        else Correlate(located.state, key, p.identity, located.choice.value, now)
  }

  function Correlate(s: State, key: PromptKey, event: nat, c: nat, now: real): (State, Option<View>)
    requires c < |s.arena|
  {
    var room := if |s.correlations| >= MAX_CORRELATIONS then Prune(s) else s;
    if |room.correlations| >= MAX_CORRELATIONS then (room, None)
    else
      var choice := s.arena[c];
      var turn := (key.handle, key.turn);
      var operations := if IsCurrent(s, turn, c) && choice.state == Offered then choice.supported else [];
      (room.(correlations := room.correlations + [Correlation(key, event, c, false, s.issued)], issued := s.issued + 1),
       Some(View(key.correlation, Remaining(choice, now), choice.publicId, choice.publicFreshness, operations)))
  }

  // --------------------------------------------------------------- delivery

  function Start(s: State, c: nat, now: real): State
    requires c < |s.arena|
  {
    s.(arena := s.arena[c := s.arena[c].(expiresAt := Some(now + s.arena[c].ttl))])
  }

  /** The first delivery starts the freshness window; a delivery after its end expires the choice. */
  function Delivered(s: State, key: PromptKey, now: real): State {
    var found := Find(s.correlations, key);
    if found.None? || s.correlations[found.value].choice >= |s.arena| then s
    else
      var c := s.correlations[found.value].choice;
      var turn := (key.handle, key.turn);
      var choice := s.arena[c];
      if choice.state != Offered || !IsCurrent(s, turn, c) then s
      else if choice.expiresAt.None? then Start(s, c, now)
      else if now >= choice.expiresAt.value then Drop(s, c, turn, Expired)
      else s
  }

  /** `mark_delivered`: the answer is the time the choice has left, 0 once it cannot be answered. */
  function Deliver(s: State, key: PromptKey, now: real): (State, Option<int>) {
    var found := Find(s.correlations, key);
    var s' := Delivered(s, key, now);
    if found.None? || s.correlations[found.value].choice >= |s.arena| then (s', None)
    else
      var c := s.correlations[found.value].choice;
      (s', Some(if IsCurrent(s, (key.handle, key.turn), c) then Remaining(s'.arena[c], now) else 0))
  }

  // ---------------------------------------------------------- authorization

  datatype Rejection = UnknownChoice | Stale | Duplicate | WasRevoked | WasExpired | WasReplaced | Unsupported
  datatype Response =
    | MalformedResponse
    | Response(operation: Option<Operation>, option: string, objectId: string, freshness: string)
  datatype Attempt = Attempt(
    key: PromptKey, isChoiceEvent: bool, response: Response, activeTurn: Option<string>, ready: bool,
    event: Option<nat>)
  datatype Decision =
    | Accepted(operation: Operation, event: nat, option: string, objectId: string, freshness: string, choice: nat,
               record: nat)
    | Rejected(reason: Rejection)

  /** Why a prompt key that is not in the table is refused: the first entry with its correlation ID decides. */
  function UnknownReason(cs: seq<Correlation>, key: PromptKey): Rejection
    decreases |cs|
  {
    if cs == [] then UnknownChoice
    else if cs[0].key.correlation == key.correlation && cs[0].key.handle != key.handle then WasRevoked
    else if cs[0].key.correlation == key.correlation && cs[0].key.turn != key.turn then Stale
    else UnknownReason(cs[1..], key)
  }

  predicate Lists(options: seq<(string, string)>, option: string) {
    exists i :: 0 <= i < |options| && options[i].0 == option
  }

  /** The checks on the response itself, once the choice is known to be open. */
  function Judge(c: Choice, a: Attempt, entry: Correlation): Decision {
    if a.activeTurn != Some(a.key.turn) || a.event != Some(entry.event) then Rejected(Stale)
    else if c.state == Chosen then Rejected(Duplicate)
    else if a.response.MalformedResponse? || a.response.operation.None? || a.response.operation.value !in c.supported
    then Rejected(Unsupported)
    else if !ValidId(a.response.option) || !ValidId(a.response.objectId) || !ValidId(a.response.freshness)
         then Rejected(UnknownChoice)
    else if a.response.objectId != c.publicId || a.response.freshness != c.publicFreshness then Rejected(Stale)
    else if !Lists(c.options, a.response.option) then Rejected(UnknownChoice)
    else Accepted(a.response.operation.value, entry.event, a.response.option, c.source.objectId, c.source.freshness,
                  entry.choice, entry.record)
  }

  /** `authorize`: an accepted response consumes its correlation. */
  function Authorize(s: State, a: Attempt, now: real): (State, Decision) {
    var found := Find(s.correlations, a.key);
    if found.None? then (s, Rejected(UnknownReason(s.correlations, a.key)))
    else
      var entry := s.correlations[found.value];
      if !a.isChoiceEvent then (s, Rejected(Stale))
      else if entry.consumed then (s, Rejected(Duplicate))
      else if entry.choice >= |s.arena| then (s, Rejected(UnknownChoice))
      else
        var c := s.arena[entry.choice];
        if !a.ready || c.source.handle != a.key.handle || c.state == Revoked then (s, Rejected(WasRevoked))
        else if c.state == Expired then (s, Rejected(WasExpired))
        else if c.expiresAt.Some? && now >= c.expiresAt.value
             then (SetState(s, entry.choice, Expired), Rejected(WasExpired))
        else if c.state == Replaced || !IsCurrent(s, (a.key.handle, a.key.turn), entry.choice)
             then (s, Rejected(WasReplaced))
        else if c.expiresAt.None? then (s, Rejected(UnknownChoice))
        else
          var decision := Judge(c, a, entry);
          (if decision.Accepted?
           then s.(correlations := s.correlations[found.value := entry.(consumed := true)]) else s,
           decision)
  }

  /** `complete`: a confirmed choose closes its object. */
  function Complete(s: State, d: Decision): State {
    if d.Accepted? && d.operation == Choose && d.choice < |s.arena|
       && IsCurrent(s, TurnOf(s.arena[d.choice]), d.choice) && s.arena[d.choice].state == Offered
    then SetState(s, d.choice, Chosen) else s
  }

  // ---------------------------------------------------- expiry and revocation

  function ExpireCorrelation(s: State, key: PromptKey): State {
    var found := Find(s.correlations, key);
    if found.None? || s.correlations[found.value].choice >= |s.arena| then s
    else
      var c := s.correlations[found.value].choice;
      if s.arena[c].state == Offered then Drop(s, c, (key.handle, key.turn), Expired) else s
  }

  function RevokedIf(c: Choice, condition: bool): Choice {
    if condition && c.state == Offered then c.(state := Revoked) else c
  }

  /** Whether an arena object is named by the table or is the turn's current one. */
  predicate Named(s: State, i: nat, turn: TurnKey) {
    || (exists k :: k in s.objects && (k.handle, k.turn) == turn && s.objects[k] == i)
    || IsCurrent(s, turn, i)
  }

  function RevokeTurn(s: State, turn: TurnKey): State {
    s.(arena := seq(|s.arena|, i requires 0 <= i < |s.arena| => RevokedIf(s.arena[i], Named(s, i, turn))),
       objects := s.objects - ObjectsOf(s.objects, turn),
       current := s.current - {turn})
  }

  predicate InTable(s: State, i: nat) { exists k :: k in s.objects && s.objects[k] == i }

  function RevokeAll(s: State): State {
    s.(arena := seq(|s.arena|, i requires 0 <= i < |s.arena| => RevokedIf(s.arena[i], InTable(s, i))),
       objects := map[], current := map[])
  }

  // ------------------------------------------------------------------- runs

  datatype Op =
    | OpProject(prompt: Prompt, handle: string, now: real, id: Option<string>, freshness: Option<string>)
    | OpDeliver(key: PromptKey, now: real)
    | OpAuthorize(attempt: Attempt, now: real)
    | OpComplete(decision: Decision)
    | OpExpire(key: PromptKey)
    | OpRevokeTurn(turn: TurnKey)
    | OpRevokeAll

  function Next(s: State, op: Op): State {
    match op
    case OpProject(p, handle, now, id, freshness) => Project(s, p, handle, now, id, freshness).0
    case OpDeliver(key, now) => Delivered(s, key, now)
    case OpAuthorize(a, now) => Authorize(s, a, now).0
    case OpComplete(d) => Complete(s, d)
    case OpExpire(key) => ExpireCorrelation(s, key)
    case OpRevokeTurn(turn) => RevokeTurn(s, turn)
    case OpRevokeAll => RevokeAll(s)
  }

  function Final(s: State, ops: seq<Op>): State
    decreases |ops|
  {
    if ops == [] then s else Final(Next(s, ops[0]), ops[1..])
  }
}
