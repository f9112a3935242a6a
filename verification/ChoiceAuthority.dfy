/**
  The choice authority as it runs. Choice objects are shared by reference: the
  source table, the current choice of a turn and every correlation may hold the
  same object, and ending it through one of them ends it for all. The ghost
  `arena` lists the objects in the order they were minted, which ties the
  references to the indices of the model in `Choices`.
 */
module ChoiceAuthority {
  import opened Wrappers
  import opened Choices
  import Invariants = ChoiceInvariants
  import Answers = ChoiceAnswers

  class ChoiceObject {
    const source: SourceKey
    const publicId: string
    const publicFreshness: string
    const sourceOperations: seq<Operation>
    const supported: seq<Operation>
    const options: seq<(string, string)>
    const ttl: real
    var expiresAt: Option<real>
    var state: ChoiceState
    ghost const slot: nat

    ghost function Value(): Choice
      reads this
    {
      Choice(source, publicId, publicFreshness, sourceOperations, supported, options, expiresAt, state, ttl)
    }

    constructor (source: SourceKey, id: string, freshness: string, operations: seq<Operation>,
            supported: seq<Operation>, options: seq<(string, string)>, ttl: real, ghost slot: nat)
      ensures Value() == Choice(source, id, freshness, operations, supported, options, None, Offered, ttl)
      ensures this.slot == slot
    {
      this.source, this.publicId, this.publicFreshness := source, id, freshness;
      this.sourceOperations, this.supported, this.options, this.ttl := operations, supported, options, ttl;
      this.expiresAt, this.state := None, Offered;
      this.slot := slot;
    }
  }

  datatype Entry = Entry(key: PromptKey, event: nat, choice: ChoiceObject, consumed: bool, record: nat)

  /** A decision as the caller gets it, with the choice object itself. */
  datatype Verdict =
    | Accept(operation: Operation, event: nat, option: string, objectId: string, freshness: string,
             choice: ChoiceObject, record: nat)
    | Reject(reason: Rejection)

  ghost function Seen(v: Verdict): Decision {
    match v
    case Accept(operation, event, option, objectId, freshness, choice, record) =>
      Accepted(operation, event, option, objectId, freshness, choice.slot, record)
    case Reject(reason) => Rejected(reason)
  }

  ghost function Values(os: seq<ChoiceObject>): seq<Choice>
    reads os
  {
    seq(|os|, i requires 0 <= i < |os| reads os => os[i].Value())
  }

  ghost function Slots(os: map<SourceKey, ChoiceObject>): map<SourceKey, nat> {
    map k | k in os :: os[k].slot
  }

  ghost function Turns(os: map<TurnKey, ChoiceObject>): map<TurnKey, nat> {
    map t | t in os :: os[t].slot
  }

  lemma SlotsAdd(os: map<SourceKey, ChoiceObject>, k: SourceKey, o: ChoiceObject)
    ensures Slots(os[k := o]) == Slots(os)[k := o.slot]
  {
  }

  lemma SlotsDrop(os: map<SourceKey, ChoiceObject>, keys: set<SourceKey>)
    ensures Slots(os - keys) == Slots(os) - keys
  {
  }

  lemma TurnsMove(os: map<TurnKey, ChoiceObject>, t: TurnKey, o: ChoiceObject)
    ensures Turns(os[t := o]) == Turns(os)[t := o.slot]
    ensures Turns(os - {t}) == Turns(os) - {t}
  {
  }

  ghost function Links(es: seq<Entry>): seq<Correlation> {
    seq(|es|, i requires 0 <= i < |es| => Correlation(es[i].key, es[i].event, es[i].choice.slot, es[i].consumed,
                                                      es[i].record))
  }

  class Authority {
    var objects: map<SourceKey, ChoiceObject>
    var current: map<TurnKey, ChoiceObject>
    var correlations: seq<Entry>
    var issued: nat
    ghost var arena: seq<ChoiceObject>

    ghost predicate Minted(o: ChoiceObject)
      reads this
    {
      o.slot < |arena| && arena[o.slot] == o
    }

    /** References stand in the slots the model knows them by. */
    ghost predicate Linked()
      reads this
    {
      && (forall i :: 0 <= i < |arena| ==> arena[i].slot == i)
      && (forall k :: k in objects ==> Minted(objects[k]))
      && (forall t :: t in current ==> Minted(current[t]))
      && (forall i :: 0 <= i < |correlations| ==> Minted(correlations[i].choice))
    }

    ghost function View(): State
      reads this, arena
    {
      State(Values(arena), Slots(objects), Turns(current), Links(correlations), issued)
    }

    ghost predicate Valid()
      reads this, arena
    {
      Linked() && Invariants.Inv(View())
    }

    constructor ()
      ensures Valid() && View() == EMPTY && fresh(this)
    {
      objects, current, correlations, issued := map[], map[], [], 0;
      arena := [];
      Invariants.EmptyIsSafe();
    }

    // ---------------------------------------------------------- small edits

    method SetState(o: ChoiceObject, state: ChoiceState)
      requires Linked() && Minted(o)
      modifies o`state
      ensures Linked() && View() == Choices.SetState(old(View()), o.slot, state)
    {
      o.state := state;
      assert Values(arena) == old(Values(arena))[o.slot := old(Values(arena))[o.slot].(state := state)];
    }

    /** End a choice and stop it being the current one of its turn. */
    method DropChoice(o: ChoiceObject, turn: TurnKey, state: ChoiceState)
      requires Linked() && Minted(o)
      modifies this`current, o`state
      ensures Linked() && View() == Drop(old(View()), o.slot, turn, state)
    {
      SetState(o, state);
      TurnsMove(current, turn, o);
      if turn in current && current[turn] == o {
        current := current - {turn};
      }
    }

    /** The entry of a prompt key, searched from the newest. */
    method Lookup(key: PromptKey) returns (r: Option<nat>)
      requires Linked()
      ensures r == Find(View().correlations, key)
      ensures r.Some? ==> r.value < |correlations| && correlations[r.value].key == key
    {
      var n := |correlations|;
      ghost var links := View().correlations;
      assert links[..n] == links;
      while n > 0
        invariant 0 <= n <= |correlations|
        invariant Find(links, key) == Find(links[..n], key)
      {
        n := n - 1;
        assert links[..n + 1][..n] == links[..n];
        if correlations[n].key == key {
          return Some(n);
        }
      }
      return None;
    }

    // -------------------------------------------------------------- delivery

    /** Find the choice, start its window or let it run out, and report the seconds left. */
    method Deliver(key: PromptKey, now: real) returns (r: Option<int>)
      requires Linked()
      modifies this, arena
      ensures Linked() && arena == old(arena)
      ensures (View(), r) == Choices.Deliver(old(View()), key, now)
    {
      var found := Lookup(key);
      if found.None? {
        return None;
      }
      var o, turn := correlations[found.value].choice, (key.handle, key.turn);
      assert turn in current && current[turn] == o <==> IsCurrent(View(), turn, o.slot);
      if o.state != Offered || turn !in current || current[turn] != o {
        return Some(0);
      }
      var over := Freshen(o, turn, now);
      assert View() == Delivered(old(View()), key, now) && View().arena[o.slot] == o.Value();
      if over {
        return Some(0);
      }
      var left := Seconds(o, now);
      return Some(left);
    }

    /** Start the window of an open choice, or expire the choice if it is over. */
    method Freshen(o: ChoiceObject, turn: TurnKey, now: real) returns (over: bool)
      requires Linked() && Minted(o) && o.state == Offered
      modifies this`current, o
      ensures Linked() && over == (old(o.expiresAt).Some? && now >= old(o.expiresAt).value)
      ensures View() == if old(o.expiresAt).None? then Start(old(View()), o.slot, now)
                        else if over then Drop(old(View()), o.slot, turn, Expired) else old(View())
    {
      over := o.expiresAt.Some? && now >= o.expiresAt.value;
      if o.expiresAt.None? {
        StartWindow(o, now);
      } else if over {
        DropChoice(o, turn, Expired);
      }
    }

    method MarkDelivered(key: PromptKey, now: real) returns (r: Option<int>)
      requires Valid()
      modifies this, arena
      ensures Valid() && arena == old(arena)
      ensures (View(), r) == Choices.Deliver(old(View()), key, now)
    {
      hide Invariants.Inv;
      r := Deliver(key, now);
      Invariants.StepKeeps(old(View()), OpDeliver(key, now));
    }

    method StartWindow(o: ChoiceObject, now: real)
      requires Linked() && Minted(o)
      modifies o`expiresAt
      ensures Linked() && View() == Start(old(View()), o.slot, now) && o.state == old(o.state)
    {
      o.expiresAt := Some(now + o.ttl);
      assert Values(arena) == old(Values(arena))[o.slot := old(Values(arena))[o.slot].(expiresAt := o.expiresAt)];
    }

    /** `_remaining_seconds`. */
    method Seconds(o: ChoiceObject, now: real) returns (r: int)
      ensures r == Remaining(o.Value(), now)
    {
      if o.state != Offered {
        return 0;
      }
      if o.expiresAt.None? {
        return o.ttl.Floor;
      }
      r := Ceil(o.expiresAt.value - now);
      if r < 0 {
        r := 0;
      }
    }

    // --------------------------------------------------------- authorization

    method UnknownContext(key: PromptKey) returns (r: Rejection)
      requires Linked()
      ensures r == UnknownReason(View().correlations, key)
    {
      ghost var links := View().correlations;
      assert links[0..] == links;
      for i := 0 to |correlations|
        invariant UnknownReason(links, key) == UnknownReason(links[i..], key)
      {
        assert links[i..][1..] == links[i + 1..];
        var known := correlations[i].key;
        if known.correlation == key.correlation {
          if known.handle != key.handle {
            return WasRevoked;
          }
          if known.turn != key.turn {
            return Stale;
          }
        }
      }
      return UnknownChoice;
    }

    /** The checks on the response itself, once the choice is known to be open. */
    method Weigh(o: ChoiceObject, a: Attempt, entry: Entry) returns (v: Verdict)
      requires entry.choice == o
      ensures Seen(v) == Judge(o.Value(), a, Correlation(entry.key, entry.event, o.slot, entry.consumed, entry.record))
      ensures v.Accept? ==> v.choice == o
    {
      if a.activeTurn != Some(a.key.turn) || a.event != Some(entry.event) {
        return Reject(Stale);
      }
      if o.state == Chosen {
        return Reject(Duplicate);
      }
      if a.response.MalformedResponse? || a.response.operation.None? || a.response.operation.value !in o.supported {
        return Reject(Unsupported);
      }
      var answer := a.response;
      if !ValidId(answer.option) || !ValidId(answer.objectId) || !ValidId(answer.freshness) {
        return Reject(UnknownChoice);
      }
      if answer.objectId != o.publicId || answer.freshness != o.publicFreshness {
        return Reject(Stale);
      }
      if !Lists(o.options, answer.option) {
        return Reject(UnknownChoice);
      }
      return Accept(answer.operation.value, entry.event, answer.option, o.source.objectId, o.source.freshness, o,
                    entry.record);
    }

    /** The checks in their order; an accepted answer consumes its correlation. */
    method Decide(a: Attempt, now: real) returns (v: Verdict)
      requires Linked()
      modifies this, arena
      ensures Linked() && arena == old(arena)
      ensures (View(), Seen(v)) == Choices.Authorize(old(View()), a, now)
      ensures v.Accept? ==> Minted(v.choice)
    {
      var found := Lookup(a.key);
      if found.None? {
        var reason := UnknownContext(a.key);
        return Reject(reason);
      }
      if !a.isChoiceEvent {
        return Reject(Stale);
      }
      var entry := correlations[found.value];
      if entry.consumed {
        return Reject(Duplicate);
      }
      var o := entry.choice;
      if !a.ready || o.source.handle != a.key.handle || o.state == Revoked {
        return Reject(WasRevoked);
      }
      if o.state == Expired {
        return Reject(WasExpired);
      }
      if o.expiresAt.Some? && now >= o.expiresAt.value {
        SetState(o, Expired);
        return Reject(WasExpired);
      }
      var turn := (a.key.handle, a.key.turn);
      assert turn in current && current[turn] == o <==> IsCurrent(View(), turn, o.slot);
      if o.state == Replaced || turn !in current || current[turn] != o {
        return Reject(WasReplaced);
      }
      if o.expiresAt.None? {
        return Reject(UnknownChoice);
      }
      v := Weigh(o, a, entry);
      if v.Accept? {
        correlations := correlations[found.value := entry.(consumed := true)];
        LinkConsumed(old(correlations), found.value);
      }
    }

    method Authorize(a: Attempt, now: real) returns (v: Verdict)
      requires Valid()
      modifies this, arena
      ensures Valid() && arena == old(arena)
      ensures (View(), Seen(v)) == Choices.Authorize(old(View()), a, now)
      ensures v.Accept? ==> Invariants.FreshAnswer(old(View()), a, Seen(v), now)
      ensures v.Accept? ==> Minted(v.choice)
    {
      hide Invariants.Inv;
      v := Decide(a, now);
      if v.Accept? {
        Invariants.AcceptedNow(old(View()), a, now);
      }
      Invariants.StepKeeps(old(View()), OpAuthorize(a, now));
    }

    /** A chosen object closes while it is open and current. */
    method CloseChosen(v: Verdict)
      requires Linked() && (v.Accept? ==> Minted(v.choice))
      modifies arena
      ensures Linked() && View() == Choices.Complete(old(View()), Seen(v))
    {
      if v.Accept? && v.operation == Choose {
        var turn := (v.choice.source.handle, v.choice.source.turn);
        if turn in current && current[turn] == v.choice && v.choice.state == Offered {
          SetState(v.choice, Chosen);
        }
      }
    }

    method Complete(v: Verdict)
      requires Valid() && (v.Accept? ==> Minted(v.choice))
      modifies arena
      ensures Valid() && View() == Choices.Complete(old(View()), Seen(v))
    {
      hide Invariants.Inv;
      CloseChosen(v);
      Invariants.StepKeeps(old(View()), OpComplete(Seen(v)));
    }

    // -------------------------------------------------- expiry and revocation

    /** End the open choice behind a correlation. */
    method EndPrompt(key: PromptKey)
      requires Linked()
      modifies this, arena
      ensures Linked() && arena == old(arena) && View() == Choices.ExpireCorrelation(old(View()), key)
    {
      var found := Lookup(key);
      if found.Some? && correlations[found.value].choice.state == Offered {
        DropChoice(correlations[found.value].choice, (key.handle, key.turn), Expired);
      }
    }

    method ExpireCorrelation(key: PromptKey)
      requires Valid()
      modifies this, arena
      ensures Valid() && arena == old(arena) && View() == Choices.ExpireCorrelation(old(View()), key)
    {
      hide Invariants.Inv;
      EndPrompt(key);
      Invariants.StepKeeps(old(View()), OpExpire(key));
    }

    method RevokeIfOpen(o: ChoiceObject)
      requires Linked() && Minted(o)
      modifies o`state
      ensures Linked() && View() == old(View()).(arena :=
              old(View()).arena[o.slot := RevokedIf(old(View()).arena[o.slot], true)])
    {
      if o.state == Offered {
        SetState(o, Revoked);
      }
      assert Values(arena) == old(Values(arena))[o.slot := RevokedIf(old(Values(arena))[o.slot], true)];
    }

    /** One more table key after those already done. */
    method RevokeNext(k: SourceKey, ghost was: State, ghost done: set<SourceKey>)
      requires Linked() && k in objects && done <= was.objects.Keys
      requires View() == was.(arena := RevokedAt(was.arena, SlotsOf(was, done)))
      modifies objects[k]
      ensures Linked() && View() == was.(arena := RevokedAt(was.arena, SlotsOf(was, done + {k})))
    {
      RevokeIfOpen(objects[k]);
      RevokedMore(was.arena, SlotsOf(was, done), objects[k].slot);
      SlotsMore(was, done, k);
    }

    /** Revoke the open choices under the given table keys, one by one. */
    method RevokeObjects(keys: set<SourceKey>)
      requires Linked() && keys <= objects.Keys
      modifies arena
      ensures Linked() && View() == old(View()).(arena := RevokedAt(old(View()).arena, SlotsOf(old(View()), keys)))
    {
      hide RevokedAt, Values;
      ghost var was, done := View(), {};
      RevokedNone(was.arena);
      assert SlotsOf(was, done) == {};
      var left := keys;
      while left != {}
        invariant Linked() && left <= keys && done == keys - left
        invariant View() == was.(arena := RevokedAt(was.arena, SlotsOf(was, done)))
        decreases left
      {
        var k :| k in left;
        RevokeNext(k, was, done);
        left, done := left - {k}, done + {k};
      }
      assert done == keys;
    }

    method ForgetCurrent(turn: TurnKey)
      requires Linked() && turn in current
      modifies this`current
      ensures Linked() && View() == old(View()).(current := old(View()).current - {turn})
    {
      TurnsMove(current, turn, current[turn]);
      current := current - {turn};
    }

    method RevokeCurrent(turn: TurnKey)
      requires Linked()
      modifies this`current, arena
      ensures Linked()
      ensures View() == old(View()).(arena := RevokedAt(old(View()).arena, CurrentSlot(old(View()), turn)),
                                     current := old(View()).current - {turn})
    {
      ghost var was := View();
      RevokedNone(was.arena);
      if turn in current {
        RevokeIfOpen(current[turn]);
        RevokedMore(was.arena, {}, current[turn].slot);
        assert {} + {current[turn].slot} == CurrentSlot(was, turn);
        ForgetCurrent(turn);
      }
    }

    /** Revoke what a turn still offers and drop it from both tables. */
    method EndTurn(turn: TurnKey)
      requires Linked()
      modifies this, arena
      ensures Linked() && arena == old(arena) && View() == Choices.RevokeTurn(old(View()), turn)
    {
      ghost var was := View();
      RevokeCurrent(turn);
      var keys := set k | k in objects && (k.handle, k.turn) == turn;
      assert keys == ObjectsOf(was.objects, turn);
      RevokeObjects(keys);
      ghost var values := View().arena;
      RemoveObjects(keys);
      assert View() == was.(arena := values, objects := was.objects - keys, current := was.current - {turn});
      TurnRevoked(was, turn, values);
    }

    method RevokeTurn(turn: TurnKey)
      requires Valid()
      modifies this, arena
      ensures Valid() && arena == old(arena) && View() == Choices.RevokeTurn(old(View()), turn)
    {
      hide Invariants.Inv;
      EndTurn(turn);
      Invariants.StepKeeps(old(View()), OpRevokeTurn(turn));
    }

    method RemoveObjects(keys: set<SourceKey>)
      requires Linked()
      modifies this`objects
      ensures Linked() && View() == old(View()).(objects := old(View()).objects - keys)
    {
      SlotsDrop(objects, keys);
      objects := objects - keys;
    }

    method ClearTables()
      requires Linked()
      modifies this`objects, this`current
      ensures Linked() && View() == old(View()).(objects := map[], current := map[])
    {
      objects, current := map[], map[];
    }

    /** Revoke every open choice of the table and clear both tables. */
    method EndAll()
      requires Linked()
      modifies this, arena
      ensures Linked() && arena == old(arena) && View() == Choices.RevokeAll(old(View()))
    {
      ghost var was := View();
      assert objects.Keys == was.objects.Keys;
      RevokeObjects(objects.Keys);
      ghost var values := View().arena;
      ClearTables();
      assert View() == was.(arena := values, objects := map[], current := map[]);
      AllRevoked(was, values);
    }

    method RevokeAll()
      requires Valid()
      modifies this, arena
      ensures Valid() && arena == old(arena) && View() == Choices.RevokeAll(old(View()))
    {
      hide Invariants.Inv;
      EndAll();
      Invariants.StepKeeps(old(View()), OpRevokeAll);
    }

    // ------------------------------------------------------------ projection

    /** The entries whose choice can still be answered. */
    method LiveEntries() returns (kept: seq<Entry>)
      requires Linked()
      ensures forall j :: 0 <= j < |kept| ==> Minted(kept[j].choice)
      ensures Links(kept) == Answerables(View(), View().correlations)
    {
      ghost var s := View();
      kept := [];
      for i := 0 to |correlations|
        invariant forall j :: 0 <= j < |kept| ==> Minted(kept[j].choice)
        invariant Links(kept) == Answerables(s, s.correlations[..i])
      {
        var entry := correlations[i];
        var o := entry.choice;
        var turn := (o.source.handle, o.source.turn);
        assert s.correlations[..i + 1][..i] == s.correlations[..i];
        assert turn in current && current[turn] == o <==> IsCurrent(s, turn, o.slot);
        if o.state == Offered && turn in current && current[turn] == o {
          LinkAppend(kept, entry);
          kept := kept + [entry];
        }
      }
      assert s.correlations[..|correlations|] == s.correlations;
    }

    method Prune()
      requires Linked()
      modifies this`correlations
      ensures Linked() && View() == Choices.Prune(old(View()))
    {
      correlations := LiveEntries();
    }

    /** A token in use by an object of the table. */
    method Collision(token: string) returns (r: bool)
      requires Linked()
      ensures r == Collides(View(), token)
    {
      r := exists k :: k in objects && (token == objects[k].publicId || token == objects[k].publicFreshness);
      assert forall k :: k in objects ==> View().arena[View().objects[k]] == objects[k].Value();
    }

    /** A known source revision: the object stands, or ends if it may no longer be answered. */
    method ReuseObject(o: ChoiceObject, p: Prompt, turn: TurnKey, supported: seq<Operation>, now: real)
      returns (r: Option<ChoiceObject>)
      requires Linked() && Minted(o)
      modifies this`current, o`state
      ensures Linked() && (r.Some? ==> r.value == o)
      ensures Located(View(), if r.Some? then Some(o.slot) else None) ==
              Reuse(old(View()), o.slot, p, turn, supported, now)
    {
      if o.options != p.options || o.sourceOperations != p.operations {
        if o.state == Offered {
          SetState(o, Replaced);
        }
        return None;
      }
      if o.state == Offered && o.supported != supported {
        DropChoice(o, turn, Revoked);
      }
      if o.state == Offered && o.expiresAt.Some? && now >= o.expiresAt.value {
        DropChoice(o, turn, Expired);
      }
      return Some(o);
    }

    ghost method AddToArena(o: ChoiceObject)
      requires Linked() && o.slot == |arena|
      modifies this`arena
      ensures Linked() && arena == old(arena) + [o]
      ensures View() == old(View()).(arena := old(View()).arena + [o.Value()])
    {
      arena := arena + [o];
      assert Values(arena) == old(Values(arena)) + [o.Value()];
    }

    /** Add a minted object to the tables. */
    method Enter(key: SourceKey, turn: TurnKey, o: ChoiceObject)
      requires Linked() && o.slot == |arena| && o !in arena
      modifies this
      ensures Linked() && arena == old(arena) + [o] && correlations == old(correlations)
      ensures View() == old(View()).(arena := old(View()).arena + [o.Value()],
                                     objects := old(View()).objects[key := o.slot],
                                     current := old(View()).current[turn := o.slot])
    {
      SlotsAdd(objects, key, o);
      TurnsMove(current, turn, o);
      AddToArena(o);
      objects := objects[key := o];
      current := current[turn := o];
    }

    /** Whether two fresh tokens can name a new object. */
    method Usable(id: Option<string>, freshness: Option<string>) returns (ok: bool)
      requires Linked()
      ensures ok <==> !(id.None? || !ValidId(id.value) || Collides(View(), id.value)
                        || freshness.None? || !ValidId(freshness.value) || Collides(View(), freshness.value)
                            || id == freshness)
    {
      if id.None? || !ValidId(id.value) || freshness.None? || !ValidId(freshness.value) || id == freshness {
        return false;
      }
      var first := Collision(id.value);
      var second := Collision(freshness.value);
      return !first && !second;
    }

    method ReplaceCurrent(turn: TurnKey)
      requires Linked()
      modifies arena
      ensures Linked()
      ensures View() ==
        if turn in old(View()).current && old(View()).arena[old(View()).current[turn]].state == Offered
        then Choices.SetState(old(View()), old(View()).current[turn], Replaced) else old(View())
    {
      if turn in current && current[turn].state == Offered {
        SetState(current[turn], Replaced);
      }
    }

    method Create(key: SourceKey, turn: TurnKey, p: Prompt, supported: seq<Operation>, id: string, freshness: string)
      returns (o: ChoiceObject)
      requires Linked()
      modifies this
      ensures Linked() && fresh(o) && Minted(o) && o.slot == |old(arena)| && arena == old(arena) + [o]
      ensures var ttl := if p.ttl.Some? then p.ttl.value else CHOICE_TTL;
        var c := Choice(key, id, freshness, p.operations, supported, p.options, None, Offered, ttl);
        View() == old(View()).(arena := old(View()).arena + [c], objects := old(View()).objects[key := o.slot],
                               current := old(View()).current[turn := o.slot])
    {
      var ttl := if p.ttl.Some? then p.ttl.value else CHOICE_TTL;
      o := new ChoiceObject(key, id, freshness, p.operations, supported, p.options, ttl, |arena|);
      Enter(key, turn, o);
    }

    /** A new source revision replaces the turn's current choice. */
    method MintObject(key: SourceKey, turn: TurnKey, p: Prompt, supported: seq<Operation>, id: Option<string>,
            freshness: Option<string>)
      returns (r: Option<ChoiceObject>)
      requires Linked()
      modifies this, arena
      ensures Linked() && (r.Some? ==> Minted(r.value))
      ensures forall o :: o in arena ==> o in old(arena) || fresh(o)
      ensures Located(View(), if r.Some? then Some(r.value.slot) else None) ==
              Mint(old(View()), key, turn, p, supported, id, freshness)
    {
      ghost var was := View();
      var known := set k | k in objects && (k.handle, k.turn) == turn;
      assert known == ObjectsOf(was.objects, turn);
      if |known| >= MAX_OBJECTS_PER_TURN {
        return None;
      }
      ReplaceCurrent(turn);
      var ok := Usable(id, freshness);
      if !ok {
        return None;
      }
      var o := Create(key, turn, p, supported, id.value, freshness.value);
      return Some(o);
    }

    method LocateObject(p: Prompt, turn: string, now: real, id: Option<string>, freshness: Option<string>)
      returns (r: Option<ChoiceObject>)
      requires Linked()
      modifies this, arena
      ensures Linked() && (r.Some? ==> Minted(r.value))
      ensures forall o :: o in arena ==> o in old(arena) || fresh(o)
      ensures Located(View(), if r.Some? then Some(r.value.slot) else None) ==
              Locate(old(View()), p, turn, now, id, freshness)
    {
      var key := SourceKey(p.handle, turn, p.session, p.revision, p.objectId, p.freshness);
      var supported := Supported(p.operations, p.capabilities);
      if key in objects {
        r := ReuseObject(objects[key], p, (p.handle, turn), supported, now);
      } else {
        r := MintObject(key, (p.handle, turn), p, supported, id, freshness);
      }
    }

    method Record(key: PromptKey, event: nat, o: ChoiceObject)
      requires Linked() && Minted(o)
      modifies this`correlations, this`issued
      ensures Linked()
      ensures View() == old(View()).(
                correlations := old(View()).correlations + [Correlation(key, event, o.slot, false, old(issued))],
                issued := old(issued) + 1)
    {
      var entry := Entry(key, event, o, false, issued);
      LinkAppend(correlations, entry);
      correlations := correlations + [entry];
      issued := issued + 1;
    }

    /** Record the correlation and give the endpoint its view of the choice. */
    method CorrelateWith(key: PromptKey, event: nat, o: ChoiceObject, now: real) returns (r: Option<Choices.View>)
      requires Linked() && Minted(o)
      modifies this`correlations, this`issued
      ensures Linked() && (View(), r) == Correlate(old(View()), key, event, o.slot, now)
    {
      ghost var was := View();
      if |correlations| >= MAX_CORRELATIONS {
        Prune();
      }
      if |correlations| >= MAX_CORRELATIONS {
        return None;
      }
      Record(key, event, o);
      var turn := (key.handle, key.turn);
      assert turn in current && current[turn] == o <==> IsCurrent(was, turn, o.slot);
      var operations := if turn in current && current[turn] == o && o.state == Offered then o.supported else [];
      var left := Seconds(o, now);
      return Some(Choices.View(key.correlation, left, o.publicId, o.publicFreshness, operations));
    }

    /** Find or make the prompt's object, tie it to its key and give the view of it. */
    method Show(p: Prompt, handle: string, now: real, id: Option<string>, freshness: Option<string>)
      returns (r: Option<Choices.View>)
      requires Linked()
      modifies this, arena
      ensures Linked() && (forall o :: o in arena ==> o in old(arena) || fresh(o))
      ensures (View(), r) == Choices.Project(old(View()), p, handle, now, id, freshness)
    {
      if !ValidPrompt(p, handle) {
        return None;
      }
      var key := PromptKey(handle, p.turn.value, p.correlation.value);
      var found := Lookup(key);
      if found.Some? {
        return None;
      }
      var o := LocateObject(p, p.turn.value, now, id, freshness);
      if o.None? {
        return None;
      }
      r := CorrelateWith(key, p.identity, o.value, now);
    }

    method Project(p: Prompt, handle: string, now: real, id: Option<string>, freshness: Option<string>)
      returns (r: Option<Choices.View>)
      requires Valid()
      modifies this, arena
      ensures Valid() && (forall o :: o in arena ==> o in old(arena) || fresh(o))
      ensures r.Some? ==> exists c :: Answers.Displays(View(), c, p, now, r.value)
      ensures (View(), r) == Choices.Project(old(View()), p, handle, now, id, freshness)
    {
      hide Invariants.Inv, Answers.Displays;
      r := Show(p, handle, now, id, freshness);
      Invariants.StepKeeps(old(View()), OpProject(p, handle, now, id, freshness));
      if r.Some? {
        var _ := Answers.ProjectionDisplays(old(View()), p, handle, now, id, freshness);
      }
    }
  }

  // --------------------------------------------------- revoking by reference

  ghost function SlotsOf(s: State, keys: set<SourceKey>): set<nat>
    requires keys <= s.objects.Keys
  {
    set k | k in keys :: s.objects[k]
  }

  lemma SlotsMore(s: State, keys: set<SourceKey>, k: SourceKey)
    requires keys <= s.objects.Keys && k in s.objects
    ensures SlotsOf(s, keys + {k}) == SlotsOf(s, keys) + {s.objects[k]}
  {
  }

  ghost function CurrentSlot(s: State, turn: TurnKey): set<nat> {
    if turn in s.current then {s.current[turn]} else {}
  }

  ghost function RevokedAt(values: seq<Choice>, hit: set<nat>): seq<Choice> {
    seq(|values|, i requires 0 <= i < |values| => RevokedIf(values[i], i in hit))
  }

  lemma RevokedNone(values: seq<Choice>)
    ensures RevokedAt(values, {}) == values
  {
  }

  lemma RevokedMore(values: seq<Choice>, hit: set<nat>, j: nat)
    requires j < |values|
    ensures RevokedAt(values, hit)[j := RevokedIf(RevokedAt(values, hit)[j], true)] == RevokedAt(values, hit + {j})
  {
  }

  lemma TurnRevoked(s: State, turn: TurnKey, values: seq<Choice>)
    requires values == RevokedAt(RevokedAt(s.arena, CurrentSlot(s, turn)), SlotsOf(s, ObjectsOf(s.objects, turn)))
    ensures s.(arena := values, objects := s.objects - ObjectsOf(s.objects, turn), current := s.current - {turn}) ==
            Choices.RevokeTurn(s, turn)
  {
    forall i | 0 <= i < |s.arena|
      ensures i in CurrentSlot(s, turn) || i in SlotsOf(s, ObjectsOf(s.objects, turn)) <==> Named(s, i, turn)
    {
    }
  }

  lemma AllRevoked(s: State, values: seq<Choice>)
    requires values == RevokedAt(s.arena, SlotsOf(s, s.objects.Keys))
    ensures s.(arena := values, objects := map[], current := map[]) == Choices.RevokeAll(s)
  {
    forall i | 0 <= i < |s.arena|
      ensures i in SlotsOf(s, s.objects.Keys) <==> InTable(s, i)
    {
    }
  }

  lemma LinkAppend(es: seq<Entry>, e: Entry)
    ensures Links(es + [e]) == Links(es) + [Correlation(e.key, e.event, e.choice.slot, e.consumed, e.record)]
  {
  }

  lemma LinkConsumed(es: seq<Entry>, k: nat)
    requires k < |es|
    ensures Links(es[k := es[k].(consumed := true)]) == Links(es)[k := Links(es)[k].(consumed := true)]
  {
  }
}
