/**
  The arbitration engine as it runs: pending rounds in the order they were
  opened, resolved decisions, and the IDs ever accepted, all updated in place.
  Each method is proved to do what its function in `Arbitration` says.
 */
module ArbitrationEngine {
  import opened Wrappers
  import opened Arbitration
  import Laws = ArbitrationLaws

  /** The claim with the greatest score, then the least priority, then the earliest. */
  method SelectWinner(claims: seq<Eligible>) returns (w: nat)
    requires claims != []
    ensures w == Best(claims)
    ensures forall k :: 0 <= k < |claims| ==>
              && claims[k].score <= claims[w].score
              && (claims[k].score == claims[w].score ==> claims[w].priority <= claims[k].priority)
              && (claims[k].score == claims[w].score && claims[k].priority == claims[w].priority ==>
                    claims[w].sequence <= claims[k].sequence)
  {
    w := 0;
    for i := 1 to |claims|
      invariant w < i && w == Best(claims[..i])
    {
      assert claims[..i + 1][..i] == claims[..i];
      if Better(claims[i], claims[w]) {
        w := i;
      }
    }
    assert claims[..|claims|] == claims;
  }

  /** One decision per claim of a round; only the winner's ID is granted. */
  method Decide(r: Round, id: string) returns (decisions: map<string, Decision>)
    ensures decisions == Outcome(r, id)
  {
    decisions := map[];
    if r.claims != [] {
      var w := SelectWinner(r.claims);
      for i := 0 to |r.claims|
        invariant decisions == Decisions(r, r.claims[..i], id)
      {
        var c := r.claims[i];
        assert r.claims[..i + 1][..i] == r.claims[..i];
        decisions := decisions[c.id := Decision(c.id, c.id == r.claims[w].id, id, r.snapshot.revision,
                                                c.device, c.room, c.mapping, c.profile)];
      }
      assert r.claims[..|r.claims|] == r.claims;
    }
  }

  /** Visit the pending rounds in order: decide those that are due, keep the others. */
  method SettleDue(rounds: seq<Round>, before: map<string, Decision>, now: real, ids: string -> string)
    returns (kept: seq<Round>, resolved: map<string, Decision>, expired: set<string>)
    ensures kept == Kept(rounds, now) && resolved == Settled(before, rounds, now, ids)
    ensures expired == DueRooms(rounds, now)
  {
    kept, resolved, expired := [], before, {};
    for i := 0 to |rounds|
      invariant kept == Kept(rounds[..i], now) && expired == DueRooms(rounds[..i], now)
      invariant resolved == Settled(before, rounds[..i], now, ids)
    {
      SettleNext(before, rounds, i, now, ids);
      if now >= Deadline(rounds[i]) {
        var decisions := Decide(rounds[i], ids(rounds[i].room));
        resolved := resolved + decisions;
        expired := expired + {rounds[i].room};
      } else {
        kept := kept + [rounds[i]];
      }
    }
    assert rounds[..|rounds|] == rounds;
  }

  class Engine {
    var pending: seq<Round>
    var resolved: map<string, Decision>
    var accepted: set<string>
    var sequence: nat
    ghost var reserved: set<string>
    ghost var collected: set<string>

    ghost function View(): State
      reads this
    {
      State(pending, resolved, accepted, sequence, reserved, collected)
    }

    /** Pending rounds are keyed by their Room, and no accepted ID is lost or held twice. */
    ghost predicate Valid()
      reads this
    {
      Laws.OnePerRoom(pending) && Laws.Conserved(View())
    }

    constructor ()
      ensures Valid() && View() == EMPTY
    {
      pending, resolved, accepted, sequence := [], map[], {}, 0;
      reserved, collected := {}, {};
      new;
      assert View() == EMPTY;
    }

    method ReserveClaimId(id: string) returns (ok: bool)
      requires Valid()
      modifies this
      ensures Valid() && (View(), ok) == Reserve(old(View()), id)
      ensures ok ==> id in accepted && !Laws.PendingId(pending, id) && id !in resolved && id !in collected
      ensures !Reserve(View(), id).1
    {
      Laws.ReserveConserves(View(), id);
      Laws.ConservedIsOnePlace(View(), id);
      if id in accepted {
        return false;
      }
      accepted := accepted + {id};
      reserved := reserved + {id};
      return true;
    }

    /** `_finalize_room` for the round at position k. */
    method FinalizeRoom(k: nat, ids: string -> string)
      requires k < |pending|
      modifies `pending, `resolved
      ensures View() == FinalizeAt(old(View()), k, ids)
    {
      var r := pending[k];
      pending := pending[..k] + pending[k + 1..];
      var decisions := Decide(r, ids(r.room));
      resolved := resolved + decisions;
    }

    /** Finalize every round whose window has closed; the Rooms they belonged to. */
    method FinalizeExpired(now: real, ids: string -> string) returns (expired: set<string>)
      requires Valid()
      modifies `pending, `resolved
      ensures Valid() && View() == FinalizeDue(old(View()), now, ids)
      ensures expired == DueRooms(old(pending), now)
    {
      Laws.KeptIsSublist(pending, now);
      Laws.FinalizeConserves(View(), now, ids);
      pending, resolved, expired := SettleDue(pending, resolved, now, ids);
    }

    method AdmitClaim(room: string, snapshot: Snapshot, claim: Eligible, now: real)
      requires Valid() && claim.id !in accepted
      modifies this
      ensures Valid() && View() == Admit(old(View()), room, snapshot, claim, now)
    {
      Laws.AdmitConserves(View(), room, snapshot, claim, now);
      Laws.AdmitOnePerRoom(View(), room, snapshot, claim, now);
      EnterRound(room, snapshot, claim, now);
    }

    /** Open a round for the Room, or join the one that is pending. */
    method EnterRound(room: string, snapshot: Snapshot, claim: Eligible, now: real)
      modifies this
      ensures View() == Admit(old(View()), room, snapshot, claim, now)
    {
      var found := FindRound(pending, room);
      if found.Some? {
        var r := pending[found.value];
        pending := pending[found.value := r.(claims := r.claims + [claim])];
      } else {
        pending := pending + [Round(room, snapshot, now, [claim])];
      }
      sequence := sequence + 1;
      accepted := accepted + {claim.id};
    }

    method Submit(reading: Reading, c: Claim, a: Authority, now: real, ids: string -> string) returns (r: Submission)
      requires Valid()
      modifies this
      ensures Valid() && (View(), r) == Arbitration.Submit(old(View()), reading, c, a, now, ids)
    {
      match reading
      case Migrating(revision) => return Denied(MigrationRequired(revision));
      case Missing => return Denied(Unavailable);
      case Valid(snapshot) =>
        var device := FindDevice(snapshot.candidate.devices, c.device);
        if device.None? {
          return Denied(NotFound);
        }
        var room := device.value.room;
        LateIsDue(pending, room, now);
        var expired := FinalizeExpired(now, ids);
        if room in expired {
          return Denied(Late);
        }
        r := Join(snapshot, room, c, a, now, ids);
    }

    /** The part of `_submit` after the expired rounds are gone. */
    method Join(snapshot: Snapshot, room: string, c: Claim, a: Authority, now: real, ids: string -> string)
      returns (r: Submission)
      requires Valid()
      modifies this
      ensures Valid() && (View(), r) == Arbitration.Join(old(View()), snapshot, room, c, a, now, ids)
    {
      var found := FindRound(pending, room);
      var view, deadline := snapshot, now + WINDOW;
      if found.Some? {
        var round := pending[found.value];
        if round.snapshot.revision != snapshot.revision {
          Laws.RestOnePerRoom(pending, found.value);
          Laws.FinalizeAtConserves(View(), found.value, ids);
          FinalizeRoom(found.value, ids);
        } else {
          view, deadline := round.snapshot, Deadline(round);
        }
      }
      var checked := ValidateClaim(c, a, view, accepted, sequence, now);
      if checked.Err? {
        return Denied(checked.error);
      }
      AdmitClaim(room, view, checked.value, now);
      return Admitted(deadline);
    }

    method Finalize(now: real, ids: string -> string)
      requires Valid()
      modifies this
      ensures Valid() && View() == FinalizeDue(old(View()), now, ids)
    {
      var _ := FinalizeExpired(now, ids);
    }

    method DecisionFor(id: string) returns (r: Option<Decision>)
      requires Valid()
      modifies this
      ensures Valid() && (View(), r) == Collect(old(View()), id)
      ensures r.Some? ==> id in accepted && id !in resolved && !Laws.PendingId(pending, id) && id !in reserved
      ensures r.None? ==> View() == old(View())
    {
      Laws.CollectConserves(View(), id);
      Laws.ConservedIsOnePlace(View(), id);
      if id !in resolved {
        return None;
      }
      r := Some(resolved[id]);
      resolved := resolved - {id};
      collected := collected + {id};
    }
  }

  lemma SettleNext(resolved: map<string, Decision>, rounds: seq<Round>, i: nat, now: real, ids: string -> string)
    requires i < |rounds|
    ensures var due := now >= Deadline(rounds[i]);
      && Kept(rounds[..i + 1], now) == (if due then Kept(rounds[..i], now) else Kept(rounds[..i], now) + [rounds[i]])
      && Settled(resolved, rounds[..i + 1], now, ids) ==
         (var before := Settled(resolved, rounds[..i], now, ids);
          if due then before + Outcome(rounds[i], ids(rounds[i].room)) else before)
      && DueRooms(rounds[..i + 1], now) == DueRooms(rounds[..i], now) + (if due then {rounds[i].room} else {})
  {
    assert rounds[..i + 1][..i] == rounds[..i];
  }

  function DueRooms(rounds: seq<Round>, now: real): set<string> {
    if rounds == [] then {}
    else
      var last := rounds[|rounds| - 1];
      DueRooms(rounds[..|rounds| - 1], now) + if now >= Deadline(last) then {last.room} else {}
  }

  lemma {:induction false} DueRoomsMembers(rounds: seq<Round>, now: real, room: string)
    ensures room in DueRooms(rounds, now) <==>
            exists k :: 0 <= k < |rounds| && now >= Deadline(rounds[k]) && rounds[k].room == room
  {
    if rounds != [] {
      var n := |rounds| - 1;
      DueRoomsMembers(rounds[..n], now, room);
      if k :| 0 <= k < |rounds| && now >= Deadline(rounds[k]) && rounds[k].room == room && k < n {
        assert rounds[..n][k] == rounds[k];
      }
    }
  }

  /** A Room is among the expired ones exactly when its own pending round is due. */
  lemma LateIsDue(rounds: seq<Round>, room: string, now: real)
    requires Laws.OnePerRoom(rounds)
    ensures room in DueRooms(rounds, now) <==>
            FindRound(rounds, room).Some? && now >= Deadline(rounds[FindRound(rounds, room).value])
  {
    DueRoomsMembers(rounds, now, room);
    if k :| 0 <= k < |rounds| && now >= Deadline(rounds[k]) && rounds[k].room == room {
      assert FindRound(rounds, room) == Some(k);
    }
  }
}
