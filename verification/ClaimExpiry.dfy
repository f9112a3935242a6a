/**
  Claims run out by timer, by sweep and lazily inside other calls. The three
  paths leave the same row, and readers cannot tell whether the sweep has run.
 */
module ClaimExpiry {
  import opened Wrappers
  import opened Claims
  import opened ClaimInvariants

  const WORKING := Access(false, false)

  /** The row an overdue claim is left with, whichever path gets to it first.
      Resolution looks at its own markers before it looks at the deadline. */
  lemma ExpiryPathsAgree(cfg: Settings, s: Store, handle: string, now: real, a: Authority, report: Report)
    requires handle in s.rows && Due(s.rows[handle], now)
    ensures var row := s.rows[handle];
      var expired := Ending(row, ExpiryReason(row.activity));
      && Sweep(s, now).rows[handle] == expired
      && TimerFires(s, handle, row.deadline.value, now).rows[handle] == expired
      && (handle !in s.denied && (handle, Some(row.device)) !in s.failed && (handle, None) !in s.failed ==>
            Resolve(s, handle, row.device, now, a, WORKING, WORKING).0.rows[handle] == expired)
      && MarkOpen(s, handle, row.device, now, false).0.rows[handle] == expired
      && RecordActivity(cfg, s, handle, row.device, report, now, false).0.rows[handle] == expired
  {
  }

  /** A timer armed for a deadline that has since moved, or that is not yet due, changes no row. */
  lemma StaleTimerClosesNothing(s: Store, handle: string, deadline: real, now: real)
    requires handle in s.rows && (s.rows[handle].deadline != Some(deadline) || now < deadline)
    ensures TimerFires(s, handle, deadline, now).rows == s.rows
  {
  }

  /** The claim is the one the Watch shows for its device. */
  predicate OnShow(s: Store, handle: string, device: string, revision: int, now: real) {
    && LiveOn(s, device, now) == {handle} && handle in s.rows && s.rows[handle].revision == revision
    && handle in s.connected && Watchable(s.rows[handle].activity)
  }

  /** It does forget the connected marker, so it changes what the Watch shows
      exactly when the claim it was armed for is the one on show. */
  lemma StaleTimerAndWatch(s: Store, handle: string, deadline: real, device: string, revision: int, now: real)
    requires handle in s.rows && (s.rows[handle].deadline != Some(deadline) || now < deadline)
    ensures var before, after := WatchSnapshot(s, device, revision, now),
        WatchSnapshot(TimerFires(s, handle, deadline, now), device, revision, now);
      after == before <==> !OnShow(s, handle, device, revision, now)
  {
    var s' := TimerFires(s, handle, deadline, now);
    assert s'.rows == s.rows;
    assert LiveOn(s', device, now) == LiveOn(s, device, now);
    if |LiveOn(s, device, now)| == 1 {
      var h := TheOne(LiveOn(s, device, now));
      assert h == handle <==> LiveOn(s, device, now) == {handle};
    }
  }

  // ------------------------------------------------------- runs that show it

  const LIMITS := Settings(60.0, 120.0, 30.0, 4)
  const TOUCHED := Decision("claim", "panel", "kitchen", "", "chef", 7, Touch)
  const PHONED := ClientRequest("claim", "phone", "grant", "chef", 7, None)

  /** A touch claim made at 0, with its first-open timer armed for 60, and opened just before that. */
  const OPENED: seq<Op> := [OpCreateRoom(0.0, TOUCHED, Some(1), "h", NoFault), OpOpen("h", "panel", 59.5, false)]

  lemma OpenedRoom()
    ensures var s := Final(LIMITS, EMPTY, OPENED);
      && s.rows == map["h" := RoomRow(TOUCHED, Some(1), 60.0).(activity := Open, deadline := None)]
      && s.connected == {"h"}
  {
    var s0 := Sweep(EMPTY, 0.0);
    assert s0 == EMPTY;
    assert RoomHolder(EMPTY.rows, "kitchen").None?;
    var s1 := Next(LIMITS, EMPTY, OPENED[0]);
    assert s1.rows == map["h" := RoomRow(TOUCHED, Some(1), 60.0)];
    var s2 := Next(LIMITS, s1, OPENED[1]);
    assert OPENED[1..] == [OPENED[1]] && OPENED[1..][1..] == [];
    assert Final(LIMITS, EMPTY, OPENED) == Final(LIMITS, s1, [OPENED[1]]) == s2;
  }

  /** The open read its clock before 60 and held the lock past it: the timer's
      callback had already started when the open cancelled the timer, and waits
      for that lock. When it gets it, the conversation that is on show
      disappears from the Watch. */
  lemma StaleTimerHidesFromWatch()
    ensures var s := Final(LIMITS, EMPTY, OPENED);
      && "h" in s.rows && Live(s.rows["h"], 60.0)
      && WatchSnapshot(s, "panel", 7, 60.0).Some?
      && WatchSnapshot(TimerFires(s, "h", 60.0, 60.0), "panel", 7, 60.0).None?
  {
    OpenedRoom();
    var s := Final(LIMITS, EMPTY, OPENED);
    OnlyOne(s, "panel", 60.0, "h");
    OnlyOne(TimerFires(s, "h", 60.0, 60.0), "panel", 60.0, "h");
  }

  lemma OnlyOne(s: Store, device: string, now: real, handle: string)
    requires s.rows.Keys == {handle} && s.rows[handle].device == device && Live(s.rows[handle], now)
    ensures LiveOn(s, device, now) == {handle}
  {
  }

  // ------------------------------------------------------------------- reads

  lemma SweptLives(s: Store, now: real, handle: string)
    requires handle in s.rows
    ensures var swept := Sweep(s, now);
      && handle in swept.rows
      && (Live(s.rows[handle], now) <==> Live(swept.rows[handle], now))
      && (Live(s.rows[handle], now) ==>
            swept.rows[handle] == s.rows[handle] && (handle in swept.connected <==> handle in s.connected))
      && swept.rows[handle].device == s.rows[handle].device
  {
  }

  lemma SweptLiveOn(s: Store, device: string, now: real)
    ensures LiveOn(Sweep(s, now), device, now) == LiveOn(s, device, now)
  {
    forall h | h in s.rows
      ensures h in LiveOn(Sweep(s, now), device, now) <==> h in LiveOn(s, device, now)
    {
      SweptLives(s, now, h);
    }
  }

  lemma TheOne(live: set<string>) returns (h: string)
    requires |live| == 1
    ensures live == {h}
  {
    h :| h in live;
    assert |live - {h}| == 0;
  }

  /** Active sessions, Watch and delivery answer the same before and after the sweep. */
  lemma ReadsIgnoreTheSweep(s: Store, device: string, revision: int, now: real)
    ensures ActiveSessions(Sweep(s, now), now) == ActiveSessions(s, now)
    ensures WatchSnapshot(Sweep(s, now), device, revision, now) == WatchSnapshot(s, device, revision, now)
    ensures DeliveryState(Sweep(s, now), device, now) == DeliveryState(s, device, now)
  {
    var swept := Sweep(s, now);
    forall x
      ensures x in ActiveSessions(swept, now) <==> x in ActiveSessions(s, now)
    {
      if x in ActiveSessions(s, now) {
        var h :| h in s.rows && Live(s.rows[h], now) && s.rows[h].session.Some? && s.rows[h].session.value == x;
        SweptLives(s, now, h);
        assert swept.rows[h].session.value == x;
      }
      if x in ActiveSessions(swept, now) {
        var h :| h in swept.rows && Live(swept.rows[h], now) && swept.rows[h].session.Some?
            && swept.rows[h].session.value == x;
        SweptLives(s, now, h);
        assert s.rows[h].session.value == x;
      }
    }
    SweptLiveOn(s, device, now);
    var live := LiveOn(s, device, now);
    if |live| == 1 {
      var h := TheOne(live);
      SweptLives(s, now, h);
    }
  }

  /** Resolution answers the same whether or not the sweep has run, and whether
      or not its own read fails; only its write must not. */
  lemma ResolveIgnoresTheSweep(s: Store, handle: string, device: string, now: real, a: Authority, readFails: bool,
          nested: Access)
    ensures var io := Access(readFails, false);
      Resolve(Sweep(s, now), handle, device, now, a, io, nested).1 ==
      Resolve(s, handle, device, now, a, io, nested).1
  {
    var swept := Sweep(s, now);
    assert swept.denied == s.denied && swept.failed == s.failed && (handle in swept.rows <==> handle in s.rows);
    if handle in s.rows {
      SweptLives(s, now, handle);
    }
    hide Sweep;
    SameAnswers(s, swept, handle, device, now, a, Access(readFails, false), nested);
  }

  /** The answer depends on the markers that bar a claim and, while it is live, on its row. */
  lemma SameAnswers(s: Store, s': Store, handle: string, device: string, now: real, a: Authority, io: Access,
          nested: Access)
    requires s'.denied == s.denied && s'.failed == s.failed && !io.writeFails
    requires (handle in s'.rows <==> handle in s.rows)
    requires handle in s.rows ==>
               && s'.rows[handle].device == s.rows[handle].device
               && (Live(s.rows[handle], now) <==> Live(s'.rows[handle], now))
               && (Live(s.rows[handle], now) ==> s'.rows[handle] == s.rows[handle])
    ensures Resolve(s', handle, device, now, a, io, nested).1 == Resolve(s, handle, device, now, a, io, nested).1
  {
    hide CloseMatching;
    if handle in s.rows && !Live(s.rows[handle], now) {
      assert s.rows[handle].status != Active || Due(s.rows[handle], now);
      assert s'.rows[handle].status != Active || Due(s'.rows[handle], now);
    }
  }

  /** The lookup of a client's own claim does look at the sweep: it keeps
      answering for a claim that has run out until something closes it. */
  predicate BindingAnswers(s: Store, handle: string, device: string) {
    handle in s.rows && ActiveClient(s.rows[handle], device) && s.rows[handle].grant.Some?
  }

  lemma BindingNeedsTheSweep(s: Store, handle: string, device: string, now: real)
    ensures BindingAnswers(Sweep(s, now), handle, device) == BindingAnswers(s, handle, device) <==>
            !(handle in s.rows && ActiveClient(s.rows[handle], device) && s.rows[handle].grant.Some?
                && Due(s.rows[handle], now))
  {
  }

  /** A client claim made at 0. */
  const CLAIMED: seq<Op> := [OpCreateClient(0.0, PHONED, Some(1), "h", "ref", NoFault)]

  lemma ClaimedClient()
    ensures Final(LIMITS, EMPTY, CLAIMED).rows == map["h" := ClientRow(PHONED, Some(1), 60.0, "ref")]
  {
    assert Sweep(EMPTY, 0.0) == EMPTY;
    assert ActiveClients(EMPTY.rows, "phone") == {};
    assert CLAIMED[1..] == [];
    assert Final(LIMITS, EMPTY, CLAIMED) == Next(LIMITS, EMPTY, CLAIMED[0]);
  }

  /** Never opened, it is out of time at 60, and the lookup still answers for it. */
  lemma OverdueBindingAnswers()
    ensures var s := Final(LIMITS, EMPTY, CLAIMED);
      && "h" in s.rows && !Live(s.rows["h"], 60.0)
      && BindingAnswers(s, "h", "phone") && !BindingAnswers(Sweep(s, 60.0), "h", "phone")
  {
    ClaimedClient();
  }

  /** A disconnect reported late revives a client claim whose reconnect grace
      has already run out, exactly when the sweep has not reached it yet. */
  lemma LateDisconnectRevives(cfg: Settings, s: Store, handle: string, device: string, now: real)
    requires TableInv(cfg, s.rows) && cfg.grace > 0.0
    requires OwnedActive(s, handle, device) && s.rows[handle].kind == ClientClaim
    ensures (Live(MarkDisconnected(cfg, s, handle, device, now, WORKING).0.rows[handle], now) &&
             !Live(MarkDisconnected(cfg, Sweep(s, now), handle, device, now, WORKING).0.rows[handle], now))
            <==> s.rows[handle].activity == Disconnected && Due(s.rows[handle], now)
  {
    assert Timed(s.rows[handle]);
    SweptLives(s, now, handle);
  }

  /** Opened at 1 and dropped at 2: the reconnect grace ends at 32, with a timer
      armed for then. The timer is late, or its write fails, which `_expire`
      swallows: either way the row still stands after 32. */
  const DROPPED: seq<Op> := CLAIMED + [OpOpen("h", "phone", 1.0, false), OpDisconnect("h", "phone", 2.0, WORKING)]

  lemma DroppedClient()
    ensures Final(LIMITS, EMPTY, DROPPED).rows ==
            map["h" := ClientRow(PHONED, Some(1), 60.0, "ref").(activity := Disconnected, deadline := Some(32.0))]
  {
    ClaimedClient();
    var s1 := Final(LIMITS, EMPTY, CLAIMED);
    assert CLAIMED[1..] == [];
    assert s1 == Next(LIMITS, EMPTY, DROPPED[0]);
    var s2 := Next(LIMITS, s1, DROPPED[1]);
    assert s2.rows == map["h" := ClientRow(PHONED, Some(1), 60.0, "ref").(activity := Open, deadline := None)];
    var s3 := Next(LIMITS, s2, DROPPED[2]);
    assert DROPPED[1..][0] == DROPPED[1] && DROPPED[1..][1..] == [DROPPED[2]] && DROPPED[1..][1..][1..] == [];
    assert Final(LIMITS, EMPTY, DROPPED) == Final(LIMITS, s1, DROPPED[1..]) == Final(LIMITS, s2, [DROPPED[2]]) == s3;
  }

  /** A second disconnect at 40 brings the claim back to life; after a sweep it would not. */
  lemma LateDisconnectExample()
    ensures var s := Final(LIMITS, EMPTY, DROPPED);
      && "h" in s.rows && !Live(s.rows["h"], 40.0)
      && Live(MarkDisconnected(LIMITS, s, "h", "phone", 40.0, WORKING).0.rows["h"], 40.0)
      && !Live(MarkDisconnected(LIMITS, Sweep(s, 40.0), "h", "phone", 40.0, WORKING).0.rows["h"], 40.0)
  {
    DroppedClient();
  }
}
