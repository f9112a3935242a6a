/**
  The conversation claim store as it runs: a table of rows and the in-memory
  markers beside it, changed in place. Each method is proved to do what its
  function in `Claims` says, so every run of the store is a run of that model.
 */
module ConversationStore {
  import opened Wrappers
  import opened Claims
  import Invariants = ClaimInvariants
  import Retirement = ClaimRetirement
  import Answers = ClaimAnswers

  class ConversationGrantStore {
    const settings: Settings
    var rows: map<string, Row>
    var timers: map<string, real>
    var detached: set<string>
    var connected: set<string>
    var denied: set<string>
    var failed: set<(string, Option<string>)>

    ghost function View(): Store
      reads this
    {
      Store(rows, timers, detached, connected, denied, failed)
    }

    ghost predicate Valid()
      reads this
    {
      Invariants.Inv(settings, View())
    }

    /** A new process closes what the last one left active and starts without markers. */
    constructor (settings: Settings, stored: map<string, Row>)
      requires Invariants.TableInv(settings, stored)
      ensures Valid() && this.settings == settings
      ensures View() == Restart(Store(stored, map[], {}, {}, {}, {}))
    {
      this.settings := settings;
      rows := map h | h in stored :: Ending(stored[h], ServiceRestart);
      timers, detached, connected, denied, failed := map[], {}, {}, {}, {};
      new;
      hide Invariants.Inv;
      Invariants.StepKeeps(settings, Store(stored, map[], {}, {}, {}, {}), OpRestart);
    }

    // --------------------------------------------------------------- closing

    /** Drop every marker of the given handles, one handle at a time. */
    method ForgetAll(handles: set<string>)
      modifies this
      ensures View() == Forget(old(View()), handles)
    {
      var left := handles;
      while left != {}
        invariant left <= handles
        invariant View() == Forget(old(View()), handles - left)
        decreases left
      {
        var h :| h in left;
        timers := timers - {h};
        connected := connected - {h};
        detached := detached - {h};
        ForgetMore(old(View()), handles - left, h);
        left := left - {h};
        assert handles - left == handles - (left + {h}) + {h};
      }
      assert handles - left == handles;
    }

    method ExpireDue(now: real)
      requires Valid()
      modifies this
      ensures View() == Sweep(old(View()), now)
      ensures Valid()
      ensures forall h :: h in rows ==> !Due(rows[h], now)
    {
      hide Invariants.Inv;
      Invariants.StepKeeps(settings, View(), OpSweep(now));
      var due := DueHandles(rows, now);
      rows := ExpiredRows(rows, now);
      ForgetAll(due);
    }

    /** The timer callback `_expire`. */
    method Expire(handle: string, deadline: real, now: real)
      requires Valid()
      modifies this
      ensures View() == TimerFires(old(View()), handle, deadline, now)
      ensures Valid()
      ensures forall h :: h in old(rows) && rows[h] != old(rows)[h] ==>
        && h == handle && Due(old(rows)[h], now) && old(rows)[h].deadline == Some(deadline)
        && rows[h] == Ending(old(rows)[h], ExpiryReason(old(rows)[h].activity))
    {
      hide Invariants.Inv;
      Invariants.StepKeeps(settings, View(), OpTimer(handle, deadline, now));
      if handle in rows && rows[handle].status == Active && rows[handle].deadline == Some(deadline) && deadline <= now {
        rows := rows[handle := Ending(rows[handle], ExpiryReason(rows[handle].activity))];
      }
      assert rows == TimerFires(old(View()), handle, deadline, now).rows;
      timers := timers - {handle};
      connected := connected - {handle};
      detached := detached - {handle};
    }

    method CloseLocked(handle: string, reason: Reason)
      modifies this
      ensures View() == CloseOne(old(View()), handle, reason)
    {
      if handle in rows {
        rows := rows[handle := Ending(rows[handle], reason)];
      }
      timers := timers - {handle};
      connected := connected - {handle};
      detached := detached - {handle};
    }

    method CloseSelected(sel: Selector, reason: Reason) returns (closed: set<string>)
      modifies this
      ensures View() == CloseMatching(old(View()), sel, reason) && closed == MatchingHandles(old(rows), sel)
    {
      closed := MatchingHandles(rows, sel);
      rows := MatchingClosed(rows, sel, reason);
      ForgetAll(closed);
    }

    /** Exactly the matching active rows are closed, for this reason. */
    method CloseMatchingRows(sel: Selector, reason: Reason) returns (closed: set<string>)
      requires Valid()
      modifies this
      ensures View() == CloseMatching(old(View()), sel, reason)
      ensures closed == MatchingHandles(old(rows), sel) && (reason != IdleExpired ==> Valid())
      ensures forall h :: h in closed ==> h in rows && rows[h].status == Closed && rows[h].reason == Some(reason)
      ensures forall h :: h in rows && h !in closed ==> h in old(rows) && rows[h] == old(rows)[h]
    {
      if reason != IdleExpired {
        hide Invariants.Inv;
        Invariants.StepKeeps(settings, View(), OpCloseMatching(sel, reason));
      }
      closed := CloseSelected(sel, reason);
    }

    /** The body of `close_claim`, also used while a lost upstream is retired. */
    method CloseOwned(handle: string, device: Option<string>, reason: Reason, io: Access) returns (r: Answer)
      modifies this
      ensures (View(), r) == Claims.CloseClaim(old(View()), handle, device, reason, io)
    {
      if reason == UpstreamLost {
        failed := failed + {(handle, device)};
      }
      if io.readFails {
        return Failure;
      }
      if handle !in rows || (device.Some? && rows[handle].device != device.value) {
        failed := failed - {(handle, device)};
        return No;
      }
      if io.writeFails {
        return Failure;
      }
      CloseLocked(handle, reason);
      failed := failed - {(handle, device), (handle, None)};
      return Yes;
    }

    /** An answer of Yes leaves the row closed with its first reason; any other
        leaves every row alone; and a lost upstream bars the handle either way. */
    method CloseClaim(handle: string, device: Option<string>, reason: Reason, io: Access) returns (r: Answer)
      requires Valid()
      modifies this
      ensures (View(), r) == Claims.CloseClaim(old(View()), handle, device, reason, io)
      ensures reason != IdleExpired ==> Valid()
      ensures r != Yes ==> rows == old(rows)
      ensures r == Yes ==>
        && handle in old(rows) && handle in rows && rows[handle].status == Closed
        && rows[handle].reason == if old(rows)[handle].status == Active then Some(reason) else old(rows)[handle].reason
      ensures reason == UpstreamLost && handle in rows && (device.Some? ==> rows[handle].device == device.value) ==>
        Retirement.Barred(View(), handle)
    {
      if reason != IdleExpired {
        hide Invariants.Inv;
        Invariants.StepKeeps(settings, View(), OpClose(handle, device, reason, io));
      }
      CloseMeans(settings, View(), handle, device, reason, io);
      r := CloseOwned(handle, device, reason, io);
    }

    // -------------------------------------------------------------- creation

    /** The active claim of a Room, if there is one. */
    method FindHolder(room: string) returns (holder: Option<string>)
      requires Invariants.OnePerRoom(rows)
      ensures holder == RoomHolder(rows, room)
    {
      var left := rows.Keys;
      while left != {}
        invariant left <= rows.Keys
        invariant forall h :: h in rows.Keys - left ==> !Claims.Holds(rows, h, room)
        decreases left
      {
        var h :| h in left;
        if rows[h].status == Active && rows[h].room == Some(room) {
          OnlyHolder(rows, room, h);
          return Some(h);
        }
        left := left - {h};
      }
      return None;
    }

    /** The creating transaction of `create_from_decision`. */
    method InsertRoomClaim(now: real, d: Decision, generation: Option<nat>, handle: string) returns (r: Created)
      requires Invariants.OnePerRoom(rows)
      modifies this
      ensures (View(), r) == AdmitRoom(settings, old(View()), now, d, generation, handle)
    {
      var holder := FindHolder(d.room);
      if holder.Some? && !IdleTail(rows[holder.value], d.origin, now) {
        var reason := if d.origin != Touch || rows[holder.value].device == d.device then ConversationActive
                      else RoomBusy;
        return Refused(reason);
      }
      if handle in rows || (exists h :: h in rows && rows[h].claimId == d.claimId) {
        return Refused(DuplicateClaim);
      }
      if holder.Some? {
        CloseLocked(holder.value, SupersededByTouch);
      }
      var deadline := now + settings.firstOpen;
      rows := rows[handle := RoomRow(d, generation, deadline)];
      timers := timers[handle := deadline];
      return Made(handle);
    }

    method CreateFromDecision(now: real, d: Decision, generation: Option<nat>, handle: string, fault: Fault)
      returns (r: Created)
      requires Valid()
      modifies this
      ensures Valid() && (View(), r) == CreateRoom(settings, old(View()), now, d, generation, handle, fault)
    {
      Invariants.CreateRoomKeeps(settings, View(), now, d, generation, handle, fault);
      Invariants.SweepKeeps(settings, View(), now);
      if fault == SweepFails {
        return Failed;
      }
      ExpireDue(now);
      if fault == TransactionFails {
        return Failed;
      }
      r := InsertRoomClaim(now, d, generation, handle);
    }

    /** The creating transaction of `create_client_claim`. */
    method InsertClientClaim(now: real, q: ClientRequest, generation: Option<nat>, handle: string, ref: string)
      returns (r: Created)
      modifies this
      ensures (View(), r) == AdmitClient(settings, old(View()), now, q, generation, handle, ref)
    {
      if |ActiveClients(rows, q.device)| >= settings.perDevice {
        return Refused(ClaimLimit);
      }
      if q.session.Some? &&
         (exists h :: h in rows && rows[h].status == Active && rows[h].session == Some(q.session.value))
      {
        return Refused(SessionInUse);
      }
      if handle in rows || (exists h :: h in rows && rows[h].claimId == q.claimId)
          || (exists h :: h in rows && rows[h].ref == Some(ref)) {
        return Refused(DuplicateClaim);
      }
      var deadline := now + settings.firstOpen;
      rows := rows[handle := ClientRow(q, generation, deadline, ref)];
      timers := timers[handle := deadline];
      return Made(handle);
    }

    method CreateClientClaim(now: real, q: ClientRequest, generation: Option<nat>, handle: string, ref: string,
            fault: Fault)
      returns (r: Created)
      requires Valid()
      modifies this
      ensures Valid() && (View(), r) == CreateClient(settings, old(View()), now, q, generation, handle, ref, fault)
    {
      Invariants.CreateClientKeeps(settings, View(), now, q, generation, handle, ref, fault);
      if fault == SweepFails {
        return Failed;
      }
      ExpireDue(now);
      if fault == TransactionFails {
        return Failed;
      }
      r := InsertClientClaim(now, q, generation, handle, ref);
    }

    // ------------------------------------------------------------ resolution

    /** `_close_locked` inside resolution; a failed write leaves everything as it was. */
    method RetireClaim(handle: string, reason: Reason, io: Access) returns (r: Resolution)
      modifies this
      ensures (View(), r) == Retire(old(View()), handle, reason, io)
    {
      if io.writeFails {
        return ResolveFailed;
      }
      CloseLocked(handle, reason);
      return NoGrant;
    }

    /** The configuration half of `_resolve_grant`. */
    method Judge(handle: string, row: Row, a: Authority, io: Access) returns (r: Resolution)
      modifies this
      ensures (View(), r) == Configured(old(View()), handle, row, a, io)
    {
      if a.configuration.MigrationRequired? {
        r := RetireClaim(handle, ConfigurationMigration, io);
        return;
      }
      if a.configuration.ReadError? {
        return ResolveFailed;
      }
      if a.configuration.Unreadable? {
        return NoGrant;
      }
      var snapshot := a.configuration;
      if row.kind == PairedRoomClaim && snapshot.revision != row.revision {
        denied := denied + {handle};
        return NoGrant;
      }
      if row.profile !in snapshot.profiles || !snapshot.profiles[row.profile] {
        r := RetireClaim(handle, ProfileRevoked, io);
        return;
      }
      var choice := MayChoose(row, row.device, a);
      if row.mapping.Some? && row.mapping.value in snapshot.mappings && !snapshot.mappings[row.mapping.value] {
        r := RetireClaim(handle, MappingRevoked, io);
        return;
      }
      return Granted(ConversationGrant(handle, row.device, row.profile, row.session, row.generation, row.revision,
                                       choice));
    }

    method FindGrant(handle: string, device: string, now: real, a: Authority, io: Access, nested: Access)
      returns (r: Resolution)
      modifies this
      ensures (View(), r) == ResolveGrant(old(View()), handle, device, now, a, io, nested)
    {
      if handle in denied {
        return NoGrant;
      }
      if (handle, Some(device)) in failed || (handle, None) in failed {
        var _ := CloseOwned(handle, Some(device), UpstreamLost, nested);
        return NoGrant;
      }
      if io.readFails {
        return ResolveFailed;
      }
      if handle !in rows || rows[handle].device != device || rows[handle].status != Active {
        return NoGrant;
      }
      var row := rows[handle];
      if row.deadline.Some? && now >= row.deadline.value {
        r := RetireClaim(handle, ExpiryReason(row.activity), io);
        return;
      }
      if row.kind == PairedRoomClaim && !a.pairedAllowed {
        denied := denied + {handle};
        return NoGrant;
      }
      if row.kind == ClientClaim {
        if a.grant == CheckRaised {
          return NoGrant;
        }
        if a.grant == CheckSaid(false) {
          r := RetireClaim(handle, GrantRevoked, io);
          return;
        }
      }
      r := Judge(handle, row, a, io);
    }

    /** A grant is given only for a live, unbarred row of the asking device, is
        what that row says, and changes nothing. */
    method Resolve(handle: string, device: string, now: real, a: Authority, io: Access, nested: Access)
      returns (r: Resolution)
      requires Valid()
      modifies this
      ensures (View(), r) == Claims.Resolve(old(View()), handle, device, now, a, io, nested)
      ensures Valid() && (r.Granted? ==> View() == old(View()) && GrantedBy(View(), r.grant, handle, device, now))
      ensures r.Granted? <==> Answers.MayHold(old(View()), handle, device, now, a, io)
    {
      hide Invariants.Inv;
      Invariants.StepKeeps(settings, View(), OpResolve(handle, device, now, a, io, nested));
      GrantMeans(View(), handle, device, now, a, io, nested);
      r := FindGrant(handle, device, now, a, io, nested);
      if r.NoGrant? && handle in denied {
        if nested.writeFails {
          return ResolveFailed;
        }
        var _ := CloseSelected(PairedHandle(handle, device), PairedRoomRevoked);
      }
    }

    // -------------------------------------------------------------- activity

    method PersistSession(g: ConversationGrant, session: string, fails: bool) returns (r: Answer)
      requires Valid()
      modifies this
      ensures (View(), r) == Claims.PersistSession(old(View()), g, session, fails)
      ensures Valid() && (r != Yes ==> View() == old(View()))
      ensures r == Yes ==>
        && g.handle in rows && rows[g.handle].status == Active && rows[g.handle].session == Some(session)
        && forall h :: h in rows && rows[h].status == Active && rows[h].session == Some(session) ==> h == g.handle
    {
      hide Invariants.Inv;
      Invariants.StepKeeps(settings, View(), OpPersist(g, session, fails));
      if Blank(session) {
        return No;
      }
      if fails {
        return Failure;
      }
      if g.handle !in rows || rows[g.handle].device != g.device || rows[g.handle].profile != g.profile {
        return No;
      }
      var row := rows[g.handle];
      if row.generation != g.generation || row.status != Active || (row.session.Some? && row.session.value != session) {
        return No;
      }
      if exists h :: h in rows && h != g.handle && rows[h].status == Active && rows[h].session == Some(session) {
        return No;
      }
      rows := rows[g.handle := row.(session := Some(session))];
      return Yes;
    }

    method MarkOpen(handle: string, device: string, now: real, fails: bool) returns (r: Answer)
      requires Valid()
      modifies this
      ensures (View(), r) == Claims.MarkOpen(old(View()), handle, device, now, fails)
      ensures Valid()
      ensures r == Yes ==> OwnedActive(View(), handle, device) && rows[handle].deadline.None?
      ensures r == Yes ==> handle in connected && handle !in timers
      ensures r == No ==> !OwnedActive(View(), handle, device)
    {
      hide Invariants.Inv;
      Invariants.StepKeeps(settings, View(), OpOpen(handle, device, now, fails));
      if fails {
        return Failure;
      }
      if handle !in rows || rows[handle].device != device || rows[handle].status != Active {
        return No;
      }
      var row := rows[handle];
      if row.deadline.Some? && now >= row.deadline.value {
        rows := rows[handle := Ending(row, ExpiryReason(row.activity))];
        detached := detached - {handle};
        timers := timers - {handle};
        return No;
      }
      rows := rows[handle := row.(activity := Open, deadline := None)];
      timers := timers - {handle};
      connected := connected + {handle};
      detached := detached - {handle};
      return Yes;
    }

    /** The transaction of `mark_disconnected`. */
    method Disconnect(handle: string, device: string, now: real, io: Access) returns (r: Answer)
      modifies this
      ensures (View(), r) == Claims.MarkDisconnected(settings, old(View()), handle, device, now, io)
    {
      if io.readFails {
        return Failure;
      }
      if handle !in rows || rows[handle].device != device {
        return Yes;
      }
      var row := rows[handle];
      connected := connected - {handle};
      if row.kind != ClientClaim || row.status != Active || row.activity == Ready {
        return Yes;
      }
      if io.writeFails {
        return Failure;
      }
      var deadline := now + settings.grace;
      rows := rows[handle := row.(activity := Disconnected, deadline := Some(deadline))];
      timers := timers[handle := deadline];
      return Yes;
    }

    method MarkDisconnected(handle: string, device: string, now: real, io: Access) returns (r: Answer)
      requires Valid()
      modifies this
      ensures (View(), r) == Claims.MarkDisconnected(settings, old(View()), handle, device, now, io)
      ensures Valid() && StartsGrace(settings, old(View()), View(), handle, now)
      ensures r == Yes && handle in rows && rows[handle].device == device ==> handle !in connected
    {
      hide Invariants.Inv;
      Invariants.StepKeeps(settings, View(), OpDisconnect(handle, device, now, io));
      DisconnectMeans(settings, View(), handle, device, now, io);
      r := Disconnect(handle, device, now, io);
    }

    /** The transaction of `record_activity`. */
    method ReportActivity(handle: string, device: string, report: Report, now: real, fails: bool) returns (r: Answer)
      modifies this
      ensures (View(), r) == Claims.RecordActivity(settings, old(View()), handle, device, report, now, fails)
    {
      if fails {
        return Failure;
      }
      if handle !in rows || rows[handle].device != device || rows[handle].status != Active {
        return No;
      }
      var row := rows[handle];
      if row.deadline.Some? && now >= row.deadline.value {
        rows := rows[handle := Ending(row, ExpiryReason(row.activity))];
        timers := timers - {handle};
        detached := detached - {handle};
        return No;
      }
      if report == PlaybackComplete && row.activity != Playback && row.activity != ResponseReady {
        return No;
      }
      var deadline := None;
      if (report == PlaybackComplete || report == Idling) && row.kind != ClientClaim {
        deadline := Some(now + settings.idle);
      }
      rows := rows[handle := row.(activity := ActivityOf(report), deadline := deadline)];
      timers := timers - {handle};
      if deadline.Some? {
        timers := timers[handle := deadline.value];
      }
      assert deadline.Some? ==> timers == old(timers)[handle := deadline.value];
      return Yes;
    }

    method RecordActivity(handle: string, device: string, report: Report, now: real, fails: bool) returns (r: Answer)
      requires Valid()
      modifies this
      ensures (View(), r) == Claims.RecordActivity(settings, old(View()), handle, device, report, now, fails)
      ensures Valid()
      ensures r == Yes ==>
        && OwnedActive(View(), handle, device) && rows[handle].activity == ActivityOf(report)
        && (rows[handle].deadline.Some? <==> handle in timers)
        && (handle in timers ==> rows[handle].deadline == Some(timers[handle]) && rows[handle].kind != ClientClaim)
      ensures r == Failure ==> View() == old(View())
    {
      hide Invariants.Inv;
      Invariants.StepKeeps(settings, View(), OpActivity(handle, device, report, now, fails));
      ActivityMeans(settings, View(), handle, device, report, now, fails);
      r := ReportActivity(handle, device, report, now, fails);
    }

    method MarkDetached(handle: string)
      requires Valid()
      modifies this
      ensures View() == Claims.MarkDetached(old(View()), handle)
      ensures Valid()
      ensures handle in detached ==> handle in rows && rows[handle].status == Active
      ensures handle in rows && ActiveClient(rows[handle], rows[handle].device) ==> handle in detached
    {
      Invariants.StepKeeps(settings, View(), OpDetach(handle));
      if handle in rows && rows[handle].kind == ClientClaim && rows[handle].status == Active {
        detached := detached + {handle};
      }
    }
  }

  /** The grant describes a live row of the device that nothing has barred. */
  ghost predicate GrantedBy(s: Store, g: ConversationGrant, handle: string, device: string, now: real) {
    && OwnedActive(s, handle, device) && Live(s.rows[handle], now) && !Retirement.Barred(s, handle)
    && g == ConversationGrant(handle, device, s.rows[handle].profile, s.rows[handle].session,
                              s.rows[handle].generation, s.rows[handle].revision, g.interactiveChoice)
  }

  lemma GrantMeans(s: Store, handle: string, device: string, now: real, a: Authority, io: Access, nested: Access)
    ensures var (s', r) := Claims.Resolve(s, handle, device, now, a, io, nested);
      && (r.Granted? <==> Answers.MayHold(s, handle, device, now, a, io))
      && (r.Granted? ==> s' == s && GrantedBy(s, r.grant, handle, device, now))
  {
    Answers.GrantedExactly(s, handle, device, now, a, io, nested);
  }

  /** Only the row of a client claim that was opened may change: it gets the full
      reconnect grace from now, with its timer armed for that. */
  ghost predicate StartsGrace(cfg: Settings, s: Store, s': Store, handle: string, now: real) {
    && s'.rows.Keys == s.rows.Keys
    && forall h :: h in s'.rows && s'.rows[h] != s.rows[h] ==>
         && h == handle && s'.rows[h].kind == ClientClaim && s.rows[h].activity != Ready
         && s'.rows[h].deadline == Some(now + cfg.grace) && h in s'.timers && s'.timers[h] == now + cfg.grace
  }

  lemma DisconnectMeans(cfg: Settings, s: Store, handle: string, device: string, now: real, io: Access)
    ensures var (s', r) := Claims.MarkDisconnected(cfg, s, handle, device, now, io);
      && StartsGrace(cfg, s, s', handle, now)
      && (r == Yes && handle in s'.rows && s'.rows[handle].device == device ==> handle !in s'.connected)
  {
  }

  lemma ActivityMeans(cfg: Settings, s: Store, handle: string, device: string, report: Report, now: real, fails: bool)
    ensures var (s', r) := Claims.RecordActivity(cfg, s, handle, device, report, now, fails);
      && (r == Yes ==>
            && OwnedActive(s', handle, device) && s'.rows[handle].activity == ActivityOf(report)
            && (s'.rows[handle].deadline.Some? <==> handle in s'.timers)
            && (handle in s'.timers ==>
                  s'.rows[handle].deadline == Some(s'.timers[handle]) && s'.rows[handle].kind != ClientClaim))
      && (r == Failure ==> s' == s)
  {
  }

  lemma CloseMeans(cfg: Settings, s: Store, handle: string, device: Option<string>, reason: Reason, io: Access)
    ensures var (s', r) := Claims.CloseClaim(s, handle, device, reason, io);
      && (r != Yes ==> s'.rows == s.rows)
      && (r == Yes ==>
            && handle in s.rows && handle in s'.rows && s'.rows[handle].status == Closed
            && s'.rows[handle].reason == if s.rows[handle].status == Active then Some(reason)
            else s.rows[handle].reason)
      && (reason == UpstreamLost && handle in s'.rows && (device.Some? ==> s'.rows[handle].device == device.value) ==>
            Retirement.Barred(s', handle))
  {
  }

  lemma ForgetMore(s: Store, handles: set<string>, h: string)
    ensures Forget(Forget(s, handles), {h}) == Forget(s, handles + {h})
  {
    assert s.timers - handles - {h} == s.timers - (handles + {h});
    assert s.connected - handles - {h} == s.connected - (handles + {h});
    assert s.detached - handles - {h} == s.detached - (handles + {h});
  }

  lemma OnlyHolder(rows: map<string, Row>, room: string, h: string)
    requires Invariants.OnePerRoom(rows) && Claims.Holds(rows, h, room)
    ensures RoomHolder(rows, room) == Some(h)
  {
    var holder := RoomHolder(rows, room);
    assert holder.Some?;
  }
}
