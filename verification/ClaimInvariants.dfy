/**
  What the claim table keeps over every run: exclusivity per Room, Session and
  device, write-once history, and the rule that ties deadlines to activity.
 */
module ClaimInvariants {
  import opened Wrappers
  import opened Claims

  // ------------------------------------------------------------- statements

  ghost predicate UniqueClaims(rows: map<string, Row>) {
    forall h, k :: h in rows && k in rows && h != k ==> rows[h].claimId != rows[k].claimId
  }

  ghost predicate UniqueRefs(rows: map<string, Row>) {
    forall h, k :: h in rows && k in rows && h != k && rows[h].ref.Some? ==> rows[h].ref != rows[k].ref
  }

  ghost predicate OnePerRoom(rows: map<string, Row>) {
    forall h, k :: h in rows && k in rows && h != k && rows[h].status == Active && rows[k].status == Active ==>
      rows[h].room.Some? ==> rows[h].room != rows[k].room
  }

  ghost predicate OnePerSession(rows: map<string, Row>) {
    forall h, k :: h in rows && k in rows && h != k && rows[h].status == Active && rows[k].status == Active ==>
      rows[h].session.Some? ==> rows[h].session != rows[k].session
  }

  ghost predicate Capped(cfg: Settings, rows: map<string, Row>) {
    forall device :: |ActiveClients(rows, device)| <= cfg.perDevice
  }

  /** An active row has a deadline exactly in the activities that may run out. */
  ghost predicate Timed(row: Row) {
    if row.status == Active then
      && row.reason.None? && row.activity != Ended
      && (row.deadline.Some? <==>
            row.activity == Ready || row.activity == (if row.kind == ClientClaim then Disconnected else Idle))
      && (row.kind != ClientClaim ==> row.activity != Disconnected)
    else
      && row.activity == Ended && row.deadline.None? && row.reason.Some?
  }

  ghost predicate WellTimed(rows: map<string, Row>) { forall h :: h in rows ==> Timed(rows[h]) }

  /** A personal client's claim never ends by idling. */
  ghost predicate NeverIdledOut(rows: map<string, Row>) {
    forall h :: h in rows && rows[h].kind == ClientClaim ==> rows[h].reason != Some(IdleExpired)
  }

  ghost predicate TableInv(cfg: Settings, rows: map<string, Row>) {
    && UniqueClaims(rows) && UniqueRefs(rows) && OnePerRoom(rows) && OnePerSession(rows)
    && Capped(cfg, rows) && WellTimed(rows) && NeverIdledOut(rows)
  }

  /** Parked handles are active claims. */
  ghost predicate Parked(s: Store) {
    forall h :: h in s.detached ==> h in s.rows && s.rows[h].status == Active
  }

  ghost predicate Inv(cfg: Settings, s: Store) { TableInv(cfg, s.rows) && Parked(s) }

  /** Identity columns never change, a bound Session never changes, and a closed
      row never changes at all. */
  ghost predicate Keeps(row: Row, row': Row) {
    && row' == row.(session := row'.session, status := row'.status, activity := row'.activity,
                    deadline := row'.deadline, reason := row'.reason)
    && (row.session.Some? ==> row'.session == row.session)
    && (row.status == Closed ==> row' == row)
  }

  ghost predicate Evolves(rows: map<string, Row>, rows': map<string, Row>) {
    forall h :: h in rows ==> h in rows' && Keeps(rows[h], rows'[h])
  }

  /** Close reasons handed in by callers are not the idle expiry's own. */
  ghost predicate CallerReason(op: Op) {
    match op
    case OpClose(_, _, reason, _) => reason != IdleExpired
    case OpCloseMatching(_, reason) => reason != IdleExpired
    case _ => true
  }

  // ------------------------------------------------------------- kinds of edit

  /** A row stays, or ends for a reason that its kind may end for. */
  ghost predicate StaysOrEnds(row: Row, row': Row) {
    row' == row ||
    (&& row.status == Active && row'.reason.Some?
     && row' == Ending(row, row'.reason.value)
     && (row.kind == ClientClaim ==> row'.reason != Some(IdleExpired)))
  }

  /** Some rows end, nothing else happens to the table. */
  ghost predicate Ends(rows: map<string, Row>, rows': map<string, Row>) {
    && (forall h :: h in rows' ==> h in rows)
    && (forall h :: h in rows ==> h in rows' && StaysOrEnds(rows[h], rows'[h]))
  }

  /** One active row moves to another state it may be in. */
  ghost predicate Moves(rows: map<string, Row>, rows': map<string, Row>, handle: string) {
    && handle in rows && handle in rows' && rows' == rows[handle := rows'[handle]]
    && rows[handle].status == Active && rows'[handle].status == Active
    && Keeps(rows[handle], rows'[handle]) && Timed(rows'[handle])
    && (rows'[handle].session.Some? ==> !SessionElsewhere(rows, handle, rows'[handle].session.value))
  }

  lemma EndsKeeps(cfg: Settings, rows: map<string, Row>, rows': map<string, Row>)
    requires TableInv(cfg, rows) && Ends(rows, rows')
    ensures TableInv(cfg, rows') && Evolves(rows, rows')
    ensures forall h :: h in rows' && rows'[h].status == Active ==> rows'[h] == rows[h]
  {
    forall h | h in rows
      ensures Keeps(rows[h], rows'[h]) && Timed(rows'[h])
      ensures rows'[h].status == Active ==> rows'[h] == rows[h]
      ensures rows[h].kind == ClientClaim ==> rows'[h].reason != Some(IdleExpired)
    {
    }
    forall device
      ensures |ActiveClients(rows', device)| <= cfg.perDevice
    {
      SubsetSize(ActiveClients(rows', device), ActiveClients(rows, device));
    }
  }

  lemma MovesUnique(rows: map<string, Row>, rows': map<string, Row>, handle: string)
    requires UniqueClaims(rows) && UniqueRefs(rows) && OnePerRoom(rows) && Moves(rows, rows', handle)
    ensures UniqueClaims(rows') && UniqueRefs(rows') && OnePerRoom(rows')
  {
  }

  lemma MovesSessions(rows: map<string, Row>, rows': map<string, Row>, handle: string)
    requires OnePerSession(rows) && Moves(rows, rows', handle)
    ensures OnePerSession(rows')
  {
  }

  lemma MovesTimes(rows: map<string, Row>, rows': map<string, Row>, handle: string)
    requires WellTimed(rows) && NeverIdledOut(rows) && Moves(rows, rows', handle)
    ensures WellTimed(rows') && NeverIdledOut(rows') && Evolves(rows, rows')
  {
  }

  lemma MovesCapped(cfg: Settings, rows: map<string, Row>, rows': map<string, Row>, handle: string)
    requires Capped(cfg, rows) && Moves(rows, rows', handle)
    ensures Capped(cfg, rows')
  {
    forall device
      ensures |ActiveClients(rows', device)| <= cfg.perDevice
    {
      assert ActiveClients(rows', device) == ActiveClients(rows, device);
    }
  }

  lemma MovesKeeps(cfg: Settings, rows: map<string, Row>, rows': map<string, Row>, handle: string)
    requires TableInv(cfg, rows) && Moves(rows, rows', handle)
    ensures TableInv(cfg, rows') && Evolves(rows, rows')
  {
    hide Moves, UniqueClaims, UniqueRefs, OnePerRoom, OnePerSession, Capped, WellTimed, NeverIdledOut;
    MovesUnique(rows, rows', handle);
    MovesSessions(rows, rows', handle);
    MovesTimes(rows, rows', handle);
    MovesCapped(cfg, rows, rows', handle);
  }

  lemma InsertCapped(cfg: Settings, rows: map<string, Row>, handle: string, row: Row)
    requires Capped(cfg, rows) && handle !in rows
    requires row.kind == ClientClaim ==> |ActiveClients(rows, row.device)| < cfg.perDevice
    ensures Capped(cfg, rows[handle := row])
  {
    var rows' := rows[handle := row];
    forall device
      ensures |ActiveClients(rows', device)| <= cfg.perDevice
    {
      if ActiveClient(row, device) {
        assert ActiveClients(rows', device) == ActiveClients(rows, device) + {handle};
      } else {
        assert ActiveClients(rows', device) == ActiveClients(rows, device);
      }
    }
  }

  lemma InsertUnique(rows: map<string, Row>, handle: string, row: Row)
    requires UniqueClaims(rows) && UniqueRefs(rows) && handle !in rows
    requires !ClaimUsed(rows, row.claimId)
    requires row.ref.Some? ==> !RefUsed(rows, row.ref.value)
    ensures UniqueClaims(rows[handle := row]) && UniqueRefs(rows[handle := row])
  {
    assert forall h :: h in rows ==> rows[h].claimId != row.claimId;
    assert row.ref.Some? ==> forall h :: h in rows ==> rows[h].ref != row.ref;
  }

  lemma InsertExclusive(rows: map<string, Row>, handle: string, row: Row)
    requires OnePerRoom(rows) && OnePerSession(rows) && handle !in rows
    requires row.room.Some? ==> forall h :: h in rows && rows[h].status == Active ==> rows[h].room != row.room
    requires row.session.Some? ==> forall h :: h in rows && rows[h].status == Active ==> rows[h].session != row.session
    ensures OnePerRoom(rows[handle := row]) && OnePerSession(rows[handle := row])
  {
  }

  /** A new row that clashes with nothing. */
  lemma InsertKeeps(cfg: Settings, rows: map<string, Row>, handle: string, row: Row)
    requires TableInv(cfg, rows) && handle !in rows
    requires row.status == Active && Timed(row)
    requires !ClaimUsed(rows, row.claimId)
    requires row.ref.Some? ==> !RefUsed(rows, row.ref.value)
    requires row.room.Some? ==> forall h :: h in rows && rows[h].status == Active ==> rows[h].room != row.room
    requires row.session.Some? ==> !SessionBusy(rows, row.session.value)
    requires row.kind == ClientClaim ==> |ActiveClients(rows, row.device)| < cfg.perDevice
    ensures TableInv(cfg, rows[handle := row]) && Evolves(rows, rows[handle := row])
  {
    InsertCapped(cfg, rows, handle, row);
    InsertUnique(rows, handle, row);
    InsertExclusive(rows, handle, row);
  }

  // ------------------------------------------------------------- operations

  lemma EndingEnds(rows: map<string, Row>, handle: string, reason: Reason)
    requires handle in rows && (rows[handle].kind == ClientClaim ==> reason != IdleExpired)
    ensures Ends(rows, rows[handle := Ending(rows[handle], reason)])
  {
  }

  lemma SweepEnds(s: Store, now: real)
    requires WellTimed(s.rows)
    ensures Ends(s.rows, Sweep(s, now).rows)
  {
    assert forall h :: h in s.rows ==> Timed(s.rows[h]);
  }

  lemma MatchingEnds(s: Store, sel: Selector, reason: Reason)
    requires reason != IdleExpired
    ensures Ends(s.rows, CloseMatching(s, sel, reason).rows)
  {
  }

  lemma CloseOneEnds(s: Store, handle: string, reason: Reason)
    requires handle in s.rows && s.rows[handle].kind == ClientClaim ==> reason != IdleExpired
    ensures Ends(s.rows, CloseOne(s, handle, reason).rows)
  {
  }

  lemma CloseClaimEnds(s: Store, handle: string, device: Option<string>, reason: Reason, io: Access)
    requires reason != IdleExpired
    ensures Ends(s.rows, CloseClaim(s, handle, device, reason, io).0.rows)
  {
    CloseOneEnds(s, handle, reason);
  }

  lemma EndsTrans(a: map<string, Row>, b: map<string, Row>, c: map<string, Row>)
    requires Ends(a, b) && Ends(b, c)
    ensures Ends(a, c)
  {
  }

  lemma RetireEnds(s: Store, handle: string, reason: Reason, io: Access)
    requires handle in s.rows && s.rows[handle].kind == ClientClaim ==> reason != IdleExpired
    ensures Ends(s.rows, Retire(s, handle, reason, io).0.rows)
  {
    CloseOneEnds(s, handle, reason);
  }

  lemma ConfiguredEnds(s: Store, handle: string, row: Row, a: Authority, io: Access)
    ensures Ends(s.rows, Configured(s, handle, row, a, io).0.rows)
  {
    match a.configuration
    case MigrationRequired => RetireEnds(s, handle, ConfigurationMigration, io);
    case ReadError =>
    case Unreadable =>
    case Snapshot(revision, profiles, mappings, _, _) =>
      if row.kind == PairedRoomClaim && revision != row.revision {
      } else if row.profile !in profiles || !profiles[row.profile] {
        RetireEnds(s, handle, ProfileRevoked, io);
      } else {
        RetireEnds(s, handle, MappingRevoked, io);
      }
  }

  lemma ResolveGrantEnds(s: Store, handle: string, device: string, now: real, a: Authority, io: Access, nested: Access)
    requires WellTimed(s.rows)
    ensures Ends(s.rows, ResolveGrant(s, handle, device, now, a, io, nested).0.rows)
  {
    if handle in s.denied {
    } else if (handle, Some(device)) in s.failed || (handle, None) in s.failed {
      CloseClaimEnds(s, handle, Some(device), UpstreamLost, nested);
    } else if !io.readFails && OwnedActive(s, handle, device) {
      var row := s.rows[handle];
      assert Timed(row);
      if Due(row, now) {
        RetireEnds(s, handle, ExpiryReason(row.activity), io);
      } else if row.kind == ClientClaim && a.grant == CheckSaid(false) {
        RetireEnds(s, handle, GrantRevoked, io);
      } else {
        ConfiguredEnds(s, handle, row, a, io);
      }
    }
  }

  lemma ResolveEnds(s: Store, handle: string, device: string, now: real, a: Authority, io: Access, nested: Access)
    requires WellTimed(s.rows)
    ensures Ends(s.rows, Resolve(s, handle, device, now, a, io, nested).0.rows)
  {
    var s1 := ResolveGrant(s, handle, device, now, a, io, nested).0;
    ResolveGrantEnds(s, handle, device, now, a, io, nested);
    MatchingEnds(s1, PairedHandle(handle, device), PairedRoomRevoked);
    EndsTrans(s.rows, s1.rows, CloseMatching(s1, PairedHandle(handle, device), PairedRoomRevoked).rows);
  }

  lemma EvolvesTrans(a: map<string, Row>, b: map<string, Row>, c: map<string, Row>)
    requires Evolves(a, b) && Evolves(b, c)
    ensures Evolves(a, c)
  {
  }

  lemma SweepKeeps(cfg: Settings, s: Store, now: real)
    requires Inv(cfg, s)
    ensures Inv(cfg, Sweep(s, now)) && Evolves(s.rows, Sweep(s, now).rows)
  {
    SweepEnds(s, now);
    EndsKeeps(cfg, s.rows, Sweep(s, now).rows);
  }

  lemma RoomCleared(rows: map<string, Row>, rows': map<string, Row>, room: string, holder: Option<string>)
    requires OnePerRoom(rows)
    requires if holder.Some? then Claims.Holds(rows, holder.value, room) else forall h :: !Claims.Holds(rows, h, room)
    requires rows' == if holder.Some? then rows[holder.value := Ending(rows[holder.value], SupersededByTouch)] else rows
    ensures forall h :: h in rows' && rows'[h].status == Active ==> rows'[h].room != Some(room)
  {
    forall h | h in rows' && rows'[h].status == Active
      ensures rows'[h].room != Some(room)
    {
      assert h in rows && (holder.None? ==> !Claims.Holds(rows, h, room));
    }
  }

  /** The swept store with the taken-over conversation closed. */
  ghost function Cleared(swept: Store, room: string): Store {
    var holder := RoomHolder(swept.rows, room);
    if holder.Some? then CloseOne(swept, holder.value, SupersededByTouch) else swept
  }

  lemma ClearedKeeps(cfg: Settings, swept: Store, room: string)
    requires Inv(cfg, swept)
    ensures var cleared := Cleared(swept, room);
      && Inv(cfg, cleared) && Evolves(swept.rows, cleared.rows)
      && (forall h :: h in cleared.rows ==> h in swept.rows && cleared.rows[h].claimId == swept.rows[h].claimId)
      && (forall h :: h in cleared.rows && cleared.rows[h].status == Active ==> cleared.rows[h].room != Some(room))
  {
    var holder := RoomHolder(swept.rows, room);
    var cleared := Cleared(swept, room);
    if holder.Some? {
      CloseOneEnds(swept, holder.value, SupersededByTouch);
    }
    EndsKeeps(cfg, swept.rows, cleared.rows);
    RoomCleared(swept.rows, cleared.rows, room, holder);
  }

  lemma CreateRoomKeeps(cfg: Settings, s: Store, now: real, d: Decision, generation: Option<nat>, handle: string,
          fault: Fault)
    requires Inv(cfg, s)
    ensures var s' := CreateRoom(cfg, s, now, d, generation, handle, fault).0;
      Inv(cfg, s') && Evolves(s.rows, s'.rows)
  {
    var swept := Sweep(s, now);
    SweepKeeps(cfg, s, now);
    var (s', r) := CreateRoom(cfg, s, now, d, generation, handle, fault);
    RoomMade(cfg, s, now, d, generation, handle, fault);
    if r.Made? {
      AddRoomRow(cfg, swept, d.room, handle, RoomRow(d, generation, now + cfg.firstOpen));
      EvolvesTrans(s.rows, swept.rows, s'.rows);
    }
  }

  /** A creation either adds its row to the cleared table or leaves the swept one. */
  lemma RoomMade(cfg: Settings, s: Store, now: real, d: Decision, generation: Option<nat>, handle: string, fault: Fault)
    ensures var (s', r) := CreateRoom(cfg, s, now, d, generation, handle, fault);
      var swept := Sweep(s, now);
      var cleared := Cleared(swept, d.room);
      if r.Made?
      then
        && s'.rows == cleared.rows[handle := RoomRow(d, generation, now + cfg.firstOpen)]
        && s'.detached == cleared.detached
        && handle !in swept.rows && !ClaimUsed(swept.rows, d.claimId)
      else s' == s || s' == swept
  {
  }

  lemma AddRoomRow(cfg: Settings, swept: Store, room: string, handle: string, row: Row)
    requires Inv(cfg, swept) && handle !in swept.rows && !ClaimUsed(swept.rows, row.claimId)
    requires row.room == Some(room) && row.ref.None? && row.session.None? && row.kind != ClientClaim
    requires row.status == Active && Timed(row)
    ensures var cleared := Cleared(swept, room);
      && TableInv(cfg, cleared.rows[handle := row]) && Evolves(swept.rows, cleared.rows[handle := row])
      && handle !in cleared.rows && Parked(cleared)
  {
    var cleared := Cleared(swept, room);
    ClearedKeeps(cfg, swept, room);
    assert !ClaimUsed(cleared.rows, row.claimId);
    InsertKeeps(cfg, cleared.rows, handle, row);
    EvolvesTrans(swept.rows, cleared.rows, cleared.rows[handle := row]);
  }

  lemma CreateClientKeeps(cfg: Settings, s: Store, now: real, q: ClientRequest, generation: Option<nat>,
          handle: string, ref: string, fault: Fault)
    requires Inv(cfg, s)
    ensures var s' := CreateClient(cfg, s, now, q, generation, handle, ref, fault).0;
      Inv(cfg, s') && Evolves(s.rows, s'.rows)
  {
    var swept := Sweep(s, now);
    SweepKeeps(cfg, s, now);
    var (s', r) := CreateClient(cfg, s, now, q, generation, handle, ref, fault);
    ClientMade(cfg, s, now, q, generation, handle, ref, fault);
    if r.Made? {
      InsertKeeps(cfg, swept.rows, handle, ClientRow(q, generation, now + cfg.firstOpen, ref));
      EvolvesTrans(s.rows, swept.rows, s'.rows);
    }
  }

  lemma ClientMade(cfg: Settings, s: Store, now: real, q: ClientRequest, generation: Option<nat>, handle: string,
          ref: string, fault: Fault)
    ensures var (s', r) := CreateClient(cfg, s, now, q, generation, handle, ref, fault);
      var swept := Sweep(s, now);
      if r.Made?
      then
        && s'.rows == swept.rows[handle := ClientRow(q, generation, now + cfg.firstOpen, ref)]
        && s'.detached == swept.detached
        && handle !in swept.rows && !ClaimUsed(swept.rows, q.claimId) && !RefUsed(swept.rows, ref)
        && |ActiveClients(swept.rows, q.device)| < cfg.perDevice
        && (q.session.Some? ==> !SessionBusy(swept.rows, q.session.value))
      else s' == s || s' == swept
  {
  }

  ghost predicate OwnedBefore(s: Store, handle: string) { handle in s.rows && s.rows[handle].status == Active }

  /** What an activity call may do to the table: one owned row moves or ends. */
  ghost predicate Acts(s: Store, s': Store, handle: string) {
    && s'.detached <= s.detached
    && (s'.rows != s.rows ==>
          && OwnedBefore(s, handle) && handle in s'.rows && s'.rows == s.rows[handle := s'.rows[handle]]
          && Timed(s'.rows[handle]) && Keeps(s.rows[handle], s'.rows[handle])
          && (s'.rows[handle].status == Closed ==>
                StaysOrEnds(s.rows[handle], s'.rows[handle]) && handle !in s'.detached)
          && (s'.rows[handle].session != s.rows[handle].session ==>
                s'.rows[handle].session.Some? && !SessionElsewhere(s.rows, handle, s'.rows[handle].session.value)))
  }

  lemma PersistActs(s: Store, g: ConversationGrant, session: string, fails: bool)
    requires g.handle in s.rows ==> Timed(s.rows[g.handle])
    ensures Acts(s, PersistSession(s, g, session, fails).0, g.handle)
  {
  }

  lemma OpenActs(s: Store, handle: string, device: string, now: real, fails: bool)
    requires handle in s.rows ==> Timed(s.rows[handle])
    ensures Acts(s, MarkOpen(s, handle, device, now, fails).0, handle)
  {
  }

  lemma DisconnectActs(cfg: Settings, s: Store, handle: string, device: string, now: real, io: Access)
    requires handle in s.rows ==> Timed(s.rows[handle])
    ensures Acts(s, MarkDisconnected(cfg, s, handle, device, now, io).0, handle)
  {
  }

  lemma ReportActs(cfg: Settings, s: Store, handle: string, device: string, report: Report, now: real, fails: bool)
    requires handle in s.rows ==> Timed(s.rows[handle])
    ensures Acts(s, RecordActivity(cfg, s, handle, device, report, now, fails).0, handle)
  {
  }

  lemma ActivityShape(cfg: Settings, s: Store, op: Op, handle: string)
    requires WellTimed(s.rows)
    requires op.OpPersist? || op.OpOpen? || op.OpDisconnect? || op.OpActivity?
    requires handle == if op.OpPersist? then op.grant.handle else op.handle
    ensures Acts(s, Next(cfg, s, op), handle)
  {
    hide Acts;
    match op
    case OpPersist(g, session, fails) => PersistActs(s, g, session, fails);
    case OpOpen(_, device, now, fails) => OpenActs(s, handle, device, now, fails);
    case OpDisconnect(_, device, now, io) => DisconnectActs(cfg, s, handle, device, now, io);
    case OpActivity(_, device, report, now, fails) => ReportActs(cfg, s, handle, device, report, now, fails);
  }

  lemma ActivityKeeps(cfg: Settings, s: Store, op: Op)
    requires Inv(cfg, s)
    requires op.OpPersist? || op.OpOpen? || op.OpDisconnect? || op.OpActivity?
    ensures Inv(cfg, Next(cfg, s, op)) && Evolves(s.rows, Next(cfg, s, op).rows)
  {
    hide Acts, Next;
    var s' := Next(cfg, s, op);
    var handle := if op.OpPersist? then op.grant.handle else op.handle;
    ActivityShape(cfg, s, op, handle);
    ActsKeeps(cfg, s, s', handle);
  }

  lemma ActsKeeps(cfg: Settings, s: Store, s': Store, handle: string)
    requires Inv(cfg, s) && Acts(s, s', handle)
    ensures Inv(cfg, s') && Evolves(s.rows, s'.rows)
  {
    hide TableInv;
    if s'.rows != s.rows {
      RowChange(cfg, s.rows, s'.rows, handle);
    }
  }

  lemma RowChange(cfg: Settings, rows: map<string, Row>, rows': map<string, Row>, handle: string)
    requires TableInv(cfg, rows)
    requires handle in rows && handle in rows' && rows' == rows[handle := rows'[handle]]
    requires rows[handle].status == Active && Timed(rows'[handle]) && Keeps(rows[handle], rows'[handle])
    requires rows'[handle].status == Closed ==> StaysOrEnds(rows[handle], rows'[handle])
    requires rows'[handle].session != rows[handle].session ==>
               rows'[handle].session.Some? && !SessionElsewhere(rows, handle, rows'[handle].session.value)
    ensures TableInv(cfg, rows') && Evolves(rows, rows')
  {
    if rows'[handle].status == Closed {
      EndsKeeps(cfg, rows, rows');
    } else {
      SessionFree(rows, rows', handle);
      MovesKeeps(cfg, rows, rows', handle);
    }
  }

  lemma SessionFree(rows: map<string, Row>, rows': map<string, Row>, handle: string)
    requires OnePerSession(rows) && handle in rows && handle in rows' && rows[handle].status == Active
    requires rows'[handle].session != rows[handle].session ==>
               rows'[handle].session.Some? && !SessionElsewhere(rows, handle, rows'[handle].session.value)
    ensures rows'[handle].session.Some? ==> !SessionElsewhere(rows, handle, rows'[handle].session.value)
  {
  }

  lemma ClosingEnds(cfg: Settings, s: Store, op: Op)
    requires WellTimed(s.rows) && CallerReason(op)
    requires op.OpSweep? || op.OpTimer? || op.OpResolve? || op.OpClose? || op.OpCloseMatching? || op.OpRestart?
    ensures Ends(s.rows, Next(cfg, s, op).rows)
  {
    match op
    case OpSweep(now) => SweepEnds(s, now);
    case OpTimer(handle, deadline, now) =>
      if handle in s.rows && Due(s.rows[handle], now) {
        assert Timed(s.rows[handle]);
        EndingEnds(s.rows, handle, ExpiryReason(s.rows[handle].activity));
      }
    case OpResolve(handle, device, now, a, io, nested) => ResolveEnds(s, handle, device, now, a, io, nested);
    case OpClose(handle, owner, reason, io) => CloseClaimEnds(s, handle, owner, reason, io);
    case OpCloseMatching(sel, reason) => MatchingEnds(s, sel, reason);
    case OpRestart =>
  }

  lemma ParkedStays(cfg: Settings, s: Store, op: Op)
    requires Parked(s)
    requires op.OpSweep? || op.OpTimer? || op.OpResolve? || op.OpClose? || op.OpCloseMatching? || op.OpRestart?
    ensures Parked(Next(cfg, s, op))
  {
    if op.OpResolve? {
      ResolveParks(s, op.handle, op.device, op.now, op.authority, op.io, op.nested);
    }
  }

  lemma ResolveParks(s: Store, handle: string, device: string, now: real, a: Authority, io: Access, nested: Access)
    requires Parked(s)
    ensures Parked(Resolve(s, handle, device, now, a, io, nested).0)
  {
    ResolveGrantParks(s, handle, device, now, a, io, nested);
    hide ResolveGrant;
  }

  lemma ResolveGrantParks(s: Store, handle: string, device: string, now: real, a: Authority, io: Access, nested: Access)
    requires Parked(s)
    ensures Parked(ResolveGrant(s, handle, device, now, a, io, nested).0)
  {
  }

  lemma ClosingKeeps(cfg: Settings, s: Store, op: Op)
    requires Inv(cfg, s) && CallerReason(op)
    requires op.OpSweep? || op.OpTimer? || op.OpResolve? || op.OpClose? || op.OpCloseMatching? || op.OpRestart?
    ensures Inv(cfg, Next(cfg, s, op)) && Evolves(s.rows, Next(cfg, s, op).rows)
  {
    ClosingEnds(cfg, s, op);
    EndsKeeps(cfg, s.rows, Next(cfg, s, op).rows);
    ParkedStays(cfg, s, op);
  }

  lemma StepKeeps(cfg: Settings, s: Store, op: Op)
    requires Inv(cfg, s) && CallerReason(op)
    ensures Inv(cfg, Next(cfg, s, op)) && Evolves(s.rows, Next(cfg, s, op).rows)
  {
    match op
    case OpCreateRoom(now, d, generation, handle, fault) => CreateRoomKeeps(cfg, s, now, d, generation, handle, fault);
    case OpCreateClient(now, q, generation, handle, ref, fault) =>
      CreateClientKeeps(cfg, s, now, q, generation, handle, ref, fault);
    case OpPersist(_, _, _) => ActivityKeeps(cfg, s, op);
    case OpOpen(_, _, _, _) => ActivityKeeps(cfg, s, op);
    case OpDisconnect(_, _, _, _) => ActivityKeeps(cfg, s, op);
    case OpActivity(_, _, _, _, _) => ActivityKeeps(cfg, s, op);
    case OpDetach(_) =>
    case OpAttach(_) =>
    case _ => ClosingKeeps(cfg, s, op);
  }

  ghost predicate CallerReasons(ops: seq<Op>) { forall i :: 0 <= i < |ops| ==> CallerReason(ops[i]) }

  lemma {:induction false} RunKeeps(cfg: Settings, s: Store, ops: seq<Op>)
    requires Inv(cfg, s) && CallerReasons(ops)
    ensures Inv(cfg, Final(cfg, s, ops)) && Evolves(s.rows, Final(cfg, s, ops).rows)
    decreases |ops|
  {
    if ops != [] {
      StepKeeps(cfg, s, ops[0]);
      RunKeeps(cfg, Next(cfg, s, ops[0]), ops[1..]);
    }
  }

  /** Over every run, including restarts: one active claim per Room and per
      Standard Session, a bounded number of client claims per device, claim IDs
      never used twice, and the deadline rule. */
  lemma ReachableClaims(cfg: Settings, ops: seq<Op>)
    requires CallerReasons(ops)
    ensures var rows := Final(cfg, EMPTY, ops).rows;
      && UniqueClaims(rows) && OnePerRoom(rows) && OnePerSession(rows) && Capped(cfg, rows)
      && WellTimed(rows) && NeverIdledOut(rows)
  {
    forall device
      ensures |ActiveClients(EMPTY.rows, device)| == 0
    {
      assert ActiveClients(EMPTY.rows, device) == {};
    }
    RunKeeps(cfg, EMPTY, ops);
  }

  /** From any point of a run on: a closed row, its reason included, and a bound
      Session are permanent. */
  lemma HistoryIsWriteOnce(cfg: Settings, before: seq<Op>, after: seq<Op>, handle: string)
    requires CallerReasons(before) && CallerReasons(after)
    requires handle in Final(cfg, EMPTY, before).rows
    ensures var row := Final(cfg, EMPTY, before).rows[handle];
      var rows' := Final(cfg, Final(cfg, EMPTY, before), after).rows;
      && handle in rows'
      && (row.status == Closed ==> rows'[handle] == row)
      && (row.session.Some? ==> rows'[handle].session == row.session)
      && rows'[handle].claimId == row.claimId && rows'[handle].device == row.device
      && rows'[handle].generation == row.generation && rows'[handle].grant == row.grant
  {
    forall device
      ensures |ActiveClients(EMPTY.rows, device)| == 0
    {
      assert ActiveClients(EMPTY.rows, device) == {};
    }
    RunKeeps(cfg, EMPTY, before);
    RunKeeps(cfg, Final(cfg, EMPTY, before), after);
  }

  /** A touch claim that is refused, for whatever reason, leaves every claim
      that was not already out of time exactly as it was. */
  lemma RefusedTouchIsHarmless(cfg: Settings, s: Store, now: real, d: Decision, generation: Option<nat>,
          handle: string, fault: Fault, other: string)
    requires !CreateRoom(cfg, s, now, d, generation, handle, fault).1.Made?
    requires other in s.rows && !Due(s.rows[other], now)
    ensures var s' := CreateRoom(cfg, s, now, d, generation, handle, fault).0;
      && other in s'.rows && s'.rows[other] == s.rows[other]
      && (other in s'.timers <==> other in s.timers) && (other in s.timers ==> s'.timers[other] == s.timers[other])
      && (other in s'.connected <==> other in s.connected) && (other in s'.detached <==> other in s.detached)
  {
  }
}
