/**
  When a claim is granted, created or kept going, why it is refused or retired
  otherwise, and what that does to its row, in terms of the stored row and the
  answers of the other stores alone.
 */
module ClaimAnswers {
  import opened Wrappers
  import opened Claims
  import opened ClaimInvariants

  /** Out of time. */
  ghost predicate Overdue(row: Row, now: real) { row.deadline.Some? && row.deadline.value <= now }

  /** The row, closed for a reason. */
  ghost function ClosedFor(row: Row, reason: Reason): Row {
    row.(status := Closed, activity := Ended, deadline := None, reason := Some(reason))
  }

  /** Only this row closes, with its timer and markers. */
  ghost predicate Closes(s: Store, s': Store, handle: string, reason: Reason)
    requires handle in s.rows
  {
    && s'.rows == s.rows[handle := ClosedFor(s.rows[handle], reason)]
    && s' == s.(rows := s'.rows, timers := s.timers - {handle}, connected := s.connected - {handle},
                detached := s.detached - {handle}, denied := s'.denied)
  }

  // -------------------------------------------------------------- resolution

  /** The device owns an active row that nothing bars, and it can be read. */
  ghost predicate Readable(s: Store, handle: string, device: string, io: Access) {
    && handle !in s.denied && (handle, Some(device)) !in s.failed && (handle, None) !in s.failed && !io.readFails
    && handle in s.rows && s.rows[handle].device == device && s.rows[handle].status == Active
  }

  /** In time, and the paired-room policy or the grant store has not refused it. */
  ghost predicate Allowed(row: Row, now: real, a: Authority) {
    && !Overdue(row, now)
    && (row.kind == PairedRoomClaim ==> a.pairedAllowed)
    && (row.kind == ClientClaim ==> a.grant != CheckRaised && a.grant != CheckSaid(false))
  }

  /** A paired claim is of the revision that is current. */
  ghost predicate SameRevision(row: Row, a: Authority)
    requires a.configuration.Snapshot?
  {
    row.kind == PairedRoomClaim ==> a.configuration.revision == row.revision
  }

  ghost predicate ProfileAvailable(row: Row, a: Authority)
    requires a.configuration.Snapshot?
  {
    row.profile in a.configuration.profiles && a.configuration.profiles[row.profile]
  }

  /** The mapping, as far as it is still listed, is active. */
  ghost predicate MappingActive(row: Row, a: Authority)
    requires a.configuration.Snapshot?
  {
    row.mapping.Some? && row.mapping.value in a.configuration.mappings ==> a.configuration.mappings[row.mapping.value]
  }

  ghost predicate MayHold(s: Store, handle: string, device: string, now: real, a: Authority, io: Access) {
    && Readable(s, handle, device, io) && Allowed(s.rows[handle], now, a) && a.configuration.Snapshot?
    && SameRevision(s.rows[handle], a) && ProfileAvailable(s.rows[handle], a) && MappingActive(s.rows[handle], a)
  }

  /** Typed choices: for a client by its projected revision, for a Room device by the snapshot's. */
  ghost predicate TypedChoices(row: Row, a: Authority)
    requires a.configuration.Snapshot?
  {
    && (row.kind == ClientClaim ==> row.device in a.configuration.choiceClients && a.projected == Some(row.revision))
    && (row.kind != ClientClaim ==>
          row.device in a.configuration.choiceDevices && a.configuration.revision == row.revision)
  }

  /** Resolution grants a claim exactly when the device owns it, it is active and
      in time, nothing bars it, and policy, grant store and configuration all
      allow it; the grant then says what the row says, and the store is unchanged. */
  lemma GrantedExactly(s: Store, handle: string, device: string, now: real, a: Authority, io: Access, nested: Access)
    ensures var (s', r) := Resolve(s, handle, device, now, a, io, nested);
      && (r.Granted? <==> MayHold(s, handle, device, now, a, io))
      && (r.Granted? ==>
            var row := s.rows[handle];
            && s' == s
            && r.grant == ConversationGrant(handle, device, row.profile, row.session, row.generation, row.revision,
                                            TypedChoices(row, a)))
  {
  }

  /** Why a readable claim is retired by its resolution. */
  ghost predicate RetiresFor(row: Row, now: real, a: Authority, reason: Reason) {
    match reason
    case FirstOpenExpired => Overdue(row, now) && row.activity == Ready
    case ClientDisconnected => Overdue(row, now) && row.activity == Disconnected
    case IdleExpired => Overdue(row, now) && row.activity != Ready && row.activity != Disconnected
    case GrantRevoked => !Overdue(row, now) && row.kind == ClientClaim && a.grant == CheckSaid(false)
    case ConfigurationMigration => Allowed(row, now, a) && a.configuration.MigrationRequired?
    case ProfileRevoked =>
      Allowed(row, now, a) && a.configuration.Snapshot? && SameRevision(row, a) && !ProfileAvailable(row, a)
    case MappingRevoked =>
      && Allowed(row, now, a) && a.configuration.Snapshot? && SameRevision(row, a) && ProfileAvailable(row, a)
      && !MappingActive(row, a)
    case _ => false
  }

  /** A paired claim whose policy refuses it or whose revision has passed. */
  ghost predicate DeniedNow(row: Row, now: real, a: Authority) {
    && row.kind == PairedRoomClaim && !Overdue(row, now)
    && (!a.pairedAllowed || (a.configuration.Snapshot? && a.configuration.revision != row.revision))
  }

  /** A readable claim that is not granted is retired for its one reason, or
      denied for good, or left alone while another store cannot tell; a write
      that fails leaves the row as it was. */
  lemma RefusalsRetire(s: Store, handle: string, device: string, now: real, a: Authority, io: Access,
          nested: Access, reason: Reason)
    requires Readable(s, handle, device, io)
    ensures var ((s', r), row) := (Resolve(s, handle, device, now, a, io, nested), s.rows[handle]);
      && (RetiresFor(row, now, a, reason) ==>
            if io.writeFails then s' == s && r == ResolveFailed
            else Closes(s, s', handle, reason) && s'.denied == s.denied && r == NoGrant)
      && (DeniedNow(row, now, a) ==>
            && s'.denied == s.denied + {handle}
            && (if nested.writeFails then s'.rows == s.rows && r == ResolveFailed
                else Closes(s, s', handle, PairedRoomRevoked) && r == NoGrant))
      && (Allowed(row, now, a) && a.configuration.ReadError? ==> s' == s && r == ResolveFailed)
      && (Allowed(row, now, a) && a.configuration.Unreadable? ==> s' == s && r == NoGrant)
      && (!Overdue(row, now) && row.kind == ClientClaim && a.grant == CheckRaised ==> s' == s && r == NoGrant)
  {
  }

  /** A claim that is not readable is refused. A denied one is also closed if it
      is a paired claim of the device; for one whose upstream was lost its
      closing is tried again. */
  lemma UnreadableIsRefused(s: Store, handle: string, device: string, now: real, a: Authority, io: Access,
          nested: Access)
    requires !Readable(s, handle, device, io)
    ensures var (s', r) := Resolve(s, handle, device, now, a, io, nested);
      var lost := (handle, Some(device)) in s.failed || (handle, None) in s.failed;
      var owned := handle in s.rows && s.rows[handle].device == device;
      if handle in s.denied then
        && r == (if nested.writeFails then ResolveFailed else NoGrant)
        && (if !nested.writeFails && owned && s.rows[handle].status == Active && s.rows[handle].kind == PairedRoomClaim
            then Closes(s, s', handle, PairedRoomRevoked) && s'.denied == s.denied else s'.rows == s.rows)
      else if lost then
        && r == NoGrant
        && (if owned && s.rows[handle].status == Active && !nested.readFails && !nested.writeFails
            then s'.rows == s.rows[handle := ClosedFor(s.rows[handle], UpstreamLost)] else s'.rows == s.rows)
      else s' == s && r == if io.readFails then ResolveFailed else NoGrant
  {
  }

  // ----------------------------------------------------- published snapshots

  /** The configuration's part of a resolution lets the claim pass. */
  ghost predicate Admits(c: Configuration, row: Row) {
    && c.Snapshot?
    && (row.kind == PairedRoomClaim ==> c.revision == row.revision)
    && row.profile in c.profiles && c.profiles[row.profile]
    && (row.mapping.Some? && row.mapping.value in c.mappings ==> c.mappings[row.mapping.value])
  }

  lemma AdmitsWhatResolves(row: Row, a: Authority)
    ensures Admits(a.configuration, row) <==>
            a.configuration.Snapshot? && SameRevision(row, a) && ProfileAvailable(row, a) && MappingActive(row, a)
  {
  }

  /** The claim's Profile was available before the publish, and a mapping that
      the publish lists as inactive was listed as active. */
  ghost predicate Expected(was: Configuration, published: Configuration, row: Row)
    requires was.Snapshot? && published.Snapshot?
  {
    && row.profile in was.profiles && was.profiles[row.profile]
    && (row.mapping.Some? && row.mapping.value in published.mappings && !published.mappings[row.mapping.value] ==>
          row.mapping.value in was.mappings && was.mappings[row.mapping.value])
  }

  /** A publish closes at once what resolution would retire one by one: of the
      active claims that were to be expected before it, exactly those stay that
      the new snapshot lets pass, and paired ones of an older revision when
      neither snapshot admits a paired Room. Without an earlier one it closes all. */
  lemma PublishClosesWhatResolutionRetires(s: Store, previous: Option<Configuration>, published: Configuration,
          paired: bool, h: string)
    requires published.Snapshot? && (previous.Some? ==> previous.value.Snapshot?)
    requires h in s.rows && s.rows[h].status == Active
    ensures var rows, row := AfterPublish(s, previous, published, paired).rows, s.rows[h];
      && h in rows
      && (previous.None? ==> rows[h] == ClosedFor(row, Other("configuration_unverified")))
      && (previous.Some? && Expected(previous.value, published, row) ==>
            rows[h] == if Admits(published, row) then row
                       else if row.profile !in published.profiles || !published.profiles[row.profile]
                       then ClosedFor(row, ProfileRevoked)
                       else if row.mapping.Some? && row.mapping.value in published.mappings
                               && !published.mappings[row.mapping.value]
                       then ClosedFor(row, MappingRevoked)
                       else if paired then ClosedFor(row, Other("configuration_changed"))
                       else row)
  {
    hide AfterPublish, CloseMatching;
    if previous.Some? {
      PublishedRow(s, previous.value, published, paired, h);
    } else {
      UnverifiedRow(s, published, paired, h);
    }
  }

  lemma UnverifiedRow(s: Store, published: Configuration, paired: bool, h: string)
    requires published.Snapshot? && h in s.rows && s.rows[h].status == Active
    ensures var rows := AfterPublish(s, None, published, paired).rows;
      h in rows && rows[h] == ClosedFor(s.rows[h], Other("configuration_unverified"))
  {
    hide CloseMatching;
    MatchingRow(s, Everything, Other("configuration_unverified"), h);
  }

  /** The first of the three closings of a publish that selects a claim ends it. */
  lemma PublishedRow(s: Store, was: Configuration, published: Configuration, paired: bool, h: string)
    requires was.Snapshot? && published.Snapshot? && h in s.rows && s.rows[h].status == Active
    ensures var rows, row := AfterPublish(s, Some(was), published, paired).rows, s.rows[h];
      && h in rows
      && rows[h] ==
         if row.profile in was.profiles && was.profiles[row.profile]
            && (row.profile !in published.profiles || !published.profiles[row.profile])
         then ClosedFor(row, ProfileRevoked)
         else if row.mapping.Some? && row.mapping.value in was.mappings && was.mappings[row.mapping.value]
                 && row.mapping.value in published.mappings && !published.mappings[row.mapping.value]
         then ClosedFor(row, MappingRevoked)
         else if paired && row.kind == PairedRoomClaim && row.revision != published.revision
         then ClosedFor(row, Other("configuration_changed"))
         else row
  {
    var profiles, mappings := LostProfiles(was, published), LostMappings(was, published);
    var s1 := CloseMatching(s, OnProfiles(profiles), ProfileRevoked);
    var s2 := CloseMatching(s1, OnMappings(mappings), MappingRevoked);
    hide CloseMatching, ClosedFor;
    MatchingRow(s, OnProfiles(profiles), ProfileRevoked, h);
    MatchingRow(s1, OnMappings(mappings), MappingRevoked, h);
    MatchingRow(s2, PairedBefore(published.revision), Other("configuration_changed"), h);
  }

  /** What a closing does to one row. */
  lemma MatchingRow(s: Store, sel: Selector, reason: Reason, h: string)
    requires h in s.rows
    ensures var rows := CloseMatching(s, sel, reason).rows;
      && h in rows
      && rows[h] == if s.rows[h].status == Active && Selects(sel, h, s.rows[h])
                    then ClosedFor(s.rows[h], reason) else s.rows[h]
  {
    ClosedRows(s, sel, reason);
    hide CloseMatching;
  }

  lemma ClosedRows(s: Store, sel: Selector, reason: Reason)
    ensures CloseMatching(s, sel, reason).rows == MatchingClosed(s.rows, sel, reason)
  {
    hide MatchingClosed, MatchingHandles;
  }

  /** A client closes exactly its own active client claims that it names. */
  lemma ClientClosesItsOwn(s: Store, device: string, refs: set<string>, reason: Reason, h: string)
    requires h in s.rows
    ensures var rows, row := CloseMatching(s, ByRefs(device, refs), reason).rows, s.rows[h];
      && h in rows
      && rows[h] == if row.status == Active && row.kind == ClientClaim && row.device == device && row.ref.Some?
                       && row.ref.value in refs
                    then ClosedFor(row, reason) else row
  {
  }

  // ---------------------------------------------------------------- creation

  /** The rows after the sweep that every creation starts with. */
  ghost predicate SweptRows(rows: map<string, Row>, rows': map<string, Row>, now: real) {
    && rows'.Keys == rows.Keys
    && forall h :: h in rows ==>
         rows'[h] ==
         if rows[h].status == Active && Overdue(rows[h], now)
         then ClosedFor(rows[h], if rows[h].activity == Ready then FirstOpenExpired
                                 else if rows[h].activity == Disconnected then ClientDisconnected else IdleExpired)
         else rows[h]
  }

  /** The claim holds its Room now. */
  ghost predicate HoldsRoom(rows: map<string, Row>, h: string, room: string, now: real) {
    h in rows && rows[h].status == Active && !Overdue(rows[h], now) && rows[h].room == Some(room)
  }

  /** The holder keeps the Room unless a touch finds it waiting out its idle tail. */
  ghost predicate KeepsRoom(row: Row, d: Decision) {
    !(d.origin == Touch && row.activity == Idle && row.deadline.Some?)
  }

  ghost predicate Blocked(s: Store, d: Decision, now: real) {
    exists h :: HoldsRoom(s.rows, h, d.room, now) && KeepsRoom(s.rows[h], d)
  }

  /** The handle or the claim ID has been used before. */
  ghost predicate UsedBefore(rows: map<string, Row>, handle: string, claimId: string) {
    handle in rows || exists h :: h in rows && rows[h].claimId == claimId
  }

  ghost predicate FreshRoomRow(row: Row, d: Decision, generation: Option<nat>, deadline: real) {
    && row.claimId == d.claimId && row.device == d.device && row.room == Some(d.room) && row.mapping == Some(d.mapping)
    && row.profile == d.profile && row.revision == d.revision && row.generation == generation && row.session == None
    && row.status == Active && row.activity == Ready && row.deadline == Some(deadline) && row.reason == None
    && row.kind == (if d.origin == PairedRoom then PairedRoomClaim else RoomClaim) && row.grant == None
    && row.ref == None
  }

  /** A Room claim is made exactly when nobody keeps the Room and neither the
      handle nor the claim ID was used before; a holder that does keep it is
      named to a touch from another device as a busy Room. */
  lemma RoomClaimIsAnswered(cfg: Settings, s: Store, now: real, d: Decision, generation: Option<nat>, handle: string)
    requires OnePerRoom(s.rows)
    ensures var r := CreateRoom(cfg, s, now, d, generation, handle, NoFault).1;
      && (r.Made? <==> !Blocked(s, d, now) && !UsedBefore(s.rows, handle, d.claimId))
      && (r == Refused(DuplicateClaim) <==> !Blocked(s, d, now) && UsedBefore(s.rows, handle, d.claimId))
      && (r == Refused(RoomBusy) <==>
            exists h :: HoldsRoom(s.rows, h, d.room, now) && KeepsRoom(s.rows[h], d) && d.origin == Touch
                        && s.rows[h].device != d.device)
      && (r == Refused(ConversationActive) <==>
            exists h :: HoldsRoom(s.rows, h, d.room, now) && KeepsRoom(s.rows[h], d)
                        && (d.origin != Touch || s.rows[h].device == d.device))
  {
    SweepKeepsHolders(s, d.room, now);
    SweepKeepsUse(s, handle, d.claimId, now);
    var swept := Sweep(s, now);
    var holder := RoomHolder(swept.rows, d.room);
    forall h | HoldsRoom(s.rows, h, d.room, now)
      ensures holder == Some(h) && swept.rows[h] == s.rows[h]
    {
      assert Claims.Holds(swept.rows, h, d.room);
    }
  }

  lemma SweepKeepsHolders(s: Store, room: string, now: real)
    ensures forall h :: Claims.Holds(Sweep(s, now).rows, h, room) <==> HoldsRoom(s.rows, h, room, now)
    ensures OnePerRoom(s.rows) ==> OnePerRoom(Sweep(s, now).rows)
  {
  }

  lemma SweepKeepsUse(s: Store, handle: string, claimId: string, now: real)
    ensures handle in Sweep(s, now).rows || ClaimUsed(Sweep(s, now).rows, claimId) <==>
            UsedBefore(s.rows, handle, claimId)
  {
    if h :| h in s.rows && s.rows[h].claimId == claimId {
      assert h in Sweep(s, now).rows && Sweep(s, now).rows[h].claimId == claimId;
    }
  }

  /** What creating does to the table: a sweep, the end of a conversation in its
      idle tail that a touch takes over, and the new row with its first-open timer. */
  lemma RoomClaimIsWritten(cfg: Settings, s: Store, now: real, d: Decision, generation: Option<nat>, handle: string)
    requires OnePerRoom(s.rows)
    ensures var (s', r) := CreateRoom(cfg, s, now, d, generation, handle, NoFault);
      if !r.Made? then SweptRows(s.rows, s'.rows, now)
      else
        && r == Made(handle) && handle in s'.rows && handle in s'.timers && s'.timers[handle] == now + cfg.firstOpen
        && FreshRoomRow(s'.rows[handle], d, generation, now + cfg.firstOpen)
        && s'.rows.Keys == s.rows.Keys + {handle}
        && (forall h :: HoldsRoom(s.rows, h, d.room, now) ==>
              s'.rows[h] == ClosedFor(s.rows[h], SupersededByTouch))
        && (forall h :: h in s.rows && !HoldsRoom(s.rows, h, d.room, now) ==>
              s'.rows[h] == Sweep(s, now).rows[h])
  {
    SweepKeepsHolders(s, d.room, now);
    SweepIsSwept(s, now);
    var swept := Sweep(s, now);
    RoomIsAdmitted(cfg, swept, now, d, generation, handle);
    var holder := RoomHolder(swept.rows, d.room);
    hide AdmitRoom, Sweep, OnePerRoom;
    forall h | HoldsRoom(s.rows, h, d.room, now)
      ensures holder == Some(h) && swept.rows[h] == s.rows[h]
    {
      assert Claims.Holds(swept.rows, h, d.room);
      OneHolder(swept.rows, d.room, h);
    }
  }

  lemma OneHolder(rows: map<string, Row>, room: string, h: string)
    requires OnePerRoom(rows) && Claims.Holds(rows, h, room)
    ensures RoomHolder(rows, room) == Some(h)
  {
    assert RoomHolder(rows, room).Some?;
  }

  lemma RoomIsAdmitted(cfg: Settings, swept: Store, now: real, d: Decision, generation: Option<nat>, handle: string)
    ensures var ((s', r), holder) :=
        (AdmitRoom(cfg, swept, now, d, generation, handle), RoomHolder(swept.rows, d.room));
      if r.Made? then
        && r == Made(handle) && handle in s'.rows && handle !in swept.rows
        && handle in s'.timers && s'.timers[handle] == now + cfg.firstOpen
        && FreshRoomRow(s'.rows[handle], d, generation, now + cfg.firstOpen)
        && s'.rows.Keys == swept.rows.Keys + {handle}
        && (forall h :: h in swept.rows ==>
              s'.rows[h] ==
              if holder == Some(h) then ClosedFor(swept.rows[h], SupersededByTouch) else swept.rows[h])
      else s' == swept
  {
  }

  lemma SweepIsSwept(s: Store, now: real)
    ensures SweptRows(s.rows, Sweep(s, now).rows, now)
  {
  }

  /** The device's client claims that are active and in time. */
  ghost function LiveClients(rows: map<string, Row>, device: string, now: real): set<string> {
    set h | h in rows && rows[h].status == Active && !Overdue(rows[h], now) && rows[h].kind == ClientClaim
            && rows[h].device == device
  }

  /** A claim that is active and in time continues the Session. */
  ghost predicate SessionTaken(rows: map<string, Row>, session: string, now: real) {
    exists h :: h in rows && rows[h].status == Active && !Overdue(rows[h], now) && rows[h].session == Some(session)
  }

  ghost predicate ReferenceUsed(rows: map<string, Row>, ref: string) {
    exists h :: h in rows && rows[h].ref == Some(ref)
  }

  ghost predicate FreshClientRow(row: Row, q: ClientRequest, generation: Option<nat>, deadline: real, ref: string) {
    && row.claimId == q.claimId && row.device == q.device && row.room == None && row.mapping == None
    && row.profile == q.profile && row.revision == q.revision && row.generation == generation
    && row.session == q.session && row.status == Active && row.activity == Ready && row.deadline == Some(deadline)
    && row.reason == None && row.kind == ClientClaim && row.grant == Some(q.grant) && row.ref == Some(ref)
  }

  /** A client claim is made exactly when the device has fewer live ones than it
      may have, its Session is not taken and no name was used before; it changes
      no other row than the sweep does. */
  lemma ClientClaimIsAnswered(cfg: Settings, s: Store, now: real, q: ClientRequest, generation: Option<nat>,
          handle: string, ref: string)
    ensures var (s', r) := CreateClient(cfg, s, now, q, generation, handle, ref, NoFault);
      var full := |LiveClients(s.rows, q.device, now)| >= cfg.perDevice;
      var taken := q.session.Some? && SessionTaken(s.rows, q.session.value, now);
      var used := UsedBefore(s.rows, handle, q.claimId) || ReferenceUsed(s.rows, ref);
      && (r == Made(handle) <==> !full && !taken && !used)
      && (r == Refused(ClaimLimit) <==> full)
      && (r == Refused(SessionInUse) <==> !full && taken)
      && (r == Refused(DuplicateClaim) <==> !full && !taken && used)
      && (r != Made(handle) ==> s' == Sweep(s, now))
      && (r == Made(handle) ==>
            && handle in s'.rows && FreshClientRow(s'.rows[handle], q, generation, now + cfg.firstOpen, ref)
            && s' == Sweep(s, now).(rows := Sweep(s, now).rows[handle := s'.rows[handle]],
                                    timers := Sweep(s, now).timers[handle := now + cfg.firstOpen]))
  {
    hide Sweep;
    SweepKeepsClients(s, q.device, now);
    SweepKeepsUse(s, handle, q.claimId, now);
    SweepKeepsNames(s, ref, now);
    if q.session.Some? {
      SweepKeepsSessions(s, q.session.value, now);
    }
  }

  lemma SweepKeepsClients(s: Store, device: string, now: real)
    ensures ActiveClients(Sweep(s, now).rows, device) == LiveClients(s.rows, device, now)
  {
    SweepIsSwept(s, now);
    hide Sweep;
    forall h
      ensures h in ActiveClients(Sweep(s, now).rows, device) <==> h in LiveClients(s.rows, device, now)
    {
    }
  }

  lemma SweepKeepsNames(s: Store, ref: string, now: real)
    ensures RefUsed(Sweep(s, now).rows, ref) <==> ReferenceUsed(s.rows, ref)
  {
    SweepIsSwept(s, now);
    hide Sweep;
    if h :| h in s.rows && s.rows[h].ref == Some(ref) {
      assert Sweep(s, now).rows[h].ref == Some(ref);
    }
  }

  lemma SweepKeepsSessions(s: Store, session: string, now: real)
    ensures SessionBusy(Sweep(s, now).rows, session) <==> SessionTaken(s.rows, session, now)
  {
    SweepIsSwept(s, now);
    hide Sweep;
    if SessionTaken(s.rows, session, now) {
      var h :| h in s.rows && s.rows[h].status == Active && !Overdue(s.rows[h], now)
               && s.rows[h].session == Some(session);
      assert Sweep(s, now).rows[h] == s.rows[h];
    }
  }

  /** A creation whose sweep or transaction fails makes no claim. */
  lemma FailedCreation(cfg: Settings, s: Store, now: real, d: Decision, q: ClientRequest, generation: Option<nat>,
          handle: string, ref: string, fault: Fault)
    requires fault != NoFault
    ensures var s' := if fault == SweepFails then s else Sweep(s, now);
      && CreateRoom(cfg, s, now, d, generation, handle, fault) == (s', Failed)
      && CreateClient(cfg, s, now, q, generation, handle, ref, fault) == (s', Failed)
  {
  }

  // ---------------------------------------------------------------- activity

  /** A Session is bound to a claim exactly when the grant still describes it,
      it has no other Session, and no other active claim has this one. */
  lemma SessionIsAnswered(s: Store, g: ConversationGrant, session: string, fails: bool)
    ensures var (s', r) := PersistSession(s, g, session, fails);
      var blank := forall i :: 0 <= i < |session| ==> session[i] in {' ', '\t', '\n', '\r'};
      var described := g.handle in s.rows && s.rows[g.handle].status == Active && s.rows[g.handle].device == g.device
                       && s.rows[g.handle].profile == g.profile && s.rows[g.handle].generation == g.generation;
      var free := forall h :: h in s.rows && h != g.handle && s.rows[h].status == Active ==>
                    s.rows[h].session != Some(session);
      && (r == Failure <==> !blank && fails)
      && (r == Yes <==>
            !blank && !fails && described && s.rows[g.handle].session in {None, Some(session)} && free)
      && s' == if r == Yes then s.(rows := s.rows[g.handle := s.rows[g.handle].(session := Some(session))]) else s
  {
  }

  /** The device's own active row, still in time. */
  ghost predicate InHand(s: Store, handle: string, device: string, now: real) {
    && handle in s.rows && s.rows[handle].device == device && s.rows[handle].status == Active
    && !Overdue(s.rows[handle], now)
  }

  /** Activity is recorded exactly for a claim in hand, and the end of a playback
      only while there is one or its response; only an idle Room claim starts a
      tail, and every other report stops the timer. */
  lemma ActivityIsAnswered(cfg: Settings, s: Store, handle: string, device: string, report: Report, now: real,
          fails: bool)
    ensures var (s', r) := RecordActivity(cfg, s, handle, device, report, now, fails);
      && (r == Failure <==> fails)
      && (r == Yes <==>
            && !fails && InHand(s, handle, device, now)
            && (report == PlaybackComplete ==> s.rows[handle].activity in {Playback, ResponseReady}))
      && (r == Yes ==>
            var tail := s.rows[handle].kind != ClientClaim && report in {PlaybackComplete, Idling};
            var activity := match report
              case Capturing => Capture
              case InTurn => Turn
              case Playing => Playback
              case Responded => ResponseReady
              case PlaybackComplete => Idle
              case Idling => Idle;
            && s'.rows == s.rows[handle := s.rows[handle].(
                 activity := activity, deadline := if tail then Some(now + cfg.idle) else None)]
            && s'.timers == (if tail then s.timers[handle := now + cfg.idle] else s.timers - {handle})
            && s' == s.(rows := s'.rows, timers := s'.timers))
  {
  }

  /** Opening takes exactly a claim in hand, and stops its timer. */
  lemma OpeningIsAnswered(s: Store, handle: string, device: string, now: real, fails: bool)
    ensures var (s', r) := MarkOpen(s, handle, device, now, fails);
      && (r == Failure <==> fails)
      && (r == Yes <==> !fails && InHand(s, handle, device, now))
      && (r == Yes ==>
            s' == s.(rows := s.rows[handle := s.rows[handle].(activity := Open, deadline := None)],
                     timers := s.timers - {handle}, connected := s.connected + {handle},
                     detached := s.detached - {handle}))
  {
  }

  /** A disconnect gives an active client claim that was opened its grace, and
      takes the connected marker from any claim of the device. */
  lemma DisconnectIsAnswered(cfg: Settings, s: Store, handle: string, device: string, now: real, io: Access)
    ensures var (s', r) := MarkDisconnected(cfg, s, handle, device, now, io);
      var own := !io.readFails && handle in s.rows && s.rows[handle].device == device;
      var waits := own && s.rows[handle].kind == ClientClaim && s.rows[handle].status == Active
                   && s.rows[handle].activity != Ready;
      && (r == Failure <==> io.readFails || (waits && io.writeFails)) && r != No
      && s'.connected == (if own then s.connected - {handle} else s.connected)
      && s'.rows == (if waits && !io.writeFails
                     then s.rows[handle := s.rows[handle].(activity := Disconnected, deadline := Some(now + cfg.grace))]
                     else s.rows)
      && s'.timers == (if waits && !io.writeFails then s.timers[handle := now + cfg.grace] else s.timers)
      && s' == s.(rows := s'.rows, timers := s'.timers, connected := s'.connected)
  {
  }

  /** Closing reaches exactly a row of the named owner. A lost upstream is
      remembered before anything can fail and until the row is closed. */
  lemma ClosingIsAnswered(s: Store, handle: string, owner: Option<string>, reason: Reason, io: Access)
    ensures var (s', r) := CloseClaim(s, handle, owner, reason, io);
      var own := handle in s.rows && (owner == None || owner == Some(s.rows[handle].device));
      var failed := if reason == UpstreamLost then s.failed + {(handle, owner)} else s.failed;
      && (r == Yes <==> !io.readFails && own && !io.writeFails) && (r == No <==> !io.readFails && !own)
      && s'.failed == (if r == Failure then failed else if r == No then failed - {(handle, owner)}
                       else failed - {(handle, owner), (handle, None)})
      && (r != Yes ==> s' == s.(failed := s'.failed))
      && (r == Yes ==>
            s' == s.(rows := s.rows[handle := if s.rows[handle].status == Active
                                              then ClosedFor(s.rows[handle], reason) else s.rows[handle]],
                     timers := s.timers - {handle}, connected := s.connected - {handle},
                     detached := s.detached - {handle}, failed := s'.failed))
  {
  }

  // ------------------------------------------------------------------- reads

  /** The device's one claim that is active and in time. */
  ghost predicate OnlyLive(s: Store, h: string, device: string, now: real) {
    && h in s.rows && s.rows[h].device == device && s.rows[h].status == Active && !Overdue(s.rows[h], now)
    && forall other :: other in s.rows && other != h ==>
         !(s.rows[other].device == device && s.rows[other].status == Active && !Overdue(s.rows[other], now))
  }

  /** The Watch shows exactly the one live claim of a device, when it is
      connected, of the asked revision and not being wound up. */
  lemma WatchIsAnswered(s: Store, device: string, revision: int, now: real)
    ensures var v := WatchSnapshot(s, device, revision, now);
      && (v.Some? <==> exists h ::
            OnlyLive(s, h, device, now) && s.rows[h].revision == revision && h in s.connected
            && s.rows[h].activity != Disconnected && s.rows[h].activity != Ended)
      && (forall h :: OnlyLive(s, h, device, now) && v.Some? ==>
            var row := s.rows[h];
            v == Some(WatchView(row.profile, row.revision, row.generation, row.activity,
                                row.session.Some? && row.session.value != "")))
  {
    OneLiveExactly(s, device, now);
  }

  lemma OneLiveExactly(s: Store, device: string, now: real)
    ensures forall h :: OnlyLive(s, h, device, now) <==> LiveOn(s, device, now) == {h}
    ensures |LiveOn(s, device, now)| == 1 <==> exists h :: LiveOn(s, device, now) == {h}
  {
    var live := LiveOn(s, device, now);
    forall h | h in s.rows
      ensures h in live <==> s.rows[h].device == device && s.rows[h].status == Active && !Overdue(s.rows[h], now)
    {
    }
    forall h | OnlyLive(s, h, device, now)
      ensures live == {h}
    {
      assert h in live;
    }
    if |live| == 1 {
      var h :| h in live;
      assert |live - {h}| == 0;
      assert live == {h};
    }
  }

  /** A delivery finds nothing, one claim that takes it, or no claim it can be sure of. */
  lemma DeliveryIsAnswered(s: Store, device: string, now: real)
    ensures var r := DeliveryState(s, device, now);
      && (r == NothingActive <==> LiveOn(s, device, now) == {})
      && (forall activity :: r == Delivering(activity) <==>
            && activity != Disconnected && activity != Ended
            && exists h :: OnlyLive(s, h, device, now) && s.rows[h].activity == activity)
  {
    OneLiveExactly(s, device, now);
  }
}
