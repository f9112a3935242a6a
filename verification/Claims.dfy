/**
  The conversation claim table with the in-memory markers kept beside it, and
  every operation on them as a function.

  A table read or write that fails is an argument of the operation; a failed
  transaction leaves the table as it was. Columns that nothing reads back
  (creation, update and opening times) are not represented.
 */
module Claims {
  import opened Wrappers

  datatype Kind = RoomClaim | PairedRoomClaim | ClientClaim
  datatype Status = Active | Closed
  datatype Activity = Ready | Open | Capture | Turn | Playback | ResponseReady | Idle | Disconnected | Ended

  datatype Reason =
    | FirstOpenExpired | ClientDisconnected | IdleExpired | SupersededByTouch | UpstreamLost
    | EndpointRevoked | GrantRevoked | PairedRoomRevoked | ProfileRevoked | MappingRevoked
    | ConfigurationMigration | ServiceRestart | Other(text: string)

  datatype Row = Row(
    claimId: string, device: string, room: Option<string>, mapping: Option<string>,
    profile: string, revision: int, generation: Option<nat>, session: Option<string>,
    status: Status, activity: Activity, deadline: Option<real>, reason: Option<Reason>,
    kind: Kind, grant: Option<string>, ref: Option<string>)

  datatype Store = Store(
    rows: map<string, Row>, timers: map<string, real>, detached: set<string>, connected: set<string>,
    denied: set<string>, failed: set<(string, Option<string>)>)

  datatype Settings = Settings(firstOpen: real, idle: real, grace: real, perDevice: nat)

  // ----------------------------------------------------------------- expiry

  function ExpiryReason(activity: Activity): Reason {
    match activity
    case Ready => FirstOpenExpired
    case Disconnected => ClientDisconnected
    case _ => IdleExpired
  }

  /** Only an active row changes, so the first reason is the one kept. */
  function Ending(row: Row, reason: Reason): Row {
    if row.status == Active
    then row.(status := Closed, activity := Ended, deadline := None, reason := Some(reason))
    else row
  }

  predicate Due(row: Row, now: real) {
    row.status == Active && row.deadline.Some? && row.deadline.value <= now
  }

  function Expiring(row: Row, now: real): Row {
    if Due(row, now) then Ending(row, ExpiryReason(row.activity)) else row
  }

  function Forget(s: Store, handles: set<string>): Store {
    s.(timers := s.timers - handles, connected := s.connected - handles, detached := s.detached - handles)
  }

  function DueHandles(rows: map<string, Row>, now: real): set<string> { set h | h in rows && Due(rows[h], now) }

  function ExpiredRows(rows: map<string, Row>, now: real): map<string, Row> {
    map h | h in rows :: Expiring(rows[h], now)
  }

  /** `_expire_due_locked`. */
  function Sweep(s: Store, now: real): Store {
    Forget(s.(rows := ExpiredRows(s.rows, now)), DueHandles(s.rows, now))
  }

  /** The timer callback `_expire`, armed for one deadline. */
  function TimerFires(s: Store, handle: string, deadline: real, now: real): Store {
    var rows :=
      if handle in s.rows && s.rows[handle].deadline == Some(deadline)
      then s.rows[handle := Expiring(s.rows[handle], now)] else s.rows;
    Forget(s.(rows := rows), {handle})
  }

  /** `_close_locked`. */
  function CloseOne(s: Store, handle: string, reason: Reason): Store {
    Forget(s.(rows := if handle in s.rows then s.rows[handle := Ending(s.rows[handle], reason)] else s.rows), {handle})
  }

  datatype Selector =
    | OfDevice(device: string)
    | StaleOnDevice(device: string, generation: nat)
    | UnderGrant(grant: string)
    | OnProfiles(profiles: set<string>)
    | OnMappings(mappings: set<string>)
    | PairedBefore(revision: int)
    | ByRefs(device: string, refs: set<string>)
    | PairedHandle(handle: string, device: string)
    | Everything

  predicate Selects(sel: Selector, handle: string, row: Row) {
    match sel
    case OfDevice(d) => row.device == d
    case StaleOnDevice(d, g) => row.device == d && row.generation != Some(g)
    case UnderGrant(g) => row.grant == Some(g)
    case OnProfiles(ps) => row.profile in ps
    case OnMappings(ms) => row.mapping.Some? && row.mapping.value in ms
    case PairedBefore(rev) => row.kind == PairedRoomClaim && row.revision != rev
    case ByRefs(d, refs) => row.device == d && row.kind == ClientClaim && row.ref.Some? && row.ref.value in refs
    case PairedHandle(h, d) => handle == h && row.device == d && row.kind == PairedRoomClaim
    case Everything => true
  }

  function MatchingHandles(rows: map<string, Row>, sel: Selector): set<string> {
    set h | h in rows && rows[h].status == Active && Selects(sel, h, rows[h])
  }

  function MatchingClosed(rows: map<string, Row>, sel: Selector, reason: Reason): map<string, Row> {
    map h | h in rows :: if Selects(sel, h, rows[h]) then Ending(rows[h], reason) else rows[h]
  }

  /** `_close_matching_rows`. */
  function CloseMatching(s: Store, sel: Selector, reason: Reason): Store {
    Forget(s.(rows := MatchingClosed(s.rows, sel, reason)), MatchingHandles(s.rows, sel))
  }

  // --------------------------------------------------------------- creation

  datatype Origin = Wake | Touch | PairedRoom
  datatype Decision = Decision(
    claimId: string, device: string, room: string, mapping: string, profile: string, revision: int, origin: Origin)
  datatype ClientRequest = ClientRequest(
    claimId: string, device: string, grant: string, profile: string, revision: int, session: Option<string>)

  datatype Fault = NoFault | SweepFails | TransactionFails
  datatype Refusal = ConversationActive | RoomBusy | DuplicateClaim | ClaimLimit | SessionInUse
  datatype Created = Made(handle: string) | Refused(reason: Refusal) | Failed

  ghost predicate Holds(rows: map<string, Row>, handle: string, room: string) {
    handle in rows && rows[handle].status == Active && rows[handle].room == Some(room)
  }

  ghost function RoomHolder(rows: map<string, Row>, room: string): (r: Option<string>)
    ensures r.Some? ==> Holds(rows, r.value, room)
    ensures r.None? ==> forall h :: !Holds(rows, h, room)
  {
    if h :| Holds(rows, h, room) then Some(h) else None
  }

  /** A touch may take over a conversation that only waits out its idle tail. */
  predicate IdleTail(row: Row, origin: Origin, now: real) {
    origin == Touch && row.activity == Idle && row.deadline.Some? && row.deadline.value > now
  }

  ghost predicate ClaimUsed(rows: map<string, Row>, claimId: string) {
    exists h :: h in rows && rows[h].claimId == claimId
  }

  ghost predicate RefUsed(rows: map<string, Row>, ref: string) {
    exists h :: h in rows && rows[h].ref == Some(ref)
  }

  function RoomRow(d: Decision, generation: Option<nat>, deadline: real): Row {
    Row(d.claimId, d.device, Some(d.room), Some(d.mapping), d.profile, d.revision, generation, None,
        Active, Ready, Some(deadline), None,
        if d.origin == PairedRoom then PairedRoomClaim else RoomClaim, None, None)
  }

  function RefusalReason(holder: Row, d: Decision): Refusal {
    if d.origin != Touch || holder.device == d.device then ConversationActive else RoomBusy
  }

  ghost function CreateRoom(cfg: Settings, s: Store, now: real, d: Decision, generation: Option<nat>,
          handle: string, fault: Fault): (Store, Created)
  {
    if fault == SweepFails then (s, Failed)
    else if fault == TransactionFails then (Sweep(s, now), Failed)
    else AdmitRoom(cfg, Sweep(s, now), now, d, generation, handle)
  }

  /** The creating transaction, on a swept table. */
  ghost function AdmitRoom(cfg: Settings, swept: Store, now: real, d: Decision, generation: Option<nat>,
          handle: string): (Store, Created)
  {
    var holder := RoomHolder(swept.rows, d.room);
    if holder.Some? && !IdleTail(swept.rows[holder.value], d.origin, now)
    then (swept, Refused(RefusalReason(swept.rows[holder.value], d)))
    else if handle in swept.rows || ClaimUsed(swept.rows, d.claimId) then (swept, Refused(DuplicateClaim))
    else
      var cleared := if holder.Some? then CloseOne(swept, holder.value, SupersededByTouch) else swept;
      (Insert(cleared, handle, RoomRow(d, generation, now + cfg.firstOpen), now + cfg.firstOpen), Made(handle))
  }

  function Insert(s: Store, handle: string, row: Row, deadline: real): Store {
    s.(rows := s.rows[handle := row], timers := s.timers[handle := deadline])
  }

  predicate ActiveClient(row: Row, device: string) {
    row.status == Active && row.kind == ClientClaim && row.device == device
  }

  function ActiveClients(rows: map<string, Row>, device: string): set<string> {
    set h | h in rows && ActiveClient(rows[h], device)
  }

  ghost predicate SessionBusy(rows: map<string, Row>, session: string) {
    exists h :: h in rows && rows[h].status == Active && rows[h].session == Some(session)
  }

  function ClientRow(q: ClientRequest, generation: Option<nat>, deadline: real, ref: string): Row {
    Row(q.claimId, q.device, None, None, q.profile, q.revision, generation, q.session,
        Active, Ready, Some(deadline), None, ClientClaim, Some(q.grant), Some(ref))
  }

  ghost function CreateClient(cfg: Settings, s: Store, now: real, q: ClientRequest, generation: Option<nat>,
          handle: string, ref: string, fault: Fault): (Store, Created)
  {
    if fault == SweepFails then (s, Failed)
    else if fault == TransactionFails then (Sweep(s, now), Failed)
    else AdmitClient(cfg, Sweep(s, now), now, q, generation, handle, ref)
  }

  ghost function AdmitClient(cfg: Settings, swept: Store, now: real, q: ClientRequest, generation: Option<nat>,
          handle: string, ref: string): (Store, Created)
  {
    if |ActiveClients(swept.rows, q.device)| >= cfg.perDevice then (swept, Refused(ClaimLimit))
    else if q.session.Some? && SessionBusy(swept.rows, q.session.value) then (swept, Refused(SessionInUse))
    else if handle in swept.rows || ClaimUsed(swept.rows, q.claimId) || RefUsed(swept.rows, ref)
    then (swept, Refused(DuplicateClaim))
    else (Insert(swept, handle, ClientRow(q, generation, now + cfg.firstOpen, ref), now + cfg.firstOpen), Made(handle))
  }

  // ------------------------------------------------------------- resolution

  /** Which table accesses of one call fail. */
  datatype Access = Access(readFails: bool, writeFails: bool)

  datatype Answer = Yes | No | Failure

  function CloseClaim(s: Store, handle: string, device: Option<string>, reason: Reason, io: Access): (Store, Answer) {
    var key := (handle, device);
    var marked := if reason == UpstreamLost then s.(failed := s.failed + {key}) else s;
    if io.readFails then (marked, Failure)
    else if handle !in s.rows || (device.Some? && s.rows[handle].device != device.value)
    then (marked.(failed := marked.failed - {key}), No)
    else if io.writeFails then (marked, Failure)
    else
      var closed := CloseOne(marked, handle, reason);
      (closed.(failed := closed.failed - {key, (handle, None)}), Yes)
  }

  datatype GrantCheck = NoChecker | CheckRaised | CheckSaid(active: bool)
  datatype Configuration =
    | MigrationRequired | ReadError | Unreadable
    | Snapshot(revision: int, profiles: map<string, bool>, mappings: map<string, bool>,
               choiceDevices: set<string>, choiceClients: set<string>)

  /** What the other stores answer while one handle is resolved. */
  datatype Authority = Authority(
    pairedAllowed: bool, grant: GrantCheck, configuration: Configuration, projected: Option<int>)

  datatype ConversationGrant = ConversationGrant(
    handle: string, device: string, profile: string, session: Option<string>,
    generation: Option<nat>, revision: int, interactiveChoice: bool)
  datatype Resolution = Granted(grant: ConversationGrant) | NoGrant | ResolveFailed

  predicate MayChoose(row: Row, device: string, a: Authority)
    requires a.configuration.Snapshot?
  {
    if row.kind == ClientClaim
    then device in a.configuration.choiceClients && a.projected == Some(row.revision)
    else a.configuration.revision == row.revision && device in a.configuration.choiceDevices
  }

  function Retire(s: Store, handle: string, reason: Reason, io: Access): (Store, Resolution) {
    if io.writeFails then (s, ResolveFailed) else (CloseOne(s, handle, reason), NoGrant)
  }

  function Deny(s: Store, handle: string): (Store, Resolution) {
    (s.(denied := s.denied + {handle}), NoGrant)
  }

  /** The part of resolution that asks the configuration. */
  function Configured(s: Store, handle: string, row: Row, a: Authority, io: Access): (Store, Resolution) {
    match a.configuration
    case MigrationRequired => Retire(s, handle, ConfigurationMigration, io)
    case ReadError => (s, ResolveFailed)
    case Unreadable => (s, NoGrant)
    case Snapshot(revision, profiles, mappings, _, _) =>
      if row.kind == PairedRoomClaim && revision != row.revision then Deny(s, handle)
      else if row.profile !in profiles || !profiles[row.profile] then Retire(s, handle, ProfileRevoked, io)
      else if row.mapping.Some? && row.mapping.value in mappings && !mappings[row.mapping.value]
      then Retire(s, handle, MappingRevoked, io)
      else
        (s, Granted(ConversationGrant(handle, row.device, row.profile, row.session, row.generation, row.revision,
                                      MayChoose(row, row.device, a))))
  }

  function ResolveGrant(s: Store, handle: string, device: string, now: real, a: Authority, io: Access,
          nested: Access): (Store, Resolution)
  {
    if handle in s.denied then (s, NoGrant)
    else if (handle, Some(device)) in s.failed || (handle, None) in s.failed
    then (CloseClaim(s, handle, Some(device), UpstreamLost, nested).0, NoGrant)
    else if io.readFails then (s, ResolveFailed)
    else if handle !in s.rows || s.rows[handle].device != device || s.rows[handle].status != Active then (s, NoGrant)
    else
      var row := s.rows[handle];
      if Due(row, now) then Retire(s, handle, ExpiryReason(row.activity), io)
      else if row.kind == PairedRoomClaim && !a.pairedAllowed then Deny(s, handle)
      else if row.kind == ClientClaim && a.grant == CheckRaised then (s, NoGrant)
      else if row.kind == ClientClaim && a.grant == CheckSaid(false) then Retire(s, handle, GrantRevoked, io)
      else Configured(s, handle, row, a, io)
  }

  /** A denied paired handle is retired after the store lock is released. */
  function Resolve(s: Store, handle: string, device: string, now: real, a: Authority, io: Access,
          nested: Access): (Store, Resolution)
  {
    var (s1, r) := ResolveGrant(s, handle, device, now, a, io, nested);
    if r.NoGrant? && handle in s1.denied
    then
      if nested.writeFails then (s1, ResolveFailed)
      else (CloseMatching(s1, PairedHandle(handle, device), PairedRoomRevoked), NoGrant)
    else (s1, r)
  }

  // ----------------------------------------------------- published snapshots

  /** Profiles that were available and no longer are, and mappings that were active and are listed as inactive. */
  function LostProfiles(was: Configuration, published: Configuration): set<string>
    requires was.Snapshot? && published.Snapshot?
  {
    set p | p in was.profiles && was.profiles[p] && (p !in published.profiles || !published.profiles[p])
  }

  function LostMappings(was: Configuration, published: Configuration): set<string>
    requires was.Snapshot? && published.Snapshot?
  {
    set m | m in was.mappings && was.mappings[m] && m in published.mappings && !published.mappings[m]
  }

  /** `_close_revoked_configuration_claims`: what a publish closes, given the
      snapshot it replaced and whether either of the two admits a paired Room. */
  function AfterPublish(s: Store, previous: Option<Configuration>, published: Configuration, paired: bool): Store
    requires published.Snapshot? && (previous.Some? ==> previous.value.Snapshot?)
  {
    if previous.None? then CloseMatching(s, Everything, Other("configuration_unverified"))
    else
      var s1 := CloseMatching(s, OnProfiles(LostProfiles(previous.value, published)), ProfileRevoked);
      var s2 := CloseMatching(s1, OnMappings(LostMappings(previous.value, published)), MappingRevoked);
      if paired then CloseMatching(s2, PairedBefore(published.revision), Other("configuration_changed")) else s2
  }

  // --------------------------------------------------------------- activity

  ghost predicate SessionElsewhere(rows: map<string, Row>, handle: string, session: string) {
    exists h :: h in rows && h != handle && rows[h].status == Active && rows[h].session == Some(session)
  }

  ghost function PersistSession(s: Store, g: ConversationGrant, session: string, fails: bool): (Store, Answer) {
    if Blank(session) then (s, No)
    else if fails then (s, Failure)
    else if g.handle !in s.rows then (s, No)
    else
      var row := s.rows[g.handle];
      if row.device != g.device || row.profile != g.profile || row.generation != g.generation || row.status != Active
         || (row.session.Some? && row.session != Some(session)) || SessionElsewhere(s.rows, g.handle, session)
      then (s, No)
      else (s.(rows := s.rows[g.handle := row.(session := Some(session))]), Yes)
  }

  predicate OwnedActive(s: Store, handle: string, device: string) {
    handle in s.rows && s.rows[handle].device == device && s.rows[handle].status == Active
  }

  /** Lazy expiry inside an activity call leaves the connected marker alone. */
  function LazyExpire(s: Store, handle: string, now: real): Store
    requires handle in s.rows
  {
    s.(rows := s.rows[handle := Expiring(s.rows[handle], now)], timers := s.timers - {handle},
       detached := s.detached - {handle})
  }

  function MarkOpen(s: Store, handle: string, device: string, now: real, fails: bool): (Store, Answer) {
    if fails then (s, Failure)
    else if !OwnedActive(s, handle, device) then (s, No)
    else if Due(s.rows[handle], now) then (LazyExpire(s, handle, now), No)
    else
      (s.(rows := s.rows[handle := s.rows[handle].(activity := Open, deadline := None)],
          timers := s.timers - {handle}, connected := s.connected + {handle}, detached := s.detached - {handle}),
       Yes)
  }

  function MarkDisconnected(cfg: Settings, s: Store, handle: string, device: string, now: real,
          io: Access): (Store, Answer)
  {
    if io.readFails then (s, Failure)
    else if handle !in s.rows || s.rows[handle].device != device then (s, Yes)
    else
      var row := s.rows[handle];
      var dropped := s.(connected := s.connected - {handle});
      if row.kind != ClientClaim || row.status != Active || row.activity == Ready then (dropped, Yes)
      else if io.writeFails then (dropped, Failure)
      else
        var deadline := now + cfg.grace;
        (dropped.(rows := s.rows[handle := row.(activity := Disconnected, deadline := Some(deadline))],
                  timers := s.timers[handle := deadline]),
         Yes)
  }

  datatype Report = Capturing | InTurn | Playing | Responded | PlaybackComplete | Idling

  function ActivityOf(report: Report): Activity {
    match report
    case Capturing => Capture
    case InTurn => Turn
    case Playing => Playback
    case Responded => ResponseReady
    case PlaybackComplete => Idle
    case Idling => Idle
  }

  function RecordActivity(cfg: Settings, s: Store, handle: string, device: string, report: Report, now: real,
          fails: bool): (Store, Answer)
  {
    if fails then (s, Failure)
    else if !OwnedActive(s, handle, device) then (s, No)
    else
      var row := s.rows[handle];
      if Due(row, now) then (LazyExpire(s, handle, now), No)
      else if report == PlaybackComplete && row.activity != Playback && row.activity != ResponseReady then (s, No)
      else
        var tail := ActivityOf(report) == Idle && row.kind != ClientClaim;
        var deadline := if tail then Some(now + cfg.idle) else None;
        (s.(rows := s.rows[handle := row.(activity := ActivityOf(report), deadline := deadline)],
            timers := if tail then s.timers[handle := now + cfg.idle] else s.timers - {handle}),
         Yes)
  }

  function MarkDetached(s: Store, handle: string): Store {
    if handle in s.rows && s.rows[handle].kind == ClientClaim && s.rows[handle].status == Active
    then s.(detached := s.detached + {handle}) else s
  }

  /** A new process closes every claim the last one left active. */
  function Restart(s: Store): Store {
    Store(map h | h in s.rows :: Ending(s.rows[h], ServiceRestart), map[], {}, {}, {}, {})
  }

  // ------------------------------------------------------------------ reads

  predicate Live(row: Row, now: real) {
    row.status == Active && (row.deadline.None? || row.deadline.value > now)
  }

  function LiveOn(s: Store, device: string, now: real): set<string> {
    set h | h in s.rows && s.rows[h].device == device && Live(s.rows[h], now)
  }

  function ActiveSessions(s: Store, now: real): set<string> {
    set h | h in s.rows && Live(s.rows[h], now) && s.rows[h].session.Some? :: s.rows[h].session.value
  }

  datatype WatchView = WatchView(profile: string, revision: int, generation: Option<nat>, activity: Activity,
                                 session: bool)

  /** The Watch states the projection may show. */
  predicate Watchable(activity: Activity) {
    activity != Disconnected && activity != Ended
  }

  ghost function WatchSnapshot(s: Store, device: string, revision: int, now: real): Option<WatchView> {
    var live := LiveOn(s, device, now);
    if |live| != 1 then None
    else
      var h :| h in live;
      var row := s.rows[h];
      if row.revision != revision || h !in s.connected || !Watchable(row.activity) then None
      else Some(WatchView(row.profile, row.revision, row.generation, row.activity, row.session.Some?
          && row.session.value != ""))
  }

  datatype Delivery = NothingActive | Ambiguous | Delivering(activity: Activity)

  ghost function DeliveryState(s: Store, device: string, now: real): Delivery {
    var live := LiveOn(s, device, now);
    if live == {} then NothingActive
    else if |live| != 1 then Ambiguous
    else
      var h :| h in live;
      if s.rows[h].activity == Disconnected || s.rows[h].activity == Ended then Ambiguous
      else Delivering(s.rows[h].activity)
  }

  // ------------------------------------------------------------------- runs

  datatype Op =
    | OpCreateRoom(now: real, decision: Decision, generation: Option<nat>, handle: string, fault: Fault)
    | OpCreateClient(now: real, request: ClientRequest, generation: Option<nat>, handle: string, ref: string,
                     fault: Fault)
    | OpSweep(now: real)
    | OpTimer(handle: string, deadline: real, now: real)
    | OpResolve(handle: string, device: string, now: real, authority: Authority, io: Access, nested: Access)
    | OpPersist(grant: ConversationGrant, session: string, fails: bool)
    | OpOpen(handle: string, device: string, now: real, fails: bool)
    | OpDisconnect(handle: string, device: string, now: real, io: Access)
    | OpActivity(handle: string, device: string, report: Report, now: real, fails: bool)
    | OpClose(handle: string, owner: Option<string>, reason: Reason, io: Access)
    | OpCloseMatching(selector: Selector, reason: Reason)
    | OpDetach(handle: string)
    | OpAttach(handle: string)
    | OpRestart

  ghost function Next(cfg: Settings, s: Store, op: Op): Store {
    match op
    case OpCreateRoom(now, d, generation, handle, fault) => CreateRoom(cfg, s, now, d, generation, handle, fault).0
    case OpCreateClient(now, q, generation, handle, ref, fault) =>
      CreateClient(cfg, s, now, q, generation, handle, ref, fault).0
    case OpSweep(now) => Sweep(s, now)
    case OpTimer(handle, deadline, now) => TimerFires(s, handle, deadline, now)
    case OpResolve(handle, device, now, a, io, nested) => Resolve(s, handle, device, now, a, io, nested).0
    case OpPersist(g, session, fails) => PersistSession(s, g, session, fails).0
    case OpOpen(handle, device, now, fails) => MarkOpen(s, handle, device, now, fails).0
    case OpDisconnect(handle, device, now, io) => MarkDisconnected(cfg, s, handle, device, now, io).0
    case OpActivity(handle, device, report, now, fails) => RecordActivity(cfg, s, handle, device, report, now, fails).0
    case OpClose(handle, owner, reason, io) => CloseClaim(s, handle, owner, reason, io).0
    case OpCloseMatching(sel, reason) => CloseMatching(s, sel, reason)
    case OpDetach(handle) => MarkDetached(s, handle)
    case OpAttach(handle) => s.(detached := s.detached - {handle})
    case OpRestart => Restart(s)
  }

  ghost function Final(cfg: Settings, s: Store, ops: seq<Op>): Store
    decreases |ops|
  {
    if ops == [] then s else Final(cfg, Next(cfg, s, ops[0]), ops[1..])
  }

  const EMPTY := Store(map[], map[], {}, {}, {}, {})
}
