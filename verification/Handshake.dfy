/**
  Claim requests against renewals, rotations, revocations and re-enrollments.

  No lock spans the credential store and the claim table. A claim request
  authenticates, creates its claim, and only then checks its authority again,
  discarding the claim when it is gone; an authority change commits first and
  closes claims afterwards. The model interleaves any number of such requests,
  one store access per move, with every other operation of both stores.
 */
module Handshake {
  import opened Wrappers
  import Cr = Credentials
  import CI = CredentialInvariants
  import CG = ClientGrants
  import Au = Authentication
  import Cl = Claims
  import KI = ClaimInvariants
  import Replacements

  /** Where an in-flight request stands. */
  datatype Request =
    | Authenticated(token: string, device: string, generation: nat, client: bool)
    | GrantChecked(token: string, device: string, generation: nat, grant: string)
    | ClaimMade(token: string, device: string, generation: nat, handle: string, grantUsed: Option<string>)
    | DeviceRechecked(device: string, handle: string, grant: string)
    | Discarding(device: string, handle: string)
    | ClosingDevice(device: string, keep: Option<nat>)
    | ClosingGrant(grant: string)

  datatype World = World(creds: Cr.State, claims: Cl.Store, requests: map<nat, Request>)

  datatype Move =
    | Authenticate(id: nat, now: real, token: string, client: bool)
    | CheckGrant(id: nat, now: real, grant: string)
    | CreateRoomClaim(id: nat, now: real, decision: Cl.Decision, handle: string)
    | CreateClientClaim(id: nat, now: real, claim: Cl.ClientRequest, handle: string, ref: string)
    | RecheckDevice(id: nat, now: real, fails: bool)
    | RecheckGrant(id: nat, now: real, fails: bool)
    | Discard(id: nat)
    | Abandon(id: nat)
    | Credential(id: nat, event: Cr.Event)
    | Close(id: nat)
    | ClaimTable(op: Cl.Op)
    | RestartHome

  /** The claim-closing half of an authority change that has just committed. */
  ghost function Closer(s: Cr.State, e: Cr.Event): Option<Request> {
    match e.op
    case OpReplace(device, requestId, generation, renewalOnly, token) =>
      (match Cr.ReplaceCredential(s, e.now, device, requestId, generation, renewalOnly, token).result
       case Ok(material) => Some(ClosingDevice(device, Some(material.generation)))
       case Err(_) => None)
    case OpRevoke(device) =>
      if Cr.Revoke(s, device).result.Ok? then Some(ClosingDevice(device, None)) else None
    case OpConsume(id, code, storage, shared, token, freshDevice, grantIds) =>
      (match Cr.ConsumeRequest(s, e.now, id, code, storage, shared, token, freshDevice, grantIds).result
       case Ok(enrolled) =>
         if enrolled.revoked.Some? then Some(ClosingDevice(enrolled.revoked.value.device, None)) else None
       case Err(_) => None)
    case OpRevokeGrant(id, requester, shared) =>
      (match Cr.RevokeGrant(s, e.now, id, requester, shared).result
       case Ok(grant) => Some(ClosingGrant(grant.id))
       case Err(_) => None)
    case _ => None
  }

  /** `_discard_new_claim`. */
  ghost function DiscardedFrom(s: Cl.Store, handle: string, device: string): Cl.Store {
    Cl.CloseClaim(s, handle, Some(device), Cl.EndpointRevoked, Cl.Access(false, false)).0
  }

  /** A credential event that has committed, with its closing half now in flight. */
  ghost function Committed(w: World, id: nat, e: Cr.Event): World {
    var closer := Closer(w.creds, e);
    World(Cr.Next(w.creds, e), w.claims, if closer.Some? then w.requests[id := closer.value] else w.requests)
  }

  predicate IsCreation(op: Cl.Op) { op.OpCreateRoom? || op.OpCreateClient? }

  // ------------------------------------------------------------------ moves

  ghost function AfterAuthenticating(w: World, id: nat, now: real, token: string, client: bool): World {
    if id in w.requests then w
    else
      var reply := Cr.Authenticate(w.creds, now, token, false);
      var found := reply.result.value;
      World(reply.state, w.claims,
            if found.Some?
            then w.requests[id := Authenticated(token, found.value.device, found.value.generation, client)]
            else w.requests)
  }

  ghost function AfterGrantCheck(w: World, id: nat, now: real, grant: string): World {
    if id in w.requests && w.requests[id].Authenticated? && w.requests[id].client
       && Cr.ActiveClientGrant(w.creds, now, w.requests[id].device, grant)
    then
      var r := w.requests[id];
      w.(requests := w.requests[id := GrantChecked(r.token, r.device, r.generation, grant)])
    else w
  }

  ghost function AfterRoomClaim(cfg: Cl.Settings, w: World, id: nat, now: real, decision: Cl.Decision,
          handle: string): World
  {
    if id in w.requests && w.requests[id].Authenticated? && !w.requests[id].client
       && decision.device == w.requests[id].device
    then
      var r := w.requests[id];
      var (claims, made) := Cl.CreateRoom(cfg, w.claims, now, decision, Some(r.generation), handle, Cl.NoFault);
      World(w.creds, claims,
            if made.Made? then w.requests[id := ClaimMade(r.token, r.device, r.generation, handle, None)]
            else w.requests - {id})
    else w
  }

  ghost function AfterClientClaim(cfg: Cl.Settings, w: World, id: nat, now: real, claim: Cl.ClientRequest,
          handle: string, ref: string): World
  {
    if id in w.requests && w.requests[id].GrantChecked?
       && claim.device == w.requests[id].device && claim.grant == w.requests[id].grant
    then
      var r := w.requests[id];
      var (claims, made) := Cl.CreateClient(cfg, w.claims, now, claim, Some(r.generation), handle, ref, Cl.NoFault);
      World(w.creds, claims,
            if made.Made? then w.requests[id := ClaimMade(r.token, r.device, r.generation, handle, Some(r.grant))]
            else w.requests - {id})
    else w
  }

  ghost function AfterDeviceRecheck(w: World, id: nat, now: real, fails: bool): World {
    if id in w.requests && w.requests[id].ClaimMade?
    then
      var r := w.requests[id];
      if fails then w.(requests := w.requests[id := Discarding(r.device, r.handle)])
      else
        var reply := Cr.Authenticate(w.creds, now, r.token, false);
        var found := reply.result.value;
        var same := found.Some? && found.value.device == r.device && found.value.generation == r.generation;
        World(reply.state, w.claims,
              if !same then w.requests[id := Discarding(r.device, r.handle)]
              else if r.grantUsed.Some? then w.requests[id := DeviceRechecked(r.device, r.handle, r.grantUsed.value)]
              else w.requests - {id})
    else w
  }

  ghost function AfterGrantRecheck(w: World, id: nat, now: real, fails: bool): World {
    if id in w.requests && w.requests[id].DeviceRechecked?
    then
      var r := w.requests[id];
      w.(requests :=
           if fails || !Cr.ActiveClientGrant(w.creds, now, r.device, r.grant)
           then w.requests[id := Discarding(r.device, r.handle)]
           else w.requests - {id})
    else w
  }

  ghost function AfterDiscard(w: World, id: nat): World {
    if id in w.requests && w.requests[id].Discarding?
    then World(w.creds, DiscardedFrom(w.claims, w.requests[id].handle, w.requests[id].device), w.requests - {id})
    else w
  }

  ghost function AfterAbandoning(w: World, id: nat): World {
    if id in w.requests && (w.requests[id].Authenticated? || w.requests[id].GrantChecked?)
    then w.(requests := w.requests - {id}) else w
  }

  ghost function AfterClosing(w: World, id: nat): World {
    if id in w.requests && (w.requests[id].ClosingDevice? || w.requests[id].ClosingGrant?)
    then World(w.creds, Cl.CloseMatching(w.claims, Sweeps(w.requests[id]), ClosingReason(w.requests[id])),
               w.requests - {id})
    else w
  }

  ghost function Apply(cfg: Cl.Settings, w: World, m: Move): World {
    match m
    case Authenticate(id, now, token, client) => AfterAuthenticating(w, id, now, token, client)
    case CheckGrant(id, now, grant) => AfterGrantCheck(w, id, now, grant)
    case CreateRoomClaim(id, now, decision, handle) => AfterRoomClaim(cfg, w, id, now, decision, handle)
    case CreateClientClaim(id, now, claim, handle, ref) => AfterClientClaim(cfg, w, id, now, claim, handle, ref)
    case RecheckDevice(id, now, fails) => AfterDeviceRecheck(w, id, now, fails)
    case RecheckGrant(id, now, fails) => AfterGrantRecheck(w, id, now, fails)
    case Discard(id) => AfterDiscard(w, id)
    case Abandon(id) => AfterAbandoning(w, id)
    case Credential(id, event) =>
      if Closer(w.creds, event).Some? && id in w.requests then w else Committed(w, id, event)
    case Close(id) => AfterClosing(w, id)
    case ClaimTable(op) =>
      if IsCreation(op) || op.OpRestart? then w else w.(claims := Cl.Next(cfg, w.claims, op))
    case RestartHome => World(w.creds, Cl.Restart(w.claims), map[])
  }

  function Sweeps(r: Request): Cl.Selector
    requires r.ClosingDevice? || r.ClosingGrant?
  {
    match r
    case ClosingDevice(device, None) => Cl.OfDevice(device)
    case ClosingDevice(device, Some(generation)) => Cl.StaleOnDevice(device, generation)
    case ClosingGrant(grant) => Cl.UnderGrant(grant)
  }

  function ClosingReason(r: Request): Cl.Reason { if r.ClosingGrant? then Cl.GrantRevoked else Cl.EndpointRevoked }

  /** Identifiers are fresh and callers do not close claims in the name of idle expiry. */
  ghost predicate Legal(w: World, m: Move) {
    && (m.Credential? ==> Cr.FreshIds(w.creds, m.event.op))
    && (m.ClaimTable? ==> KI.CallerReason(m.op))
  }

  ghost predicate Runs(cfg: Cl.Settings, w: World, moves: seq<Move>)
    decreases |moves|
  {
    moves == [] || (Legal(w, moves[0]) && Runs(cfg, Apply(cfg, w, moves[0]), moves[1..]))
  }

  ghost function Final(cfg: Cl.Settings, w: World, moves: seq<Move>): World
    decreases |moves|
  {
    if moves == [] then w else Final(cfg, Apply(cfg, w, moves[0]), moves[1..])
  }

  const START := World(Cr.EMPTY, Cl.EMPTY, map[])

  // ------------------------------------------------------------- statements

  /** The generation is the device's newest one that is not revoked. */
  ghost predicate Newest(s: Cr.State, device: string, generation: nat) {
    && (exists i :: 0 <= i < |s.credentials| && s.credentials[i].device == device
                    && s.credentials[i].generation == generation && s.credentials[i].status != Cr.CredRevoked)
    && (forall i :: 0 <= i < |s.credentials| && s.credentials[i].device == device
                    && s.credentials[i].status != Cr.CredRevoked ==>
          s.credentials[i].generation <= generation)
  }

  ghost predicate Enrolled(s: Cr.State, device: string) {
    exists i :: 0 <= i < |s.credentials| && s.credentials[i].device == device
  }

  ghost predicate GrantOf(s: Cr.State, grant: string, device: string) {
    exists i :: 0 <= i < |s.grants| && s.grants[i].id == grant && s.grants[i].device == device
  }

  ghost predicate GrantLives(s: Cr.State, grant: string) {
    exists i :: 0 <= i < |s.grants| && s.grants[i].id == grant && s.grants[i].status == Cr.GrantActive
  }

  /** The request will still look at, or close, a claim whose generation went stale. */
  predicate WatchesDevice(r: Request, handle: string, row: Cl.Row) {
    match r
    case ClaimMade(_, _, _, h, _) => h == handle
    case Discarding(_, h) => h == handle
    case ClosingDevice(d, keep) => row.device == d && (keep.None? || row.generation != keep)
    case _ => false
  }

  /** The request will still look at, or close, a claim whose grant ended. */
  predicate WatchesGrant(r: Request, handle: string, row: Cl.Row) {
    match r
    case ClaimMade(_, _, _, h, _) => h == handle
    case DeviceRechecked(_, h, _) => h == handle
    case Discarding(_, h) => h == handle
    case ClosingDevice(d, keep) => row.device == d && keep.None?
    case ClosingGrant(g) => row.grant == Some(g)
    case _ => false
  }

  ghost predicate DeviceGuarded(w: World, handle: string)
    requires handle in w.claims.rows
  {
    var row := w.claims.rows[handle];
    || (row.generation.Some? && Newest(w.creds, row.device, row.generation.value))
    || exists id :: id in w.requests && WatchesDevice(w.requests[id], handle, row)
  }

  ghost predicate GrantGuarded(w: World, handle: string)
    requires handle in w.claims.rows
  {
    var row := w.claims.rows[handle];
    || (row.grant.Some? && GrantLives(w.creds, row.grant.value))
    || exists id :: id in w.requests && WatchesGrant(w.requests[id], handle, row)
  }

  /** A row belongs to an enrolled device, and a client row to one of its grants. */
  ghost predicate Founded(s: Cr.State, row: Cl.Row) {
    && row.generation.Some? && Enrolled(s, row.device)
    && (row.kind == Cl.ClientClaim ==> row.grant.Some? && GrantOf(s, row.grant.value, row.device))
  }

  ghost predicate RequestFits(s: Cr.State, rows: map<string, Cl.Row>, r: Request) {
    match r
    case Authenticated(_, device, _, _) => Enrolled(s, device)
    case GrantChecked(_, device, _, grant) => Enrolled(s, device) && GrantOf(s, grant, device)
    case ClaimMade(_, device, generation, handle, grant) =>
      && handle in rows && rows[handle].device == device && rows[handle].generation == Some(generation)
      && rows[handle].grant == grant && (rows[handle].kind == Cl.ClientClaim ==> grant.Some?)
    case DeviceRechecked(device, handle, grant) =>
      handle in rows && rows[handle].device == device && rows[handle].grant == Some(grant)
    case Discarding(device, handle) => handle in rows && rows[handle].device == device
    case _ => true
  }

  ghost predicate Consistent(cfg: Cl.Settings, w: World) {
    && CI.Inv(w.creds) && CG.GrantInv(w.creds) && KI.Inv(cfg, w.claims)
    && (forall h :: h in w.claims.rows && w.claims.rows[h].status == Cl.Active ==> Founded(w.creds, w.claims.rows[h]))
    && (forall id :: id in w.requests ==> RequestFits(w.creds, w.claims.rows, w.requests[id]))
  }

  ghost predicate Guarded(w: World) {
    && (forall h :: h in w.claims.rows && w.claims.rows[h].status == Cl.Active ==> DeviceGuarded(w, h))
    && (forall h :: h in w.claims.rows && w.claims.rows[h].status == Cl.Active
                    && w.claims.rows[h].kind == Cl.ClientClaim ==>
          GrantGuarded(w, h))
  }

  ghost predicate Sound(cfg: Cl.Settings, w: World) { Consistent(cfg, w) && Guarded(w) }

  // --------------------------------------------- what credential events do

  ghost predicate ClosesDevice(closer: Option<Request>, device: string, generation: nat) {
    closer.Some? && closer.value.ClosingDevice? && closer.value.device == device
        && closer.value.keep != Some(generation)
  }

  ghost predicate ClosesGrant(closer: Option<Request>, grant: string, device: string) {
    && closer.Some?
    && (closer.value == ClosingGrant(grant) || closer.value == ClosingDevice(device, None))
  }

  lemma NewestElsewhere(s: Cr.State, s': Cr.State, record: Cr.Credential, device: string, generation: nat)
    requires CI.Bound(s.credentials) && Newest(s, device, generation) && record.device != device
    requires s'.credentials == Cr.RevokeEndpoint(s.credentials, record.endpoint) + [record]
    requires forall i :: 0 <= i < |s.credentials| && s.credentials[i].device == device ==>
               s.credentials[i].endpoint != record.endpoint
    ensures Newest(s', device, generation)
  {
    var i :| 0 <= i < |s.credentials| && s.credentials[i].device == device
             && s.credentials[i].generation == generation && s.credentials[i].status != Cr.CredRevoked;
    assert s'.credentials[i] == s.credentials[i];
  }

  /** What an accepted consumption appends, and what it goes on to close. */
  lemma ConsumeCommits(s: Cr.State, e: Cr.Event) returns (record: Cr.Credential)
    requires e.op.OpConsume?
    requires Cr.ConsumeRequest(s, e.now, e.op.id, e.op.code, e.op.storage, e.op.shared, e.op.token,
                               e.op.freshDevice, e.op.grantIds).result.Ok?
    ensures Cr.Next(s, e).credentials == Cr.RevokeEndpoint(s.credentials, record.endpoint) + [record]
    ensures var found := Cr.FindEndpoint(s.credentials, record.endpoint);
      && record.device == (if found.Some? then s.credentials[found.value].device else e.op.freshDevice)
      && record.generation == Cr.MaxGeneration(s.credentials, record.endpoint) + 1
      && Closer(s, e) == if found.Some? then Some(ClosingDevice(record.device, None)) else None
  {
    var reply := Cr.ConsumeRequest(s, e.now, e.op.id, e.op.code, e.op.storage, e.op.shared, e.op.token,
                                   e.op.freshDevice, e.op.grantIds);
    var k := Cr.Consumable(s, e.now, e.op.id, e.op.code, e.op.storage, e.op.shared).value.0;
    record := reply.state.credentials[|reply.state.credentials| - 1];
    CI.ConsumeShape(s, e.now, e.op.id, e.op.code, e.op.storage, e.op.shared, e.op.token, e.op.freshDevice,
                    e.op.grantIds, k, record);
    CI.ConsumeAnnounces(s, e.now, e.op.id, e.op.code, e.op.storage, e.op.shared, e.op.token, e.op.freshDevice,
                        e.op.grantIds, record);
  }

  /** Newest generations only change under a commit that goes on to close claims. */
  lemma ConsumeGuards(s: Cr.State, e: Cr.Event, device: string, generation: nat)
    requires CI.Inv(s) && Cr.FreshIds(s, e.op) && e.op.OpConsume? && Newest(s, device, generation)
    ensures Newest(Cr.Next(s, e), device, generation) || ClosesDevice(Closer(s, e), device, generation)
  {
    hide Newest;
    if Cr.ConsumeRequest(s, e.now, e.op.id, e.op.code, e.op.storage, e.op.shared, e.op.token, e.op.freshDevice,
                         e.op.grantIds).result.Ok? {
      var record := ConsumeCommits(s, e);
      ConsumedGuards(s, Cr.Next(s, e), record, e.op.freshDevice, device, generation);
    }
  }

  lemma ConsumedGuards(s: Cr.State, s': Cr.State, record: Cr.Credential, freshDevice: string, device: string,
          generation: nat)
    requires CI.Bound(s.credentials) && Newest(s, device, generation)
    requires forall i :: 0 <= i < |s.credentials| ==> s.credentials[i].device != freshDevice
    requires s'.credentials == Cr.RevokeEndpoint(s.credentials, record.endpoint) + [record]
    requires var found := Cr.FindEndpoint(s.credentials, record.endpoint);
      record.device == if found.Some? then s.credentials[found.value].device else freshDevice
    ensures if record.device == device then Cr.FindEndpoint(s.credentials, record.endpoint).Some?
            else Newest(s', device, generation)
  {
    SameDeviceSameEndpoint(s.credentials, record, freshDevice);
    if record.device != device {
      NewestElsewhere(s, s', record, device, generation);
    }
  }

  lemma SameDeviceSameEndpoint(cs: seq<Cr.Credential>, record: Cr.Credential, freshDevice: string)
    requires CI.Bound(cs) && forall i :: 0 <= i < |cs| ==> cs[i].device != freshDevice
    requires var found := Cr.FindEndpoint(cs, record.endpoint);
      record.device == if found.Some? then cs[found.value].device else freshDevice
    ensures forall i :: 0 <= i < |cs| ==> (cs[i].device == record.device <==> cs[i].endpoint == record.endpoint)
    ensures (exists i :: 0 <= i < |cs| && cs[i].device == record.device) ==> Cr.FindEndpoint(cs, record.endpoint).Some?
  {
  }

  lemma ReplaceGuards(s: Cr.State, e: Cr.Event, device: string, generation: nat)
    requires CI.Inv(s) && e.op.OpReplace? && Newest(s, device, generation)
    ensures Newest(Cr.Next(s, e), device, generation) || ClosesDevice(Closer(s, e), device, generation)
  {
    hide CI.Inv;
    var s' := Cr.Next(s, e);
    if s' != s {
      var k := Cr.FindCredential(s.credentials, e.op.device, e.op.generation).value;
      if e.op.device == device {
        ActiveIsNewest(s, k, generation);
      } else {
        OtherDeviceReplaced(s, s', k, device, generation);
      }
    }
  }

  lemma ActiveIsNewest(s: Cr.State, k: nat, generation: nat)
    requires CI.Inv(s) && k < |s.credentials| && s.credentials[k].status == Cr.CredActive
    requires Newest(s, s.credentials[k].device, generation)
    ensures generation <= s.credentials[k].generation
  {
  }

  lemma OtherDeviceReplaced(s: Cr.State, s': Cr.State, k: nat, device: string, generation: nat)
    requires Newest(s, device, generation) && k < |s.credentials| && s.credentials[k].device != device
    requires |s'.credentials| == |s.credentials| + 1 && s'.credentials[|s.credentials|].device != device
    requires s'.credentials[k].device != device
    requires forall i :: 0 <= i < |s.credentials| && i != k ==> s'.credentials[i] == s.credentials[i]
    ensures Newest(s', device, generation)
  {
    var i :| 0 <= i < |s.credentials| && s.credentials[i].device == device
             && s.credentials[i].generation == generation && s.credentials[i].status != Cr.CredRevoked;
    assert s'.credentials[i] == s.credentials[i];
  }

  lemma RevokeGuards(s: Cr.State, revoked: string, device: string, generation: nat)
    requires Newest(s, device, generation)
    ensures Newest(Cr.Revoke(s, revoked).state, device, generation) ||
            (revoked == device && Cr.Revoke(s, revoked).result.Ok?)
  {
    var s' := Cr.Revoke(s, revoked).state;
    if s' != s && revoked != device {
      var i :| 0 <= i < |s.credentials| && s.credentials[i].device == device
               && s.credentials[i].generation == generation && s.credentials[i].status != Cr.CredRevoked;
      assert s'.credentials[i] == s.credentials[i];
    }
  }

  lemma CleaningGuards(s: Cr.State, now: real, device: string, generation: nat)
    requires Newest(s, device, generation)
    ensures Newest(Cr.Clean(s, now), device, generation)
  {
    var i :| 0 <= i < |s.credentials| && s.credentials[i].device == device
             && s.credentials[i].generation == generation && s.credentials[i].status != Cr.CredRevoked;
    var cs := Cr.Clean(s, now).credentials;
    assert cs[i].device == device && cs[i].generation == generation && cs[i].status != Cr.CredRevoked;
  }

  lemma EventGuardsDevice(s: Cr.State, e: Cr.Event, device: string, generation: nat)
    requires CI.Inv(s) && Cr.FreshIds(s, e.op) && Newest(s, device, generation)
    ensures Newest(Cr.Next(s, e), device, generation) || ClosesDevice(Closer(s, e), device, generation)
  {
    match e.op
    case OpConsume(_, _, _, _, _, _, _) => ConsumeGuards(s, e, device, generation);
    case OpReplace(_, _, _, _, _) => ReplaceGuards(s, e, device, generation);
    case OpRevoke(revoked) => RevokeGuards(s, revoked, device, generation);
    case OpAuthenticate(_, _) => CleaningGuards(s, e.now, device, generation);
    case _ => Replacements.OthersUntouched(s, e);
  }

  /** Sweeping, deciding and adding leave an active grant as it is. */
  lemma DecisionsSpareActive(s: Cr.State, e: Cr.Event, i: nat)
    requires CG.GrantInv(s) && (e.op.OpAddGrant? || e.op.OpDecide?)
    requires i < |s.grants| && s.grants[i].status == Cr.GrantActive
    ensures GrantLives(Cr.Next(s, e), s.grants[i].id)
  {
    if e.op.OpAddGrant? {
      CG.AddShape(s, e.now, e.op.offer, e.op.id);
    }
    assert Cr.Next(s, e).grants[i] == s.grants[i];
  }

  lemma OthersSpareActive(s: Cr.State, e: Cr.Event, i: nat)
    requires CG.GrantInv(s)
    requires e.op.OpOffer? || e.op.OpSubmit? || e.op.OpApprove? || e.op.OpReject? || e.op.OpList?
             || e.op.OpAuthenticate? || e.op.OpReplace? || e.op.OpProject?
    requires i < |s.grants| && s.grants[i].status == Cr.GrantActive
    ensures GrantLives(Cr.Next(s, e), s.grants[i].id)
  {
    CG.OthersKeep(s, e);
    assert Cr.Next(s, e).grants[i] == s.grants[i];
  }

  lemma RevocationsGuardGrant(s: Cr.State, e: Cr.Event, i: nat)
    requires CG.GrantInv(s) && (e.op.OpRevoke? || e.op.OpRevokeGrant?)
    requires i < |s.grants| && s.grants[i].status == Cr.GrantActive
    ensures GrantLives(Cr.Next(s, e), s.grants[i].id) || ClosesGrant(Closer(s, e), s.grants[i].id, s.grants[i].device)
  {
    assert Cr.Next(s, e).grants[i].id == s.grants[i].id;
  }

  lemma EventGuardsActive(s: Cr.State, e: Cr.Event, i: nat)
    requires CI.Inv(s) && CG.GrantInv(s) && Cr.FreshIds(s, e.op)
    requires i < |s.grants| && s.grants[i].status == Cr.GrantActive
    ensures GrantLives(Cr.Next(s, e), s.grants[i].id) || ClosesGrant(Closer(s, e), s.grants[i].id, s.grants[i].device)
  {
    hide CI.Inv, CG.GrantInv, GrantLives, ClosesGrant;
    match e.op
    case OpConsume(_, _, _, _, _, _, _) => ConsumeGuardsGrant(s, e, i);
    case OpAddGrant(_, _) => DecisionsSpareActive(s, e, i);
    case OpDecide(_, _, _) => DecisionsSpareActive(s, e, i);
    case OpRevoke(_) => RevocationsGuardGrant(s, e, i);
    case OpRevokeGrant(_, _, _) => RevocationsGuardGrant(s, e, i);
    case _ => OthersSpareActive(s, e, i);
  }

  /** An active grant only ends under a commit that goes on to close its claims. */
  lemma EventGuardsGrant(s: Cr.State, e: Cr.Event, grant: string, device: string)
    requires CI.Inv(s) && CG.GrantInv(s) && Cr.FreshIds(s, e.op)
    requires GrantLives(s, grant) && GrantOf(s, grant, device)
    ensures GrantLives(Cr.Next(s, e), grant) || ClosesGrant(Closer(s, e), grant, device)
  {
    var i :| 0 <= i < |s.grants| && s.grants[i].id == grant && s.grants[i].status == Cr.GrantActive;
    assert s.grants[i].device == device;
    EventGuardsActive(s, e, i);
  }

  lemma ConsumeGuardsGrant(s: Cr.State, e: Cr.Event, i: nat)
    requires CI.Inv(s) && CG.GrantInv(s) && Cr.FreshIds(s, e.op) && e.op.OpConsume?
    requires i < |s.grants| && s.grants[i].status == Cr.GrantActive
    ensures GrantLives(Cr.Next(s, e), s.grants[i].id) || ClosesGrant(Closer(s, e), s.grants[i].id, s.grants[i].device)
  {
    var reply := Cr.ConsumeRequest(s, e.now, e.op.id, e.op.code, e.op.storage, e.op.shared, e.op.token,
                                   e.op.freshDevice, e.op.grantIds);
    if reply.result.Ok? {
      var device := reply.result.value.material.device;
      var kept := Cr.EndGrants(Cr.ExpirePending(s.grants, e.now), device);
      assert reply.state.grants == kept + reply.result.value.material.grants;
      if s.grants[i].device == device {
        assert CG.Unrevoked(s.credentials, device);
      } else {
        assert reply.state.grants[i] == s.grants[i];
      }
    }
  }

  ghost predicate Grows(s: Cr.State, s': Cr.State) {
    && (forall device :: Enrolled(s, device) ==> Enrolled(s', device))
    && (forall grant, device :: GrantOf(s, grant, device) ==> GrantOf(s', grant, device))
  }

  lemma EventGrows(s: Cr.State, e: Cr.Event)
    requires CI.Inv(s) && CG.GrantInv(s) && Cr.FreshIds(s, e.op)
    ensures Grows(s, Cr.Next(s, e))
  {
    var s' := Cr.Next(s, e);
    Replacements.StepEvolves(s, e);
    CG.StepGrants(s, e);
    forall device | Enrolled(s, device)
      ensures Enrolled(s', device)
    {
      var i :| 0 <= i < |s.credentials| && s.credentials[i].device == device;
      assert s'.credentials[i].device == device;
    }
    forall grant, device | GrantOf(s, grant, device)
      ensures GrantOf(s', grant, device)
    {
      var i :| 0 <= i < |s.grants| && s.grants[i].id == grant && s.grants[i].device == device;
      assert s'.grants[i].id == grant && s'.grants[i].device == device;
    }
  }

  lemma AuthenticatesNewest(s: Cr.State, now: real, token: string, device: Cr.Device)
    requires CI.Inv(s) && Cr.Authenticate(s, now, token, false).result == Ok(Some(device))
    ensures Newest(s, device.device, device.generation) && Enrolled(s, device.device)
  {
    Au.AuthenticatedIsNewest(s, now, token, device);
  }

  lemma ActiveGrantLives(s: Cr.State, now: real, device: string, grant: string)
    requires Cr.ActiveClientGrant(s, now, device, grant)
    ensures GrantLives(s, grant) && GrantOf(s, grant, device)
  {
    var grants := Cr.CurrentGrants(s.grants, now, device);
    var i :| 0 <= i < |grants| && grants[i].id == grant && grants[i].status == Cr.GrantActive;
    assert grants[i] in s.grants;
  }

  // --------------------------------------------------- what claim moves do

  /** No row appears, and rows only change the way claims may. */
  ghost predicate Shrinks(rows: map<string, Cl.Row>, rows': map<string, Cl.Row>) {
    && (forall h :: h in rows' ==> h in rows)
    && KI.Evolves(rows, rows')
  }

  lemma TableMoveShrinks(cfg: Cl.Settings, s: Cl.Store, op: Cl.Op)
    requires KI.Inv(cfg, s) && KI.CallerReason(op) && !IsCreation(op)
    ensures KI.Inv(cfg, Cl.Next(cfg, s, op)) && Shrinks(s.rows, Cl.Next(cfg, s, op).rows)
  {
    KI.StepKeeps(cfg, s, op);
    if op.OpPersist? || op.OpOpen? || op.OpDisconnect? || op.OpActivity? {
      KI.ActivityShape(cfg, s, op, if op.OpPersist? then op.grant.handle else op.handle);
    } else if !(op.OpDetach? || op.OpAttach?) {
      KI.ClosingEnds(cfg, s, op);
    }
  }

  /** Fewer active claims under the same requests stay consistent and guarded. */
  lemma ShrinkKeeps(cfg: Cl.Settings, w: World, claims: Cl.Store)
    requires Sound(cfg, w)
    requires KI.Inv(cfg, claims) && Shrinks(w.claims.rows, claims.rows)
    ensures Sound(cfg, w.(claims := claims))
  {
    var w' := w.(claims := claims);
    forall h | h in claims.rows && claims.rows[h].status == Cl.Active
      ensures Founded(w.creds, claims.rows[h]) && DeviceGuarded(w', h)
      ensures claims.rows[h].kind == Cl.ClientClaim ==> GrantGuarded(w', h)
    {
      assert KI.Keeps(w.claims.rows[h], claims.rows[h]);
      SameGuards(w, w', h);
    }
    forall id | id in w.requests
      ensures RequestFits(w.creds, claims.rows, w.requests[id])
    {
      assert RequestFits(w.creds, w.claims.rows, w.requests[id]);
    }
  }

  lemma SameGuards(w: World, w': World, h: string)
    requires h in w.claims.rows && h in w'.claims.rows && KI.Keeps(w.claims.rows[h], w'.claims.rows[h])
    requires w'.creds == w.creds && w'.requests == w.requests
    ensures DeviceGuarded(w, h) ==> DeviceGuarded(w', h)
    ensures GrantGuarded(w, h) ==> GrantGuarded(w', h)
  {
    if DeviceGuarded(w, h) && !DeviceGuarded(w', h) {
      var id :| id in w.requests && WatchesDevice(w.requests[id], h, w.claims.rows[h]);
      assert WatchesDevice(w'.requests[id], h, w'.claims.rows[h]);
    }
    if GrantGuarded(w, h) && !GrantGuarded(w', h) {
      var id :| id in w.requests && WatchesGrant(w.requests[id], h, w.claims.rows[h]);
      assert WatchesGrant(w'.requests[id], h, w'.claims.rows[h]);
    }
  }

  /** The active claims that request `id` watched are guarded without it. */
  ghost predicate Released(w: World, w': World, id: nat)
    requires id in w.requests && w'.claims == w.claims
  {
    forall h :: h in w.claims.rows && w.claims.rows[h].status == Cl.Active ==>
      && (WatchesDevice(w.requests[id], h, w.claims.rows[h]) ==> DeviceGuarded(w', h))
      && (WatchesGrant(w.requests[id], h, w.claims.rows[h]) && w.claims.rows[h].kind == Cl.ClientClaim ==>
          GrantGuarded(w', h))
  }

  /** Only request `id` changed, or went away. */
  ghost predicate OnlyRequest(w: World, w': World, id: nat) {
    && w'.creds == w.creds && w'.claims == w.claims && id in w.requests
    && (w'.requests == w.requests - {id} || (id in w'.requests && w'.requests == w.requests[id := w'.requests[id]]))
  }

  lemma DeviceGuardStays(w: World, w': World, id: nat, h: string)
    requires OnlyRequest(w, w', id) && h in w.claims.rows && DeviceGuarded(w, h)
    requires WatchesDevice(w.requests[id], h, w.claims.rows[h]) ==> DeviceGuarded(w', h)
    ensures DeviceGuarded(w', h)
  {
    var row := w.claims.rows[h];
    if !(row.generation.Some? && Newest(w.creds, row.device, row.generation.value)) {
      var q :| q in w.requests && WatchesDevice(w.requests[q], h, row);
      if q != id {
        assert w'.requests[q] == w.requests[q];
      }
    }
  }

  lemma GrantGuardStays(w: World, w': World, id: nat, h: string)
    requires OnlyRequest(w, w', id) && h in w.claims.rows && GrantGuarded(w, h)
    requires WatchesGrant(w.requests[id], h, w.claims.rows[h]) ==> GrantGuarded(w', h)
    ensures GrantGuarded(w', h)
  {
    var row := w.claims.rows[h];
    if !(row.grant.Some? && GrantLives(w.creds, row.grant.value)) {
      var q :| q in w.requests && WatchesGrant(w.requests[q], h, row);
      if q != id {
        assert w'.requests[q] == w.requests[q];
      }
    }
  }

  /** Replacing or dropping one request is fine where the claims it watched no longer need it. */
  lemma RequestMoves(cfg: Cl.Settings, w: World, w': World, id: nat)
    requires Sound(cfg, w) && OnlyRequest(w, w', id) && Released(w, w', id)
    requires id in w'.requests ==> RequestFits(w.creds, w.claims.rows, w'.requests[id])
    ensures Sound(cfg, w')
  {
    forall h | h in w'.claims.rows && w'.claims.rows[h].status == Cl.Active
      ensures DeviceGuarded(w', h)
      ensures w'.claims.rows[h].kind == Cl.ClientClaim ==> GrantGuarded(w', h)
    {
      DeviceGuardStays(w, w', id, h);
      if w'.claims.rows[h].kind == Cl.ClientClaim {
        GrantGuardStays(w, w', id, h);
      }
    }
  }

  /** A request that watches no active claim may go. */
  lemma IdleRequestGoes(cfg: Cl.Settings, w: World, id: nat)
    requires Sound(cfg, w) && id in w.requests
    requires forall h :: h in w.claims.rows && w.claims.rows[h].status == Cl.Active ==>
               !WatchesDevice(w.requests[id], h, w.claims.rows[h]) && !WatchesGrant(w.requests[id], h, w.claims.rows[h])
    ensures var w' := w.(requests := w.requests - {id}); Sound(cfg, w')
  {
    RequestMoves(cfg, w, w.(requests := w.requests - {id}), id);
  }

  // ------------------------------------------------------- moves, one by one

  lemma CredentialMoveKeeps(cfg: Cl.Settings, w: World, id: nat, e: Cr.Event)
    requires Sound(cfg, w) && Cr.FreshIds(w.creds, e.op)
    requires Closer(w.creds, e).Some? ==> id !in w.requests
    ensures Sound(cfg, Committed(w, id, e))
  {
    var w' := Committed(w, id, e);
    CG.StepGrants(w.creds, e);
    EventGrows(w.creds, e);
    RowsStayFounded(cfg, w, w');
    forall h | h in w'.claims.rows && w'.claims.rows[h].status == Cl.Active
      ensures DeviceGuarded(w', h)
      ensures w'.claims.rows[h].kind == Cl.ClientClaim ==> GrantGuarded(w', h)
    {
      EventKeepsGuards(w, w', id, e, h);
    }
  }

  lemma RowsStayFounded(cfg: Cl.Settings, w: World, w': World)
    requires Consistent(cfg, w)
    requires w'.claims == w.claims && Grows(w.creds, w'.creds)
    requires CI.Inv(w'.creds) && CG.GrantInv(w'.creds)
    requires forall id :: id in w'.requests ==>
               (id in w.requests && w'.requests[id] == w.requests[id]) || w'.requests[id].ClosingDevice?
                   || w'.requests[id].ClosingGrant?
    ensures Consistent(cfg, w')
  {
    forall id | id in w'.requests
      ensures RequestFits(w'.creds, w'.claims.rows, w'.requests[id])
    {
      if id in w.requests {
        assert RequestFits(w.creds, w.claims.rows, w.requests[id]);
      }
    }
  }

  lemma EventKeepsGuards(w: World, w': World, id: nat, e: Cr.Event, h: string)
    requires CI.Inv(w.creds) && CG.GrantInv(w.creds) && Cr.FreshIds(w.creds, e.op)
    requires h in w.claims.rows && w.claims.rows[h].status == Cl.Active && Founded(w.creds, w.claims.rows[h])
    requires DeviceGuarded(w, h) && (w.claims.rows[h].kind == Cl.ClientClaim ==> GrantGuarded(w, h))
    requires w'.creds == Cr.Next(w.creds, e) && w'.claims == w.claims
    requires w'.requests == if Closer(w.creds, e).Some? then w.requests[id := Closer(w.creds, e).value] else w.requests
    requires Closer(w.creds, e).Some? ==> id !in w.requests
    ensures DeviceGuarded(w', h)
    ensures w.claims.rows[h].kind == Cl.ClientClaim ==> GrantGuarded(w', h)
  {
    var row := w.claims.rows[h];
    if Newest(w.creds, row.device, row.generation.value) {
      EventGuardsDevice(w.creds, e, row.device, row.generation.value);
    }
    DeviceGuardMoves(w, w', id, Closer(w.creds, e), h);
    if row.kind == Cl.ClientClaim {
      if GrantLives(w.creds, row.grant.value) {
        EventGuardsGrant(w.creds, e, row.grant.value, row.device);
      }
      GrantGuardMoves(w, w', id, Closer(w.creds, e), h);
    }
  }

  lemma DeviceGuardMoves(w: World, w': World, id: nat, closer: Option<Request>, h: string)
    requires h in w.claims.rows && w.claims.rows[h].generation.Some? && DeviceGuarded(w, h) && w'.claims == w.claims
    requires w'.requests == if closer.Some? then w.requests[id := closer.value] else w.requests
    requires closer.Some? ==> id !in w.requests
    requires var row := w.claims.rows[h];
      Newest(w.creds, row.device, row.generation.value) ==>
        Newest(w'.creds, row.device, row.generation.value) || ClosesDevice(closer, row.device, row.generation.value)
    ensures DeviceGuarded(w', h)
  {
    var row := w.claims.rows[h];
    if Newest(w.creds, row.device, row.generation.value) {
      if !Newest(w'.creds, row.device, row.generation.value) {
        assert WatchesDevice(w'.requests[id], h, row);
      }
    } else {
      var q :| q in w.requests && WatchesDevice(w.requests[q], h, row);
      assert q in w'.requests && w'.requests[q] == w.requests[q];
    }
  }

  lemma GrantGuardMoves(w: World, w': World, id: nat, closer: Option<Request>, h: string)
    requires h in w.claims.rows && w.claims.rows[h].grant.Some? && GrantGuarded(w, h) && w'.claims == w.claims
    requires w'.requests == if closer.Some? then w.requests[id := closer.value] else w.requests
    requires closer.Some? ==> id !in w.requests
    requires var row := w.claims.rows[h];
      GrantLives(w.creds, row.grant.value) ==>
        GrantLives(w'.creds, row.grant.value) || ClosesGrant(closer, row.grant.value, row.device)
    ensures GrantGuarded(w', h)
  {
    var row := w.claims.rows[h];
    if GrantLives(w.creds, row.grant.value) {
      if !GrantLives(w'.creds, row.grant.value) {
        assert WatchesGrant(w'.requests[id], h, row);
      }
    } else {
      var q :| q in w.requests && WatchesGrant(w.requests[q], h, row);
      assert q in w'.requests && w'.requests[q] == w.requests[q];
    }
  }

  /** The authentication part of a move is a credential event that closes nothing. */
  lemma AuthenticationKeeps(cfg: Cl.Settings, w: World, now: real, token: string)
    requires Sound(cfg, w)
    ensures var w1 := w.(creds := Cr.Authenticate(w.creds, now, token, false).state);
      Sound(cfg, w1)
  {
    var e := Cr.Event(now, Cr.OpAuthenticate(token, false));
    CredentialMoveKeeps(cfg, w, 0, e);
    assert Committed(w, 0, e) == w.(creds := Cr.Authenticate(w.creds, now, token, false).state);
  }

  lemma NewestAfter(s: Cr.State, now: real, token: string, device: Cr.Device)
    requires CI.Inv(s) && CG.GrantInv(s) && Cr.Authenticate(s, now, token, false).result == Ok(Some(device))
    ensures var s' := Cr.Authenticate(s, now, token, false).state;
      Newest(s', device.device, device.generation) && Enrolled(s', device.device)
  {
    var e := Cr.Event(now, Cr.OpAuthenticate(token, false));
    AuthenticatesNewest(s, now, token, device);
    EventGuardsDevice(s, e, device.device, device.generation);
    EventGrows(s, e);
  }

  lemma AuthenticateKeeps(cfg: Cl.Settings, w: World, id: nat, now: real, token: string, client: bool)
    requires Sound(cfg, w)
    ensures Sound(cfg, AfterAuthenticating(w, id, now, token, client))
  {
    if id !in w.requests {
      var reply := Cr.Authenticate(w.creds, now, token, false);
      AuthenticationKeeps(cfg, w, now, token);
      if reply.result.value.Some? {
        NewestAfter(w.creds, now, token, reply.result.value.value);
        var w1 := w.(creds := reply.state);
        NewRequestKeeps(cfg, w1, id, AfterAuthenticating(w, id, now, token, client).requests[id]);
      }
    }
  }

  lemma NewRequestKeeps(cfg: Cl.Settings, w: World, id: nat, r: Request)
    requires Sound(cfg, w) && id !in w.requests
    requires RequestFits(w.creds, w.claims.rows, r)
    ensures var w' := w.(requests := w.requests[id := r]); Sound(cfg, w')
  {
    var w' := w.(requests := w.requests[id := r]);
    forall h | h in w.claims.rows && w.claims.rows[h].status == Cl.Active
      ensures DeviceGuarded(w', h)
      ensures w.claims.rows[h].kind == Cl.ClientClaim ==> GrantGuarded(w', h)
    {
      var row := w.claims.rows[h];
      if !(row.generation.Some? && Newest(w.creds, row.device, row.generation.value)) {
        var q :| q in w.requests && WatchesDevice(w.requests[q], h, row);
        assert w'.requests[q] == w.requests[q];
      }
      if row.kind == Cl.ClientClaim && !(row.grant.Some? && GrantLives(w.creds, row.grant.value)) {
        var q :| q in w.requests && WatchesGrant(w.requests[q], h, row);
        assert w'.requests[q] == w.requests[q];
      }
    }
  }

  lemma CheckGrantKeeps(cfg: Cl.Settings, w: World, id: nat, now: real, grant: string)
    requires Sound(cfg, w)
    ensures Sound(cfg, AfterGrantCheck(w, id, now, grant))
  {
    var w' := AfterGrantCheck(w, id, now, grant);
    if w' != w {
      ActiveGrantLives(w.creds, now, w.requests[id].device, grant);
      assert RequestFits(w.creds, w.claims.rows, w.requests[id]);
      RequestMoves(cfg, w, w', id);
    }
  }

  /** A claim just made is watched by the request that made it. */
  lemma ClaimAdded(cfg: Cl.Settings, w: World, claims: Cl.Store, id: nat, handle: string, made: Request)
    requires Sound(cfg, w)
    requires id in w.requests && (w.requests[id].Authenticated? || w.requests[id].GrantChecked?)
    requires KI.Inv(cfg, claims) && KI.Evolves(w.claims.rows, claims.rows)
    requires handle !in w.claims.rows && handle in claims.rows
    requires forall h :: h in claims.rows ==> h in w.claims.rows || h == handle
    requires Founded(w.creds, claims.rows[handle])
    requires made.ClaimMade? && made.handle == handle && RequestFits(w.creds, claims.rows, made)
    ensures var w' := World(w.creds, claims, w.requests[id := made]); Sound(cfg, w')
  {
    var w' := World(w.creds, claims, w.requests[id := made]);
    forall q | q in w'.requests
      ensures RequestFits(w.creds, claims.rows, w'.requests[q])
    {
      if q != id {
        assert RequestFits(w.creds, w.claims.rows, w.requests[q]);
      }
    }
    forall h | h in claims.rows && claims.rows[h].status == Cl.Active
      ensures Founded(w.creds, claims.rows[h]) && DeviceGuarded(w', h)
      ensures claims.rows[h].kind == Cl.ClientClaim ==> GrantGuarded(w', h)
    {
      if h == handle {
        assert WatchesDevice(w'.requests[id], h, claims.rows[h]) && WatchesGrant(w'.requests[id], h, claims.rows[h]);
      } else {
        OldClaimStays(w, w', id, h);
      }
    }
  }

  lemma OldClaimStays(w: World, w': World, id: nat, h: string)
    requires h in w.claims.rows && h in w'.claims.rows && KI.Keeps(w.claims.rows[h], w'.claims.rows[h])
    requires w'.claims.rows[h].status == Cl.Active
    requires w.claims.rows[h].status == Cl.Active ==>
               && Founded(w.creds, w.claims.rows[h]) && DeviceGuarded(w, h)
               && (w.claims.rows[h].kind == Cl.ClientClaim ==> GrantGuarded(w, h))
    requires w'.creds == w.creds && id in w.requests && id in w'.requests
             && w'.requests == w.requests[id := w'.requests[id]]
    requires w.requests[id].Authenticated? || w.requests[id].GrantChecked?
    ensures Founded(w.creds, w'.claims.rows[h]) && DeviceGuarded(w', h)
    ensures w'.claims.rows[h].kind == Cl.ClientClaim ==> GrantGuarded(w', h)
  {
    var row, row' := w.claims.rows[h], w'.claims.rows[h];
    if !Newest(w.creds, row.device, row.generation.value) {
      var q :| q in w.requests && WatchesDevice(w.requests[q], h, row);
      assert w'.requests[q] == w.requests[q] && WatchesDevice(w'.requests[q], h, row');
    }
    if row.kind == Cl.ClientClaim && !GrantLives(w.creds, row.grant.value) {
      var q :| q in w.requests && WatchesGrant(w.requests[q], h, row);
      assert w'.requests[q] == w.requests[q] && WatchesGrant(w'.requests[q], h, row');
    }
  }

  /** A creation adds at most the row of its own handle. */
  lemma RoomCreationRows(cfg: Cl.Settings, s: Cl.Store, now: real, d: Cl.Decision, generation: Option<nat>,
          handle: string)
    ensures var (s', made) := Cl.CreateRoom(cfg, s, now, d, generation, handle, Cl.NoFault);
      if made.Made?
      then
        && handle !in s.rows && handle in s'.rows && (forall h :: h in s'.rows ==> h in s.rows || h == handle)
        && s'.rows[handle].device == d.device && s'.rows[handle].generation == generation
        && s'.rows[handle].kind != Cl.ClientClaim && s'.rows[handle].grant.None?
      else forall h :: h in s'.rows ==> h in s.rows
  {
  }

  lemma ClientCreationRows(cfg: Cl.Settings, s: Cl.Store, now: real, q: Cl.ClientRequest, generation: Option<nat>,
          handle: string, ref: string)
    ensures var (s', made) := Cl.CreateClient(cfg, s, now, q, generation, handle, ref, Cl.NoFault);
      if made.Made?
      then
        && handle !in s.rows && handle in s'.rows && (forall h :: h in s'.rows ==> h in s.rows || h == handle)
        && s'.rows[handle].device == q.device && s'.rows[handle].generation == generation
        && s'.rows[handle].grant == Some(q.grant)
      else forall h :: h in s'.rows ==> h in s.rows
  {
  }

  lemma DroppedKeeps(cfg: Cl.Settings, w: World, claims: Cl.Store, id: nat)
    requires Sound(cfg, w)
    requires id in w.requests && (w.requests[id].Authenticated? || w.requests[id].GrantChecked?)
    requires KI.Inv(cfg, claims) && Shrinks(w.claims.rows, claims.rows)
    ensures var w' := World(w.creds, claims, w.requests - {id}); Sound(cfg, w')
  {
    ShrinkKeeps(cfg, w, claims);
    IdleRequestGoes(cfg, w.(claims := claims), id);
  }

  lemma CreateRoomKeeps(cfg: Cl.Settings, w: World, id: nat, now: real, decision: Cl.Decision, handle: string)
    requires Sound(cfg, w)
    ensures Sound(cfg, AfterRoomClaim(cfg, w, id, now, decision, handle))
  {
    if id in w.requests && w.requests[id].Authenticated? && !w.requests[id].client
        && decision.device == w.requests[id].device {
      var r := w.requests[id];
      var (claims, made) := Cl.CreateRoom(cfg, w.claims, now, decision, Some(r.generation), handle, Cl.NoFault);
      KI.CreateRoomKeeps(cfg, w.claims, now, decision, Some(r.generation), handle, Cl.NoFault);
      RoomCreationRows(cfg, w.claims, now, decision, Some(r.generation), handle);
      assert RequestFits(w.creds, w.claims.rows, r);
      if made.Made? {
        ClaimAdded(cfg, w, claims, id, handle, ClaimMade(r.token, r.device, r.generation, handle, None));
      } else {
        DroppedKeeps(cfg, w, claims, id);
      }
    }
  }

  lemma CreateClientKeeps(cfg: Cl.Settings, w: World, id: nat, now: real, claim: Cl.ClientRequest, handle: string,
          ref: string)
    requires Sound(cfg, w)
    ensures Sound(cfg, AfterClientClaim(cfg, w, id, now, claim, handle, ref))
  {
    if id in w.requests && w.requests[id].GrantChecked? && claim.device == w.requests[id].device
        && claim.grant == w.requests[id].grant {
      var r := w.requests[id];
      var (claims, made) := Cl.CreateClient(cfg, w.claims, now, claim, Some(r.generation), handle, ref,
                                            Cl.NoFault);
      KI.CreateClientKeeps(cfg, w.claims, now, claim, Some(r.generation), handle, ref, Cl.NoFault);
      ClientCreationRows(cfg, w.claims, now, claim, Some(r.generation), handle, ref);
      assert RequestFits(w.creds, w.claims.rows, r);
      if made.Made? {
        ClaimAdded(cfg, w, claims, id, handle, ClaimMade(r.token, r.device, r.generation, handle, Some(r.grant)));
      } else {
        DroppedKeeps(cfg, w, claims, id);
      }
    }
  }

  /** The next stage of a request that made its claim. */
  lemma ClaimChecked(cfg: Cl.Settings, w: World, w': World, id: nat, ok: bool)
    requires Sound(cfg, w) && id in w.requests && w.requests[id].ClaimMade?
    requires ok ==> Newest(w.creds, w.requests[id].device, w.requests[id].generation)
    requires var r := w.requests[id];
      w' == w.(requests := if !ok then w.requests[id := Discarding(r.device, r.handle)]
                           else if r.grantUsed.Some? then w.requests[id :=
                               DeviceRechecked(r.device, r.handle, r.grantUsed.value)]
                           else w.requests - {id})
    ensures Sound(cfg, w')
  {
    var r := w.requests[id];
    assert RequestFits(w.creds, w.claims.rows, r);
    forall h | h in w.claims.rows && w.claims.rows[h].status == Cl.Active
        && (WatchesDevice(r, h, w.claims.rows[h]) || WatchesGrant(r, h, w.claims.rows[h]))
      ensures DeviceGuarded(w', h) && (w.claims.rows[h].kind == Cl.ClientClaim ==> GrantGuarded(w', h))
    {
      assert h == r.handle;
      if !ok {
        assert WatchesDevice(w'.requests[id], h, w.claims.rows[h])
               && WatchesGrant(w'.requests[id], h, w.claims.rows[h]);
      } else if r.grantUsed.Some? {
        assert WatchesGrant(w'.requests[id], h, w.claims.rows[h]);
      }
    }
    if ok && r.grantUsed.Some? {
      assert w.claims.rows[r.handle].kind == Cl.ClientClaim ==> w.claims.rows[r.handle].grant == r.grantUsed;
    }
    RequestMoves(cfg, w, w', id);
  }

  lemma RecheckDeviceKeeps(cfg: Cl.Settings, w: World, id: nat, now: real, fails: bool)
    requires Sound(cfg, w)
    ensures Sound(cfg, AfterDeviceRecheck(w, id, now, fails))
  {
    if id in w.requests && w.requests[id].ClaimMade? {
      var r := w.requests[id];
      if fails {
        ClaimChecked(cfg, w, AfterDeviceRecheck(w, id, now, fails), id, false);
      } else {
        var reply := Cr.Authenticate(w.creds, now, r.token, false);
        var found := reply.result.value;
        AuthenticationKeeps(cfg, w, now, r.token);
        var same := found.Some? && found.value.device == r.device && found.value.generation == r.generation;
        if same {
          NewestAfter(w.creds, now, r.token, found.value);
        }
        ClaimChecked(cfg, w.(creds := reply.state), AfterDeviceRecheck(w, id, now, fails), id, same);
      }
    }
  }

  lemma RecheckGrantKeeps(cfg: Cl.Settings, w: World, id: nat, now: real, fails: bool)
    requires Sound(cfg, w)
    ensures Sound(cfg, AfterGrantRecheck(w, id, now, fails))
  {
    if id in w.requests && w.requests[id].DeviceRechecked? {
      var r := w.requests[id];
      var ok := !fails && Cr.ActiveClientGrant(w.creds, now, r.device, r.grant);
      if ok {
        ActiveGrantLives(w.creds, now, r.device, r.grant);
      }
      GrantRechecked(cfg, w, AfterGrantRecheck(w, id, now, fails), id, ok);
    }
  }

  lemma GrantRechecked(cfg: Cl.Settings, w: World, w': World, id: nat, ok: bool)
    requires Sound(cfg, w) && id in w.requests && w.requests[id].DeviceRechecked?
    requires ok ==> GrantLives(w.creds, w.requests[id].grant)
    requires var r := w.requests[id];
      w' == w.(requests := if ok then w.requests - {id} else w.requests[id := Discarding(r.device, r.handle)])
    ensures Sound(cfg, w')
  {
    var r := w.requests[id];
    assert RequestFits(w.creds, w.claims.rows, r);
    if !ok {
      assert WatchesGrant(w'.requests[id], r.handle, w.claims.rows[r.handle]);
    }
    assert GrantGuarded(w', r.handle);
    RequestMoves(cfg, w, w', id);
  }

  lemma DiscardKeeps(cfg: Cl.Settings, w: World, id: nat)
    requires Sound(cfg, w)
    ensures Sound(cfg, AfterDiscard(w, id))
  {
    if id in w.requests && w.requests[id].Discarding? {
      var r := w.requests[id];
      assert RequestFits(w.creds, w.claims.rows, r);
      DiscardCloses(cfg, w.claims, r.handle, r.device);
      Discarded(cfg, w, id, DiscardedFrom(w.claims, r.handle, r.device));
    }
  }

  lemma Discarded(cfg: Cl.Settings, w: World, id: nat, claims: Cl.Store)
    requires Sound(cfg, w) && id in w.requests && w.requests[id].Discarding?
    requires KI.Inv(cfg, claims) && Shrinks(w.claims.rows, claims.rows)
    requires w.requests[id].handle in claims.rows ==> claims.rows[w.requests[id].handle].status == Cl.Closed
    ensures var w' := World(w.creds, claims, w.requests - {id}); Sound(cfg, w')
  {
    hide Sound, KI.Inv;
    ShrinkKeeps(cfg, w, claims);
    IdleRequestGoes(cfg, w.(claims := claims), id);
  }

  lemma DiscardCloses(cfg: Cl.Settings, s: Cl.Store, handle: string, device: string)
    requires KI.Inv(cfg, s) && handle in s.rows && s.rows[handle].device == device
    ensures var s' := DiscardedFrom(s, handle, device);
      KI.Inv(cfg, s') && Shrinks(s.rows, s'.rows) && handle in s'.rows && s'.rows[handle].status == Cl.Closed
  {
    TableMoveShrinks(cfg, s, Cl.OpClose(handle, Some(device), Cl.EndpointRevoked, Cl.Access(false, false)));
  }

  /** A sweep leaves no active claim that its request watches. */
  lemma SweptAreUnwatched(s: Cl.Store, r: Request, h: string)
    requires r.ClosingDevice? || r.ClosingGrant?
    requires var rows := Cl.CloseMatching(s, Sweeps(r), ClosingReason(r)).rows; h in rows && rows[h].status == Cl.Active
    ensures var rows := Cl.CloseMatching(s, Sweeps(r), ClosingReason(r)).rows;
      !WatchesDevice(r, h, rows[h]) && !WatchesGrant(r, h, rows[h])
  {
    var rows := Cl.CloseMatching(s, Sweeps(r), ClosingReason(r)).rows;
    assert rows[h] == s.rows[h];
    assert !Cl.Selects(Sweeps(r), h, s.rows[h]);
  }

  lemma CloseKeeps(cfg: Cl.Settings, w: World, id: nat)
    requires Sound(cfg, w)
    ensures Sound(cfg, AfterClosing(w, id))
  {
    if id in w.requests && (w.requests[id].ClosingDevice? || w.requests[id].ClosingGrant?) {
      var r := w.requests[id];
      var op := Cl.OpCloseMatching(Sweeps(r), ClosingReason(r));
      TableMoveShrinks(cfg, w.claims, op);
      var claims := Cl.CloseMatching(w.claims, Sweeps(r), ClosingReason(r));
      assert claims == Cl.Next(cfg, w.claims, op);
      ShrinkKeeps(cfg, w, claims);
      forall h | h in claims.rows && claims.rows[h].status == Cl.Active
        ensures !WatchesDevice(r, h, claims.rows[h]) && !WatchesGrant(r, h, claims.rows[h])
      {
        SweptAreUnwatched(w.claims, r, h);
      }
      IdleRequestGoes(cfg, w.(claims := claims), id);
    }
  }

  lemma RestartKeeps(cfg: Cl.Settings, w: World)
    requires Sound(cfg, w)
    ensures Sound(cfg, Apply(cfg, w, RestartHome))
  {
    KI.StepKeeps(cfg, w.claims, Cl.OpRestart);
    assert Apply(cfg, w, RestartHome) == World(w.creds, Cl.Next(cfg, w.claims, Cl.OpRestart), map[]);
    RestartCloses(w.claims);
  }

  lemma RestartCloses(s: Cl.Store)
    ensures forall h :: h in Cl.Restart(s).rows ==> Cl.Restart(s).rows[h].status == Cl.Closed
  {
  }

  lemma AbandonKeeps(cfg: Cl.Settings, w: World, id: nat)
    requires Sound(cfg, w)
    ensures Sound(cfg, AfterAbandoning(w, id))
  {
    if AfterAbandoning(w, id) != w {
      IdleRequestGoes(cfg, w, id);
    }
  }

  lemma TableKeeps(cfg: Cl.Settings, w: World, op: Cl.Op)
    requires Sound(cfg, w) && KI.CallerReason(op) && !IsCreation(op)
    ensures Sound(cfg, w.(claims := Cl.Next(cfg, w.claims, op)))
  {
    TableMoveShrinks(cfg, w.claims, op);
    ShrinkKeeps(cfg, w, Cl.Next(cfg, w.claims, op));
  }

  lemma MoveKeeps(cfg: Cl.Settings, w: World, m: Move)
    requires Sound(cfg, w) && Legal(w, m)
    ensures Sound(cfg, Apply(cfg, w, m))
  {
    hide Sound;
    match m
    case Authenticate(id, now, token, client) => AuthenticateKeeps(cfg, w, id, now, token, client);
    case CheckGrant(id, now, grant) => CheckGrantKeeps(cfg, w, id, now, grant);
    case CreateRoomClaim(id, now, decision, handle) => CreateRoomKeeps(cfg, w, id, now, decision, handle);
    case CreateClientClaim(id, now, claim, handle, ref) => CreateClientKeeps(cfg, w, id, now, claim, handle, ref);
    case RecheckDevice(id, now, fails) => RecheckDeviceKeeps(cfg, w, id, now, fails);
    case RecheckGrant(id, now, fails) => RecheckGrantKeeps(cfg, w, id, now, fails);
    case Discard(id) => DiscardKeeps(cfg, w, id);
    case Abandon(id) => AbandonKeeps(cfg, w, id);
    case Credential(id, event) =>
      if !(Closer(w.creds, event).Some? && id in w.requests) {
        CredentialMoveKeeps(cfg, w, id, event);
      }
    case Close(id) => CloseKeeps(cfg, w, id);
    case ClaimTable(op) =>
      if !IsCreation(op) && !op.OpRestart? {
        TableKeeps(cfg, w, op);
      }
    case RestartHome => RestartKeeps(cfg, w);
  }

  lemma {:induction false} RunKeeps(cfg: Cl.Settings, w: World, moves: seq<Move>)
    requires Sound(cfg, w) && Runs(cfg, w, moves)
    ensures Sound(cfg, Final(cfg, w, moves))
    decreases |moves|
  {
    if moves != [] {
      MoveKeeps(cfg, w, moves[0]);
      RunKeeps(cfg, Apply(cfg, w, moves[0]), moves[1..]);
    }
  }

  lemma StartIsSafe(cfg: Cl.Settings)
    ensures Sound(cfg, START)
  {
    assert START.creds == Cr.EMPTY && START.claims == Cl.EMPTY && START.requests == map[];
    forall device
      ensures |Cl.ActiveClients(Cl.EMPTY.rows, device)| == 0
    {
      assert Cl.ActiveClients(Cl.EMPTY.rows, device) == {};
    }
  }

  // ---------------------------------------------------------------- theorems

  /** Once no request is in flight, every active claim carries its device's
      newest unrevoked credential generation. */
  lemma QuiescentClaimsAreCurrent(cfg: Cl.Settings, moves: seq<Move>, handle: string)
    requires Runs(cfg, START, moves) && Final(cfg, START, moves).requests == map[]
    requires var w := Final(cfg, START, moves); handle in w.claims.rows && w.claims.rows[handle].status == Cl.Active
    ensures var w := Final(cfg, START, moves);
      var row := w.claims.rows[handle];
      row.generation.Some? && Newest(w.creds, row.device, row.generation.value)
  {
    StartIsSafe(cfg);
    RunKeeps(cfg, START, moves);
    assert DeviceGuarded(Final(cfg, START, moves), handle);
  }

  /** So a device whose credentials are all revoked has no active claim left. */
  lemma QuiescentRevokedHasNone(cfg: Cl.Settings, moves: seq<Move>, device: string, handle: string)
    requires Runs(cfg, START, moves) && Final(cfg, START, moves).requests == map[]
    requires var w := Final(cfg, START, moves);
      && handle in w.claims.rows && w.claims.rows[handle].device == device
      && forall i :: 0 <= i < |w.creds.credentials| && w.creds.credentials[i].device == device ==>
           w.creds.credentials[i].status == Cr.CredRevoked
    ensures Final(cfg, START, moves).claims.rows[handle].status == Cl.Closed
  {
    var w := Final(cfg, START, moves);
    if w.claims.rows[handle].status == Cl.Active {
      QuiescentClaimsAreCurrent(cfg, moves, handle);
      assert false;
    }
  }

  /** And every active client claim is backed by a grant of its device that is still active. */
  lemma QuiescentClientClaimsAreGranted(cfg: Cl.Settings, moves: seq<Move>, handle: string)
    requires Runs(cfg, START, moves) && Final(cfg, START, moves).requests == map[]
    requires var w := Final(cfg, START, moves);
      handle in w.claims.rows && w.claims.rows[handle].status == Cl.Active
          && w.claims.rows[handle].kind == Cl.ClientClaim
    ensures var w := Final(cfg, START, moves);
      var row := w.claims.rows[handle];
      && row.grant.Some?
      && exists i :: 0 <= i < |w.creds.grants| && w.creds.grants[i].id == row.grant.value
                     && w.creds.grants[i].device == row.device && w.creds.grants[i].status == Cr.GrantActive
  {
    StartIsSafe(cfg);
    RunKeeps(cfg, START, moves);
    var w := Final(cfg, START, moves);
    assert GrantGuarded(w, handle) && Founded(w.creds, w.claims.rows[handle]);
    GrantedNow(w.creds, w.claims.rows[handle].grant.value, w.claims.rows[handle].device);
  }

  lemma GrantedNow(s: Cr.State, grant: string, device: string)
    requires CG.GrantInv(s) && GrantLives(s, grant) && GrantOf(s, grant, device)
    ensures exists i :: 0 <= i < |s.grants| && s.grants[i].id == grant && s.grants[i].device == device
                        && s.grants[i].status == Cr.GrantActive
  {
    var i :| 0 <= i < |s.grants| && s.grants[i].id == grant && s.grants[i].status == Cr.GrantActive;
    var j :| 0 <= j < |s.grants| && s.grants[j].id == grant && s.grants[j].device == device;
    assert i == j;
  }
}
