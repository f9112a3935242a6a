/**
  The endpoint credential state and its operations.

  Every operation of the service runs inside one `mutate` transaction that is
  rolled back when it raises, so each is a function from a state to a `Reply`:
  an error always comes with the state it started from. Clock readings, tokens
  and identifiers that the service draws from its factories are arguments.

  A stored digest is represented by the token itself and AES-GCM by the
  datatype `Sealed`, which gives its plaintext back only under the associated
  data it was made with.
 */
module Credentials {
  import opened Wrappers

  const CREDENTIAL_TTL: real := 7776000.0
  const RENEWAL_WINDOW: real := 1209600.0
  const ROTATION_OVERLAP: real := 600.0
  const PENDING_OWNER_TTL: real := 86400.0
  const MAX_CLIENT_GRANTS: nat := 16
  const PLATFORM_STORAGE := "platform_secure_store"
  const PRIVATE_STORAGE := "service_private_file"
  const CLIENT_CLAIM := "client_claim"
  const WAKE_CLAIM := "wake_claim"
  const TOUCH_CLAIM := "touch_claim"
  const SUPPORTED_CAPABILITIES: set<string> := {
    "client_claim", "consequence_confirm", "health_view", "sensitive_entry",
    "touch_claim", "wake_claim", "watch_view"}
  const CLIENT_ENDPOINT_TYPES: set<string> := {"tui", "ios", "macos", "android", "browser"}

  // ---------------------------------------------------------------- records

  datatype TouchBinding = TouchBinding(room: string, profile: string)

  datatype Scope = Scope(
    rooms: seq<string>, capabilities: seq<string>,
    wakeMappings: seq<string>, touch: Option<TouchBinding>)

  datatype OfferStatus = OfferOpen | OfferPending | OfferConsumed | OfferExpired
  datatype Offer = Offer(id: string, code: string, expiresAt: real, status: OfferStatus)

  datatype RequestStatus = ReqPending | ReqApproved | ReqRejected | ReqConsumed | ReqExpired
  datatype Request = Request(
    id: string, offerId: string, endpoint: string, name: string, kind: string,
    requested: Scope, storage: string, expiresAt: real, status: RequestStatus,
    approved: Option<Scope>, profiles: seq<string>)

  datatype CredentialStatus = CredActive | CredReplaced | CredExpired | CredRevoked
  datatype Credential = Credential(
    device: string, endpoint: string, generation: nat, status: CredentialStatus,
    issuedAt: real, expiresAt: real, overlapUntil: real, token: string,
    scope: Scope, name: string, kind: string)

  datatype Cipher = Sealed(token: string, device: string, generation: nat, requestId: string) | Erased
  datatype ReplacementStatus = RepActive | RepExpired | RepRevoked
  datatype Replacement = Replacement(
    device: string, generation: nat, newGeneration: nat, requestId: string,
    status: ReplacementStatus, overlapUntil: real, newExpiresAt: real,
    scope: Scope, cipher: Cipher)

  datatype GrantStatus = GrantActive | GrantPending | GrantRejected | GrantRevoked | GrantExpired
  datatype Grant = Grant(
    id: string, device: string, profile: string, status: GrantStatus,
    name: string, kind: string, createdAt: real, bootstrap: bool,
    pendingUntil: real, decidedBy: Option<string>)

  datatype GrantRequest = GrantRequest(
    device: string, key: string, profile: string, authorizeBootstrap: bool, grantId: string)

  datatype Fingerprint = Fingerprint(revision: int, grants: seq<(string, GrantStatus)>)
  datatype Projection = Projection(fingerprint: Fingerprint, revision: int)

  datatype State = State(
    offers: seq<Offer>, requests: seq<Request>, credentials: seq<Credential>,
    replacements: seq<Replacement>, grants: seq<Grant>,
    grantRequests: seq<GrantRequest>, projections: map<string, Projection>)

  const EMPTY := State([], [], [], [], [], [], map[])

  datatype Error =
    | NotFound | Conflict | Unauthorized | Forbidden | ExpiredOrConsumed
    | ApprovalPending | RequestRejected | Unavailable | Invalid

  datatype Reply<+T> = Reply(state: State, result: Result<T, Error>)

  datatype Device = Device(device: string, endpoint: string, generation: nat, scope: Scope)
  datatype Material = Material(
    device: string, token: string, generation: nat, expiresAt: real, scope: Scope, grants: seq<Grant>)
  datatype RevocationEvent = RevocationEvent(device: string, generation: nat)
  datatype Enrolled = Enrolled(material: Material, revoked: Option<RevocationEvent>)

  // ------------------------------------------------------------- validation

  predicate ValidId(value: string) { 1 <= |value| <= 128 }

  predicate Bounded(values: seq<string>) {
    && (forall i :: 0 <= i < |values| ==> ValidId(values[i]))
    && (forall i, j :: 0 <= i < j < |values| ==> values[i] != values[j])
  }

  /** What `CredentialScope.from_values` accepts; a touch binding is read as a
      two-element value list, so its Room and Profile must differ. */
  predicate ValidScope(scope: Scope) {
    && Bounded(scope.rooms)
    && Bounded(scope.capabilities)
    && Bounded(scope.wakeMappings)
    && (forall i :: 0 <= i < |scope.capabilities| ==> scope.capabilities[i] in SUPPORTED_CAPABILITIES)
    && (scope.touch.Some? ==> Bounded([scope.touch.value.room, scope.touch.value.profile]))
  }

  predicate Subset(xs: seq<string>, ys: seq<string>) {
    forall i :: 0 <= i < |xs| ==> xs[i] in ys
  }

  predicate Within(xs: seq<string>, ys: set<string>) {
    forall i :: 0 <= i < |xs| ==> xs[i] in ys
  }

  predicate SubsetOf(scope: Scope, requested: Scope) {
    Subset(scope.rooms, requested.rooms) && Subset(scope.capabilities, requested.capabilities)
  }

  predicate StorageOk(kind: string, storage: string) {
    || (kind == "puck" && storage == PRIVATE_STORAGE)
    || storage == (if kind == "browser" then PRIVATE_STORAGE else PLATFORM_STORAGE)
  }

  predicate BrowserScope(scope: Scope) {
    && scope.capabilities == [CLIENT_CLAIM] && scope.rooms == []
    && scope.wakeMappings == [] && scope.touch.None?
  }

  predicate PrivatePuckScope(scope: Scope, approved: bool) {
    && |scope.rooms| == 1 && scope.capabilities == [WAKE_CLAIM] && scope.touch.None?
    && (approved ==> scope.wakeMappings != [])
  }

  predicate KindAllows(kind: string, storage: string, scope: Scope, approved: bool) {
    && (kind == "browser" ==> BrowserScope(scope))
    && (kind == "puck" && storage == PRIVATE_STORAGE ==> PrivatePuckScope(scope, approved))
  }

  // ---------------------------------------------------------------- lookups

  function FindOfferByCode(offers: seq<Offer>, code: string, from: nat := 0): (r: Option<nat>)
    requires from <= |offers|
    ensures r.Some? ==> from <= r.value < |offers| && offers[r.value].code == code
    decreases |offers| - from
  {
    if from == |offers| then None
    else if offers[from].code == code then Some(from)
    else FindOfferByCode(offers, code, from + 1)
  }

  function FindOffer(offers: seq<Offer>, id: string, from: nat := 0): (r: Option<nat>)
    requires from <= |offers|
    ensures r.Some? ==> from <= r.value < |offers| && offers[r.value].id == id
    decreases |offers| - from
  {
    if from == |offers| then None
    else if offers[from].id == id then Some(from)
    else FindOffer(offers, id, from + 1)
  }

  function FindRequest(requests: seq<Request>, id: string, from: nat := 0): (r: Option<nat>)
    requires from <= |requests|
    ensures r.Some? ==> from <= r.value < |requests| && requests[r.value].id == id
    decreases |requests| - from
  {
    if from == |requests| then None
    else if requests[from].id == id then Some(from)
    else FindRequest(requests, id, from + 1)
  }

  function FindCredential(cs: seq<Credential>, device: string, generation: nat, from: nat := 0): (r: Option<nat>)
    requires from <= |cs|
    ensures r.Some? ==> from <= r.value < |cs| && cs[r.value].device == device && cs[r.value].generation == generation
    ensures r.None? ==> forall i :: from <= i < |cs| ==> !(cs[i].device == device && cs[i].generation == generation)
    decreases |cs| - from
  {
    if from == |cs| then None
    else if cs[from].device == device && cs[from].generation == generation then Some(from)
    else FindCredential(cs, device, generation, from + 1)
  }

  function FindEndpoint(cs: seq<Credential>, endpoint: string, from: nat := 0): (r: Option<nat>)
    requires from <= |cs|
    ensures r.Some? ==> from <= r.value < |cs| && cs[r.value].endpoint == endpoint
    ensures r.None? ==> forall i :: from <= i < |cs| ==> cs[i].endpoint != endpoint
    decreases |cs| - from
  {
    if from == |cs| then None
    else if cs[from].endpoint == endpoint then Some(from)
    else FindEndpoint(cs, endpoint, from + 1)
  }

  function FindReplacement(rs: seq<Replacement>, device: string, generation: nat, requestId: string,
          from: nat := 0): (r: Option<nat>)
    requires from <= |rs|
    ensures r.Some? ==> from <= r.value < |rs| && Names(rs[r.value], device, generation, requestId)
    ensures r.None? ==> forall i :: from <= i < |rs| ==> !Names(rs[i], device, generation, requestId)
    decreases |rs| - from
  {
    if from == |rs| then None
    else if Names(rs[from], device, generation, requestId) then Some(from)
    else FindReplacement(rs, device, generation, requestId, from + 1)
  }

  predicate Names(r: Replacement, device: string, generation: nat, requestId: string) {
    r.device == device && r.generation == generation && r.requestId == requestId
  }

  function FindGrant(gs: seq<Grant>, id: string, from: nat := 0): (r: Option<nat>)
    requires from <= |gs|
    ensures r.Some? ==> from <= r.value < |gs| && gs[r.value].id == id
    ensures r.None? ==> forall i :: from <= i < |gs| ==> gs[i].id != id
    decreases |gs| - from
  {
    if from == |gs| then None
    else if gs[from].id == id then Some(from)
    else FindGrant(gs, id, from + 1)
  }

  function FindGrantRequest(rs: seq<GrantRequest>, device: string, key: string, from: nat := 0): (r: Option<nat>)
    requires from <= |rs|
    ensures r.Some? ==> from <= r.value < |rs|
    decreases |rs| - from
  {
    if from == |rs| then None
    else if rs[from].device == device && rs[from].key == key then Some(from)
    else FindGrantRequest(rs, device, key, from + 1)
  }

  /** The greatest generation among the records of one endpoint, 0 if none. */
  function MaxGeneration(cs: seq<Credential>, endpoint: string): (g: nat)
    ensures forall i :: 0 <= i < |cs| && cs[i].endpoint == endpoint ==> cs[i].generation <= g
    ensures g > 0 ==> exists i :: 0 <= i < |cs| && cs[i].endpoint == endpoint && cs[i].generation == g
  {
    if cs == [] then 0
    else
      var last := cs[|cs| - 1];
      var g := MaxGeneration(cs[..|cs| - 1], endpoint);
      if last.endpoint == endpoint && last.generation > g then last.generation else g
  }

  /** The index of a device's newest record. */
  function NewestOf(cs: seq<Credential>, device: string): (r: Option<nat>)
    ensures r.Some? ==>
              && r.value < |cs| && cs[r.value].device == device
              && forall i :: 0 <= i < |cs| && cs[i].device == device ==> cs[i].generation <= cs[r.value].generation
    ensures r.None? ==> forall i :: 0 <= i < |cs| ==> cs[i].device != device
  {
    if cs == [] then None
    else
      var n := |cs| - 1;
      var before := NewestOf(cs[..n], device);
      if cs[n].device == device && (before.None? || cs[n].generation > cs[before.value].generation)
      then Some(n) else before
  }

  // ------------------------------------------------------ record list edits

  function RevokeEndpoint(cs: seq<Credential>, endpoint: string): (r: seq<Credential>)
  {
    seq(|cs|, i requires 0 <= i < |cs| =>
      if cs[i].endpoint == endpoint then cs[i].(status := CredRevoked) else cs[i])
  }

  function RevokeDevice(cs: seq<Credential>, device: string): (r: seq<Credential>)
  {
    seq(|cs|, i requires 0 <= i < |cs| =>
      if cs[i].device == device then cs[i].(status := CredRevoked) else cs[i])
  }

  function Invalidated(r: Replacement, status: ReplacementStatus): Replacement {
    r.(status := status, cipher := Erased)
  }

  function RevokeReplacements(rs: seq<Replacement>, device: string): seq<Replacement> {
    seq(|rs|, i requires 0 <= i < |rs| =>
      if rs[i].device == device then Invalidated(rs[i], RepRevoked) else rs[i])
  }

  predicate LiveGrant(g: Grant) { g.status == GrantActive || g.status == GrantPending }

  function ExpiredGrant(g: Grant, now: real): Grant {
    if g.status == GrantPending && now >= g.pendingUntil then g.(status := GrantExpired) else g
  }

  function ExpirePending(gs: seq<Grant>, now: real): seq<Grant> {
    seq(|gs|, i requires 0 <= i < |gs| => ExpiredGrant(gs[i], now))
  }

  function EndedGrant(g: Grant, device: string): Grant {
    if g.device == device && LiveGrant(g) then g.(status := GrantRevoked) else g
  }

  function EndGrants(gs: seq<Grant>, device: string): seq<Grant> {
    seq(|gs|, i requires 0 <= i < |gs| => EndedGrant(gs[i], device))
  }

  // ------------------------------------------------------------- enrollment

  function CreateOffer(s: State, now: real, id: string, code: string, ttl: int): Reply<real> {
    if !(1 <= ttl <= 300) || !ValidId(id) || code == "" then Reply(s, Err(Invalid))
    else
      var expiresAt := now + ttl as real;
      Reply(s.(offers := s.offers + [Offer(id, code, expiresAt, OfferOpen)]), Ok(expiresAt))
  }

  function SubmitRequest(s: State, now: real, code: string, id: string, endpoint: string, name: string,
          kind: string, rooms: seq<string>, capabilities: seq<string>, storage: string): Reply<Request>
  {
    var scope := Scope(rooms, capabilities, [], None);
    if code == "" || !ValidId(endpoint) || !ValidId(name) || !ValidId(kind) || !StorageOk(kind, storage)
       || !ValidScope(scope) || !KindAllows(kind, storage, scope, false) || !ValidId(id)
    then Reply(s, Err(Invalid))
    else
      match FindOfferByCode(s.offers, code)
      case None => Reply(s, Err(Unauthorized))
      case Some(k) =>
        var offer := s.offers[k];
        if offer.status != OfferOpen || now >= offer.expiresAt then Reply(s, Err(ExpiredOrConsumed))
        else
          var request := Request(id, offer.id, endpoint, name, kind, scope, storage,
                                 offer.expiresAt, ReqPending, None, []);
          Reply(s.(offers := s.offers[k := offer.(status := OfferPending)],
                   requests := s.requests + [request]),
                Ok(request))
  }

  /** The policy `approve_request` applies to one pending request. */
  predicate Approvable(request: Request, scope: Scope, rooms: set<string>, mappings: set<string>,
          profiles: set<string>, clientProfiles: seq<string>)
  {
    && SubsetOf(scope, request.requested)
    && KindAllows(request.kind, request.storage, scope, true)
    && Within(scope.rooms, rooms)
    && Within(scope.wakeMappings, mappings)
    && (scope.touch.Some? ==>
          && TOUCH_CLAIM in scope.capabilities
          && scope.touch.value.room in scope.rooms
          && scope.touch.value.profile in profiles)
    && (if CLIENT_CLAIM in scope.capabilities then
          && WAKE_CLAIM !in scope.capabilities && TOUCH_CLAIM !in scope.capabilities
          && request.kind in CLIENT_ENDPOINT_TYPES
          && clientProfiles != []
          && Within(clientProfiles, profiles)
        else
          clientProfiles == [])
  }

  function ApproveRequest(s: State, now: real, id: string, scope: Scope, rooms: set<string>, mappings: set<string>,
          profiles: set<string>, clientProfiles: seq<string>): Reply<Request>
  {
    if !ValidId(id) || !Bounded(clientProfiles) || |clientProfiles| > MAX_CLIENT_GRANTS
    then Reply(s, Err(Invalid))
    else
      match PendingRequest(s, now, id)
      case Err(e) => Reply(s, Err(e))
      case Ok(k) =>
        if !Approvable(s.requests[k], scope, rooms, mappings, profiles, clientProfiles) || !ValidScope(scope)
        then Reply(s, Err(Invalid))
        else
          var request := s.requests[k].(status := ReqApproved, approved := Some(scope), profiles := clientProfiles);
          Reply(s.(requests := s.requests[k := request]), Ok(request))
  }

  function PendingRequest(s: State, now: real, id: string): (r: Result<nat, Error>)
    ensures r.Ok? ==> r.value < |s.requests| && s.requests[r.value].status == ReqPending
  {
    match FindRequest(s.requests, id)
    case None => Err(NotFound)
    case Some(k) =>
      var status := s.requests[k].status;
      if status == ReqExpired then Err(ExpiredOrConsumed)
      else if status != ReqPending then Err(Conflict)
      else if now >= s.requests[k].expiresAt then Err(ExpiredOrConsumed)
      else Ok(k)
  }

  function RejectRequest(s: State, now: real, id: string): Reply<Request> {
    match PendingRequest(s, now, id)
    case Err(e) => Reply(s, Err(e))
    case Ok(k) =>
      var request := s.requests[k].(status := ReqRejected);
      Reply(s.(requests := s.requests[k := request]), Ok(request))
  }

  function ExpiredOffer(o: Offer, now: real): Offer {
    if (o.status == OfferOpen || o.status == OfferPending) && now >= o.expiresAt then o.(status := OfferExpired) else o
  }

  function ExpiredRequest(r: Request, now: real): Request {
    if (r.status == ReqPending || r.status == ReqApproved) && now >= r.expiresAt then r.(status := ReqExpired) else r
  }

  function ListRequests(s: State, now: real): Reply<seq<Request>> {
    var offers := seq(|s.offers|, i requires 0 <= i < |s.offers| => ExpiredOffer(s.offers[i], now));
    var requests := seq(|s.requests|, i requires 0 <= i < |s.requests| => ExpiredRequest(s.requests[i], now));
    Reply(s.(offers := offers, requests := requests), Ok(requests))
  }

  /** Every check `consume_request` makes; the result names the request and its offer. */
  function Consumable(s: State, now: real, id: string, code: string, storage: string,
          shared: Option<set<string>>): (r: Result<(nat, nat), Error>)
    ensures r.Ok? ==> r.value.0 < |s.requests| && r.value.1 < |s.offers| && s.requests[r.value.0].status == ReqApproved
  {
    match FindRequest(s.requests, id)
    case None => Err(NotFound)
    case Some(k) =>
      var request := s.requests[k];
      if request.status == ReqConsumed || request.status == ReqExpired then Err(ExpiredOrConsumed)
      else if now >= request.expiresAt && (request.status == ReqPending || request.status == ReqApproved)
      then Err(ExpiredOrConsumed)
      else if request.status == ReqPending then Err(ApprovalPending)
      else if request.status == ReqRejected then Err(RequestRejected)
      else if request.status != ReqApproved then Err(Conflict)
      else if !StorageOk(request.kind, storage) || request.storage != storage then Err(Invalid)
      else if shared.None? && request.profiles != [] then Err(Unavailable)
      else
        match FindOffer(s.offers, request.offerId)
        case None => Err(Unauthorized)
        case Some(o) =>
          if s.offers[o].code != code then Err(Unauthorized)
          else if s.offers[o].status != OfferPending then Err(ExpiredOrConsumed)
          else Ok((k, o))
  }

  function ConsumeRequest(s: State, now: real, id: string, code: string, storage: string,
          shared: Option<set<string>>, token: string, freshDevice: string, grantIds: seq<string>): Reply<Enrolled>
  {
    match Consumable(s, now, id, code, storage, shared)
    case Err(e) => Reply(s, Err(e))
    case Ok((k, o)) =>
      if token == "" || s.requests[k].approved.None? then Reply(s, Err(Invalid))
      else Enroll(s, now, k, o, if shared.Some? then shared.value else {}, token, freshDevice, grantIds)
  }

  /** The writes of a consumption that passed its checks. */
  function Enroll(s: State, now: real, k: nat, o: nat, shared: set<string>, token: string, freshDevice: string,
          grantIds: seq<string>): Reply<Enrolled>
    requires k < |s.requests| && o < |s.offers| && s.requests[k].approved.Some?
  {
    var request := s.requests[k];
    var found := FindEndpoint(s.credentials, request.endpoint);
    var device := if found.Some? then s.credentials[found.value].device else freshDevice;
    var generation := MaxGeneration(s.credentials, request.endpoint) + 1;
    var scope := request.approved.value;
    var expiresAt := now + CREDENTIAL_TTL;
    var record := Credential(device, request.endpoint, generation, CredActive, now, expiresAt,
                             0.0, token, scope, request.name, request.kind);
    var credentials := RevokeEndpoint(s.credentials, request.endpoint) + [record];
    var replacements := if found.Some? then RevokeReplacements(s.replacements, device) else s.replacements;
    var kept := EndGrants(ExpirePending(s.grants, now), device);
    var issued := IssuedGrants(kept, LiveDevices(credentials, now), device, request, shared, now, grantIds);
    var event := if found.Some? then Some(RevocationEvent(device, generation - 1)) else None;
    Reply(s.(offers := s.offers[o := s.offers[o].(status := OfferConsumed)],
             requests := s.requests[k := request.(status := ReqConsumed)],
             credentials := credentials,
             replacements := replacements,
             grants := kept + issued),
          Ok(Enrolled(Material(device, token, generation, expiresAt, scope, issued), event)))
  }

  // --------------------------------------------------------- authentication

  /** The status a record has once the clock reading `now` is taken into account. */
  function Effective(c: Credential, now: real): CredentialStatus {
    if (c.status == CredActive && now >= c.expiresAt) || (c.status == CredReplaced && now >= c.overlapUntil)
    then CredExpired else c.status
  }

  predicate Accepts(c: Credential, now: real, allowReplaced: bool) {
    var status := Effective(c, now);
    status == CredActive || (allowReplaced && status == CredReplaced && now < c.overlapUntil)
  }

  function DeviceOf(c: Credential): Device { Device(c.device, c.endpoint, c.generation, c.scope) }

  /** The binding of the last accepted record that carries the token. */
  function Found(cs: seq<Credential>, now: real, token: string, allowReplaced: bool): (r: Option<Device>)
    ensures r.Some? ==> exists i :: 0 <= i < |cs| && cs[i].token == token && Accepts(cs[i], now, allowReplaced)
                                    && r.value == DeviceOf(cs[i])
  {
    if cs == [] then None
    else
      var last := cs[|cs| - 1];
      if last.token == token && Accepts(last, now, allowReplaced) then Some(DeviceOf(last))
      else Found(cs[..|cs| - 1], now, token, allowReplaced)
  }

  function CleanCredentials(cs: seq<Credential>, now: real): seq<Credential> {
    seq(|cs|, i requires 0 <= i < |cs| => cs[i].(status := Effective(cs[i], now)))
  }

  function CleanReplacement(r: Replacement, now: real): Replacement {
    if Lapsed(r, now) then Invalidated(r, RepExpired) else r
  }

  function CleanReplacements(rs: seq<Replacement>, now: real): seq<Replacement> {
    seq(|rs|, i requires 0 <= i < |rs| => CleanReplacement(rs[i], now))
  }

  function Clean(s: State, now: real): State {
    s.(credentials := CleanCredentials(s.credentials, now),
       replacements := CleanReplacements(s.replacements, now))
  }

  predicate Lapsed(r: Replacement, now: real) { r.status == RepActive && now >= r.overlapUntil }

  predicate Outdated(c: Credential, now: real) { Effective(c, now) != c.status }

  predicate NeedsCleaning(s: State, now: real) {
    || (exists i :: 0 <= i < |s.replacements| && Lapsed(s.replacements[i], now))
    || (exists i :: 0 <= i < |s.credentials| && Outdated(s.credentials[i], now))
  }

  function Authenticate(s: State, now: real, token: string, allowReplaced: bool): Reply<Option<Device>> {
    if token == "" then Reply(s, Ok(None))
    else if !NeedsCleaning(s, now) then Reply(s, Ok(Found(s.credentials, now, token, allowReplaced)))
    else
      var cleaned := Clean(s, now);
      Reply(cleaned, Ok(Found(cleaned.credentials, now, token, allowReplaced)))
  }

  // ------------------------------------------------- replacement, revocation

  function Decrypt(cipher: Cipher, device: string, generation: nat, requestId: string): Option<string> {
    if cipher.Sealed? && cipher.device == device && cipher.generation == generation && cipher.requestId == requestId
    then Some(cipher.token) else None
  }

  predicate Replaced(rs: seq<Replacement>, device: string, generation: nat) {
    exists i :: 0 <= i < |rs| && rs[i].device == device && rs[i].generation == generation
  }

  predicate RequestUsed(rs: seq<Replacement>, device: string, requestId: string) {
    exists i :: 0 <= i < |rs| && rs[i].device == device && rs[i].requestId == requestId
  }

  function ReplaceCredential(s: State, now: real, device: string, requestId: string, generation: nat,
          renewalOnly: bool, token: string): Reply<Material>
  {
    match FindCredential(s.credentials, device, generation)
    case None => Reply(s, Err(NotFound))
    case Some(k) =>
      match FindReplacement(s.replacements, device, generation, requestId)
      case Some(x) => Reply(s, Retry(s.replacements[x], now))
      case None =>
        var current := s.credentials[k];
        if RequestUsed(s.replacements, device, requestId) || Replaced(s.replacements, device, generation)
        then Reply(s, Err(Conflict))
        else if current.status != CredActive || now >= current.expiresAt then Reply(s, Err(ExpiredOrConsumed))
        else if renewalOnly && current.expiresAt - now > RENEWAL_WINDOW then Reply(s, Err(Conflict))
        else if token == "" then Reply(s, Err(Invalid))
        else
          var overlapUntil := now + ROTATION_OVERLAP;
          var expiresAt := now + CREDENTIAL_TTL;
          var record := Credential(device, current.endpoint, generation + 1, CredActive, now, expiresAt, 0.0,
                                   token, current.scope, current.name, current.kind);
          var replacement := Replacement(device, generation, generation + 1, requestId, RepActive, overlapUntil,
                                         expiresAt, current.scope, Sealed(token, device, generation, requestId));
          Reply(s.(credentials :=
                     s.credentials[k := current.(status := CredReplaced, overlapUntil := overlapUntil)] + [record],
                   replacements := s.replacements + [replacement]),
                Ok(Material(device, token, generation + 1, expiresAt, current.scope, [])))
  }

  /** What an already stored replacement answers to its own request ID. */
  function Retry(r: Replacement, now: real): Result<Material, Error> {
    if r.status != RepActive || now >= r.overlapUntil then Err(ExpiredOrConsumed)
    else
      match Decrypt(r.cipher, r.device, r.generation, r.requestId)
      case None => Err(Unavailable)
      case Some(token) => Ok(Material(r.device, token, r.newGeneration, r.newExpiresAt, r.scope, []))
  }

  function Revoke(s: State, device: string): Reply<RevocationEvent> {
    match NewestOf(s.credentials, device)
    case None => Reply(s, Err(NotFound))
    case Some(k) =>
      if forall i :: 0 <= i < |s.credentials| && s.credentials[i].device == device ==>
        s.credentials[i].status == CredRevoked
      then Reply(s, Err(Conflict))
      else
        Reply(s.(credentials := RevokeDevice(s.credentials, device),
                 replacements := RevokeReplacements(s.replacements, device),
                 grants := EndGrants(s.grants, device)),
              Ok(RevocationEvent(device, s.credentials[k].generation)))
  }

  // ---------------------------------------------------------- client grants

  /** Devices holding a credential that can still authenticate. */
  function LiveDevices(cs: seq<Credential>, now: real): set<string> {
    set i | 0 <= i < |cs| && Accepts(cs[i], now, true) :: cs[i].device
  }

  predicate HeldElsewhere(gs: seq<Grant>, live: set<string>, device: string, profile: string) {
    exists i :: 0 <= i < |gs| && gs[i].profile == profile && gs[i].status == GrantActive
                && gs[i].device != device && gs[i].device in live
  }

  function IdAt(ids: seq<string>, i: nat): string { if i < |ids| then ids[i] else "" }

  function IssuedGrant(gs: seq<Grant>, live: set<string>, device: string, request: Request, shared: set<string>,
          now: real, id: string, profile: string): Grant
  {
    var held := HeldElsewhere(gs, live, device, profile);
    Grant(id, device, profile,
          if profile in shared || !held then GrantActive else GrantPending,
          request.name, request.kind, now, profile !in shared && !held,
          now + PENDING_OWNER_TTL, None)
  }

  function IssuedGrants(gs: seq<Grant>, live: set<string>, device: string, request: Request, shared: set<string>,
          now: real, ids: seq<string>): (r: seq<Grant>)
    ensures |r| == |request.profiles|
  {
    seq(|request.profiles|, i requires 0 <= i < |request.profiles| =>
      IssuedGrant(gs, live, device, request, shared, now, IdAt(ids, i), request.profiles[i]))
  }

  predicate HoldsProfile(gs: seq<Grant>, device: string, profile: string) {
    exists i :: 0 <= i < |gs| && gs[i].device == device && gs[i].profile == profile && gs[i].status == GrantActive
  }

  /** The first live grant a device holds on a Profile. */
  function FindLive(gs: seq<Grant>, device: string, profile: string, from: nat := 0): (r: Option<nat>)
    requires from <= |gs|
    ensures r.Some? ==> from <= r.value < |gs| && LiveGrant(gs[r.value])
    ensures r.Some? ==> gs[r.value].device == device && gs[r.value].profile == profile
    ensures r.None? ==> forall i :: from <= i < |gs| ==>
              !(gs[i].device == device && gs[i].profile == profile && LiveGrant(gs[i]))
    decreases |gs| - from
  {
    if from == |gs| then None
    else if gs[from].device == device && gs[from].profile == profile && LiveGrant(gs[from]) then Some(from)
    else FindLive(gs, device, profile, from + 1)
  }

  function LiveCount(gs: seq<Grant>, device: string): nat {
    if gs == [] then 0
    else
      var last := gs[|gs| - 1];
      LiveCount(gs[..|gs| - 1], device) + if last.device == device && LiveGrant(last) then 1 else 0
  }

  predicate LabelTaken(gs: seq<Grant>, device: string, labels: map<string, string>, name: string) {
    exists i :: 0 <= i < |gs| && gs[i].device == device && LiveGrant(gs[i])
                && gs[i].profile in labels && labels[gs[i].profile] == name
  }

  datatype GrantOffer = GrantOffer(
    device: string, profile: string, key: string, available: set<string>,
    labels: map<string, string>, shared: set<string>, authorizeBootstrap: bool)

  function AddGrant(s: State, now: real, offer: GrantOffer, id: string): Reply<Grant> {
    var live := LiveDevices(s.credentials, now);
    var newest := NewestOf(s.credentials, offer.device);
    if offer.profile == "*" || !ValidId(offer.device) || !ValidId(offer.profile) || !ValidId(offer.key)
    then Reply(s, Err(Invalid))
    else if offer.device !in live || newest.None? then Reply(s, Err(NotFound))
    else
      var device := s.credentials[newest.value];
      if device.kind !in CLIENT_ENDPOINT_TYPES || CLIENT_CLAIM !in device.scope.capabilities
      then Reply(s, Err(Forbidden))
      else
        var reply := AppendGrant(s.(grants := ExpirePending(s.grants, now)), now, offer, id, live, device);
        if reply.result.Err? then Reply(s, reply.result) else reply
  }

  /** The part of `add_client_grant` behind the device checks, on a swept state. */
  function AppendGrant(s: State, now: real, offer: GrantOffer, id: string, live: set<string>,
          device: Credential): Reply<Grant>
  {
    match FindGrantRequest(s.grantRequests, offer.device, offer.key)
    case Some(x) =>
      var earlier := s.grantRequests[x];
      if earlier.profile != offer.profile || earlier.authorizeBootstrap != offer.authorizeBootstrap
      then Reply(s, Err(Conflict))
      else
        (match FindGrant(s.grants, earlier.grantId)
         case None => Reply(s, Err(NotFound))
         case Some(g) => Reply(s, Ok(s.grants[g])))
    case None =>
      match FindLive(s.grants, offer.device, offer.profile)
      case Some(g) => Reply(Remember(s, offer, s.grants[g].id), Ok(s.grants[g]))
      case None =>
        if offer.profile !in offer.available || offer.profile !in offer.labels
           || LabelTaken(s.grants, offer.device, offer.labels, offer.labels[offer.profile])
           || LiveCount(s.grants, offer.device) >= MAX_CLIENT_GRANTS
        then Reply(s, Err(Invalid))
        else
          var held := HeldElsewhere(s.grants, live, offer.device, offer.profile);
          var bootstrap := offer.profile !in offer.shared && !held && offer.authorizeBootstrap;
          var grant := Grant(id, offer.device, offer.profile,
                             if offer.profile in offer.shared || bootstrap then GrantActive else GrantPending,
                             device.name, device.kind, now, bootstrap, now + PENDING_OWNER_TTL,
                             if bootstrap then Some("home_admin") else None);
          Reply(Remember(s.(grants := s.grants + [grant]), offer, id), Ok(grant))
  }

  function Remember(s: State, offer: GrantOffer, grantId: string): State {
    s.(grantRequests := s.grantRequests +
                        [GrantRequest(offer.device, offer.key, offer.profile, offer.authorizeBootstrap, grantId)])
  }

  function DecideGrant(s: State, now: real, approver: string, id: string, approve: bool): Reply<Grant> {
    var grants := ExpirePending(s.grants, now);
    if exists i :: 0 <= i < |s.credentials| && s.credentials[i].device == approver
                   && s.credentials[i].kind == "browser" && s.credentials[i].status == CredActive
    then Reply(s, Err(Forbidden))
    else
      match FindGrant(grants, id)
      case None => Reply(s, Err(NotFound))
      case Some(k) =>
        if grants[k].status != GrantPending then Reply(s, Err(NotFound))
        else if grants[k].device == approver || !HoldsProfile(grants, approver, grants[k].profile)
        then Reply(s, Err(Unauthorized))
        else
          var grant := grants[k].(status := if approve then GrantActive
                                            else GrantRejected, decidedBy := Some(approver));
          Reply(s.(grants := grants[k := grant]), Ok(grant))
  }

  function RevokeGrant(s: State, now: real, id: string, requester: Option<string>, shared: set<string>): Reply<Grant> {
    var grants := ExpirePending(s.grants, now);
    match FindGrant(grants, id)
    case None => Reply(s, Err(NotFound))
    case Some(k) =>
      var grant := grants[k];
      if !LiveGrant(grant) && grant.status != GrantRevoked then Reply(s, Err(NotFound))
      else if requester.Some? && (!HoldsProfile(grants, requester.value, grant.profile)
                                  || (grant.profile in shared && grant.device != requester.value))
      then Reply(s, Err(Unauthorized))
      else
        var ended := grant.(status := GrantRevoked);
        Reply(s.(grants := grants[k := ended]), Ok(ended))
  }

  // -------------------------------------------------- configuration revision

  predicate CurrentGrant(g: Grant, now: real) {
    g.status == GrantActive || (g.status == GrantPending && now < g.pendingUntil)
  }

  /** A device's current grants, in record order. */
  function CurrentGrants(gs: seq<Grant>, now: real, device: string): (r: seq<Grant>)
    ensures forall i :: 0 <= i < |r| ==> r[i] in gs && CurrentGrant(r[i], now) && r[i].device == device
    ensures forall g :: g in gs && CurrentGrant(g, now) && g.device == device ==> g in r
  {
    if gs == [] then []
    else
      var last := gs[|gs| - 1];
      var before := CurrentGrants(gs[..|gs| - 1], now, device);
      if CurrentGrant(last, now) && last.device == device then before + [last] else before
  }

  function FingerprintOf(revision: int, grants: seq<Grant>): Fingerprint {
    Fingerprint(revision, seq(|grants|, i requires 0 <= i < |grants| => (grants[i].id, grants[i].status)))
  }

  function ClientConfiguration(s: State, now: real, device: string, revision: int): Reply<(int, seq<Grant>)> {
    var grants := CurrentGrants(s.grants, now, device);
    var current := FingerprintOf(revision, grants);
    if device in s.projections && s.projections[device].fingerprint == current
    then Reply(s, Ok((s.projections[device].revision, grants)))
    else
      var projected :=
        if device !in s.projections || s.projections[device].revision + 1 <= revision then revision
        else s.projections[device].revision + 1;
      Reply(s.(projections := s.projections[device := Projection(current, projected)]), Ok((projected, grants)))
  }

  /** The read-only peek `client_configuration_revision`. */
  function ProjectedRevision(s: State, now: real, device: string, revision: int): Option<int> {
    if device in s.projections
       && s.projections[device].fingerprint == FingerprintOf(revision, CurrentGrants(s.grants, now, device))
    then Some(s.projections[device].revision)
    else None
  }

  predicate ActiveClientGrant(s: State, now: real, device: string, id: string) {
    var grants := CurrentGrants(s.grants, now, device);
    exists i :: 0 <= i < |grants| && grants[i].id == id && grants[i].status == GrantActive
  }

  // ------------------------------------------------------------------- runs

  datatype Op =
    | OpOffer(id: string, code: string, ttl: int)
    | OpSubmit(code: string, id: string, endpoint: string, name: string, kind: string,
               rooms: seq<string>, capabilities: seq<string>, storage: string)
    | OpApprove(id: string, scope: Scope, rooms_: set<string>, mappings: set<string>,
                profiles: set<string>, clientProfiles: seq<string>)
    | OpReject(id: string)
    | OpList
    | OpConsume(id: string, code: string, storage: string, shared: Option<set<string>>,
                token: string, freshDevice: string, grantIds: seq<string>)
    | OpAuthenticate(token: string, allowReplaced: bool)
    | OpReplace(device: string, requestId: string, generation: nat, renewalOnly: bool, token: string)
    | OpRevoke(device: string)
    | OpAddGrant(offer: GrantOffer, id: string)
    | OpDecide(approver: string, id: string, approve: bool)
    | OpRevokeGrant(id: string, requester: Option<string>, sharedProfiles: set<string>)
    | OpProject(device: string, revision: int)

  datatype Event = Event(now: real, op: Op)

  function Next(s: State, e: Event): State {
    match e.op
    case OpOffer(id, code, ttl) => CreateOffer(s, e.now, id, code, ttl).state
    case OpSubmit(code, id, endpoint, name, kind, rooms, capabilities, storage) =>
      SubmitRequest(s, e.now, code, id, endpoint, name, kind, rooms, capabilities, storage).state
    case OpApprove(id, scope, rooms, mappings, profiles, clientProfiles) =>
      ApproveRequest(s, e.now, id, scope, rooms, mappings, profiles, clientProfiles).state
    case OpReject(id) => RejectRequest(s, e.now, id).state
    case OpList => ListRequests(s, e.now).state
    case OpConsume(id, code, storage, shared, token, freshDevice, grantIds) =>
      ConsumeRequest(s, e.now, id, code, storage, shared, token, freshDevice, grantIds).state
    case OpAuthenticate(token, allowReplaced) => Authenticate(s, e.now, token, allowReplaced).state
    case OpReplace(device, requestId, generation, renewalOnly, token) =>
      ReplaceCredential(s, e.now, device, requestId, generation, renewalOnly, token).state
    case OpRevoke(device) => Revoke(s, device).state
    case OpAddGrant(offer, id) => AddGrant(s, e.now, offer, id).state
    case OpDecide(approver, id, approve) => DecideGrant(s, e.now, approver, id, approve).state
    case OpRevokeGrant(id, requester, shared) => RevokeGrant(s, e.now, id, requester, shared).state
    case OpProject(device, revision) => ClientConfiguration(s, e.now, device, revision).state
  }

  /** Identifier factories give values not yet in use. */
  ghost predicate FreshIds(s: State, op: Op) {
    match op
    case OpConsume(_, _, _, _, _, freshDevice, grantIds) =>
      && (forall i :: 0 <= i < |s.credentials| ==> s.credentials[i].device != freshDevice)
      && |grantIds| >= MAX_CLIENT_GRANTS
      && (forall i, j :: 0 <= i < j < |grantIds| ==> grantIds[i] != grantIds[j])
      && (forall i, j :: 0 <= i < |grantIds| && 0 <= j < |s.grants| ==> grantIds[i] != s.grants[j].id)
    case OpAddGrant(_, id) => forall j :: 0 <= j < |s.grants| ==> id != s.grants[j].id
    case _ => true
  }

  /** A run: clock readings never go back and identifiers are fresh when drawn. */
  ghost predicate Runs(clock: real, s: State, events: seq<Event>)
    decreases |events|
  {
    events == [] ||
    (clock <= events[0].now && FreshIds(s, events[0].op) && Runs(events[0].now, Next(s, events[0]), events[1..]))
  }

  ghost function Final(s: State, events: seq<Event>): State
    decreases |events|
  {
    if events == [] then s else Final(Next(s, events[0]), events[1..])
  }
}
