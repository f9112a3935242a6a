/**
  What authentication, renewal, rotation and revocation answer and write, in
  terms of the stored records alone.
 */
module CredentialAnswers {
  import opened Wrappers
  import opened Credentials
  import Authentication
  import EnrollmentAnswers

  // ----------------------------------------------------------- authentication

  /** The record may answer for the token now; a replaced one only where the caller allows it. */
  ghost predicate Answers(c: Credential, now: real, token: string, allowReplaced: bool) {
    && c.token == token
    && ((c.status == CredActive && now < c.expiresAt)
        || (allowReplaced && c.status == CredReplaced && now < c.overlapUntil))
  }

  ghost predicate LastAnswer(cs: seq<Credential>, i: int, now: real, token: string, allowReplaced: bool) {
    && 0 <= i < |cs| && Answers(cs[i], now, token, allowReplaced)
    && forall j :: i < j < |cs| ==> !Answers(cs[j], now, token, allowReplaced)
  }

  /** A record is marked when its time, or its overlap, has run out. */
  ghost function Marked(c: Credential, now: real): Credential {
    if (c.status == CredActive && c.expiresAt <= now) || (c.status == CredReplaced && c.overlapUntil <= now)
    then c.(status := CredExpired) else c
  }

  /** A replacement out of its overlap is over and its token erased. */
  ghost function Lapsing(r: Replacement, now: real): Replacement {
    if r.status == RepActive && r.overlapUntil <= now then r.(status := RepExpired, cipher := Erased) else r
  }

  /** A token is answered by the last record that may answer for it, an empty
      one by none; apart from that, records and replacements out of time are marked. */
  lemma AuthenticationIsAnswered(s: State, now: real, token: string, allowReplaced: bool)
    ensures var reply := Authenticate(s, now, token, allowReplaced);
      && (reply.result == Ok(None) <==>
            token == "" || forall i :: 0 <= i < |s.credentials| ==>
              !Answers(s.credentials[i], now, token, allowReplaced))
      && (forall i :: token != "" && LastAnswer(s.credentials, i, now, token, allowReplaced) ==>
            var c := s.credentials[i];
            reply.result == Ok(Some(Device(c.device, c.endpoint, c.generation, c.scope))))
  {
    Authentication.ReadOnlyAndCleaningAgree(s, now, token, allowReplaced);
    FoundIsLast(s.credentials, now, token, allowReplaced);
  }

  lemma {:induction false} FoundIsLast(cs: seq<Credential>, now: real, token: string, allowReplaced: bool)
    ensures Found(cs, now, token, allowReplaced) == None <==>
            forall i :: 0 <= i < |cs| ==> !Answers(cs[i], now, token, allowReplaced)
    ensures forall i :: LastAnswer(cs, i, now, token, allowReplaced) ==>
              Found(cs, now, token, allowReplaced) ==
                  Some(Device(cs[i].device, cs[i].endpoint, cs[i].generation, cs[i].scope))
  {
    if cs != [] {
      var n := |cs| - 1;
      FoundIsLast(cs[..n], now, token, allowReplaced);
      forall i | LastAnswer(cs, i, now, token, allowReplaced) && i < n
        ensures LastAnswer(cs[..n], i, now, token, allowReplaced)
      {
      }
    }
  }

  lemma AuthenticationMarks(s: State, now: real, token: string, allowReplaced: bool)
    ensures var s' := Authenticate(s, now, token, allowReplaced).state;
      if token == "" then s' == s
      else
        && |s'.credentials| == |s.credentials| && |s'.replacements| == |s.replacements|
        && (forall i :: 0 <= i < |s.credentials| ==> s'.credentials[i] == Marked(s.credentials[i], now))
        && (forall i :: 0 <= i < |s.replacements| ==> s'.replacements[i] == Lapsing(s.replacements[i], now))
        && s' == s.(credentials := s'.credentials, replacements := s'.replacements)
  {
    if !NeedsCleaning(s, now) {
      forall i | 0 <= i < |s.credentials|
        ensures Marked(s.credentials[i], now) == s.credentials[i]
      {
        assert !Outdated(s.credentials[i], now);
      }
      forall i | 0 <= i < |s.replacements|
        ensures Lapsing(s.replacements[i], now) == s.replacements[i]
      {
        assert !Lapsed(s.replacements[i], now);
      }
    }
  }

  // -------------------------------------------------- renewals and rotations

  ghost predicate CredentialAt(cs: seq<Credential>, device: string, generation: nat, k: int) {
    && 0 <= k < |cs| && cs[k].device == device && cs[k].generation == generation
    && forall j :: 0 <= j < k ==> !(cs[j].device == device && cs[j].generation == generation)
  }

  ghost predicate ReplacementAt(rs: seq<Replacement>, device: string, generation: nat, requestId: string, k: int) {
    && 0 <= k < |rs| && rs[k].device == device && rs[k].generation == generation && rs[k].requestId == requestId
    && forall j :: 0 <= j < k ==>
         !(rs[j].device == device && rs[j].generation == generation && rs[j].requestId == requestId)
  }

  lemma {:induction false} FindsCredential(cs: seq<Credential>, device: string, generation: nat, from: nat)
    requires from <= |cs|
    requires forall j :: 0 <= j < from ==> !(cs[j].device == device && cs[j].generation == generation)
    ensures var r := FindCredential(cs, device, generation, from);
      forall k :: CredentialAt(cs, device, generation, k) <==> r == Some(k)
    decreases |cs| - from
  {
    if from < |cs| && !(cs[from].device == device && cs[from].generation == generation) {
      FindsCredential(cs, device, generation, from + 1);
    }
  }

  lemma {:induction false} FindsReplacement(rs: seq<Replacement>, device: string, generation: nat,
          requestId: string, from: nat)
    requires from <= |rs|
    requires forall j :: 0 <= j < from ==>
               !(rs[j].device == device && rs[j].generation == generation && rs[j].requestId == requestId)
    ensures var r := FindReplacement(rs, device, generation, requestId, from);
      && (forall k :: ReplacementAt(rs, device, generation, requestId, k) <==> r == Some(k))
      && (r.None? <==> forall k :: !ReplacementAt(rs, device, generation, requestId, k))
    decreases |rs| - from
  {
    if from < |rs| {
      if Names(rs[from], device, generation, requestId) {
        assert ReplacementAt(rs, device, generation, requestId, from);
      } else {
        FindsReplacement(rs, device, generation, requestId, from + 1);
      }
    }
  }

  /** The device has used the request ID, or has replaced the generation, under another name. */
  ghost predicate Clashes(rs: seq<Replacement>, device: string, generation: nat, requestId: string) {
    exists i :: 0 <= i < |rs| && rs[i].device == device
                && (rs[i].requestId == requestId || rs[i].generation == generation)
  }

  /** A first request replaces a credential exactly when it is active and in
      time, nothing clashes, a token could be drawn and, for a renewal, at most
      14 days are left. */
  ghost predicate Replaces(c: Credential, rs: seq<Replacement>, now: real, requestId: string, renewalOnly: bool,
          token: string)
  {
    && c.status == CredActive && now < c.expiresAt && !Clashes(rs, c.device, c.generation, requestId) && token != ""
    && (renewalOnly ==> c.expiresAt <= now + 1209600.0)
  }

  ghost predicate ReplaceFails(e: Error, c: Credential, rs: seq<Replacement>, now: real, requestId: string,
          renewalOnly: bool, token: string)
  {
    var clash := Clashes(rs, c.device, c.generation, requestId);
    var live := c.status == CredActive && now < c.expiresAt;
    var early := renewalOnly && c.expiresAt > now + 1209600.0;
    match e
    case Conflict => clash || (live && early)
    case ExpiredOrConsumed => !clash && !live
    case Invalid => !clash && live && !early && token == ""
    case _ => false
  }

  /** What a first replacement of credential `k` writes and answers. */
  ghost predicate ReplacementWrites(s: State, reply: Reply<Material>, k: nat, now: real, requestId: string,
          token: string)
    requires k < |s.credentials|
  {
    var c := s.credentials[k];
    var next := Credential(c.device, c.endpoint, c.generation + 1, CredActive, now, now + 7776000.0, 0.0, token,
                           c.scope, c.name, c.kind);
    && reply.result == Ok(Material(c.device, token, c.generation + 1, now + 7776000.0, c.scope, []))
    && reply.state == s.(
       credentials := s.credentials[k := c.(status := CredReplaced, overlapUntil := now + 600.0)] + [next],
       replacements := s.replacements +
                       [Replacement(c.device, c.generation, c.generation + 1, requestId, RepActive, now + 600.0,
                                    now + 7776000.0, c.scope, Sealed(token, c.device, c.generation, requestId))])
  }

  /** The exact answer to a first request. */
  lemma ReplacementIsAnswered(s: State, now: real, device: string, requestId: string, generation: nat,
          renewalOnly: bool, token: string, k: nat, e: Error)
    requires CredentialAt(s.credentials, device, generation, k)
    requires forall x :: !ReplacementAt(s.replacements, device, generation, requestId, x)
    ensures var reply := ReplaceCredential(s, now, device, requestId, generation, renewalOnly, token);
      && (reply.result.Err? ==> reply.state == s)
      && (reply.result.Ok? <==> Replaces(s.credentials[k], s.replacements, now, requestId, renewalOnly, token))
      && (reply.result == Err(e) <==>
            ReplaceFails(e, s.credentials[k], s.replacements, now, requestId, renewalOnly, token))
      && (reply.result.Ok? ==> ReplacementWrites(s, reply, k, now, requestId, token))
  {
    FindsCredential(s.credentials, device, generation, 0);
    FindsReplacement(s.replacements, device, generation, requestId, 0);
    assert Clashes(s.replacements, device, generation, requestId) <==>
           RequestUsed(s.replacements, device, requestId) || Replaced(s.replacements, device, generation);
  }

  /** A repeated request is given the stored material while its replacement
      stands and its token can be read; it writes nothing. */
  lemma RetryIsAnswered(s: State, now: real, device: string, requestId: string, generation: nat, renewalOnly: bool,
          token: string, k: nat, x: nat)
    requires CredentialAt(s.credentials, device, generation, k)
    requires ReplacementAt(s.replacements, device, generation, requestId, x)
    ensures var reply, r := ReplaceCredential(s, now, device, requestId, generation, renewalOnly, token),
        s.replacements[x];
      && reply.state == s
      && reply.result ==
         if r.status != RepActive || r.overlapUntil <= now then Err(ExpiredOrConsumed)
         else if r.cipher.Sealed? && r.cipher == Sealed(r.cipher.token, device, generation, requestId)
         then Ok(Material(device, r.cipher.token, r.newGeneration, r.newExpiresAt, r.scope, []))
         else Err(Unavailable)
  {
    FindsCredential(s.credentials, device, generation, 0);
    FindsReplacement(s.replacements, device, generation, requestId, 0);
  }

  lemma UnknownGenerationIsRefused(s: State, now: real, device: string, requestId: string, generation: nat,
          renewalOnly: bool, token: string)
    requires forall i :: 0 <= i < |s.credentials| ==>
               !(s.credentials[i].device == device && s.credentials[i].generation == generation)
    ensures ReplaceCredential(s, now, device, requestId, generation, renewalOnly, token) == Reply(s, Err(NotFound))
  {
  }

  // --------------------------------------------------------------- revocation

  ghost predicate RevokedAll(s: State, s': State, device: string) {
    && |s'.credentials| == |s.credentials| && |s'.grants| == |s.grants|
    && (forall i :: 0 <= i < |s.credentials| ==>
          s'.credentials[i] ==
          if s.credentials[i].device == device then s.credentials[i].(status := CredRevoked) else s.credentials[i])
    && EnrollmentAnswers.AllErased(s.replacements, s'.replacements, device)
    && (forall i :: 0 <= i < |s.grants| ==>
          s'.grants[i] ==
          if s.grants[i].device == device && (s.grants[i].status == GrantActive || s.grants[i].status == GrantPending)
          then s.grants[i].(status := GrantRevoked) else s.grants[i])
    && s' == s.(credentials := s'.credentials, replacements := s'.replacements, grants := s'.grants)
  }

  /** A device is revoked exactly when it has a record that is not; its
      credentials, replacements and live grants then end together. */
  lemma RevocationIsAnswered(s: State, device: string)
    ensures var reply := Revoke(s, device);
      && (reply.result == Err(NotFound) <==> forall i :: 0 <= i < |s.credentials| ==> s.credentials[i].device != device)
      && (reply.result.Ok? <==>
            exists i :: 0 <= i < |s.credentials| && s.credentials[i].device == device
                        && s.credentials[i].status != CredRevoked)
      && (reply.result.Err? ==> reply.state == s && reply.result.error in {NotFound, Conflict})
      && (reply.result.Ok? ==>
            && RevokedAll(s, reply.state, device) && reply.result.value.device == device
            && (forall i :: 0 <= i < |s.credentials| && s.credentials[i].device == device ==>
                  s.credentials[i].generation <= reply.result.value.generation)
            && exists i :: 0 <= i < |s.credentials| && s.credentials[i].device == device
                           && s.credentials[i].generation == reply.result.value.generation)
  {
  }
}
