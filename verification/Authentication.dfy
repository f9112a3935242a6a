/** Authentication by token: the read-only pass and the cleaning pass agree. */
module Authentication {
  import opened Wrappers
  import opened Credentials
  import opened CredentialInvariants

  /** Cleaning the records at `t` changes no answer from `t` on. */
  lemma {:induction false} CleaningKeepsAnswers(cs: seq<Credential>, t: real, now: real, token: string,
          allowReplaced: bool)
    requires t <= now
    ensures Found(CleanCredentials(cs, t), now, token, allowReplaced) == Found(cs, now, token, allowReplaced)
  {
    if cs != [] {
      var n := |cs| - 1;
      CleaningKeepsAnswers(cs[..n], t, now, token, allowReplaced);
      assert CleanCredentials(cs, t)[..n] == CleanCredentials(cs[..n], t);
    }
  }

  /** The answer is the read-only one, whether or not the call had to clean up. */
  lemma ReadOnlyAndCleaningAgree(s: State, now: real, token: string, allowReplaced: bool)
    ensures Authenticate(s, now, token, allowReplaced).result ==
            Ok(if token == "" then None else Found(s.credentials, now, token, allowReplaced))
  {
    CleaningKeepsAnswers(s.credentials, now, now, token, allowReplaced);
  }

  /** A cleanup at `t` is invisible to every later authentication, and leaves nothing to clean at `t`. */
  lemma CleanupIsInvisible(s: State, t: real, now: real, token: string, allowReplaced: bool)
    requires t <= now
    ensures Authenticate(Clean(s, t), now, token, allowReplaced).result ==
            Authenticate(s, now, token, allowReplaced).result
    ensures !NeedsCleaning(Clean(s, t), t)
  {
    CleaningKeepsAnswers(s.credentials, t, now, token, allowReplaced);
    ReadOnlyAndCleaningAgree(s, now, token, allowReplaced);
    ReadOnlyAndCleaningAgree(Clean(s, t), now, token, allowReplaced);
  }

  /** Without the overlap flag only a device's newest generation authenticates. */
  lemma AuthenticatedIsNewest(s: State, now: real, token: string, device: Device)
    requires Inv(s)
    requires Authenticate(s, now, token, false).result == Ok(Some(device))
    ensures exists i :: 0 <= i < |s.credentials|
                        && s.credentials[i].status == CredActive && now < s.credentials[i].expiresAt
                        && DeviceOf(s.credentials[i]) == device
                        && forall j :: 0 <= j < |s.credentials| && s.credentials[j].device == device.device ==>
                             s.credentials[j].generation <= device.generation
  {
    ReadOnlyAndCleaningAgree(s, now, token, false);
    var i :| 0 <= i < |s.credentials| && s.credentials[i].token == token && Accepts(s.credentials[i], now, false)
             && device == DeviceOf(s.credentials[i]);
    assert s.credentials[i].status == CredActive;
  }
}
