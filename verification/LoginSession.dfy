/**
 The user's sign-in as several invocations of the command line share it: one session file replaced
 atomically, one exclusive lock, refresh-token rotation (section 6 of RFC 6749) and logout. Tokens
 issued by the server are fresh. `Store` carries out each command on the file; `LoginWorld`
 interleaves the commands of any number of processes, which may die at any step.
 */
module LoginSession {
  import opened Wrappers
  import opened AtomicFile

  const REFRESH_MARGIN: int := 60

  datatype UserSession = UserSession(
    oauthUri: string,
    access: nat,
    accessExpires: int,
    refresh: nat,
    loginEnd: Option<int>)
  {
    predicate Fresh(now: int) { accessExpires - now > REFRESH_MARGIN }

    predicate Ended(now: int) { loginEnd.Some? && loginEnd.value <= now }
  }

  datatype Tokens = Tokens(access: nat, expiresIn: int, refresh: Option<nat>)

  /** How the token endpoint answers a refresh. */
  datatype Answer = Issued(tokens: Tokens) | SignInRequired | OtherFailure

  /** The session after a refresh: new tokens, the old refresh token when none was issued. */
  function Renewed(session: UserSession, at: int, tokens: Tokens): UserSession {
    session.(access := tokens.access, accessExpires := at + tokens.expiresIn,
             refresh := if tokens.refresh.Some? then tokens.refresh.value else session.refresh)
  }

  /** The session after a renewal: the issued tokens, the issued refresh token in place of the old one,
      and the same login at the same server. */
  ghost predicate IsRenewal(before: UserSession, after: UserSession, at: int, tokens: Tokens) {
    && after.access == tokens.access && after.accessExpires == at + tokens.expiresIn
    && (tokens.refresh.Some? ==> after.refresh == tokens.refresh.value)
    && (tokens.refresh.None? ==> after.refresh == before.refresh)
    && after.oauthUri == before.oauthUri && after.loginEnd == before.loginEnd
  }

  datatype TokenError = SignedOut | LoginEnded | ServerSaysSignIn | ServerFailed | StoreFailed

  /** What a refresh under the lock comes to: the file afterwards and the token handed out. */
  function RefreshEffect(file: Option<UserSession>, at: int, answer: Answer, save: SaveOutcome, cleared: bool)
    : (Option<UserSession>, Result<nat, TokenError>)
  {
    if file.None? then (file, Err(SignedOut))
    else if file.value.Fresh(at) then (file, Ok(file.value.access))
    else if file.value.Ended(at) then (file, Err(LoginEnded))
    else
      match answer
      case Issued(tokens) =>
        var renewed := Renewed(file.value, at, tokens);
        (if Replaces(save) then Some(renewed) else file, if save.Saved? then Ok(renewed.access) else Err(StoreFailed))
      case SignInRequired => if cleared then (None, Err(ServerSaysSignIn)) else (file, Err(StoreFailed))
      case OtherFailure => (file, Err(ServerFailed))
  }

  class Store {
    var file: Option<UserSession>

    constructor ()
      ensures file == None
    {
      file := None;
    }

    method Save(session: UserSession, outcome: SaveOutcome) returns (saved: bool)
      modifies this
      ensures saved <==> outcome.Saved?
      ensures file == if Replaces(outcome) then Some(session) else old(file)
    {
      if outcome.FailedBefore? {
        return false;
      }
      file := Some(session);
      return outcome.Saved?;
    }

    /** The whole refresh, the lock held throughout: re-read, ask, save, hand out. */
    method Refresh(at: int, answer: Answer, save: SaveOutcome, cleared: bool) returns (r: Result<nat, TokenError>)
      modifies this
      ensures (file, r) == RefreshEffect(old(file), at, answer, save, cleared)
      ensures old(file).None? ==> file == None && r == Err(SignedOut)
      // A token with more than a minute left is good enough; an ended login is not worth asking for.
      ensures old(file).Some? && old(file).value.accessExpires - at > 60 ==>
                file == old(file) && r == Ok(old(file).value.access)
      ensures old(file).Some? && old(file).value.accessExpires - at <= 60
              && old(file).value.loginEnd.Some? && old(file).value.loginEnd.value <= at ==>
                file == old(file) && r == Err(LoginEnded)
      // Otherwise the answer decides.
      ensures old(file).Some? && old(file).value.accessExpires - at <= 60
              && (old(file).value.loginEnd.Some? ==> old(file).value.loginEnd.value > at) ==>
        match answer
        case Issued(tokens) =>
          && (save.FailedBefore? ==> file == old(file))
          && (!save.FailedBefore? ==> file.Some? && IsRenewal(old(file).value, file.value, at, tokens))
          && r == (if save.Saved? then Ok(tokens.access) else Err(StoreFailed))
        case SignInRequired =>
          && file == (if cleared then None else old(file))
          && r == Err(if cleared then ServerSaysSignIn else StoreFailed)
        case OtherFailure => file == old(file) && r == Err(ServerFailed)
    {
      if file.None? {
        return Err(SignedOut);
      }
      var session := file.value;
      if session.Fresh(at) {
        return Ok(session.access);
      }
      if session.Ended(at) {
        return Err(LoginEnded);
      }
      match answer
      case Issued(tokens) =>
        var rotated := session.refresh;
        if tokens.refresh.Some? {
          rotated := tokens.refresh.value;
        }
        var updated := session;
        updated := updated.(access := tokens.access);
        updated := updated.(accessExpires := at + tokens.expiresIn);
        updated := updated.(refresh := rotated);
        var saved := Save(updated, save);
        if !saved {
          return Err(StoreFailed);
        }
        return Ok(updated.access);
      case SignInRequired =>
        if !cleared {
          return Err(StoreFailed);
        }
        file := None;
        return Err(ServerSaysSignIn);
      case OtherFailure => return Err(ServerFailed);
    }

    /** A token for a call: the stored one while it is fresh, a refreshed one otherwise. */
    method UserToken(now: int, at: int, answer: Answer, save: SaveOutcome, cleared: bool)
      returns (r: Result<Option<nat>, TokenError>)
      modifies this
      ensures r == Ok(None) <==> old(file).None?
      ensures r.Ok? && r.value.Some? ==> file.Some? && file.value.access == r.value.value
      ensures file.None? && old(file).Some? ==> answer.SignInRequired? && r == Err(ServerSaysSignIn)
      ensures file.Some? && file != old(file) ==>
                old(file).Some? && answer.Issued? && IsRenewal(old(file).value, file.value, at, answer.tokens)
      // A stored token is handed out only with more than a minute left, and a renewed one only as issued.
      ensures r.Ok? && r.value.Some? ==>
        var session := old(file).value;
        || (session.accessExpires - now > 60 && file == old(file) && r.value.value == session.access)
        || (session.accessExpires - at > 60 && file == old(file) && r.value.value == session.access)
        || (answer.Issued? && save.Saved? && r.value.value == answer.tokens.access)
      ensures old(file).Some? && old(file).value.accessExpires - now <= 60
              && old(file).value.loginEnd.Some? && old(file).value.loginEnd.value <= now ==>
                file == old(file) && r == Err(LoginEnded)
    {
      if file.None? {
        return Ok(None);
      }
      if file.value.Fresh(now) {
        return Ok(Some(file.value.access));
      }
      if file.value.Ended(now) {
        return Err(LoginEnded);
      }
      var refreshed := Refresh(at, answer, save, cleared);
      match refreshed
      case Ok(token) => return Ok(Some(token));
      case Err(error) => return Err(error);
    }

    /** Ends the login on the server, then deletes exactly the session it revoked. */
    method Logout(localOnly: bool, revoked: bool, cleared: bool) returns (wasSignedIn: bool, ok: bool, presented: Option<nat>)
      modifies this
      ensures wasSignedIn <==> old(file).Some?
      ensures file == if (localOnly || revoked) && cleared then None else old(file)
      ensures ok <==> old(file).None? || ((localOnly || revoked) && cleared)
      ensures presented == if old(file).Some? && !localOnly then Some(old(file).value.refresh) else None
    {
      presented := None;
      if file.None? {
        return false, true, None;
      }
      wasSignedIn := true;
      var session := file.value;
      if !localOnly {
        presented := Some(session.refresh);
        if !revoked {
          return true, false, presented;
        }
      }
      if !cleared {
        return true, false, presented;
      }
      file := None;
      ok := true;
    }
  }
}
