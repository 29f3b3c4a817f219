/** The authentication service as it runs: rows are rewritten field by field under the user's
    security lock, and a raise inside a transaction undoes what the transaction wrote. */
module AuthService {
  import opened Common
  import opened AuthSessions
  import AuthFamilies
  import AuthTheorems

  class AuthenticationService {
    const settings: Lifetimes
    var users: seq<User>
    var sessions: seq<Session>
    var tokens: seq<AccountToken>

    constructor (settings: Lifetimes)
      ensures this.settings == settings && Now() == EMPTY && AuthTheorems.Reachable(settings, Now())
    {
      this.settings := settings;
      users, sessions, tokens := [], [], [];
      new;
      assert AuthTheorems.Careful(settings, EMPTY, []) && Now() == RunAll(settings, EMPTY, []);
    }

    function Now(): Auth
      reads this
    {
      Auth(users, sessions, tokens)
    }

    /** `_create_session_tokens`. */
    method CreateSessionTokens(user: UserId, family: FamilyId, secret: string, now: Time) returns (token: RefreshToken)
      modifies this`sessions
      ensures token == RefreshToken(|old(sessions)|, secret)
      ensures sessions == old(sessions) + [NewSession(|old(sessions)|, user, family, secret, now + settings.refresh)]
    {
      token := RefreshToken(|sessions|, secret);
      sessions := sessions + [Session(user, family, Sha256(token), now + settings.refresh, None, None, None, None)];
    }

    /** Marks a session rotated, adds its replacement and links the two. */
    method RotateSession(i: SessionId, user: UserId, secret: string, now: Time) returns (token: RefreshToken)
      requires i < |sessions|
      modifies this`sessions
      ensures token == RefreshToken(|old(sessions)|, secret)
      ensures sessions == Rotate(old(sessions), i, user, secret, now, now + settings.refresh)
    {
      sessions := sessions[i := sessions[i].(revokedAt := Some(now))];
      sessions := sessions[i := sessions[i].(lastUsedAt := Some(now))];
      sessions := sessions[i := sessions[i].(reason := Some("rotated"))];
      token := CreateSessionTokens(user, sessions[i].family, secret, now);
      sessions := sessions[i := sessions[i].(replacedBy := Some(token.session))];
    }

    /** The loops of `reset_password`, `change_password` and `revoke_all_managed_sessions`. */
    method RevokeUserSessions(user: UserId, kept: Option<SessionId>, reason: string, now: Time)
      modifies this`sessions
      ensures sessions == RevokeUser(old(sessions), user, kept, reason, now)
    {
      hide RevokeUser;
      ghost var goal := RevokeUser(sessions, user, kept, reason, now);
      for i := 0 to |sessions|
        invariant |sessions| == |goal| == |old(sessions)|
        invariant forall j :: 0 <= j < i ==> sessions[j] == goal[j]
        invariant forall j :: i <= j < |sessions| ==> sessions[j] == old(sessions)[j]
      {
        RevokedAt(old(sessions), user, kept, reason, now, i);
        if sessions[i].user == user && kept != Some(i) && sessions[i].revokedAt.None? {
          sessions := sessions[i := sessions[i].(revokedAt := Some(now), reason := Some(reason))];
        }
      }
      assert sessions == goal;
    }

    /** `refresh`: commits first and raises afterwards. */
    method Refresh(token: Option<RefreshToken>, secret: string, now: Time) returns (reply: Reply)
      modifies this
      ensures Outcome(Now(), reply) == RefreshTx(settings, old(Now()), token, secret, now)
    {
      if token.None? || !Presents(sessions, token.value) {
        return Raised(InvalidSession);
      }
      var i := token.value.session;
      var row := sessions[i];
      var failed := false;
      if row.revokedAt.Some? {
        if row.reason == Some("rotated") {
          sessions := RevokeFamily(sessions, row.family, "refresh_token_reuse", now);
        }
        failed := true;
      } else if row.expiresAt <= now {
        sessions := sessions[i := row.(revokedAt := Some(now), reason := Some("expired"))];
        failed := true;
      }
      if !failed && !ActiveUser(users, row.user) {
        sessions := RevokeFamily(sessions, row.family, "account_unavailable", now);
        failed := true;
      }
      if failed {
        return Raised(InvalidSession);
      }
      var replacement := RotateSession(i, row.user, secret, now);
      return SignedIn(row.user, replacement);
    }

    method Logout(token: Option<RefreshToken>, now: Time)
      modifies this
      ensures Now() == LogoutTx(old(Now()), token, now).auth
    {
      if token.Some? && Presents(sessions, token.value) && sessions[token.value.session].revokedAt.None? {
        var i := token.value.session;
        sessions := sessions[i := sessions[i].(revokedAt := Some(now), reason := Some("logout"))];
      }
    }

    method Login(email: string, password: string, secret: string, now: Time) returns (reply: Reply)
      modifies this
      ensures Outcome(Now(), reply) == LoginTx(settings, old(Now()), email, password, secret, now)
    {
      var user := FindUser(users, email);
      if user.None? || !users[user.value].active || users[user.value].password != password {
        return Raised(InvalidCredentials);
      }
      var token := CreateSessionTokens(user.value, |sessions|, secret, now);
      return SignedIn(user.value, token);
    }

    /** `register`: a failed delivery raises inside the transaction and undoes the account. */
    method Register(email: string, password: string, raw: string, secret: string, now: Time, undelivered: bool)
      returns (reply: Reply)
      modifies this
      ensures Outcome(Now(), reply) == RegisterTx(settings, old(Now()), email, password, raw, secret, now, undelivered)
    {
      if FindUser(users, email).Some? {
        return Raised(RegistrationFailed);
      }
      var before := Now();
      var user := |users|;
      users := users + [User(email, password, true, None)];
      var added := AddToken(tokens, user, EmailVerification, raw, now + settings.verification);
      if added.None? {
        users := before.users;
        return Raised(RegistrationFailed);
      }
      tokens := added.value;
      var token := CreateSessionTokens(user, |sessions|, secret, now);
      if undelivered {
        users, sessions, tokens := before.users, before.sessions, before.tokens;
        return Raised(EmailDeliveryUnavailable);
      }
      return SignedIn(user, token);
    }

    /** `_lock_account_token` and `_validate_account_token`, inside an open transaction: an expired
        link is marked before the error is raised. */
    method OpenAccountLink(purpose: Purpose, raw: string, now: Time) returns (t: nat, refused: Option<Error>)
      modifies this`tokens
      ensures (tokens, refused) == OpenLink(old(tokens), purpose, raw, now)
      ensures refused.None? ==> Some(t) == FindToken(tokens, purpose, raw) && t < |tokens|
    {
      hide FindToken;
      t := 0;
      var found := FindToken(tokens, purpose, raw);
      if found.None? {
        return t, Some(InvalidOrUsedToken);
      }
      t := found.value;
      if tokens[t].consumedAt.Some? || tokens[t].invalidatedAt.Some? {
        return t, Some(InvalidOrUsedToken);
      }
      if tokens[t].expiresAt <= now {
        tokens := tokens[t := tokens[t].(invalidatedAt := Some(now))];
        return t, Some(TokenExpired);
      }
      return t, None;
    }

    /** Undoes everything an open transaction wrote. */
    method RollBack(before: Auth)
      modifies this
      ensures Now() == before
    {
      users, sessions, tokens := before.users, before.sessions, before.tokens;
    }

    /** `verify_email`: consumes the link and either rotates the presented session or opens one. */
    method VerifyEmail(raw: string, currentUser: Option<UserId>, token: Option<RefreshToken>, secret: string, now: Time)
      returns (reply: Reply)
      modifies this
      ensures Outcome(Now(), reply) == VerifyEmailTx(settings, old(Now()), raw, currentUser, token, secret, now)
    {
      var before := Now();
      reply := VerifyEmailOpen(raw, currentUser, token, secret, now);
      if reply.Raised? {
        RollBack(before);
      }
    }

    /** The body of that transaction, up to its end or to the error it raises. */
    method VerifyEmailOpen(raw: string, currentUser: Option<UserId>, token: Option<RefreshToken>, secret: string,
        now: Time)
      returns (reply: Reply)
      modifies this
      ensures Outcome(Now(), reply) == VerifyEmailWork(settings, old(Now()), raw, currentUser, token, secret, now)
    {
      hide FindToken, InvalidateTokens, Rotate, OpenLink;
      var t, refused := OpenAccountLink(EmailVerification, raw, now);
      if refused.Some? {
        return Raised(refused.value);
      }
      var user := tokens[t].user;
      if !ActiveUser(users, user) {
        return Raised(InvalidOrUsedToken);
      }
      if currentUser.Some? && currentUser.value != user {
        return Raised(AccountMismatch);
      }
      var current := PresentsActive(sessions, token, now);
      if current && sessions[token.value.session].user != user {
        return Raised(AccountMismatch);
      }
      tokens := tokens[t := tokens[t].(consumedAt := Some(now))];
      if users[user].verifiedAt.None? {
        users := users[user := users[user].(verifiedAt := Some(now))];
      }
      tokens := InvalidateTokens(tokens, user, EmailVerification, Some(t), now);
      var replacement: RefreshToken;
      if current {
        replacement := RotateSession(token.value.session, user, secret, now);
      } else {
        replacement := CreateSessionTokens(user, |sessions|, secret, now);
      }
      assert users == VerifyEmailWork(settings, old(Now()), raw, currentUser, token, secret, now).auth.users;
      return SignedIn(user, replacement);
    }

    method ResetPassword(raw: string, password: string, now: Time) returns (reply: Reply)
      modifies this
      ensures Outcome(Now(), reply) == ResetPasswordTx(old(Now()), raw, password, now)
    {
      var before := Now();
      reply := ResetPasswordOpen(raw, password, now);
      if reply.Raised? {
        RollBack(before);
      }
    }

    /** The body of that transaction, up to its end or to the error it raises. */
    method ResetPasswordOpen(raw: string, password: string, now: Time) returns (reply: Reply)
      modifies this
      ensures Outcome(Now(), reply) == ResetPasswordWork(old(Now()), raw, password, now)
    {
      hide FindToken, InvalidateTokens, RevokeUser, OpenLink;
      var t, refused := OpenAccountLink(PasswordReset, raw, now);
      if refused.Some? {
        return Raised(refused.value);
      }
      var user := tokens[t].user;
      if !ActiveUser(users, user) {
        return Raised(InvalidOrUsedToken);
      }
      tokens := tokens[t := tokens[t].(consumedAt := Some(now))];
      users := users[user := users[user].(password := password)];
      RevokeUserSessions(user, None, "password_reset", now);
      tokens := InvalidateTokens(tokens, user, PasswordReset, Some(t), now);
      return Done;
    }

    method ChangePassword(user: UserId, current: string, password: string, token: Option<RefreshToken>, secret: string,
        now: Time)
      returns (reply: Reply)
      modifies this
      ensures Outcome(Now(), reply)
              == ChangePasswordTx(settings, old(Now()), user, current, password, token, secret, now)
    {
      hide InvalidateTokens, RevokeUser, Rotate;
      if token.None? {
        return Raised(InvalidSession);
      }
      if !ActiveUser(users, user) {
        return Raised(Unauthorized);
      }
      if !PresentsOwn(sessions, user, token, now) {
        return Raised(InvalidSession);
      }
      if users[user].password != current {
        return Raised(InvalidCurrentPassword);
      }
      if users[user].password == password {
        return Raised(PasswordUnchanged);
      }
      users := users[user := users[user].(password := password)];
      RevokeUserSessions(user, Some(token.value.session), "password_changed", now);
      var replacement := RotateSession(token.value.session, user, secret, now);
      tokens := InvalidateTokens(tokens, user, PasswordReset, None, now);
      return SignedIn(user, replacement);
    }

    method RevokeAllManagedSessions(user: UserId, preserve: bool, token: Option<RefreshToken>, secret: string,
        now: Time)
      returns (reply: Reply)
      modifies this
      ensures Outcome(Now(), reply) == RevokeAllManagedTx(settings, old(Now()), user, preserve, token, secret, now)
    {
      hide RevokeUser, Rotate;
      if preserve && token.None? {
        return Raised(InvalidSession);
      }
      if !ActiveUser(users, user) {
        return Raised(Unauthorized);
      }
      if !preserve {
        RevokeUserSessions(user, None, "user_revoke_all", now);
        return Done;
      }
      if !PresentsOwn(sessions, user, token, now) {
        return Raised(InvalidSession);
      }
      RevokeUserSessions(user, Some(token.value.session), "user_revoke_all", now);
      var replacement := RotateSession(token.value.session, user, secret, now);
      return SignedIn(user, replacement);
    }

    /** `resend_verification`: the mail goes out after the commit. */
    method ResendVerification(user: UserId, raw: string, now: Time, undelivered: bool) returns (reply: Reply)
      modifies this`tokens
      ensures Outcome(Now(), reply) == ResendTx(settings, old(Now()), user, raw, now, undelivered)
    {
      if !ActiveUser(users, user) {
        return Raised(Unauthorized);
      }
      if users[user].verifiedAt.Some? {
        return Done;
      }
      var cleared := InvalidateTokens(tokens, user, EmailVerification, None, now);
      var added := AddToken(cleared, user, EmailVerification, raw, now + settings.verification);
      if added.None? {
        return Raised(IntegrityViolation);
      }
      tokens := added.value;
      return if undelivered then Raised(EmailDeliveryUnavailable) else Done;
    }

    method RequestPasswordReset(email: string, raw: string, now: Time) returns (reply: Reply)
      modifies this`tokens
      ensures Outcome(Now(), reply) == RequestResetTx(settings, old(Now()), email, raw, now)
    {
      var user := FindUser(users, email);
      if user.Some? && users[user.value].active {
        var cleared := InvalidateTokens(tokens, user.value, PasswordReset, None, now);
        var added := AddToken(cleared, user.value, PasswordReset, raw, now + settings.reset);
        if added.None? {
          return Raised(IntegrityViolation);
        }
        tokens := added.value;
      }
      return Done;
    }

    /** `revoke_all_sessions`: one bulk update with the caller's reason, cut to 64 characters. */
    method RevokeAllSessions(user: UserId, reason: string, now: Time)
      modifies this`sessions
      ensures Now() == RevokeAllTx(old(Now()), user, reason, now).auth
    {
      RevokeUserSessions(user, None, if |reason| <= 64 then reason else reason[..64], now);
    }

    method RevokeSession(user: UserId, i: SessionId, now: Time) returns (reply: Reply)
      modifies this
      ensures Outcome(Now(), reply) == RevokeSessionTx(old(Now()), user, i, now)
    {
      if !(i < |sessions| && sessions[i].user == user) {
        return Raised(SessionNotFound);
      }
      if sessions[i].revokedAt.None? {
        sessions := sessions[i := sessions[i].(revokedAt := Some(now), reason := Some("user_revoked"))];
      }
      return Done;
    }

    /** What account administration does outside this service. */
    method SetActive(user: UserId, active: bool) returns (reply: Reply)
      modifies this`users
      ensures Outcome(Now(), reply) == SetActiveTx(old(Now()), user, active)
    {
      if user >= |users| {
        return Raised(Unauthorized);
      }
      users := users[user := users[user].(active := active)];
      return Done;
    }

    /** The calls that deal with links and passwords. */
    method ServeAccount(call: Call, now: Time) returns (reply: Reply)
      requires IsAccountCall(call)
      modifies this
      ensures Outcome(Now(), reply) == Exec(settings, old(Now()), call, now)
    {
      hide RegisterTx, ResendTx, VerifyEmailTx, RequestResetTx, ResetPasswordTx, ChangePasswordTx, SetActiveTx;
      match call
      case Register(email, password, raw, secret, undelivered) =>
        reply := Register(email, password, raw, secret, now, undelivered);
      case Resend(user, raw, undelivered) => reply := ResendVerification(user, raw, now, undelivered);
      case VerifyEmail(raw, currentUser, token, secret) => reply := VerifyEmail(raw, currentUser, token, secret, now);
      case RequestReset(email, raw) => reply := RequestPasswordReset(email, raw, now);
      case ResetPassword(raw, password) => reply := ResetPassword(raw, password, now);
      case ChangePassword(user, current, password, token, secret) =>
        reply := ChangePassword(user, current, password, token, secret, now);
      case SetActive(user, active) => reply := SetActive(user, active);
    }

    /** The calls that deal with sessions alone. */
    method ServeSessions(call: Call, now: Time) returns (reply: Reply)
      requires !IsAccountCall(call)
      modifies this
      ensures Outcome(Now(), reply) == Exec(settings, old(Now()), call, now)
    {
      hide LoginTx, RefreshTx, RevokeSessionTx, RevokeAllManagedTx, RevokeUser;
      match call
      case Login(email, password, secret) => reply := Login(email, password, secret, now);
      case Refresh(token, secret) => reply := Refresh(token, secret, now);
      case Logout(token) =>
        Logout(token, now);
        reply := Done;
      case RevokeSession(user, session) => reply := RevokeSession(user, session, now);
      case RevokeAllManaged(user, preserve, token, secret) =>
        reply := RevokeAllManagedSessions(user, preserve, token, secret, now);
      case RevokeAll(user, reason) =>
        RevokeAllSessions(user, reason, now);
        reply := Done;
    }

    /** Any call of the protocol: the service takes exactly the protocol's step, so that whatever holds
        in every reachable state holds of the service after any calls that are no misuse. */
    method Serve(call: Call, now: Time) returns (reply: Reply)
      requires AuthTheorems.Reachable(settings, Now())
      modifies this
      ensures Outcome(Now(), reply) == Exec(settings, old(Now()), call, now)
      ensures !AuthFamilies.Misuses(old(Now()), call) ==> AuthTheorems.Reachable(settings, Now())
    {
      hide Exec, AuthTheorems.Reachable, AuthFamilies.Misuses;
      if !AuthFamilies.Misuses(Now(), call) {
        AuthTheorems.NextReachable(settings, Now(), call, now);
      }
      if IsAccountCall(call) {
        reply := ServeAccount(call, now);
      } else {
        reply := ServeSessions(call, now);
      }
    }
  }

  predicate IsAccountCall(call: Call) {
    call.Register? || call.Resend? || call.VerifyEmail? || call.RequestReset? || call.ResetPassword?
    || call.ChangePassword? || call.SetActive?
  }

  lemma RevokedAt(sessions: seq<Session>, user: UserId, kept: Option<SessionId>, reason: string, now: Time,
      i: SessionId)
    requires i < |sessions|
    ensures RevokeUser(sessions, user, kept, reason, now)[i]
         == if sessions[i].user == user && kept != Some(i) && Open(sessions[i]) then Revoked(sessions[i], reason, now)
           else sessions[i]
  {}
}
