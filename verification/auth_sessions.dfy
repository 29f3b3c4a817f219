/** Users, refresh sessions and account tokens, and what each authentication transaction does to
    them. A transaction either commits or leaves no trace; some commit and then raise. */
module AuthSessions {
  import opened Common

  type UserId = nat
  type SessionId = nat
  type FamilyId = nat
  type Time = nat

  /** `<session id>.<secret>`; the stored hash determines the token it was made from. */
  datatype RefreshToken = RefreshToken(session: SessionId, secret: string)
  datatype TokenHash = Sha256(preimage: RefreshToken)

  datatype User = User(email: string, password: string, active: bool, verifiedAt: Option<Time>)

  datatype Session = Session(
    user: UserId, family: FamilyId, hash: TokenHash, expiresAt: Time, revokedAt: Option<Time>,
    reason: Option<string>, replacedBy: Option<SessionId>, lastUsedAt: Option<Time>)

  datatype Purpose = EmailVerification | PasswordReset
  datatype AccountToken = AccountToken(
    user: UserId, purpose: Purpose, raw: string, expiresAt: Time, consumedAt: Option<Time>, invalidatedAt: Option<Time>)

  datatype Auth = Auth(users: seq<User>, sessions: seq<Session>, tokens: seq<AccountToken>)
  datatype Lifetimes = Lifetimes(refresh: nat, verification: nat, reset: nat)

  const EMPTY := Auth([], [], [])
  const ROTATED := "rotated"

  datatype Error =
    | RegistrationFailed
    | EmailDeliveryUnavailable
    | InvalidCredentials
    | InvalidSession
    | Unauthorized
    | InvalidOrUsedToken
    | TokenExpired
    | AccountMismatch
    | InvalidCurrentPassword
    | PasswordUnchanged
    | SessionNotFound
    | IntegrityViolation

  datatype Reply = SignedIn(user: UserId, token: RefreshToken) | Done | Raised(error: Error)
  /** A state and what the caller sees; for a transaction that is still open, the state it works on. */
  datatype Outcome = Outcome(auth: Auth, reply: Reply)

  /** Leaving `with session_factory.begin()` by a raise undoes everything the block wrote. */
  function RollBackIfRaised(before: Auth, working: Outcome): Outcome {
    if working.reply.Raised? then Outcome(before, working.reply) else working
  }

  predicate Open(s: Session) { s.revokedAt.None? }
  predicate Usable(t: AccountToken) { t.consumedAt.None? && t.invalidatedAt.None? }

  // ---------------------------------------------------------------- sessions

  function Revoked(s: Session, reason: string, now: Time): Session {
    s.(revokedAt := Some(now), reason := Some(reason))
  }

  function NewSession(id: SessionId, user: UserId, family: FamilyId, secret: string, expiresAt: Time): Session {
    Session(user, family, Sha256(RefreshToken(id, secret)), expiresAt, None, None, None, None)
  }

  /** `_create_session`: a fresh family, named here by its first session. */
  function AddSession(sessions: seq<Session>, user: UserId, secret: string, expiresAt: Time): seq<Session> {
    sessions + [NewSession(|sessions|, user, |sessions|, secret, expiresAt)]
  }

  /** Retires a session in favour of a new one of the same family. */
  function Rotate(sessions: seq<Session>, i: SessionId, user: UserId, secret: string, now: Time, expiresAt: Time)
      : seq<Session>
    requires i < |sessions|
  {
    var retired := Revoked(sessions[i], ROTATED, now).(lastUsedAt := Some(now), replacedBy := Some(|sessions|));
    sessions[i := retired] + [NewSession(|sessions|, user, sessions[i].family, secret, expiresAt)]
  }

  function RevokeFamily(sessions: seq<Session>, family: FamilyId, reason: string, now: Time): (r: seq<Session>)
    ensures |r| == |sessions|
  {
    seq(|sessions|, i requires 0 <= i < |sessions| =>
      if sessions[i].family == family && Open(sessions[i]) then Revoked(sessions[i], reason, now) else sessions[i])
  }

  /** Every open session of a user but one. */
  function RevokeUser(sessions: seq<Session>, user: UserId, kept: Option<SessionId>, reason: string, now: Time)
      : (r: seq<Session>)
    ensures |r| == |sessions|
  {
    seq(|sessions|, i requires 0 <= i < |sessions| =>
      if sessions[i].user == user && Some(i) != kept && Open(sessions[i]) then Revoked(sessions[i], reason, now)
         else sessions[i])
  }

  /** Whether a presented token is the one a row was made for. */
  predicate Presents(sessions: seq<Session>, token: RefreshToken) {
    token.session < |sessions| && sessions[token.session].hash == Sha256(token)
  }

  /** `_active_refresh_session` and `_require_active_matching_session`. */
  predicate PresentsActive(sessions: seq<Session>, token: Option<RefreshToken>, now: Time) {
    token.Some? && Presents(sessions, token.value)
    && Open(sessions[token.value.session]) && sessions[token.value.session].expiresAt > now
  }

  // ---------------------------------------------------------------- account tokens

  function InvalidateTokens(tokens: seq<AccountToken>, user: UserId, purpose: Purpose, kept: Option<nat>, now: Time)
    : (r: seq<AccountToken>)
    ensures |r| == |tokens|
  {
    seq(|tokens|, i requires 0 <= i < |tokens| =>
      if tokens[i].user == user && tokens[i].purpose == purpose && Usable(tokens[i]) && Some(i) != kept
      then tokens[i].(invalidatedAt := Some(now)) else tokens[i])
  }

  predicate HasUsable(tokens: seq<AccountToken>, user: UserId, purpose: Purpose) {
    exists i :: 0 <= i < |tokens| && tokens[i].user == user && tokens[i].purpose == purpose && Usable(tokens[i])
  }

  predicate RawTaken(tokens: seq<AccountToken>, raw: string) { exists i :: 0 <= i < |tokens| && tokens[i].raw == raw }

  /** `_create_account_token`; `None` when the unique index on hashes or the index that allows one
      usable token per user and purpose aborts. */
  function AddToken(tokens: seq<AccountToken>, user: UserId, purpose: Purpose, raw: string, expiresAt: Time)
      : Option<seq<AccountToken>> {
    if RawTaken(tokens, raw) || HasUsable(tokens, user, purpose) then None
    else Some(tokens + [AccountToken(user, purpose, raw, expiresAt, None, None)])
  }

  function FindToken(tokens: seq<AccountToken>, purpose: Purpose, raw: string): (r: Option<nat>)
    ensures r.Some? ==> r.value < |tokens| && tokens[r.value].raw == raw && tokens[r.value].purpose == purpose
    ensures r.None? ==> forall i :: 0 <= i < |tokens| ==> tokens[i].raw != raw || tokens[i].purpose != purpose
  {
    if tokens == [] then None
    else if tokens[|tokens| - 1].raw == raw && tokens[|tokens| - 1].purpose == purpose then Some(|tokens| - 1)
    else FindToken(tokens[..|tokens| - 1], purpose, raw)
  }

  /** `_validate_account_token` on a loaded row: what it leaves in the table it works on, and the error
      it raises. An expired row is marked invalid before the raise. */
  function ValidateToken(tokens: seq<AccountToken>, t: nat, now: Time): (seq<AccountToken>, Option<Error>)
    requires t < |tokens|
  {
    if !Usable(tokens[t]) then (tokens, Some(InvalidOrUsedToken))
    else if tokens[t].expiresAt <= now then (tokens[t := tokens[t].(invalidatedAt := Some(now))], Some(TokenExpired))
    else (tokens, None)
  }

  /** `_lock_account_token`, then `_validate_account_token`. */
  function OpenLink(tokens: seq<AccountToken>, purpose: Purpose, raw: string, now: Time)
      : (r: (seq<AccountToken>, Option<Error>))
    ensures r.1.None? ==> FindToken(tokens, purpose, raw).Some? && r.0 == tokens
  {
    match FindToken(tokens, purpose, raw)
    case None => (tokens, Some(InvalidOrUsedToken))
    case Some(t) => ValidateToken(tokens, t, now)
  }

  function FindUser(users: seq<User>, email: string): (r: Option<UserId>)
    ensures r.Some? ==> r.value < |users| && users[r.value].email == email
    ensures r.None? ==> forall i :: 0 <= i < |users| ==> users[i].email != email
  {
    if users == [] then None
    else if users[|users| - 1].email == email then Some(|users| - 1)
    else FindUser(users[..|users| - 1], email)
  }

  predicate ActiveUser(users: seq<User>, user: UserId) { user < |users| && users[user].active }

  // ---------------------------------------------------------------- transactions

  function RegisterTx(c: Lifetimes, s: Auth, email: string, password: string, raw: string, secret: string, now: Time,
                      undelivered: bool): Outcome
  {
    if FindUser(s.users, email).Some? then Outcome(s, Raised(RegistrationFailed))
    else
      var user := |s.users|;
      match AddToken(s.tokens, user, EmailVerification, raw, now + c.verification)
      case None => Outcome(s, Raised(RegistrationFailed))
      case Some(tokens) =>
        if undelivered then Outcome(s, Raised(EmailDeliveryUnavailable))
        else Outcome(Auth(s.users + [User(email, password, true, None)],
                          AddSession(s.sessions, user, secret, now + c.refresh), tokens),
                     SignedIn(user, RefreshToken(|s.sessions|, secret)))
  }

  function LoginTx(c: Lifetimes, s: Auth, email: string, password: string, secret: string, now: Time): Outcome {
    match FindUser(s.users, email)
    case None => Outcome(s, Raised(InvalidCredentials))
    case Some(user) =>
      if !s.users[user].active || s.users[user].password != password then Outcome(s, Raised(InvalidCredentials))
      else Outcome(s.(sessions := AddSession(s.sessions, user, secret, now + c.refresh)),
                   SignedIn(user, RefreshToken(|s.sessions|, secret)))
  }

  /** Family revocation and expiry are committed before the error is raised. */
  function RefreshTx(c: Lifetimes, s: Auth, token: Option<RefreshToken>, secret: string, now: Time): Outcome {
    if token.None? || !Presents(s.sessions, token.value) then Outcome(s, Raised(InvalidSession))
    else
      var i := token.value.session;
      var row := s.sessions[i];
      if row.revokedAt.Some? then
        Outcome(if row.reason == Some(ROTATED)
          then s.(sessions := RevokeFamily(s.sessions, row.family, "refresh_token_reuse", now)) else s,
                Raised(InvalidSession))
      else if row.expiresAt <= now then
        Outcome(s.(sessions := s.sessions[i := Revoked(row, "expired", now)]), Raised(InvalidSession))
      else if !ActiveUser(s.users, row.user) then
        Outcome(s.(sessions := RevokeFamily(s.sessions, row.family, "account_unavailable", now)),
          Raised(InvalidSession))
      else
        Outcome(s.(sessions := Rotate(s.sessions, i, row.user, secret, now, now + c.refresh)),
                SignedIn(row.user, RefreshToken(|s.sessions|, secret)))
  }

  function LogoutTx(s: Auth, token: Option<RefreshToken>, now: Time): Outcome {
    if token.Some? && Presents(s.sessions, token.value) && Open(s.sessions[token.value.session]) then
      var i := token.value.session;
      Outcome(s.(sessions := s.sessions[i := Revoked(s.sessions[i], "logout", now)]), Done)
    else Outcome(s, Done)
  }

  /** The verification mail is sent after the commit, so its failure undoes nothing. */
  function ResendTx(c: Lifetimes, s: Auth, user: UserId, raw: string, now: Time, undelivered: bool): Outcome {
    if !ActiveUser(s.users, user) then Outcome(s, Raised(Unauthorized))
    else if s.users[user].verifiedAt.Some? then Outcome(s, Done)
    else
      match AddToken(InvalidateTokens(s.tokens, user, EmailVerification, None, now), user, EmailVerification, raw,
        now + c.verification)
      case None => Outcome(s, Raised(IntegrityViolation))
      case Some(tokens) => Outcome(s.(tokens := tokens), if undelivered then Raised(EmailDeliveryUnavailable) else Done)
  }

  /** What `verify_email` has written when its transaction ends, by commit or by a raise. */
  function VerifyEmailWork(c: Lifetimes, s: Auth, raw: string, currentUser: Option<UserId>, token: Option<RefreshToken>,
                           secret: string, now: Time): Outcome
  {
    var (marked, refused) := OpenLink(s.tokens, EmailVerification, raw, now);
    if refused.Some? then Outcome(s.(tokens := marked), Raised(refused.value))
    else
      var t := FindToken(s.tokens, EmailVerification, raw).value;
      var user := s.tokens[t].user;
      if !ActiveUser(s.users, user) then Outcome(s, Raised(InvalidOrUsedToken))
      else if currentUser.Some? && currentUser.value != user then Outcome(s, Raised(AccountMismatch))
      else
        var current := PresentsActive(s.sessions, token, now);
        if current && s.sessions[token.value.session].user != user then Outcome(s, Raised(AccountMismatch))
        else
          var row := s.users[user];
          var tokens := s.tokens[t := s.tokens[t].(consumedAt := Some(now))];
          Outcome(Auth(s.users[user := row.(verifiedAt := if row.verifiedAt.None? then Some(now) else row.verifiedAt)],
                       if current then Rotate(s.sessions, token.value.session, user, secret, now, now + c.refresh)
                       else AddSession(s.sessions, user, secret, now + c.refresh),
                       InvalidateTokens(tokens, user, EmailVerification, Some(t), now)),
                  SignedIn(user, RefreshToken(|s.sessions|, secret)))
  }

  function VerifyEmailTx(c: Lifetimes, s: Auth, raw: string, currentUser: Option<UserId>, token: Option<RefreshToken>,
                         secret: string, now: Time): Outcome
  {
    RollBackIfRaised(s, VerifyEmailWork(c, s, raw, currentUser, token, secret, now))
  }

  function RequestResetTx(c: Lifetimes, s: Auth, email: string, raw: string, now: Time): Outcome {
    match FindUser(s.users, email)
    case None => Outcome(s, Done)
    case Some(user) =>
      if !s.users[user].active then Outcome(s, Done)
      else
        match AddToken(InvalidateTokens(s.tokens, user, PasswordReset, None, now), user, PasswordReset, raw,
          now + c.reset)
        case None => Outcome(s, Raised(IntegrityViolation))
        case Some(tokens) => Outcome(s.(tokens := tokens), Done)
  }

  /** What `reset_password` has written when its transaction ends, by commit or by a raise. */
  function ResetPasswordWork(s: Auth, raw: string, password: string, now: Time): Outcome {
    var (marked, refused) := OpenLink(s.tokens, PasswordReset, raw, now);
    if refused.Some? then Outcome(s.(tokens := marked), Raised(refused.value))
    else
      var t := FindToken(s.tokens, PasswordReset, raw).value;
      var user := s.tokens[t].user;
      if !ActiveUser(s.users, user) then Outcome(s, Raised(InvalidOrUsedToken))
      else
        var tokens := s.tokens[t := s.tokens[t].(consumedAt := Some(now))];
        Outcome(Auth(s.users[user := s.users[user].(password := password)],
                     RevokeUser(s.sessions, user, None, "password_reset", now),
                     InvalidateTokens(tokens, user, PasswordReset, Some(t), now)),
                Done)
  }

  function ResetPasswordTx(s: Auth, raw: string, password: string, now: Time): Outcome {
    RollBackIfRaised(s, ResetPasswordWork(s, raw, password, now))
  }

  /** The session of this user that a token actively presents. */
  predicate PresentsOwn(sessions: seq<Session>, user: UserId, token: Option<RefreshToken>, now: Time) {
    PresentsActive(sessions, token, now) && sessions[token.value.session].user == user
  }

  function ChangePasswordTx(c: Lifetimes, s: Auth, user: UserId, current: string, password: string,
                            token: Option<RefreshToken>, secret: string, now: Time): Outcome
  {
    if token.None? then Outcome(s, Raised(InvalidSession))
    else if !ActiveUser(s.users, user) then Outcome(s, Raised(Unauthorized))
    else if !PresentsOwn(s.sessions, user, token, now) then Outcome(s, Raised(InvalidSession))
    else if s.users[user].password != current then Outcome(s, Raised(InvalidCurrentPassword))
    else if s.users[user].password == password then Outcome(s, Raised(PasswordUnchanged))
    else
      var i := token.value.session;
      var others := RevokeUser(s.sessions, user, Some(i), "password_changed", now);
      Outcome(Auth(s.users[user := s.users[user].(password := password)],
                   Rotate(others, i, user, secret, now, now + c.refresh),
                   InvalidateTokens(s.tokens, user, PasswordReset, None, now)),
              SignedIn(user, RefreshToken(|s.sessions|, secret)))
  }

  function RevokeSessionTx(s: Auth, user: UserId, i: SessionId, now: Time): Outcome {
    if !(i < |s.sessions| && s.sessions[i].user == user) then Outcome(s, Raised(SessionNotFound))
    else if !Open(s.sessions[i]) then Outcome(s, Done)
    else Outcome(s.(sessions := s.sessions[i := Revoked(s.sessions[i], "user_revoked", now)]), Done)
  }

  function RevokeAllManagedTx(c: Lifetimes, s: Auth, user: UserId, preserve: bool, token: Option<RefreshToken>,
                              secret: string, now: Time): Outcome
  {
    if preserve && token.None? then Outcome(s, Raised(InvalidSession))
    else if !ActiveUser(s.users, user) then Outcome(s, Raised(Unauthorized))
    else if !preserve then Outcome(s.(sessions := RevokeUser(s.sessions, user, None, "user_revoke_all", now)), Done)
    else if !PresentsOwn(s.sessions, user, token, now) then Outcome(s, Raised(InvalidSession))
    else
      var i := token.value.session;
      var others := RevokeUser(s.sessions, user, Some(i), "user_revoke_all", now);
      Outcome(s.(sessions := Rotate(others, i, user, secret, now, now + c.refresh)),
              SignedIn(user, RefreshToken(|s.sessions|, secret)))
  }

  function Clipped(reason: string): string { if |reason| <= 64 then reason else reason[..64] }

  /** The internal primitive: the caller chooses the reason. */
  function RevokeAllTx(s: Auth, user: UserId, reason: string, now: Time): Outcome {
    Outcome(s.(sessions := RevokeUser(s.sessions, user, None, Clipped(reason), now)), Done)
  }

  /** Account-state actions outside this service. */
  function SetActiveTx(s: Auth, user: UserId, active: bool): Outcome {
    if user >= |s.users| then Outcome(s, Raised(Unauthorized))
    else Outcome(s.(users := s.users[user := s.users[user].(active := active)]), Done)
  }

  datatype Call =
    | Register(email: string, password: string, raw: string, secret: string, undelivered: bool)
    | Login(email: string, password: string, secret: string)
    | Refresh(token: Option<RefreshToken>, secret: string)
    | Logout(token: Option<RefreshToken>)
    | Resend(user: UserId, raw: string, undelivered: bool)
    | VerifyEmail(raw: string, currentUser: Option<UserId>, token: Option<RefreshToken>, secret: string)
    | RequestReset(email: string, raw: string)
    | ResetPassword(raw: string, password: string)
    | ChangePassword(user: UserId, current: string, password: string, token: Option<RefreshToken>, secret: string)
    | RevokeSession(user: UserId, session: SessionId)
    | RevokeAllManaged(user: UserId, preserve: bool, token: Option<RefreshToken>, secret: string)
    | RevokeAll(user: UserId, reason: string)
    | SetActive(user: UserId, active: bool)

  function Exec(c: Lifetimes, s: Auth, call: Call, now: Time): Outcome {
    match call
    case Register(email, password, raw, secret, undelivered) =>
      RegisterTx(c, s, email, password, raw, secret, now, undelivered)
    case Login(email, password, secret) => LoginTx(c, s, email, password, secret, now)
    case Refresh(token, secret) => RefreshTx(c, s, token, secret, now)
    case Logout(token) => LogoutTx(s, token, now)
    case Resend(user, raw, undelivered) => ResendTx(c, s, user, raw, now, undelivered)
    case VerifyEmail(raw, currentUser, token, secret) => VerifyEmailTx(c, s, raw, currentUser, token, secret, now)
    case RequestReset(email, raw) => RequestResetTx(c, s, email, raw, now)
    case ResetPassword(raw, password) => ResetPasswordTx(s, raw, password, now)
    case ChangePassword(user, current, password, token, secret) =>
      ChangePasswordTx(c, s, user, current, password, token, secret, now)
    case RevokeSession(user, i) => RevokeSessionTx(s, user, i, now)
    case RevokeAllManaged(user, preserve, token, secret) => RevokeAllManagedTx(c, s, user, preserve, token, secret, now)
    case RevokeAll(user, reason) => RevokeAllTx(s, user, reason, now)
    case SetActive(user, active) => SetActiveTx(s, user, active)
  }

  /** Any sequence of calls, each with the time it read. */
  function RunAll(c: Lifetimes, s: Auth, calls: seq<(Call, Time)>): Auth
    decreases |calls|
  {
    if calls == [] then s else RunAll(c, Exec(c, s, calls[0].0, calls[0].1).auth, calls[1..])
  }
}
