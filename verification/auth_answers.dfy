/** Who gets what: when each authentication call succeeds, what it leaves behind then and otherwise, and
    what follows for whole runs. Stated in the columns of the tables alone. */
module AuthAnswers {
  import opened Common
  import opened AuthSessions
  import opened AuthFamilies
  import opened AuthTheorems

  // ---------------------------------------------------------------- the tables, read directly

  /** The token names this row, and the row was made for exactly this token. */
  predicate Shows(s: Auth, token: Option<RefreshToken>, i: SessionId) {
    i < |s.sessions| && token.Some? && token.value.session == i && s.sessions[i].hash.preimage == token.value
  }

  /** The token shows a session that is neither revoked nor over. */
  predicate ShowsLive(s: Auth, token: Option<RefreshToken>, i: SessionId, now: Time) {
    Shows(s, token, i) && s.sessions[i].revokedAt == None && now < s.sessions[i].expiresAt
  }

  /** A link that was sent for this purpose and is unused, not withdrawn and not over. */
  predicate LiveLink(s: Auth, t: nat, purpose: Purpose, raw: string, now: Time) {
    t < |s.tokens| && s.tokens[t].raw == raw && s.tokens[t].purpose == purpose
    && s.tokens[t].consumedAt == None && s.tokens[t].invalidatedAt == None && now < s.tokens[t].expiresAt
  }

  predicate ActiveAccount(s: Auth, u: UserId) { u < |s.users| && s.users[u].active }

  predicate NewRaw(s: Auth, raw: string) { forall i :: 0 <= i < |s.tokens| ==> s.tokens[i].raw != raw }

  /** A session as it is created. */
  function Fresh(id: SessionId, user: UserId, family: FamilyId, secret: string, expiresAt: Time): Session {
    Session(user, family, Sha256(RefreshToken(id, secret)), expiresAt, None, None, None, None)
  }

  function Stopped(row: Session, reason: string, now: Time): Session {
    row.(revokedAt := Some(now), reason := Some(reason))
  }

  /** A session as rotation leaves it. */
  function Rotated(row: Session, next: SessionId, now: Time): Session {
    row.(revokedAt := Some(now), reason := Some("rotated"), lastUsedAt := Some(now), replacedBy := Some(next))
  }

  /** The open rows that satisfy a test are stopped, every other row stays. */
  ghost predicate StoppedThese(p: seq<Session>, q: seq<Session>, these: SessionId -> bool, reason: string, now: Time) {
    |q| == |p|
    && forall i :: 0 <= i < |p| ==>
      q[i] == if these(i) && p[i].revokedAt == None then Stopped(p[i], reason, now) else p[i]
  }

  /** The other unused links of this kind are withdrawn, every other link stays. */
  ghost predicate WithdrewLinks(
      p: seq<AccountToken>, q: seq<AccountToken>, user: UserId, purpose: Purpose, but: Option<nat>, now: Time)
    requires |p| <= |q|
  {
    forall i :: 0 <= i < |p| && but != Some(i) ==>
      q[i] == if p[i].user == user && p[i].purpose == purpose && p[i].consumedAt == None && p[i].invalidatedAt == None
              then p[i].(invalidatedAt := Some(now)) else p[i]
  }

  // ---------------------------------------------------------------- lookups

  lemma FoundUser(s: Auth, u: UserId, email: string)
    requires EmailsUnique(s.users) && u < |s.users| && s.users[u].email == email
    ensures FindUser(s.users, email) == Some(u)
  {
    var v := FindUser(s.users, email).value;
    assert s.users[u].email == s.users[v].email;
  }

  lemma FoundToken(s: Auth, t: nat, purpose: Purpose, raw: string)
    requires TokensOk(s.users, s.tokens) && t < |s.tokens| && s.tokens[t].raw == raw && s.tokens[t].purpose == purpose
    ensures FindToken(s.tokens, purpose, raw) == Some(t) && t < |s.tokens| && s.tokens[t].user < |s.users|
  {
    FoundIsUnique(s, purpose, raw, t);
    assert TokenOk(s.users, s.tokens[t]);
  }

  lemma Tables(c: Lifetimes, s: Auth)
    requires Reachable(c, s)
    ensures EmailsUnique(s.users) && TokensOk(s.users, s.tokens) && SessionsHaveUsers(s.sessions, |s.users|)
    ensures FamiliesOk(s.sessions)
  {
    ReachableInv(c, s);
  }

  // ---------------------------------------------------------------- login

  predicate Knows(s: Auth, u: UserId, email: string, password: string) {
    ActiveAccount(s, u) && s.users[u].email == email && s.users[u].password == password
  }

  /** A login succeeds exactly for an active user with that address and exactly that password. It adds one
      session, the first of its family, and hands out the token of that session; a failed one leaves no
      trace and does not say what was wrong. */
  lemma LoginSucceedsExactly(c: Lifetimes, s: Auth, email: string, password: string, secret: string, now: Time)
    requires Reachable(c, s)
    ensures var out := LoginTx(c, s, email, password, secret, now); var n := |s.sessions|;
            (out.reply.SignedIn? <==> exists u: UserId :: Knows(s, u, email, password))
            && (out.reply.SignedIn? ==>
                  Knows(s, out.reply.user, email, password) && out.reply.token == RefreshToken(n, secret)
                  && out.auth == s.(sessions := s.sessions + [Fresh(n, out.reply.user, n, secret, now + c.refresh)])
                  && forall i :: 0 <= i < n ==> s.sessions[i].family != n)
            && (!out.reply.SignedIn? ==> out == Outcome(s, Raised(InvalidCredentials)))
  {
    Tables(c, s);
    hide Reachable, TokensOk, SessionsHaveUsers;
    if u: UserId :| Knows(s, u, email, password) { FoundUser(s, u, email); }
    forall i | 0 <= i < |s.sessions| ensures s.sessions[i].family != |s.sessions| { assert OwnsOk(s.sessions, i); }
    hide EmailsUnique, FamiliesOk;
    if FindUser(s.users, email).Some? {
      var v := FindUser(s.users, email).value;
      assert Knows(s, v, email, password) <==> s.users[v].active && s.users[v].password == password;
    }
  }

  // ---------------------------------------------------------------- refresh and logout

  /** A refresh succeeds exactly for a live session of an active user; the row is rotated into one new row
      of its family, whose token is handed out. */
  lemma RefreshSucceedsExactly(c: Lifetimes, s: Auth, token: Option<RefreshToken>, secret: string, now: Time)
    requires Reachable(c, s)
    ensures var out := RefreshTx(c, s, token, secret, now); var n := |s.sessions|;
            (out.reply.SignedIn? <==> exists i: SessionId ::
              ShowsLive(s, token, i, now) && ActiveAccount(s, s.sessions[i].user))
            && (out.reply.SignedIn? ==>
                  var i := token.value.session; var row := s.sessions[i];
                  ShowsLive(s, token, i, now) && out.reply == SignedIn(row.user, RefreshToken(n, secret))
                  && out.auth == s.(sessions := s.sessions[i := Rotated(row, n, now)]
                                                + [Fresh(n, row.user, row.family, secret, now + c.refresh)]))
            && (!out.reply.SignedIn? ==> out.reply == Raised(InvalidSession))
  {
    hide Reachable, RevokeFamily;
    if i: SessionId :| ShowsLive(s, token, i, now) { assert i == token.value.session; }
    if token.Some? && Shows(s, token, token.value.session) {
      assert ShowsLive(s, token, token.value.session, now)
        <==> s.sessions[token.value.session].revokedAt == None && now < s.sessions[token.value.session].expiresAt;
    }
  }

  /** What a refused refresh leaves: a replay of a rotated token stops its family, an expired session is
      stopped alone, an inactive account stops the family, and anything else changes nothing. */
  lemma RefusedRefreshLeaves(c: Lifetimes, s: Auth, token: Option<RefreshToken>, secret: string, now: Time)
    requires RefreshTx(c, s, token, secret, now).reply.Raised?
    ensures var out := RefreshTx(c, s, token, secret, now);
            out.auth.users == s.users && out.auth.tokens == s.tokens
            && (!(exists i: SessionId :: Shows(s, token, i)) ==> out.auth == s)
            && forall i: SessionId :: Shows(s, token, i) ==>
                 var row := s.sessions[i];
                   var family := (j: SessionId) => j < |s.sessions| && s.sessions[j].family == row.family;
                 if row.revokedAt.Some? && row.reason == Some("rotated") then
                   StoppedThese(s.sessions, out.auth.sessions, family, "refresh_token_reuse", now)
                 else if row.revokedAt.Some? then out.auth == s
                 else if row.expiresAt <= now then
                   StoppedThese(s.sessions, out.auth.sessions, (j: SessionId) => j == i, "expired", now)
                 else StoppedThese(s.sessions, out.auth.sessions, family, "account_unavailable", now)
  {
    if token.Some? && token.value.session < |s.sessions|
       && s.sessions[token.value.session].hash.preimage == token.value {
      assert Shows(s, token, token.value.session);
    }
  }

  /** A logout stops exactly the open session its token shows. */
  lemma LogoutStopsExactly(s: Auth, token: Option<RefreshToken>, now: Time)
    ensures var out := LogoutTx(s, token, now);
            out.reply == Done && out.auth.users == s.users && out.auth.tokens == s.tokens
            && StoppedThese(s.sessions, out.auth.sessions, (j: SessionId) => Shows(s, token, j), "logout", now)
  {
    if token.Some? && token.value.session < |s.sessions|
       && s.sessions[token.value.session].hash == Sha256(token.value) {
      assert Shows(s, token, token.value.session);
    }
  }

  // ---------------------------------------------------------------- registration

  /** A registration succeeds exactly if address and random token are new and the mail is delivered. */
  lemma RegisterSucceedsExactly(c: Lifetimes, s: Auth, email: string, password: string, raw: string, secret: string,
                                now: Time, undelivered: bool)
    requires Reachable(c, s)
    ensures var out := RegisterTx(c, s, email, password, raw, secret, now, undelivered);
            var n := |s.sessions|; var u := |s.users|;
            var free := (forall v :: 0 <= v < u ==> s.users[v].email != email) && NewRaw(s, raw);
            out == if !free then Outcome(s, Raised(RegistrationFailed))
                   else if undelivered then Outcome(s, Raised(EmailDeliveryUnavailable))
                   else Outcome(Auth(s.users + [User(email, password, true, None)],
                                     s.sessions + [Fresh(n, u, n, secret, now + c.refresh)],
                                     s.tokens + [AccountToken(u, EmailVerification, raw, now + c.verification, None,
                                       None)]),
                                SignedIn(u, RefreshToken(n, secret)))
  {
    ReachableInv(c, s);
    NoUsableForNewUser(s, EmailVerification);
    hide Inv, Reachable, HasUsable;
  }

  // ---------------------------------------------------------------- links

  /** Adding a link after the others of its kind were withdrawn fails only for a repeated random token. */
  lemma LinkIsReplaced(s: Auth, user: UserId, purpose: Purpose, raw: string, now: Time, expiresAt: Time)
    requires TokensOk(s.users, s.tokens)
    ensures var added := AddToken(InvalidateTokens(s.tokens, user, purpose, None, now), user, purpose, raw, expiresAt);
            (added.Some? <==> NewRaw(s, raw))
            && (added.Some? ==>
                  |added.value| == |s.tokens| + 1
                  && added.value[|s.tokens|] == AccountToken(user, purpose, raw, expiresAt, None, None)
                  && WithdrewLinks(s.tokens, added.value, user, purpose, None, now))
  {
    ReplacementIsAdded(s, user, purpose, raw, now, expiresAt);
    hide TokensOk;
  }

  /** A new verification link goes to an active account that is not verified, replaces the one before, and
      stays even if the mail does not. */
  lemma ResendAnswersExactly(c: Lifetimes, s: Auth, user: UserId, raw: string, now: Time, undelivered: bool)
    requires Reachable(c, s)
    ensures var out := ResendTx(c, s, user, raw, now, undelivered);
            if !ActiveAccount(s, user) then out == Outcome(s, Raised(Unauthorized))
            else if s.users[user].verifiedAt.Some? then out == Outcome(s, Done)
            else if !NewRaw(s, raw) then out == Outcome(s, Raised(IntegrityViolation))
            else out.reply == (if undelivered then Raised(EmailDeliveryUnavailable) else Done)
                 && out.auth.users == s.users && out.auth.sessions == s.sessions
                 && |out.auth.tokens| == |s.tokens| + 1
                 && out.auth.tokens[|s.tokens|]
                    == AccountToken(user, EmailVerification, raw, now + c.verification, None, None)
                 && WithdrewLinks(s.tokens, out.auth.tokens, user, EmailVerification, None, now)
  {
    Tables(c, s);
    LinkIsReplaced(s, user, EmailVerification, raw, now, now + c.verification);
    hide Reachable, InvalidateTokens, AddToken, WithdrewLinks, NewRaw;
  }

  /** A reset link goes to an active account with that address; the answer does not say whether there is one. */
  lemma RequestResetAnswersExactly(c: Lifetimes, s: Auth, email: string, raw: string, now: Time)
    requires Reachable(c, s)
    ensures var out := RequestResetTx(c, s, email, raw, now);
            (forall u: UserId :: ActiveAccount(s, u) && s.users[u].email == email ==>
               if !NewRaw(s, raw) then out == Outcome(s, Raised(IntegrityViolation))
               else out.reply == Done && out.auth.users == s.users && out.auth.sessions == s.sessions
                    && |out.auth.tokens| == |s.tokens| + 1
                    && out.auth.tokens[|s.tokens|] == AccountToken(u, PasswordReset, raw, now + c.reset, None, None)
                    && WithdrewLinks(s.tokens, out.auth.tokens, u, PasswordReset, None, now))
            && (!(exists u: UserId :: ActiveAccount(s, u) && s.users[u].email == email) ==> out == Outcome(s, Done))
  {
    Tables(c, s);
    hide Reachable, InvalidateTokens, AddToken, WithdrewLinks, NewRaw, TokensOk;
    var found := FindUser(s.users, email);
    if found.Some? { LinkIsReplaced(s, found.value, PasswordReset, raw, now, now + c.reset); }
    forall u: UserId | ActiveAccount(s, u) && s.users[u].email == email ensures found == Some(u) {
      FoundUser(s, u, email);
    }
    hide EmailsUnique;
    assert found.Some? && s.users[found.value].active ==> ActiveAccount(s, found.value);
  }

  /** The account a live link opens, if it may. */
  predicate Opens(s: Auth, t: nat, purpose: Purpose, raw: string, now: Time) {
    LiveLink(s, t, purpose, raw, now) && ActiveAccount(s, s.tokens[t].user)
  }

  lemma LinkTest(s: Auth, purpose: Purpose, raw: string, now: Time)
    requires TokensOk(s.users, s.tokens)
    ensures OpenLink(s.tokens, purpose, raw, now).1.None? <==> exists t: nat :: LiveLink(s, t, purpose, raw, now)
    ensures forall t: nat :: LiveLink(s, t, purpose, raw, now) ==> FindToken(s.tokens, purpose, raw) == Some(t)
    ensures OpenLink(s.tokens, purpose, raw, now).1 == Some(TokenExpired) <==>
              exists t: nat :: PresentsExpired(s, purpose, raw, t, now)
    ensures OpenLink(s.tokens, purpose, raw, now).1.Some? ==>
              OpenLink(s.tokens, purpose, raw, now).1 == Some(TokenExpired)
              || OpenLink(s.tokens, purpose, raw, now).1 == Some(InvalidOrUsedToken)
  {
    forall t: nat | LiveLink(s, t, purpose, raw, now) ensures FindToken(s.tokens, purpose, raw) == Some(t) {
      FoundToken(s, t, purpose, raw);
    }
    hide TokensOk;
    if FindToken(s.tokens, purpose, raw).Some? {
      var t := FindToken(s.tokens, purpose, raw).value;
      assert LiveLink(s, t, purpose, raw, now) <==> Usable(s.tokens[t]) && now < s.tokens[t].expiresAt;
      assert PresentsExpired(s, purpose, raw, t, now) <==> Usable(s.tokens[t]) && s.tokens[t].expiresAt <= now;
    }
  }

  ghost predicate ResetWith(s: Auth, out: Outcome, t: nat, password: string, now: Time)
    requires t < |s.tokens| && s.tokens[t].user < |s.users|
  {
    var u := s.tokens[t].user;
    out.reply == Done && out.auth.users == s.users[u := s.users[u].(password := password)]
    && StoppedThese(s.sessions, out.auth.sessions,
                    (j: SessionId) => j < |s.sessions| && s.sessions[j].user == u, "password_reset", now)
    && |out.auth.tokens| == |s.tokens|
    && out.auth.tokens[t] == s.tokens[t].(consumedAt := Some(now))
    && WithdrewLinks(s.tokens, out.auth.tokens, u, PasswordReset, Some(t), now)
  }

  lemma StoppedUser(p: seq<Session>, user: UserId, reason: string, now: Time)
    ensures StoppedThese(p, RevokeUser(p, user, None, reason, now),
                         (j: SessionId) => j < |p| && p[j].user == user, reason, now)
  {}

  lemma ResetEffect(s: Auth, raw: string, password: string, now: Time, t: nat)
    requires TokensOk(s.users, s.tokens) && Opens(s, t, PasswordReset, raw, now)
    ensures ResetWith(s, ResetPasswordTx(s, raw, password, now), t, password, now)
  {
    LinkTest(s, PasswordReset, raw, now);
    UsedLinkShape(s.tokens, t, s.tokens[t].user, PasswordReset, now);
    StoppedUser(s.sessions, s.tokens[t].user, "password_reset", now);
    hide TokensOk, FindToken, RevokeUser, InvalidateTokens, WithdrewLinks, StoppedThese;
    assert OpenLink(s.tokens, PasswordReset, raw, now).1.None?;
    assert FindToken(s.tokens, PasswordReset, raw) == Some(t);
    hide OpenLink;
  }

  lemma ResetRefusal(s: Auth, raw: string, password: string, now: Time)
    requires TokensOk(s.users, s.tokens) && !exists t: nat :: Opens(s, t, PasswordReset, raw, now)
    ensures var out := ResetPasswordTx(s, raw, password, now);
            out.auth == s && out.reply.Raised?
            && (out.reply.error == TokenExpired || out.reply.error == InvalidOrUsedToken)
  {
    LinkTest(s, PasswordReset, raw, now);
    hide TokensOk, FindToken, OpenLink, RevokeUser, InvalidateTokens;
    if t: nat :| LiveLink(s, t, PasswordReset, raw, now) {
      assert Opens(s, t, PasswordReset, raw, now) <==> ActiveUser(s.users, s.tokens[t].user);
    }
  }

  /** A password reset succeeds exactly with a live link of an active account. It uses the link up, stores
      exactly the new password, stops every open session of the user and withdraws the other reset links. */
  lemma ResetSucceedsExactly(c: Lifetimes, s: Auth, raw: string, password: string, now: Time)
    requires Reachable(c, s)
    ensures var out := ResetPasswordTx(s, raw, password, now);
            (out.reply == Done <==> exists t: nat :: Opens(s, t, PasswordReset, raw, now))
            && (out.reply != Done ==>
                  out.auth == s && out.reply.Raised?
                  && (out.reply.error == TokenExpired || out.reply.error == InvalidOrUsedToken))
            && forall t: nat :: Opens(s, t, PasswordReset, raw, now) ==>
                 t < |s.tokens| && s.tokens[t].user < |s.users| && ResetWith(s, out, t, password, now)
  {
    Tables(c, s);
    hide Reachable, TokensOk, EmailsUnique, FamiliesOk, SessionsHaveUsers, ResetPasswordTx, StoppedThese, WithdrewLinks;
    forall t: nat | Opens(s, t, PasswordReset, raw, now)
      ensures t < |s.tokens| && s.tokens[t].user < |s.users|
      ensures ResetWith(s, ResetPasswordTx(s, raw, password, now), t, password, now)
    {
      ResetEffect(s, raw, password, now, t);
    }
    if !exists t: nat :: Opens(s, t, PasswordReset, raw, now) { ResetRefusal(s, raw, password, now); }
    hide LiveLink;
  }

  /** The session a verification takes over: the live one that is presented. */
  ghost predicate MayVerify(s: Auth, t: nat, raw: string, currentUser: Option<UserId>, token: Option<RefreshToken>,
      now: Time) {
    Opens(s, t, EmailVerification, raw, now)
    && (currentUser.Some? ==> currentUser.value == s.tokens[t].user)
    && forall i: SessionId :: ShowsLive(s, token, i, now) ==> s.sessions[i].user == s.tokens[t].user
  }

  ghost predicate VerifiedWith(c: Lifetimes, s: Auth, out: Outcome, t: nat, token: Option<RefreshToken>, secret: string,
                               now: Time)
    requires t < |s.tokens| && s.tokens[t].user < |s.users|
  {
    var u := s.tokens[t].user; var row := s.users[u]; var n := |s.sessions|;
    out.reply == SignedIn(u, RefreshToken(n, secret))
    && out.auth.users == s.users[u := row.(verifiedAt := if row.verifiedAt == None then Some(now) else row.verifiedAt)]
    && |out.auth.tokens| == |s.tokens|
    && out.auth.tokens[t] == s.tokens[t].(consumedAt := Some(now))
    && WithdrewLinks(s.tokens, out.auth.tokens, u, EmailVerification, Some(t), now)
    && if exists i: SessionId :: ShowsLive(s, token, i, now) then
         var i := token.value.session;
         out.auth.sessions == s.sessions[i := Rotated(s.sessions[i], n, now)]
                              + [Fresh(n, u, s.sessions[i].family, secret, now + c.refresh)]
       else out.auth.sessions == s.sessions + [Fresh(n, u, n, secret, now + c.refresh)]
  }

  lemma RotationShape(p: seq<Session>, i: SessionId, user: UserId, secret: string, now: Time, expiresAt: Time)
    requires i < |p|
    ensures Rotate(p, i, user, secret, now, expiresAt)
         == p[i := Rotated(p[i], |p|, now)] + [Fresh(|p|, user, p[i].family, secret, expiresAt)]
  {}

  lemma AdditionShape(p: seq<Session>, user: UserId, secret: string, expiresAt: Time)
    ensures AddSession(p, user, secret, expiresAt) == p + [Fresh(|p|, user, |p|, secret, expiresAt)]
  {}

  /** Using one link up and withdrawing the others of its kind. */
  lemma UsedLinkShape(p: seq<AccountToken>, t: nat, user: UserId, purpose: Purpose, now: Time)
    requires t < |p|
    ensures var q := InvalidateTokens(p[t := p[t].(consumedAt := Some(now))], user, purpose, Some(t), now);
            |q| == |p| && q[t] == p[t].(consumedAt := Some(now)) && WithdrewLinks(p, q, user, purpose, Some(t), now)
  {}

  lemma VerifyEffect(c: Lifetimes, s: Auth, raw: string, currentUser: Option<UserId>, token: Option<RefreshToken>,
                     secret: string, now: Time, t: nat)
    requires TokensOk(s.users, s.tokens) && MayVerify(s, t, raw, currentUser, token, now)
    ensures VerifiedWith(c, s, VerifyEmailTx(c, s, raw, currentUser, token, secret, now), t, token, secret, now)
  {
    LinkTest(s, EmailVerification, raw, now);
    LiveTest(s, token, now);
    var u := s.tokens[t].user;
    UsedLinkShape(s.tokens, t, u, EmailVerification, now);
    AdditionShape(s.sessions, u, secret, now + c.refresh);
    if PresentsActive(s.sessions, token, now) {
      RotationShape(s.sessions, token.value.session, u, secret, now, now + c.refresh);
    }
    hide TokensOk, PresentsActive, FindToken, Rotate, AddSession, InvalidateTokens, WithdrewLinks, ShowsLive;
    assert OpenLink(s.tokens, EmailVerification, raw, now).1.None?;
    assert FindToken(s.tokens, EmailVerification, raw) == Some(t);
    hide OpenLink;
  }

  lemma VerifyRefusal(c: Lifetimes, s: Auth, raw: string, currentUser: Option<UserId>, token: Option<RefreshToken>,
                      secret: string, now: Time)
    requires TokensOk(s.users, s.tokens) && !exists t: nat :: MayVerify(s, t, raw, currentUser, token, now)
    ensures var out := VerifyEmailTx(c, s, raw, currentUser, token, secret, now);
            out.auth == s && out.reply.Raised?
            && (out.reply == Raised(AccountMismatch) <==> exists t: nat :: Opens(s, t, EmailVerification, raw, now))
  {
    LinkTest(s, EmailVerification, raw, now);
    LiveTest(s, token, now);
    hide TokensOk, FindToken, OpenLink, PresentsActive, ShowsLive;
    if t: nat :| LiveLink(s, t, EmailVerification, raw, now) {
      assert Opens(s, t, EmailVerification, raw, now) <==> ActiveUser(s.users, s.tokens[t].user);
      assert !MayVerify(s, t, raw, currentUser, token, now);
    }
  }

  /** A verification succeeds exactly with a live link of an active account that is not presented from
      another account. It uses the link up, keeps the first verification time, and rotates the live session
      presented, or opens a new one. */
  lemma VerifySucceedsExactly(c: Lifetimes, s: Auth, raw: string, currentUser: Option<UserId>,
                              token: Option<RefreshToken>, secret: string, now: Time)
    requires Reachable(c, s)
    ensures var out := VerifyEmailTx(c, s, raw, currentUser, token, secret, now);
            (out.reply.SignedIn? <==> exists t: nat :: MayVerify(s, t, raw, currentUser, token, now))
            && (!out.reply.SignedIn? ==> out.auth == s && out.reply.Raised?)
            && (out.reply == Raised(AccountMismatch) <==>
                  exists t: nat :: Opens(s, t, EmailVerification, raw, now)
                    && !MayVerify(s, t, raw, currentUser, token, now))
            && forall t: nat :: MayVerify(s, t, raw, currentUser, token, now) ==>
                 t < |s.tokens| && s.tokens[t].user < |s.users| && VerifiedWith(c, s, out, t, token, secret, now)
  {
    Tables(c, s);
    hide *;
    forall t: nat | MayVerify(s, t, raw, currentUser, token, now)
      ensures t < |s.tokens| && s.tokens[t].user < |s.users|
      ensures VerifiedWith(c, s, VerifyEmailTx(c, s, raw, currentUser, token, secret, now), t, token, secret, now)
      ensures VerifyEmailTx(c, s, raw, currentUser, token, secret, now).reply.SignedIn?
      ensures forall v: nat :: Opens(s, v, EmailVerification, raw, now) ==> v == t
    {
      VerifyEffect(c, s, raw, currentUser, token, secret, now, t);
      Bounds(s, t, raw, currentUser, token, now);
      SignedInBy(c, s, VerifyEmailTx(c, s, raw, currentUser, token, secret, now), t, token, secret, now);
      OnlyOneLink(s, t, EmailVerification, raw, now);
    }
    if !exists t: nat :: MayVerify(s, t, raw, currentUser, token, now) {
      VerifyRefusal(c, s, raw, currentUser, token, secret, now);
    }
    assert forall t: nat ::
           MayVerify(s, t, raw, currentUser, token, now) ==> Opens(s, t, EmailVerification, raw, now) by {
      MayOpen(s, raw, currentUser, token, now);
    }
  }

  /** A link that would be live had it not come too late. */
  predicate LateLink(s: Auth, t: nat, purpose: Purpose, raw: string, now: Time) {
    t < |s.tokens| && s.tokens[t].raw == raw && s.tokens[t].purpose == purpose
    && s.tokens[t].consumedAt == None && s.tokens[t].invalidatedAt == None && s.tokens[t].expiresAt <= now
  }

  lemma LateTest(s: Auth, purpose: Purpose, raw: string, now: Time)
    requires TokensOk(s.users, s.tokens)
    ensures forall t: nat :: LateLink(s, t, purpose, raw, now) <==> PresentsExpired(s, purpose, raw, t, now)
  {
    forall t: nat | LateLink(s, t, purpose, raw, now) ensures PresentsExpired(s, purpose, raw, t, now) {
      FoundToken(s, t, purpose, raw);
    }
    hide TokensOk;
  }

  /** Both endpoints tell a link that came too late from one that does not open an active account at all. */
  lemma RefusedLinksAreTold(c: Lifetimes, s: Auth, raw: string, password: string, currentUser: Option<UserId>,
                            token: Option<RefreshToken>, secret: string, now: Time)
    requires Reachable(c, s)
    ensures var reply := ResetPasswordTx(s, raw, password, now).reply;
            var late := exists t: nat :: LateLink(s, t, PasswordReset, raw, now);
            (reply == Raised(TokenExpired) <==> late)
            && (reply == Raised(InvalidOrUsedToken) <==>
                  !late && !exists t: nat :: Opens(s, t, PasswordReset, raw, now))
    ensures var reply := VerifyEmailTx(c, s, raw, currentUser, token, secret, now).reply;
            var late := exists t: nat :: LateLink(s, t, EmailVerification, raw, now);
            (reply == Raised(TokenExpired) <==> late)
            && (reply == Raised(InvalidOrUsedToken) <==>
                  !late && !exists t: nat :: Opens(s, t, EmailVerification, raw, now))
  {
    Tables(c, s);
    LinkTest(s, PasswordReset, raw, now);
    LinkTest(s, EmailVerification, raw, now);
    LateTest(s, PasswordReset, raw, now);
    LateTest(s, EmailVerification, raw, now);
    hide Reachable, TokensOk, EmailsUnique, FamiliesOk, SessionsHaveUsers, FindToken, OpenLink, PresentsExpired;
    hide PresentsActive, RevokeUser, InvalidateTokens, Rotate, AddSession, LateLink;
    OpensExactly(s, PasswordReset, raw, now);
    OpensExactly(s, EmailVerification, raw, now);
    hide LiveLink, Opens;
  }

  lemma OpensExactly(s: Auth, purpose: Purpose, raw: string, now: Time)
    ensures forall t: nat :: LiveLink(s, t, purpose, raw, now) ==>
              t < |s.tokens| && (Opens(s, t, purpose, raw, now) <==> ActiveUser(s.users, s.tokens[t].user))
    ensures forall t: nat :: Opens(s, t, purpose, raw, now) ==> LiveLink(s, t, purpose, raw, now)
  {}

  lemma MayOpen(s: Auth, raw: string, currentUser: Option<UserId>, token: Option<RefreshToken>, now: Time)
    ensures forall t: nat :: MayVerify(s, t, raw, currentUser, token, now) ==> Opens(s, t, EmailVerification, raw, now)
  {}

  lemma Bounds(s: Auth, t: nat, raw: string, currentUser: Option<UserId>, token: Option<RefreshToken>, now: Time)
    requires MayVerify(s, t, raw, currentUser, token, now)
    ensures t < |s.tokens| && s.tokens[t].user < |s.users| && Opens(s, t, EmailVerification, raw, now)
  {}

  lemma SignedInBy(c: Lifetimes, s: Auth, out: Outcome, t: nat, token: Option<RefreshToken>, secret: string, now: Time)
    requires t < |s.tokens| && s.tokens[t].user < |s.users| && VerifiedWith(c, s, out, t, token, secret, now)
    ensures out.reply.SignedIn?
  {}

  lemma OnlyOneLink(s: Auth, t: nat, purpose: Purpose, raw: string, now: Time)
    requires TokensOk(s.users, s.tokens) && Opens(s, t, purpose, raw, now)
    ensures forall v: nat :: Opens(s, v, purpose, raw, now) ==> v == t
  {
    FoundToken(s, t, purpose, raw);
    forall v: nat | Opens(s, v, purpose, raw, now) ensures v == t { FoundToken(s, v, purpose, raw); }
  }

  lemma LiveTest(s: Auth, token: Option<RefreshToken>, now: Time)
    ensures PresentsActive(s.sessions, token, now) <==> exists i: SessionId :: ShowsLive(s, token, i, now)
    ensures forall i: SessionId ::
            ShowsLive(s, token, i, now) ==> token.Some? && i == token.value.session && i < |s.sessions|
  {
    if PresentsActive(s.sessions, token, now) { assert ShowsLive(s, token, token.value.session, now); }
  }

  // ---------------------------------------------------------------- passwords and management

  predicate MayChange(s: Auth, user: UserId, current: string, password: string, token: Option<RefreshToken>,
                      i: SessionId, now: Time)
  {
    ActiveAccount(s, user) && ShowsLive(s, token, i, now) && s.sessions[i].user == user
    && s.users[user].password == current && current != password
  }

  ghost predicate ChangedWith(c: Lifetimes, s: Auth, out: Outcome, user: UserId, password: string, i: SessionId,
                              secret: string, now: Time)
    requires user < |s.users| && i < |s.sessions|
  {
    var n := |s.sessions|;
    out.reply == SignedIn(user, RefreshToken(n, secret))
    && out.auth.users == s.users[user := s.users[user].(password := password)]
    && KeptOnly(c, s.sessions, out.auth.sessions, user, i, "password_changed", secret, now)
    && |out.auth.tokens| == |s.tokens|
    && WithdrewLinks(s.tokens, out.auth.tokens, user, PasswordReset, None, now)
  }

  /** One session of a user is rotated and the other open ones are stopped. */
  ghost predicate KeptOnly(c: Lifetimes, p: seq<Session>, q: seq<Session>, user: UserId, i: SessionId, reason: string,
                           secret: string, now: Time)
    requires i < |p|
  {
    var n := |p|;
    |q| == n + 1 && q[n] == Fresh(n, user, p[i].family, secret, now + c.refresh) && q[i] == Rotated(p[i], n, now)
    && forall j :: 0 <= j < n && j != i ==>
         q[j] == if p[j].user == user && p[j].revokedAt == None then Stopped(p[j], reason, now) else p[j]
  }

  lemma RevokedThenRotated(c: Lifetimes, p: seq<Session>, user: UserId, i: SessionId, reason: string, secret: string,
                           now: Time)
    requires i < |p| && p[i].user == user
    ensures KeptOnly(c, p, Rotate(RevokeUser(p, user, Some(i), reason, now), i, user, secret, now, now + c.refresh),
                     user, i, reason, secret, now)
  {}

  lemma WithdrawnLinks(t: seq<AccountToken>, user: UserId, purpose: Purpose, but: Option<nat>, now: Time)
    ensures WithdrewLinks(t, InvalidateTokens(t, user, purpose, but, now), user, purpose, but, now)
  {}

  lemma ChangeEffect(c: Lifetimes, s: Auth, user: UserId, current: string, password: string,
                     token: Option<RefreshToken>, secret: string, now: Time, i: SessionId)
    requires MayChange(s, user, current, password, token, i, now)
    ensures ChangedWith(c, s, ChangePasswordTx(c, s, user, current, password, token, secret, now), user, password, i,
                        secret, now)
  {
    LiveTest(s, token, now);
    RevokedThenRotated(c, s.sessions, user, i, "password_changed", secret, now);
    WithdrawnLinks(s.tokens, user, PasswordReset, None, now);
    hide PresentsActive, KeptOnly, WithdrewLinks, Rotate, RevokeUser, InvalidateTokens;
  }

  /** A password change succeeds exactly from a live session of the active user, with the current password
      and a different new one. It stores exactly the new password, rotates the presented session, stops the
      others and withdraws the reset links. */
  lemma ChangeSucceedsExactly(c: Lifetimes, s: Auth, user: UserId, current: string, password: string,
                              token: Option<RefreshToken>, secret: string, now: Time)
    ensures var out := ChangePasswordTx(c, s, user, current, password, token, secret, now);
            (out.reply.SignedIn? <==> exists i: SessionId :: MayChange(s, user, current, password, token, i, now))
            && (!out.reply.SignedIn? ==> out.auth == s && out.reply.Raised?)
            && forall i: SessionId :: MayChange(s, user, current, password, token, i, now) ==>
                 user < |s.users| && i < |s.sessions| && ChangedWith(c, s, out, user, password, i, secret, now)
  {
    forall i: SessionId | MayChange(s, user, current, password, token, i, now)
      ensures user < |s.users| && i < |s.sessions|
      ensures ChangedWith(c, s, ChangePasswordTx(c, s, user, current, password, token, secret, now), user, password, i,
                          secret, now)
    {
      ChangeEffect(c, s, user, current, password, token, secret, now, i);
    }
    LiveTest(s, token, now);
    if PresentsOwn(s.sessions, user, token, now) && ActiveUser(s.users, user) {
      assert ShowsLive(s, token, token.value.session, now);
      assert MayChange(s, user, current, password, token, token.value.session, now)
        <==> s.users[user].password == current && current != password;
    }
    hide ShowsLive, PresentsActive, KeptOnly, WithdrewLinks, Rotate, RevokeUser, InvalidateTokens;
  }

  /** Why a password change is refused. */
  lemma ChangeIsRefusedFor(c: Lifetimes, s: Auth, user: UserId, current: string, password: string,
                           token: Option<RefreshToken>, secret: string, now: Time)
    requires ChangePasswordTx(c, s, user, current, password, token, secret, now).reply.Raised?
    ensures var error := ChangePasswordTx(c, s, user, current, password, token, secret, now).reply.error;
            var own := exists i: SessionId :: ShowsLive(s, token, i, now) && s.sessions[i].user == user;
            (error == Unauthorized <==> token.Some? && !ActiveAccount(s, user))
            && (error == InvalidSession <==> token.None? || (ActiveAccount(s, user) && !own))
            && (error == InvalidCurrentPassword <==> ActiveAccount(s, user) && own && s.users[user].password != current)
            && (error == PasswordUnchanged <==>
                  ActiveAccount(s, user) && own && s.users[user].password == current == password)
  {
    LiveTest(s, token, now);
    if PresentsActive(s.sessions, token, now) { assert ShowsLive(s, token, token.value.session, now); }
    hide ShowsLive, PresentsActive, Rotate, RevokeUser, InvalidateTokens;
  }

  /** One session is stopped exactly if it is the user's own and open. */
  lemma RevokeSessionStopsExactly(s: Auth, user: UserId, i: SessionId, now: Time)
    ensures var out := RevokeSessionTx(s, user, i, now); var own := i < |s.sessions| && s.sessions[i].user == user;
            out.auth.users == s.users && out.auth.tokens == s.tokens
            && out.reply == (if own then Done else Raised(SessionNotFound))
            && StoppedThese(s.sessions, out.auth.sessions, (j: SessionId) => own && j == i, "user_revoked", now)
  {}

  /** All sessions are stopped, or all but the presented live one, which is rotated. */
  lemma RevokeAllManagedAnswersExactly(c: Lifetimes, s: Auth, user: UserId, preserve: bool, token: Option<RefreshToken>,
                                       secret: string, now: Time)
    ensures var out := RevokeAllManagedTx(c, s, user, preserve, token, secret, now); var n := |s.sessions|;
            var own := exists i: SessionId :: ShowsLive(s, token, i, now) && s.sessions[i].user == user;
            out.auth.users == s.users && out.auth.tokens == s.tokens
            && (out.reply == Raised(InvalidSession) <==>
                  preserve && (token.None? || (ActiveAccount(s, user) && !own)))
            && (out.reply == Raised(Unauthorized) <==> !(preserve && token.None?) && !ActiveAccount(s, user))
            && (out.reply.Raised? ==> out.auth == s)
            && (out.reply == Done <==> !preserve && ActiveAccount(s, user))
            && (out.reply == Done ==>
                  StoppedThese(s.sessions, out.auth.sessions, (j: SessionId) => j < n && s.sessions[j].user == user,
                               "user_revoke_all", now))
            && (out.reply.SignedIn? <==> preserve && ActiveAccount(s, user) && own)
            && (out.reply.SignedIn? ==>
                  var i := token.value.session;
                  i < n && out.reply == SignedIn(user, RefreshToken(n, secret)) && |out.auth.sessions| == n + 1
                  && out.auth.sessions[n] == Fresh(n, user, s.sessions[i].family, secret, now + c.refresh)
                  && out.auth.sessions[i] == Rotated(s.sessions[i], n, now)
                  && forall j :: 0 <= j < n && j != i ==>
                       out.auth.sessions[j] == if s.sessions[j].user == user && s.sessions[j].revokedAt == None
                                               then Stopped(s.sessions[j], "user_revoke_all", now) else s.sessions[j])
  {
    LiveTest(s, token, now);
    if PresentsActive(s.sessions, token, now) { assert ShowsLive(s, token, token.value.session, now); }
    hide ShowsLive, PresentsActive;
  }

  /** The internal primitive stops every open session of the user, for the first 64 characters of the reason. */
  lemma RevokeAllStopsExactly(s: Auth, user: UserId, reason: string, now: Time)
    ensures var out := RevokeAllTx(s, user, reason, now);
            out.reply == Done && out.auth.users == s.users && out.auth.tokens == s.tokens
            && exists kept :: kept <= reason && |kept| == (if |reason| < 64 then |reason| else 64)
                              && StoppedThese(s.sessions, out.auth.sessions,
                                              (j: SessionId) => j < |s.sessions|
                                              && s.sessions[j].user == user, kept, now)
  {
    var kept := if |reason| <= 64 then reason else reason[..64];
    assert kept <= reason && StoppedThese(s.sessions, RevokeAllTx(s, user, reason, now).auth.sessions,
                                          (j: SessionId) => j < |s.sessions| && s.sessions[j].user == user, kept, now);
  }

  // ---------------------------------------------------------------- what a user row becomes

  /** The password a call gives to a user, judged before the call. */
  ghost function PasswordSet(s: Auth, call: Call, now: Time, u: UserId): Option<string> {
    match call
    case ResetPassword(raw, password) =>
      if exists t: nat :: Opens(s, t, PasswordReset, raw, now) && s.tokens[t].user == u then Some(password) else None
    case ChangePassword(user, current, password, token, _) =>
      if user == u && exists i: SessionId :: MayChange(s, user, current, password, token, i, now) then Some(password)
      else None
    case _ => None
  }

  /** Whether a call verifies the address of a user, judged before the call. */
  ghost predicate Verifies(s: Auth, call: Call, now: Time, u: UserId) {
    call.VerifyEmail?
    && exists t: nat :: MayVerify(s, t, call.raw, call.currentUser, call.token, now) && s.tokens[t].user == u
  }

  ghost function UserAfter(s: Auth, call: Call, now: Time, u: UserId): User
    requires u < |s.users|
  {
    var row := s.users[u]; var set_ := PasswordSet(s, call, now, u);
    row.(password := if set_.Some? then set_.value else row.password,
         active := if call.SetActive? && call.user == u then call.active else row.active,
         verifiedAt := if row.verifiedAt == None && Verifies(s, call, now, u) then Some(now) else row.verifiedAt)
  }

  lemma ResetUsers(c: Lifetimes, s: Auth, raw: string, password: string, now: Time, u: UserId)
    requires TokensOk(s.users, s.tokens) && u < |s.users|
    ensures var s' := ResetPasswordTx(s, raw, password, now).auth;
            |s'.users| == |s.users| && s'.users[u] == UserAfter(s, ResetPassword(raw, password), now, u)
  {
    if t: nat :| Opens(s, t, PasswordReset, raw, now) {
      ResetEffect(s, raw, password, now, t);
      OnlyOneLink(s, t, PasswordReset, raw, now);
      assert s.tokens[t].user < |s.users|;
    } else {
      ResetRefusal(s, raw, password, now);
    }
    hide TokensOk, ResetPasswordTx, Opens, WithdrewLinks, StoppedThese;
  }

  lemma VerifyUsers(c: Lifetimes, s: Auth, raw: string, currentUser: Option<UserId>, token: Option<RefreshToken>,
                    secret: string, now: Time, u: UserId)
    requires TokensOk(s.users, s.tokens) && u < |s.users|
    ensures var s' := VerifyEmailTx(c, s, raw, currentUser, token, secret, now).auth;
            |s'.users| == |s.users| && s'.users[u] == UserAfter(s, VerifyEmail(raw, currentUser, token, secret), now, u)
  {
    if t: nat :| MayVerify(s, t, raw, currentUser, token, now) {
      VerifyEffect(c, s, raw, currentUser, token, secret, now, t);
      OnlyOneLink(s, t, EmailVerification, raw, now);
      assert forall v: nat :: MayVerify(s, v, raw, currentUser, token, now) ==> v == t;
      hide MayVerify, VerifyEmailTx, WithdrewLinks, ShowsLive, TokensOk;
    } else {
      VerifyRefusal(c, s, raw, currentUser, token, secret, now);
      hide MayVerify, VerifyEmailTx, TokensOk;
    }
  }

  lemma ChangeUsers(c: Lifetimes, s: Auth, user: UserId, current: string, password: string,
                    token: Option<RefreshToken>, secret: string, now: Time, u: UserId)
    requires u < |s.users|
    ensures var s' := ChangePasswordTx(c, s, user, current, password, token, secret, now).auth;
            |s'.users| == |s.users|
            && s'.users[u] == UserAfter(s, ChangePassword(user, current, password, token, secret), now, u)
  {
    ChangeSucceedsExactly(c, s, user, current, password, token, secret, now);
    hide MayChange, ChangePasswordTx, KeptOnly, WithdrewLinks;
  }

  /** Whatever the call, a user row becomes what `UserAfter` says, and no user disappears. */
  lemma CallOnUser(c: Lifetimes, s: Auth, call: Call, now: Time, u: UserId)
    requires TokensOk(s.users, s.tokens) && u < |s.users|
    ensures var s' := Exec(c, s, call, now).auth; u < |s'.users| && s'.users[u] == UserAfter(s, call, now, u)
  {
    hide TokensOk, ResetPasswordTx, VerifyEmailTx, ChangePasswordTx, UserAfter;
    match call
    case ResetPassword(raw, password) => ResetUsers(c, s, raw, password, now, u);
    case VerifyEmail(raw, currentUser, token, secret) => VerifyUsers(c, s, raw, currentUser, token, secret, now, u);
    case ChangePassword(user, current, password, token, secret) =>
      ChangeUsers(c, s, user, current, password, token, secret, now, u);
    case _ => OtherUsers(c, s, call, now, u);
  }

  lemma OtherUsers(c: Lifetimes, s: Auth, call: Call, now: Time, u: UserId)
    requires u < |s.users| && !call.ResetPassword? && !call.VerifyEmail? && !call.ChangePassword?
    ensures var s' := Exec(c, s, call, now).auth; u < |s'.users| && s'.users[u] == UserAfter(s, call, now, u)
  {
    hide FindUser, AddToken, InvalidateTokens, RevokeUser, RevokeFamily, Rotate, AddSession;
  }

  // ---------------------------------------------------------------- whole runs

  /** The last password any call of the run gave to the user. */
  ghost function LastPassword(c: Lifetimes, s: Auth, calls: seq<(Call, Time)>, u: UserId, before: string): string
    decreases |calls|
  {
    if calls == [] then before
    else
      var given := PasswordSet(s, calls[0].0, calls[0].1, u);
      LastPassword(c, Exec(c, s, calls[0].0, calls[0].1).auth, calls[1..], u,
                   if given.Some? then given.value else before)
  }

  /** The last activation or deactivation of the user. */
  function LastActivation(calls: seq<(Call, Time)>, u: UserId, before: bool): bool
    decreases |calls|
  {
    if calls == [] then before
    else
      var call := calls[0].0;
      LastActivation(calls[1..], u, if call.SetActive? && call.user == u then call.active else before)
  }

  /** The first verification of the user. */
  ghost function FirstVerification(c: Lifetimes, s: Auth, calls: seq<(Call, Time)>, u: UserId, before: Option<Time>)
      : Option<Time>
    decreases |calls|
  {
    if calls == [] || before.Some? then before
    else
      FirstVerification(c, Exec(c, s, calls[0].0, calls[0].1).auth, calls[1..], u,
                        if Verifies(s, calls[0].0, calls[0].1, u) then Some(calls[0].1) else None)
  }

  /** Over any run a user keeps the address, has the last password given, is as active as last set, and
      carries the time of the first verification. */
  lemma {:induction false} UserRowsFollowTheCalls(c: Lifetimes, s: Auth, calls: seq<(Call, Time)>, u: UserId)
    requires TokensOk(s.users, s.tokens) && u < |s.users|
    ensures var later := RunAll(c, s, calls); var row := s.users[u];
            u < |later.users|
            && later.users[u] == User(row.email, LastPassword(c, s, calls, u, row.password),
                                      LastActivation(calls, u, row.active),
                                      FirstVerification(c, s, calls, u, row.verifiedAt))
    decreases |calls|
  {
    if calls != [] {
      CallOnUser(c, s, calls[0].0, calls[0].1, u);
      ExecTokens(c, s, calls[0].0, calls[0].1);
      hide Exec, TokensOk, PasswordSet, Verifies;
      UserRowsFollowTheCalls(c, Exec(c, s, calls[0].0, calls[0].1).auth, calls[1..], u);
      VerifiedStays(c, s, calls, u);
    }
  }

  lemma VerifiedStays(c: Lifetimes, s: Auth, calls: seq<(Call, Time)>, u: UserId)
    ensures forall v: Time :: FirstVerification(c, s, calls, u, Some(v)) == Some(v)
  {}

  lemma {:induction false} RunReachable(c: Lifetimes, s: Auth, calls: seq<(Call, Time)>)
    requires Reachable(c, s) && Careful(c, s, calls)
    ensures Reachable(c, RunAll(c, s, calls))
    decreases |calls|
  {
    if calls != [] {
      hide Reachable, Exec, Misuses;
      NextReachable(c, s, calls[0].0, calls[0].1);
      RunReachable(c, Exec(c, s, calls[0].0, calls[0].1).auth, calls[1..]);
    }
  }

  /** After any run a login under the address of a user succeeds exactly if the user is active and the
      password is the last one given. */
  lemma LoginsFollowThePassword(c: Lifetimes, s: Auth, calls: seq<(Call, Time)>, u: UserId, attempt: string,
                                secret: string, now: Time)
    requires Reachable(c, s) && Careful(c, s, calls) && u < |s.users|
    ensures var row := s.users[u];
            LoginTx(c, RunAll(c, s, calls), row.email, attempt, secret, now).reply.SignedIn? <==>
            LastActivation(calls, u, row.active) && attempt == LastPassword(c, s, calls, u, row.password)
  {
    Tables(c, s);
    RunReachable(c, s, calls);
    UserRowsFollowTheCalls(c, s, calls, u);
    var later := RunAll(c, s, calls);
    Tables(c, later);
    LoginSucceedsExactly(c, later, s.users[u].email, attempt, secret, now);
    hide Reachable, Careful, LoginTx, RunAll, LastPassword, LastActivation, FirstVerification, TokensOk, FamiliesOk;
    if v: UserId :| Knows(later, v, s.users[u].email, attempt) { FoundUser(later, v, s.users[u].email); }
    FoundUser(later, u, s.users[u].email);
    hide EmailsUnique;
    assert Knows(later, u, s.users[u].email, attempt) <==> later.users[u].active && later.users[u].password == attempt;
  }

  /** No call of the run gives the user a password. */
  ghost predicate PasswordUntouched(c: Lifetimes, s: Auth, calls: seq<(Call, Time)>, u: UserId)
    decreases |calls|
  {
    calls == [] || (PasswordSet(s, calls[0].0, calls[0].1, u).None?
                    && PasswordUntouched(c, Exec(c, s, calls[0].0, calls[0].1).auth, calls[1..], u))
  }

  lemma {:induction false} UntouchedPasswordsStay(c: Lifetimes, s: Auth, calls: seq<(Call, Time)>, u: UserId, p: string)
    requires PasswordUntouched(c, s, calls, u)
    ensures LastPassword(c, s, calls, u, p) == p
    decreases |calls|
  {
    if calls != [] {
      hide Exec, PasswordSet;
      UntouchedPasswordsStay(c, Exec(c, s, calls[0].0, calls[0].1).auth, calls[1..], u, p);
    }
  }

  /** Once a reset or a change has given a user a password, and until another does, only that password logs
      in, and the one before does not. */
  lemma OnlyTheNewPasswordLogsIn(c: Lifetimes, s: Auth, call: Call, t: Time, after: seq<(Call, Time)>, u: UserId,
                                 attempt: string, secret: string, now: Time)
    requires Reachable(c, s) && u < |s.users| && PasswordSet(s, call, t, u).Some?
    requires var s' := Exec(c, s, call, t).auth; Careful(c, s', after) && PasswordUntouched(c, s', after, u)
    ensures var later := RunAll(c, Exec(c, s, call, t).auth, after);
            LoginTx(c, later, s.users[u].email, attempt, secret, now).reply.SignedIn? ==>
              attempt == PasswordSet(s, call, t, u).value
    ensures var later := RunAll(c, Exec(c, s, call, t).auth, after);
            attempt == PasswordSet(s, call, t, u).value && LastActivation(after, u, s.users[u].active) ==>
              LoginTx(c, later, s.users[u].email, attempt, secret, now).reply.SignedIn?
  {
    Tables(c, s);
    CallOnUser(c, s, call, t, u);
    assert !Misuses(s, call);
    NextReachable(c, s, call, t);
    var s' := Exec(c, s, call, t).auth;
    UntouchedPasswordsStay(c, s', after, u, s'.users[u].password);
    assert call.ResetPassword? || call.ChangePassword?;
    hide Reachable, Careful, LoginTx, RunAll, LastPassword, LastActivation;
    hide Exec, PasswordSet, PasswordUntouched, Verifies;
    LoginsFollowThePassword(c, s', after, u, attempt, secret, now);
  }

  /** Signing up and logging in fit together: right away exactly the password chosen logs in. */
  lemma SignUpThenLogin(c: Lifetimes, s: Auth, email: string, password: string, raw: string, secret: string, t: Time,
                        attempt: string, secret2: string, now: Time)
    requires Reachable(c, s) && RegisterTx(c, s, email, password, raw, secret, t, false).reply.SignedIn?
    ensures var s' := RegisterTx(c, s, email, password, raw, secret, t, false).auth;
            LoginTx(c, s', email, attempt, secret2, now).reply.SignedIn? <==> attempt == password
  {
    RegisterSucceedsExactly(c, s, email, password, raw, secret, t, false);
    var call := Register(email, password, raw, secret, false);
    var s' := RegisterTx(c, s, email, password, raw, secret, t, false).auth;
    assert s'.users[|s.users|] == User(email, password, true, None) && |s'.users| == |s.users| + 1;
    assert !Misuses(s, call);
    NextReachable(c, s, call, t);
    assert Reachable(c, s') by { assert Exec(c, s, call, t).auth == s'; }
    hide Reachable, LoginTx, RegisterTx, NewRaw;
    assert RunAll(c, s', []) == s' && Careful(c, s', []);
    LoginsFollowThePassword(c, s', [], |s.users|, attempt, secret2, now);
    assert LastPassword(c, s', [], |s.users|, password) == password && LastActivation([], |s.users|, true);
  }

  lemma AskedReset(c: Lifetimes, s: Auth, u: UserId, email: string, raw: string, now: Time)
    requires Reachable(c, s) && ActiveAccount(s, u) && s.users[u].email == email && NewRaw(s, raw)
    ensures var asked := RequestResetTx(c, s, email, raw, now).auth; var n := |s.tokens|;
            Reachable(c, asked) && asked.users == s.users && |asked.tokens| == n + 1
            && asked.tokens[n] == AccountToken(u, PasswordReset, raw, now + c.reset, None, None)
  {
    var ask := RequestReset(email, raw);
    assert !Misuses(s, ask) && Exec(c, s, ask, now) == RequestResetTx(c, s, email, raw, now);
    assert u < |s.users|;
    hide *;
    NextReachable(c, s, ask, now);
    RequestResetAnswersExactly(c, s, email, raw, now);
  }

  lemma AskedLinkOpens(c: Lifetimes, s: Auth, u: UserId, email: string, raw: string, sent: Time, used: Time)
    requires Reachable(c, s) && ActiveAccount(s, u) && s.users[u].email == email && NewRaw(s, raw)
    requires used < sent + c.reset
    ensures var asked := RequestResetTx(c, s, email, raw, sent).auth;
            Reachable(c, asked) && asked.users == s.users && Opens(asked, |s.tokens|, PasswordReset, raw, used)
            && |s.tokens| < |asked.tokens| && asked.tokens[|s.tokens|].user == u
  {
    AskedReset(c, s, u, email, raw, sent);
    hide RequestResetTx, Reachable, NewRaw;
  }

  lemma ResetGives(s: Auth, t: nat, raw: string, password: string, now: Time)
    requires Opens(s, t, PasswordReset, raw, now)
    ensures PasswordSet(s, ResetPassword(raw, password), now, s.tokens[t].user) == Some(password)
  {
    hide Opens;
  }

  lemma NothingSince(c: Lifetimes, s: Auth, u: UserId, active: bool)
    ensures RunAll(c, s, []) == s && Careful(c, s, []) && PasswordUntouched(c, s, [], u)
    ensures LastActivation([], u, active) == active
  {}

  lemma LiveLinksReset(c: Lifetimes, s: Auth, t: nat, raw: string, password: string, now: Time, secret: string)
    requires Reachable(c, s) && Opens(s, t, PasswordReset, raw, now)
    ensures s.tokens[t].user < |s.users| && ResetPasswordTx(s, raw, password, now).reply == Done
    ensures LoginTx(c, ResetPasswordTx(s, raw, password, now).auth, s.users[s.tokens[t].user].email, password, secret,
                    now).reply.SignedIn?
  {
    var u := s.tokens[t].user;
    var reset := ResetPassword(raw, password);
    assert u < |s.users| && s.users[u].active;
    ResetGives(s, t, raw, password, now);
    assert PasswordSet(s, reset, now, u) == Some(password);
    hide Opens, Reachable;
    assert ResetPasswordTx(s, raw, password, now).reply == Done by { ResetSucceedsExactly(c, s, raw, password, now); }
    assert Exec(c, s, reset, now) == ResetPasswordTx(s, raw, password, now);
    hide *;
    NothingSince(c, ResetPasswordTx(s, raw, password, now).auth, u, true);
    OnlyTheNewPasswordLogsIn(c, s, reset, now, [], u, password, secret, now);
  }

  /** A reset link that was sent works until it ends, and then the new password logs in. */
  lemma SentResetLinksWork(c: Lifetimes, s: Auth, u: UserId, email: string, raw: string, sent: Time, password: string,
                           used: Time, secret: string)
    requires Reachable(c, s) && ActiveAccount(s, u) && s.users[u].email == email && NewRaw(s, raw)
    requires used < sent + c.reset
    ensures var out := ResetPasswordTx(RequestResetTx(c, s, email, raw, sent).auth, raw, password, used);
            out.reply == Done && LoginTx(c, out.auth, email, password, secret, used).reply.SignedIn?
  {
    assert u < |s.users|;
    hide *;
    AskedLinkOpens(c, s, u, email, raw, sent, used);
    LiveLinksReset(c, RequestResetTx(c, s, email, raw, sent).auth, |s.tokens|, raw, password, used, secret);
  }

  // ---------------------------------------------------------------- every sign-in

  /** Whichever call signs somebody in, the token handed out shows a live session of that active user, made
      for exactly this token, as long as refresh sessions last; and no token handed out before shows it. */
  lemma TokensHandedOutWork(c: Lifetimes, s: Auth, call: Call, now: Time)
    requires Reachable(c, s) && Exec(c, s, call, now).reply.SignedIn? && c.refresh > 0
    ensures var out := Exec(c, s, call, now); var i := out.reply.token.session;
            ShowsLive(out.auth, Some(out.reply.token), i, now) && out.auth.sessions[i].user == out.reply.user
            && out.auth.sessions[i].expiresAt == now + c.refresh && ActiveAccount(out.auth, out.reply.user)
            && i == |s.sessions| && |out.auth.sessions| == i + 1
  {
    hide Reachable, InvalidateTokens, RevokeUser, RevokeFamily, FindToken, FindUser;
  }
}
