/** Refresh-token families in every reachable state: each is one chain of rotations with at most one
    open session at its end, and a replayed token closes its family for good. */
module AuthFamilies {
  import opened Common
  import opened AuthSessions

  // ---------------------------------------------------------------- the invariant

  /** No later session of the same family. */
  ghost predicate IsTail(sessions: seq<Session>, i: SessionId)
    requires i < |sessions|
  {
    forall j :: i < j < |sessions| ==> sessions[j].family != sessions[i].family
  }

  /** Session j is the next of i's family. */
  ghost predicate IsNext(sessions: seq<Session>, i: SessionId, j: SessionId)
    requires i < |sessions|
  {
    i < j < |sessions| && sessions[j].family == sessions[i].family
    && forall k :: i < k < j ==> sessions[k].family != sessions[i].family
  }

  /** Ownership: a family belongs to the user of its first session, and a hash to its own row. */
  ghost predicate OwnsOk(sessions: seq<Session>, i: SessionId)
    requires i < |sessions|
  {
    var s := sessions[i];
    s.family <= i && sessions[s.family].family == s.family && sessions[s.family].user == s.user
    && s.hash.preimage.session == i
  }

  /** Links: exactly the rotated rows are replaced, and by the next row of their family; every row
      with a successor is rotated. */
  ghost predicate LinkOk(sessions: seq<Session>, i: SessionId)
    requires i < |sessions|
  {
    var s := sessions[i];
    (s.reason.Some? <==> s.revokedAt.Some?)
    && (s.replacedBy.Some? <==> s.reason == Some(ROTATED))
    && (s.replacedBy.Some? ==> IsNext(sessions, i, s.replacedBy.value))
    && (IsTail(sessions, i) || s.replacedBy.Some?)
  }

  ghost predicate FamiliesOk(sessions: seq<Session>) {
    (forall i :: 0 <= i < |sessions| ==> OwnsOk(sessions, i))
    && (forall i :: 0 <= i < |sessions| ==> LinkOk(sessions, i))
  }

  ghost predicate TokenOk(users: seq<User>, t: AccountToken) {
    t.user < |users| && (t.consumedAt.None? || t.invalidatedAt.None?)
  }

  ghost predicate TokensOk(users: seq<User>, tokens: seq<AccountToken>) {
    (forall i :: 0 <= i < |tokens| ==> TokenOk(users, tokens[i]))
    && (forall i, j :: 0 <= i < j < |tokens| ==> tokens[i].raw != tokens[j].raw)
    && (forall i, j :: 0 <= i < j < |tokens| && Usable(tokens[i]) && Usable(tokens[j]) ==>
          tokens[i].user != tokens[j].user || tokens[i].purpose != tokens[j].purpose)
  }

  ghost predicate SessionsHaveUsers(sessions: seq<Session>, users: nat) {
    forall i :: 0 <= i < |sessions| ==> sessions[i].user < users
  }

  ghost predicate EmailsUnique(users: seq<User>) {
    forall i, j :: 0 <= i < j < |users| ==> users[i].email != users[j].email
  }

  ghost predicate UsersOk(s: Auth) { SessionsHaveUsers(s.sessions, |s.users|) && EmailsUnique(s.users) }

  ghost predicate Inv(s: Auth) { FamiliesOk(s.sessions) && TokensOk(s.users, s.tokens) && UsersOk(s) }

  // ---------------------------------------------------------------- what never goes back

  /** A revoked row is never written again; an open one can only be revoked. */
  predicate RowKept(p: Session, q: Session) {
    if Open(p) then
      q == p.(revokedAt := q.revokedAt, reason := q.reason, replacedBy := q.replacedBy, lastUsedAt := q.lastUsedAt)
      && (Open(q) ==> q == p)
    else q == p
  }

  predicate TokenKept(p: AccountToken, q: AccountToken) {
    if Usable(p) then q == p.(consumedAt := q.consumedAt, invalidatedAt := q.invalidatedAt) else q == p
  }

  ghost predicate HasOpen(sessions: seq<Session>, family: FamilyId) {
    exists i :: 0 <= i < |sessions| && sessions[i].family == family && Open(sessions[i])
  }

  ghost predicate SessionsKept(p: seq<Session>, q: seq<Session>) {
    |p| <= |q| && (forall i :: 0 <= i < |p| ==> RowKept(p[i], q[i]))
    && (forall j :: |p| <= j < |q| ==> q[j].family >= |p| || HasOpen(p, q[j].family))
  }

  ghost predicate TokensKept(p: seq<AccountToken>, q: seq<AccountToken>) {
    |p| <= |q| && forall i :: 0 <= i < |p| ==> TokenKept(p[i], q[i])
  }

  ghost predicate Step(s: Auth, s': Auth) {
    SessionsKept(s.sessions, s'.sessions) && TokensKept(s.tokens, s'.tokens) && |s.users| <= |s'.users|
  }

  lemma SessionsKeptTrans(p: seq<Session>, q: seq<Session>, r: seq<Session>)
    requires SessionsKept(p, q) && SessionsKept(q, r)
    ensures SessionsKept(p, r)
  {
    forall i | 0 <= i < |p| ensures RowKept(p[i], r[i]) { assert RowKept(p[i], q[i]) && RowKept(q[i], r[i]); }
    forall j | |p| <= j < |r| ensures r[j].family >= |p| || HasOpen(p, r[j].family) {
      if j < |q| {
        assert RowKept(q[j], r[j]);
      } else if r[j].family < |p| {
        var i :| 0 <= i < |q| && q[i].family == r[j].family && Open(q[i]);
        if i < |p| { assert RowKept(p[i], q[i]); }
      }
    }
  }

  lemma StepTrans(p: Auth, q: Auth, r: Auth)
    requires Step(p, q) && Step(q, r)
    ensures Step(p, r)
  {
    SessionsKeptTrans(p.sessions, q.sessions, r.sessions);
    hide SessionsKept;
    forall i | 0 <= i < |p.tokens| ensures TokenKept(p.tokens[i], r.tokens[i]) {
      assert TokenKept(p.tokens[i], q.tokens[i]) && TokenKept(q.tokens[i], r.tokens[i]);
    }
  }

  // ---------------------------------------------------------------- single writes on sessions

  lemma AddSessionKeeps(s: seq<Session>, user: UserId, secret: string, expiresAt: Time)
    requires FamiliesOk(s)
    ensures FamiliesOk(AddSession(s, user, secret, expiresAt))
            && SessionsKept(s, AddSession(s, user, secret, expiresAt))
  {
    var s' := AddSession(s, user, secret, expiresAt);
    forall i | 0 <= i < |s'| ensures OwnsOk(s', i) && LinkOk(s', i) {
      if i < |s| { assert OwnsOk(s, i) && LinkOk(s, i); }
    }
  }

  /** Revoking any open rows for a reason other than "rotated". */
  ghost predicate RevokedSome(s: seq<Session>, s': seq<Session>) {
    |s'| == |s| && forall i :: 0 <= i < |s| ==>
      s'[i] == s[i] || (Open(s[i]) && exists reason, now :: reason != ROTATED && s'[i] == Revoked(s[i], reason, now))
  }

  lemma RevokingKeeps(s: seq<Session>, s': seq<Session>)
    requires FamiliesOk(s) && RevokedSome(s, s')
    ensures FamiliesOk(s') && SessionsKept(s, s')
  {
    assert forall i :: 0 <= i < |s| ==>
           s'[i].family == s[i].family && s'[i].user == s[i].user && s'[i].hash == s[i].hash;
    forall i | 0 <= i < |s'| ensures OwnsOk(s', i) && LinkOk(s', i) {
      assert OwnsOk(s, i) && LinkOk(s, i);
      assert IsTail(s, i) ==> IsTail(s', i);
      if s[i].replacedBy.Some? { assert IsNext(s, i, s[i].replacedBy.value) ==> IsNext(s', i, s[i].replacedBy.value); }
    }
  }

  lemma RotateKeeps(s: seq<Session>, i: SessionId, user: UserId, secret: string, now: Time, expiresAt: Time)
    requires FamiliesOk(s) && i < |s| && Open(s[i]) && s[i].user == user
    ensures var s' := Rotate(s, i, user, secret, now, expiresAt); FamiliesOk(s') && SessionsKept(s, s')
  {
    var s' := Rotate(s, i, user, secret, now, expiresAt);
    assert LinkOk(s, i) && OwnsOk(s, i);
    assert IsTail(s, i);
    assert forall k :: 0 <= k < |s| ==>
           s'[k].family == s[k].family && s'[k].user == s[k].user && s'[k].hash == s[k].hash;
    forall k | 0 <= k < |s'| ensures OwnsOk(s', k) {
      if k < |s| { assert OwnsOk(s, k); } else { assert OwnsOk(s, i); }
    }
    forall k | 0 <= k < |s'| ensures LinkOk(s', k) {
      if k < |s| && k != i {
        assert LinkOk(s, k);
        if s[k].replacedBy.Some? {
          assert IsNext(s, k, s[k].replacedBy.value) ==> IsNext(s', k, s[k].replacedBy.value);
        } else {
          assert IsTail(s, k);
          assert s[k].family != s[i].family;
          assert IsTail(s', k);
        }
      } else if k == i {
        assert IsNext(s', i, |s|);
      }
    }
  }

  // ---------------------------------------------------------------- single writes on tokens

  lemma InvalidatedAt(t: seq<AccountToken>, user: UserId, purpose: Purpose, kept: Option<nat>, now: Time, i: nat)
    requires i < |t|
    ensures var r := InvalidateTokens(t, user, purpose, kept, now)[i];
            r == t[i].(invalidatedAt := r.invalidatedAt) && (Usable(r) ==> r == t[i]) && TokenKept(t[i], r)
            && (r.invalidatedAt != t[i].invalidatedAt ==> Usable(t[i]))
            && (kept.None? && t[i].user == user && t[i].purpose == purpose ==> !Usable(r))
  {}

  lemma InvalidateKeeps(users: seq<User>, t: seq<AccountToken>, user: UserId, purpose: Purpose, kept: Option<nat>,
      now: Time)
    requires TokensOk(users, t)
    ensures var t' := InvalidateTokens(t, user, purpose, kept, now);
            TokensOk(users, t') && TokensKept(t, t') && (kept.None? ==> !HasUsable(t', user, purpose))
  {
    var t' := InvalidateTokens(t, user, purpose, kept, now);
    hide InvalidateTokens, TokenKept;
    forall i | 0 <= i < |t|
      ensures t'[i] == t[i].(invalidatedAt := t'[i].invalidatedAt) && (Usable(t'[i]) ==> t'[i] == t[i])
      ensures TokenKept(t[i], t'[i]) && (t'[i].invalidatedAt != t[i].invalidatedAt ==> Usable(t[i]))
      ensures kept.None? && t[i].user == user && t[i].purpose == purpose ==> !Usable(t'[i])
    {
      InvalidatedAt(t, user, purpose, kept, now, i);
    }
  }

  lemma AddTokenKeeps(users: seq<User>, t: seq<AccountToken>, user: UserId, purpose: Purpose, raw: string,
      expiresAt: Time)
    requires TokensOk(users, t) && user < |users| && AddToken(t, user, purpose, raw, expiresAt).Some?
    ensures var t' := AddToken(t, user, purpose, raw, expiresAt).value; TokensOk(users, t') && TokensKept(t, t')
  {}

  lemma ConsumeKeeps(users: seq<User>, t: seq<AccountToken>, i: nat, now: Time)
    requires TokensOk(users, t) && i < |t| && Usable(t[i])
    ensures var t' := t[i := t[i].(consumedAt := Some(now))]; TokensOk(users, t') && TokensKept(t, t')
  {}

  // ---------------------------------------------------------------- transactions

  lemma RotateStep(s: seq<Session>, i: SessionId, user: UserId, secret: string, now: Time, expiresAt: Time)
    requires i < |s| && Open(s[i])
    ensures SessionsKept(s, Rotate(s, i, user, secret, now, expiresAt))
  {}

  lemma SessionsKeptRefl(s: seq<Session>)
    ensures SessionsKept(s, s)
  {}

  /** Revocation by family or by user never writes a revoked row. */
  lemma BulkRevocations(s: seq<Session>, family: FamilyId, user: UserId, kept: Option<SessionId>, reason: string,
      now: Time)
    ensures SessionsKept(s, RevokeFamily(s, family, reason, now))
            && SessionsKept(s, RevokeUser(s, user, kept, reason, now))
    ensures !HasOpen(RevokeFamily(s, family, reason, now), family)
    ensures reason != ROTATED ==>
            RevokedSome(s, RevokeFamily(s, family, reason, now))
            && RevokedSome(s, RevokeUser(s, user, kept, reason, now))
  {
    var f := RevokeFamily(s, family, reason, now);
    var u := RevokeUser(s, user, kept, reason, now);
    assert forall i :: 0 <= i < |s| ==> f[i] == s[i] || (Open(s[i]) && f[i] == Revoked(s[i], reason, now));
    assert forall i :: 0 <= i < |s| ==> u[i] == s[i] || (Open(s[i]) && u[i] == Revoked(s[i], reason, now));
  }

  lemma RotateAmongStep(s: seq<Session>, i: SessionId, user: UserId, secret: string, now: Time, expiresAt: Time,
      reason: string)
    requires i < |s| && Open(s[i])
    ensures SessionsKept(s, Rotate(RevokeUser(s, user, Some(i), reason, now), i, user, secret, now, expiresAt))
  {
    var others := RevokeUser(s, user, Some(i), reason, now);
    BulkRevocations(s, 0, user, Some(i), reason, now);
    RotateStep(others, i, user, secret, now, expiresAt);
    SessionsKeptTrans(s, others, Rotate(others, i, user, secret, now, expiresAt));
  }

  lemma TokenWrites(s: Auth, user: UserId, purpose: Purpose, kept: Option<nat>, raw: string, now: Time, expiresAt: Time)
    ensures TokensKept(s.tokens, InvalidateTokens(s.tokens, user, purpose, kept, now))
    ensures AddToken(s.tokens, user, purpose, raw, expiresAt).Some? ==>
            TokensKept(s.tokens, AddToken(s.tokens, user, purpose, raw, expiresAt).value)
    ensures var tokens := InvalidateTokens(s.tokens, user, purpose, kept, now);
            AddToken(tokens, user, purpose, raw, expiresAt).Some? ==>
              TokensKept(s.tokens, AddToken(tokens, user, purpose, raw, expiresAt).value)
  {
    hide HasUsable, RawTaken;
  }

  lemma ConsumeStep(t: seq<AccountToken>, i: nat, user: UserId, purpose: Purpose, now: Time)
    requires i < |t| && Usable(t[i])
    ensures TokensKept(t, InvalidateTokens(t[i := t[i].(consumedAt := Some(now))], user, purpose, Some(i), now))
  {}

  /** No call, whatever the state, rewrites a revoked session or a spent token, and none adds a
      session to a family without an open member. */
  lemma ExecStep(c: Lifetimes, s: Auth, call: Call, now: Time)
    ensures Step(s, Exec(c, s, call, now).auth)
  {
    hide SessionsKept, TokensKept, InvalidateTokens, AddToken, RevokeFamily, RevokeUser;
    hide Rotate, FindToken, FindUser, AddSession;
    SessionsKeptRefl(s.sessions);
    assert TokensKept(s.tokens, s.tokens) by { TokensKeptRefl(s.tokens); }
    match call
    case Register(email, password, raw, secret, undelivered) =>
      AddSessionStep(s.sessions, |s.users|, secret, now + c.refresh);
      TokenWrites(s, |s.users|, EmailVerification, None, raw, now, now + c.verification);
    case Login(email, password, secret) =>
      if FindUser(s.users, email).Some? {
        AddSessionStep(s.sessions, FindUser(s.users, email).value, secret, now + c.refresh);
      }
    case Refresh(token, secret) => RefreshStep(c, s, token, secret, now);
    case Logout(token) =>
      if token.Some? && Presents(s.sessions, token.value) {
        RevokeOneStep(s.sessions, token.value.session, "logout", now);
      }
    case Resend(user, raw, undelivered) =>
      TokenWrites(s, user, EmailVerification, None, raw, now, now + c.verification);
    case VerifyEmail(raw, currentUser, token, secret) => VerifyStep(c, s, raw, currentUser, token, secret, now);
    case RequestReset(email, raw) =>
      if FindUser(s.users, email).Some? {
        TokenWrites(s, FindUser(s.users, email).value, PasswordReset, None, raw, now, now + c.reset);
      }
    case ResetPassword(raw, password) =>
      if OpenLink(s.tokens, PasswordReset, raw, now).1.None? {
        var t := FindToken(s.tokens, PasswordReset, raw).value;
        ConsumeStep(s.tokens, t, s.tokens[t].user, PasswordReset, now);
        BulkRevocations(s.sessions, 0, s.tokens[t].user, None, "password_reset", now);
      }
    case ChangePassword(user, current, password, token, secret) =>
      TokenWrites(s, user, PasswordReset, None, "", now, 0);
      if PresentsOwn(s.sessions, user, token, now) {
        RotateAmongStep(s.sessions, token.value.session, user, secret, now, now + c.refresh, "password_changed");
      }
    case RevokeSession(user, i) => if i < |s.sessions| { RevokeOneStep(s.sessions, i, "user_revoked", now); }
    case RevokeAllManaged(user, preserve, token, secret) =>
      BulkRevocations(s.sessions, 0, user, None, "user_revoke_all", now);
      if PresentsOwn(s.sessions, user, token, now) {
        RotateAmongStep(s.sessions, token.value.session, user, secret, now, now + c.refresh, "user_revoke_all");
      }
    case RevokeAll(user, reason) => BulkRevocations(s.sessions, 0, user, None, Clipped(reason), now);
    case SetActive(user, active) =>
  }

  lemma TokensKeptRefl(t: seq<AccountToken>)
    ensures TokensKept(t, t)
  {}

  lemma AddSessionStep(s: seq<Session>, user: UserId, secret: string, expiresAt: Time)
    ensures SessionsKept(s, AddSession(s, user, secret, expiresAt))
  {}

  lemma RevokeOneStep(s: seq<Session>, i: SessionId, reason: string, now: Time)
    requires i < |s|
    ensures Open(s[i]) ==> SessionsKept(s, s[i := Revoked(s[i], reason, now)])
  {}

  lemma RefreshStep(c: Lifetimes, s: Auth, token: Option<RefreshToken>, secret: string, now: Time)
    ensures SessionsKept(s.sessions, RefreshTx(c, s, token, secret, now).auth.sessions)
  {
    hide SessionsKept, RevokeFamily, RevokeUser, Rotate, HasOpen, RevokedSome, Revoked;
    SessionsKeptRefl(s.sessions);
    if token.Some? && Presents(s.sessions, token.value) {
      var i := token.value.session;
      var row := s.sessions[i];
      if !Open(row) {
        BulkRevocations(s.sessions, row.family, 0, None, "refresh_token_reuse", now);
      } else {
        BulkRevocations(s.sessions, row.family, 0, None, "account_unavailable", now);
        RevokeOneStep(s.sessions, i, "expired", now);
        RotateStep(s.sessions, i, row.user, secret, now, now + c.refresh);
      }
    }
  }

  lemma VerifyStep(c: Lifetimes, s: Auth, raw: string, currentUser: Option<UserId>, token: Option<RefreshToken>,
      secret: string, now: Time)
    ensures var s' := VerifyEmailTx(c, s, raw, currentUser, token, secret, now).auth;
            SessionsKept(s.sessions, s'.sessions) && TokensKept(s.tokens, s'.tokens) && |s'.users| == |s.users|
  {
    hide SessionsKept, TokensKept, InvalidateTokens, Rotate, AddSession, FindToken;
    SessionsKeptRefl(s.sessions);
    TokensKeptRefl(s.tokens);
    if OpenLink(s.tokens, EmailVerification, raw, now).1.None? {
      var t := FindToken(s.tokens, EmailVerification, raw).value;
      var user := s.tokens[t].user;
      ConsumeStep(s.tokens, t, user, EmailVerification, now);
      AddSessionStep(s.sessions, user, secret, now + c.refresh);
      if PresentsActive(s.sessions, token, now) {
        RotateStep(s.sessions, token.value.session, user, secret, now, now + c.refresh);
      }
    }
  }

  lemma {:induction false} RunStep(c: Lifetimes, s: Auth, calls: seq<(Call, Time)>)
    ensures Step(s, RunAll(c, s, calls))
    decreases |calls|
  {
    if calls == [] {
      SessionsKeptRefl(s.sessions);
    } else {
      hide Exec, Step;
      var next := Exec(c, s, calls[0].0, calls[0].1).auth;
      ExecStep(c, s, calls[0].0, calls[0].1);
      RunStep(c, next, calls[1..]);
      StepTrans(s, next, RunAll(c, s, calls));
    }
  }

  // ---------------------------------------------------------------- the invariant, call by call

  /** `revoke_all_sessions` called with the one reason that means something else, while it has
      sessions to revoke. */
  predicate Misuses(s: Auth, call: Call) {
    call.RevokeAll? && Clipped(call.reason) == ROTATED
    && exists i :: 0 <= i < |s.sessions| && s.sessions[i].user == call.user && Open(s.sessions[i])
  }

  lemma RotateAmongKeeps(s: seq<Session>, i: SessionId, user: UserId, secret: string, now: Time, expiresAt: Time,
      reason: string)
    requires FamiliesOk(s) && i < |s| && Open(s[i]) && s[i].user == user && reason != ROTATED
    ensures FamiliesOk(Rotate(RevokeUser(s, user, Some(i), reason, now), i, user, secret, now, expiresAt))
  {
    var others := RevokeUser(s, user, Some(i), reason, now);
    BulkRevocations(s, 0, user, Some(i), reason, now);
    RevokingKeeps(s, others);
    RotateKeeps(others, i, user, secret, now, expiresAt);
  }

  lemma RevokeOneKeeps(s: seq<Session>, i: SessionId, reason: string, now: Time)
    requires FamiliesOk(s) && i < |s| && Open(s[i]) && reason != ROTATED
    ensures FamiliesOk(s[i := Revoked(s[i], reason, now)])
  {
    RevokingKeeps(s, s[i := Revoked(s[i], reason, now)]);
  }

  /** The four ways in which a refresh changes the sessions. */
  lemma RefreshedSessions(c: Lifetimes, s: Auth, token: Option<RefreshToken>, secret: string, now: Time)
    ensures var after := RefreshTx(c, s, token, secret, now).auth.sessions;
            after == s.sessions
            || (token.Some? && Presents(s.sessions, token.value)
                && var i := token.value.session; var row := s.sessions[i];
                   after == RevokeFamily(s.sessions, row.family, "refresh_token_reuse", now)
                   || after == RevokeFamily(s.sessions, row.family, "account_unavailable", now)
                   || (Open(row) && after == s.sessions[i := Revoked(row, "expired", now)])
                   || (Open(row) && after == Rotate(s.sessions, i, row.user, secret, now, now + c.refresh)))
  {
    hide RevokeFamily, Rotate, Revoked;
  }

  lemma RevokedFamilyKeeps(sessions: seq<Session>, family: FamilyId, reason: string, now: Time)
    requires FamiliesOk(sessions) && reason != ROTATED
    ensures FamiliesOk(RevokeFamily(sessions, family, reason, now))
  {
    BulkRevocations(sessions, family, 0, None, reason, now);
    hide FamiliesOk, RevokeFamily;
    RevokingKeeps(sessions, RevokeFamily(sessions, family, reason, now));
  }

  lemma RefreshFamilies(c: Lifetimes, s: Auth, token: Option<RefreshToken>, secret: string, now: Time)
    requires FamiliesOk(s.sessions)
    ensures FamiliesOk(RefreshTx(c, s, token, secret, now).auth.sessions)
  {
    hide FamiliesOk, RevokeFamily, Rotate, RefreshTx;
    RefreshedSessions(c, s, token, secret, now);
    if token.Some? && Presents(s.sessions, token.value) {
      var i := token.value.session;
      var row := s.sessions[i];
      RevokedFamilyKeeps(s.sessions, row.family, "refresh_token_reuse", now);
      RevokedFamilyKeeps(s.sessions, row.family, "account_unavailable", now);
      if Open(row) {
        RevokeOneKeeps(s.sessions, i, "expired", now);
        RotateKeeps(s.sessions, i, row.user, secret, now, now + c.refresh);
      }
    }
  }

  lemma VerifyFamilies(c: Lifetimes, s: Auth, raw: string, currentUser: Option<UserId>, token: Option<RefreshToken>,
      secret: string, now: Time)
    requires FamiliesOk(s.sessions)
    ensures FamiliesOk(VerifyEmailTx(c, s, raw, currentUser, token, secret, now).auth.sessions)
  {
    hide FamiliesOk, InvalidateTokens, Rotate, AddSession, FindToken;
    if OpenLink(s.tokens, EmailVerification, raw, now).1.None? {
      var user := s.tokens[FindToken(s.tokens, EmailVerification, raw).value].user;
      AddSessionKeeps(s.sessions, user, secret, now + c.refresh);
      if PresentsActive(s.sessions, token, now) && s.sessions[token.value.session].user == user {
        RotateKeeps(s.sessions, token.value.session, user, secret, now, now + c.refresh);
      }
    }
  }

  lemma ExecFamilies(c: Lifetimes, s: Auth, call: Call, now: Time)
    requires FamiliesOk(s.sessions) && !Misuses(s, call)
    ensures FamiliesOk(Exec(c, s, call, now).auth.sessions)
  {
    hide FamiliesOk, InvalidateTokens, AddToken, RevokeUser, Rotate, FindToken, FindUser, AddSession;
    match call
    case Register(email, password, raw, secret, undelivered) =>
      AddSessionKeeps(s.sessions, |s.users|, secret, now + c.refresh);
    case Login(email, password, secret) =>
      if FindUser(s.users, email).Some? {
        AddSessionKeeps(s.sessions, FindUser(s.users, email).value, secret, now + c.refresh);
      }
    case Refresh(token, secret) => RefreshFamilies(c, s, token, secret, now);
    case Logout(token) =>
      if token.Some? && Presents(s.sessions, token.value) && Open(s.sessions[token.value.session]) {
        RevokeOneKeeps(s.sessions, token.value.session, "logout", now);
      }
    case VerifyEmail(raw, currentUser, token, secret) => VerifyFamilies(c, s, raw, currentUser, token, secret, now);
    case ResetPassword(raw, password) =>
      if OpenLink(s.tokens, PasswordReset, raw, now).1.None? {
        var user := s.tokens[FindToken(s.tokens, PasswordReset, raw).value].user;
        BulkRevocations(s.sessions, 0, user, None, "password_reset", now);
        RevokingKeeps(s.sessions, RevokeUser(s.sessions, user, None, "password_reset", now));
      }
    case ChangePassword(user, current, password, token, secret) =>
      if PresentsOwn(s.sessions, user, token, now) {
        RotateAmongKeeps(s.sessions, token.value.session, user, secret, now, now + c.refresh, "password_changed");
      }
    case RevokeSession(user, i) =>
      if i < |s.sessions| && Open(s.sessions[i]) { RevokeOneKeeps(s.sessions, i, "user_revoked", now); }
    case RevokeAllManaged(user, preserve, token, secret) =>
      BulkRevocations(s.sessions, 0, user, None, "user_revoke_all", now);
      RevokingKeeps(s.sessions, RevokeUser(s.sessions, user, None, "user_revoke_all", now));
      if PresentsOwn(s.sessions, user, token, now) {
        RotateAmongKeeps(s.sessions, token.value.session, user, secret, now, now + c.refresh, "user_revoke_all");
      }
    case RevokeAll(user, reason) => RevokeAllFamilies(s, user, reason, now);
    case _ =>
  }

  lemma RevokeAllFamilies(s: Auth, user: UserId, reason: string, now: Time)
    requires FamiliesOk(s.sessions) && !Misuses(s, RevokeAll(user, reason))
    ensures FamiliesOk(RevokeAllTx(s, user, reason, now).auth.sessions)
  {
    var after := RevokeUser(s.sessions, user, None, Clipped(reason), now);
    BulkRevocations(s.sessions, 0, user, None, Clipped(reason), now);
    if Clipped(reason) == ROTATED { assert after == s.sessions; } else { RevokingKeeps(s.sessions, after); }
  }

  lemma ExecTokens(c: Lifetimes, s: Auth, call: Call, now: Time)
    requires TokensOk(s.users, s.tokens)
    ensures TokensOk(Exec(c, s, call, now).auth.users, Exec(c, s, call, now).auth.tokens)
  {
    hide SessionsKept, TokensKept, InvalidateTokens, AddToken, RevokeFamily, RevokeUser;
    hide Rotate, FindToken, FindUser, AddSession, TokensOk;
    match call
    case Register(email, password, raw, secret, undelivered) =>
      var users := s.users + [User(email, password, true, None)];
      MoreUsers(s.users, users, s.tokens);
      if AddToken(s.tokens, |s.users|, EmailVerification, raw, now + c.verification).Some? {
        AddTokenKeeps(users, s.tokens, |s.users|, EmailVerification, raw, now + c.verification);
      }
    case Resend(user, raw, undelivered) =>
      ReplaceTokenKeeps(s, user, EmailVerification, raw, now, now + c.verification);
    case VerifyEmail(raw, currentUser, token, secret) => VerifyTokens(c, s, raw, currentUser, token, secret, now);
    case RequestReset(email, raw) =>
      if FindUser(s.users, email).Some? {
        ReplaceTokenKeeps(s, FindUser(s.users, email).value, PasswordReset, raw, now, now + c.reset);
      }
    case ResetPassword(raw, password) =>
      if OpenLink(s.tokens, PasswordReset, raw, now).1.None? {
        var t := FindToken(s.tokens, PasswordReset, raw).value;
        ConsumeAllKeeps(s.users, s.tokens, t, PasswordReset, now);
        if s.tokens[t].user < |s.users| {
          MoreUsers(s.users, s.users[s.tokens[t].user := s.users[s.tokens[t].user].(password := password)],
                    ResetPasswordTx(s, raw, password, now).auth.tokens);
        }
      }
    case ChangePassword(user, current, password, token, secret) =>
      InvalidateKeeps(s.users, s.tokens, user, PasswordReset, None, now);
      if user < |s.users| {
        MoreUsers(s.users, s.users[user := s.users[user].(password := password)],
          InvalidateTokens(s.tokens, user, PasswordReset, None, now));
      }
    case SetActive(user, active) =>
      if user < |s.users| { MoreUsers(s.users, s.users[user := s.users[user].(active := active)], s.tokens); }
    case _ =>
  }

  lemma MoreUsers(users: seq<User>, users': seq<User>, tokens: seq<AccountToken>)
    requires |users| <= |users'| && TokensOk(users, tokens)
    ensures TokensOk(users', tokens)
  {}

  lemma ConsumeAllKeeps(users: seq<User>, t: seq<AccountToken>, i: nat, purpose: Purpose, now: Time)
    requires TokensOk(users, t) && i < |t| && Usable(t[i])
    ensures TokensOk(users, InvalidateTokens(t[i := t[i].(consumedAt := Some(now))], t[i].user, purpose, Some(i), now))
  {
    hide TokensOk;
    ConsumeKeeps(users, t, i, now);
    InvalidateKeeps(users, t[i := t[i].(consumedAt := Some(now))], t[i].user, purpose, Some(i), now);
  }

  lemma ReplaceTokenKeeps(s: Auth, user: UserId, purpose: Purpose, raw: string, now: Time, expiresAt: Time)
    requires TokensOk(s.users, s.tokens)
    ensures var tokens := InvalidateTokens(s.tokens, user, purpose, None, now);
            user < |s.users| && AddToken(tokens, user, purpose, raw, expiresAt).Some? ==>
              TokensOk(s.users, AddToken(tokens, user, purpose, raw, expiresAt).value)
  {
    hide TokensOk, AddToken;
    var tokens := InvalidateTokens(s.tokens, user, purpose, None, now);
    InvalidateKeeps(s.users, s.tokens, user, purpose, None, now);
    if user < |s.users| && AddToken(tokens, user, purpose, raw, expiresAt).Some? {
      AddTokenKeeps(s.users, tokens, user, purpose, raw, expiresAt);
    }
  }

  lemma VerifyTokens(c: Lifetimes, s: Auth, raw: string, currentUser: Option<UserId>, token: Option<RefreshToken>,
      secret: string, now: Time)
    requires TokensOk(s.users, s.tokens)
    ensures var s' := VerifyEmailTx(c, s, raw, currentUser, token, secret, now).auth; TokensOk(s'.users, s'.tokens)
  {
    hide TokensOk, InvalidateTokens, Rotate, AddSession, FindToken;
    if OpenLink(s.tokens, EmailVerification, raw, now).1.None? {
      var t := FindToken(s.tokens, EmailVerification, raw).value;
      ConsumeAllKeeps(s.users, s.tokens, t, EmailVerification, now);
      var s' := VerifyEmailTx(c, s, raw, currentUser, token, secret, now).auth;
      MoreUsers(s.users, s'.users,
        InvalidateTokens(s.tokens[t := s.tokens[t].(consumedAt := Some(now))], s.tokens[t].user, EmailVerification,
          Some(t), now));
    }
  }

  lemma AddedSessionsHaveUsers(c: Lifetimes, s: Auth, call: Call, now: Time)
    requires SessionsHaveUsers(s.sessions, |s.users|)
    ensures var s' := Exec(c, s, call, now).auth;
            |s'.sessions| <= |s.sessions| + 1 && |s.users| <= |s'.users|
            && (|s'.sessions| > |s.sessions| ==> s'.sessions[|s.sessions|].user < |s'.users|)
  {
    hide InvalidateTokens, AddToken, FindToken, FindUser, HasUsable, RawTaken, Revoked;
    if call.VerifyEmail? { hide PresentsActive; }
  }

  lemma ExecSessionUsers(c: Lifetimes, s: Auth, call: Call, now: Time)
    requires SessionsHaveUsers(s.sessions, |s.users|)
    ensures SessionsHaveUsers(Exec(c, s, call, now).auth.sessions, |Exec(c, s, call, now).auth.users|)
  {
    hide Exec, TokensKept, HasOpen, Open;
    AddedSessionsHaveUsers(c, s, call, now);
    ExecStep(c, s, call, now);
    var s' := Exec(c, s, call, now).auth;
    forall i | 0 <= i < |s'.sessions| ensures s'.sessions[i].user < |s'.users| {
      if i < |s.sessions| { assert RowKept(s.sessions[i], s'.sessions[i]); }
    }
  }

  lemma ExecEmails(c: Lifetimes, s: Auth, call: Call, now: Time)
    requires EmailsUnique(s.users)
    ensures EmailsUnique(Exec(c, s, call, now).auth.users)
  {
    hide InvalidateTokens, AddToken, FindToken, RevokeFamily, RevokeUser, Rotate;
    hide AddSession, Presents, PresentsActive, PresentsOwn, OpenLink;
  }

  /** A call breaks the families exactly when it misuses the reason "rotated"; nothing else can. */
  lemma OnlyMisuseBreaksFamilies(c: Lifetimes, s: Auth, call: Call, now: Time)
    requires Inv(s)
    ensures Inv(Exec(c, s, call, now).auth) <==> !Misuses(s, call)
  {
    hide Exec, FamiliesOk, TokensOk, SessionsHaveUsers, EmailsUnique;
    ExecTokens(c, s, call, now);
    ExecSessionUsers(c, s, call, now);
    ExecEmails(c, s, call, now);
    if Misuses(s, call) {
      MisuseBreaksALink(s, call.user, call.reason, now);
      assert Exec(c, s, call, now) == RevokeAllTx(s, call.user, call.reason, now) by { ExecRevokeAll(c, s, call, now); }
    } else {
      ExecFamilies(c, s, call, now);
    }
  }

  lemma ExecRevokeAll(c: Lifetimes, s: Auth, call: Call, now: Time)
    requires call.RevokeAll?
    ensures Exec(c, s, call, now) == RevokeAllTx(s, call.user, call.reason, now)
  {}

  lemma MisuseBreaksALink(s: Auth, user: UserId, reason: string, now: Time)
    requires FamiliesOk(s.sessions) && Misuses(s, RevokeAll(user, reason))
    ensures !FamiliesOk(RevokeAllTx(s, user, reason, now).auth.sessions)
  {
    var after := RevokeAllTx(s, user, reason, now).auth.sessions;
    var i :| 0 <= i < |s.sessions| && s.sessions[i].user == user && Open(s.sessions[i]);
    assert LinkOk(s.sessions, i);
    assert after[i] == Revoked(s.sessions[i], ROTATED, now);
    assert !LinkOk(after, i);
  }
}
