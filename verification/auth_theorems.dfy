/** What the authentication service guarantees over every run of its calls. */
module AuthTheorems {
  import opened Common
  import opened AuthSessions
  import opened AuthFamilies

  /** A run in which nobody passes "rotated" to `revoke_all_sessions` while it has work to do. */
  ghost predicate Careful(c: Lifetimes, s: Auth, calls: seq<(Call, Time)>)
    decreases |calls|
  {
    calls == [] || (!Misuses(s, calls[0].0) && Careful(c, Exec(c, s, calls[0].0, calls[0].1).auth, calls[1..]))
  }

  lemma {:induction false} CarefulRunsKeepFamilies(c: Lifetimes, s: Auth, calls: seq<(Call, Time)>)
    requires Inv(s) && Careful(c, s, calls)
    ensures Inv(RunAll(c, s, calls))
    decreases |calls|
  {
    if calls != [] {
      OnlyMisuseBreaksFamilies(c, s, calls[0].0, calls[0].1);
      hide Inv, Exec, Misuses;
      CarefulRunsKeepFamilies(c, Exec(c, s, calls[0].0, calls[0].1).auth, calls[1..]);
    }
  }

  ghost predicate Reachable(c: Lifetimes, s: Auth) {
    exists calls :: Careful(c, EMPTY, calls) && s == RunAll(c, EMPTY, calls)
  }

  lemma ReachableInv(c: Lifetimes, s: Auth)
    requires Reachable(c, s)
    ensures Inv(s)
  {
    var calls :| Careful(c, EMPTY, calls) && s == RunAll(c, EMPTY, calls);
    CarefulRunsKeepFamilies(c, EMPTY, calls);
  }

  lemma {:induction false} OneMoreCall(c: Lifetimes, s: Auth, calls: seq<(Call, Time)>, call: Call, now: Time)
    requires Careful(c, s, calls) && !Misuses(RunAll(c, s, calls), call)
    ensures Careful(c, s, calls + [(call, now)])
    ensures RunAll(c, s, calls + [(call, now)]) == Exec(c, RunAll(c, s, calls), call, now).auth
    decreases |calls|
  {
    hide Exec, Misuses;
    var longer := calls + [(call, now)];
    if calls == [] {
      assert longer[1..] == [];
    } else {
      assert longer[0] == calls[0] && longer[1..] == calls[1..] + [(call, now)];
      OneMoreCall(c, Exec(c, s, calls[0].0, calls[0].1).auth, calls[1..], call, now);
    }
  }

  lemma NextReachable(c: Lifetimes, s: Auth, call: Call, now: Time)
    requires Reachable(c, s) && !Misuses(s, call)
    ensures Reachable(c, Exec(c, s, call, now).auth)
  {
    var calls :| Careful(c, EMPTY, calls) && s == RunAll(c, EMPTY, calls);
    OneMoreCall(c, EMPTY, calls, call, now);
    hide Exec, Misuses, RunAll, Careful;
  }

  // ---------------------------------------------------------------- families are chains

  /** The sessions of a family, oldest first. */
  function Members(sessions: seq<Session>, family: FamilyId): (ids: seq<SessionId>)
    ensures forall k :: 0 <= k < |ids| ==> ids[k] < |sessions| && sessions[ids[k]].family == family
    ensures forall k, l :: 0 <= k < l < |ids| ==> ids[k] < ids[l]
    ensures forall i :: 0 <= i < |sessions| && sessions[i].family == family ==> i in ids
  {
    if sessions == [] then []
    else
      var init := sessions[..|sessions| - 1];
      var ids := Members(init, family);
      assert forall i :: 0 <= i < |init| ==> init[i] == sessions[i];
      if sessions[|sessions| - 1].family == family then ids + [|sessions| - 1] else ids
  }

  /** Each member but the last was rotated into the next one, for the same user. */
  ghost predicate Chained(sessions: seq<Session>, ids: seq<SessionId>, k: nat)
    requires k + 1 < |ids| && ids[k] < |sessions| && ids[k + 1] < |sessions|
  {
    var s := sessions[ids[k]];
    s.reason == Some(ROTATED) && s.replacedBy == Some(ids[k + 1]) && s.revokedAt.Some?
    && sessions[ids[k + 1]].user == s.user
  }

  lemma NextMember(sessions: seq<Session>, family: FamilyId, k: nat)
    requires FamiliesOk(sessions) && k + 1 < |Members(sessions, family)|
    ensures Chained(sessions, Members(sessions, family), k)
  {
    var ids := Members(sessions, family);
    var i := ids[k]; var next := ids[k + 1];
    assert OwnsOk(sessions, i) && OwnsOk(sessions, next) && LinkOk(sessions, i);
    assert !IsTail(sessions, i);
    var j := sessions[i].replacedBy.value;
    assert IsNext(sessions, i, j);
    hide Members;
    assert j in ids;
    assert j >= next;
    assert j == next;
  }

  /** Every refresh-token family is one chain: its members are linked one to the next by rotation,
      all belong to one user, and at most the last is neither rotated nor revoked. */
  lemma FamilyIsOneChain(c: Lifetimes, s: Auth, family: FamilyId)
    requires Reachable(c, s)
    ensures var ids := Members(s.sessions, family);
            (forall k :: 0 <= k < |ids| - 1 ==> Chained(s.sessions, ids, k))
            && (ids != [] ==>
                  s.sessions[ids[|ids| - 1]].replacedBy.None? && s.sessions[ids[|ids| - 1]].reason != Some(ROTATED))
            && (forall i :: 0 <= i < |s.sessions| && s.sessions[i].family == family && Open(s.sessions[i]) ==>
                  i == ids[|ids| - 1])
  {
    ReachableInv(c, s);
    FamilyChain(s.sessions, family);
    hide Inv, Reachable, Members, Chained;
  }

  lemma FamilyChain(sessions: seq<Session>, family: FamilyId)
    requires FamiliesOk(sessions)
    ensures var ids := Members(sessions, family);
            (forall k :: 0 <= k < |ids| - 1 ==> Chained(sessions, ids, k))
            && (ids != [] ==>
                  sessions[ids[|ids| - 1]].replacedBy.None? && sessions[ids[|ids| - 1]].reason != Some(ROTATED))
            && (forall i :: 0 <= i < |sessions| && sessions[i].family == family && Open(sessions[i]) ==>
                  i == ids[|ids| - 1])
  {
    var ids := Members(sessions, family);
    hide Members;
    forall k | 0 <= k < |ids| - 1 ensures Chained(sessions, ids, k) {
      NextMember(sessions, family, k);
    }
    if ids != [] {
      var last := ids[|ids| - 1];
      assert LinkOk(sessions, last);
      hide FamiliesOk;
      assert forall j :: j in ids ==> j <= last;
      assert forall j :: !IsNext(sessions, last, j);
    }
    hide FamiliesOk;
    forall k | 0 <= k < |ids| - 1 ensures !Open(sessions[ids[k]]) {
      assert Chained(sessions, ids, k);
    }
    forall i | 0 <= i < |sessions| && sessions[i].family == family && Open(sessions[i])
      ensures ids != [] && i == ids[|ids| - 1]
    {
      assert i in ids;
    }
  }

  /** A revoked session is never written again, in any run at all. */
  lemma RevokedSessionsNeverChange(c: Lifetimes, s: Auth, calls: seq<(Call, Time)>, i: SessionId)
    requires i < |s.sessions| && !Open(s.sessions[i])
    ensures i < |RunAll(c, s, calls).sessions| && RunAll(c, s, calls).sessions[i] == s.sessions[i]
  {
    RunStep(c, s, calls);
    assert RowKept(s.sessions[i], RunAll(c, s, calls).sessions[i]);
  }

  lemma SessionsOfStep(s: Auth, s': Auth)
    requires Step(s, s')
    ensures SessionsKept(s.sessions, s'.sessions)
  {}

  /** A family without an open session gets none in any later state of any run. */
  lemma ClosedFamiliesStayClosed(c: Lifetimes, s: Auth, calls: seq<(Call, Time)>, family: FamilyId)
    requires family < |s.sessions| && !HasOpen(s.sessions, family)
    ensures !HasOpen(RunAll(c, s, calls).sessions, family)
  {
    RunStep(c, s, calls);
    var later := RunAll(c, s, calls).sessions;
    hide Step;
    assert SessionsKept(s.sessions, later) by { SessionsOfStep(s, RunAll(c, s, calls)); }
    forall i | 0 <= i < |later| && later[i].family == family ensures !Open(later[i]) {
      assert i < |s.sessions| ==> RowKept(s.sessions[i], later[i]);
    }
  }

  // ---------------------------------------------------------------- rotation and reuse

  /** Presenting a rotated token fails and leaves its family without an open session. */
  lemma ReuseClosesTheFamily(c: Lifetimes, s: Auth, token: RefreshToken, secret: string, now: Time)
    requires Presents(s.sessions, token) && s.sessions[token.session].reason == Some(ROTATED)
    requires s.sessions[token.session].revokedAt.Some?
    ensures var out := RefreshTx(c, s, Some(token), secret, now);
            out.reply == Raised(InvalidSession) && !HasOpen(out.auth.sessions, s.sessions[token.session].family)
            && out.auth.users == s.users && out.auth.tokens == s.tokens
  {
    BulkRevocations(s.sessions, s.sessions[token.session].family, 0, None, "refresh_token_reuse", now);
  }

  /** Corollary of one call: a successful refresh retires the presented session in favour of the one it
      returns. That this happens at most once, and what a replay does, is `ReplayedTokensKillTheirFamily`. */
  lemma RefreshRotates(c: Lifetimes, s: Auth, token: RefreshToken, secret: string, now: Time)
    requires Reachable(c, s) && RefreshTx(c, s, Some(token), secret, now).reply.SignedIn?
    ensures var out := RefreshTx(c, s, Some(token), secret, now);
            Presents(s.sessions, token) && Open(s.sessions[token.session]) && s.sessions[token.session].expiresAt > now
            && Presents(out.auth.sessions, out.reply.token) && Open(out.auth.sessions[out.reply.token.session])
            && out.auth.sessions[out.reply.token.session].user == s.sessions[token.session].user
            && out.auth.sessions[out.reply.token.session].family == s.sessions[token.session].family
            && out.auth.sessions[token.session].reason == Some(ROTATED)
            && out.auth.sessions[token.session].replacedBy == Some(out.reply.token.session)
            && (forall i :: 0 <= i < |s.sessions| && i != token.session ==> out.auth.sessions[i] == s.sessions[i])
  {}

  /** A refresh token works at most once: after it has been rotated, every later presentation fails,
      and from then on its family has no open session in any state of any run. */
  lemma ReplayedTokensKillTheirFamily(c: Lifetimes, s: Auth, token: RefreshToken, secret: string, t1: Time,
                                      between: seq<(Call, Time)>, secret2: string, t2: Time, after: seq<(Call, Time)>)
    requires Reachable(c, s) && RefreshTx(c, s, Some(token), secret, t1).reply.SignedIn?
    ensures var rotated := RefreshTx(c, s, Some(token), secret, t1).auth;
            var later := RunAll(c, rotated, between);
            var replayed := RefreshTx(c, later, Some(token), secret2, t2);
            replayed.reply == Raised(InvalidSession)
            && !HasOpen(RunAll(c, replayed.auth, after).sessions, s.sessions[token.session].family)
  {
    RefreshRotates(c, s, token, secret, t1);
    var rotated := RefreshTx(c, s, Some(token), secret, t1).auth;
    assert Presents(rotated.sessions, token)
           && rotated.sessions[token.session].family == s.sessions[token.session].family
           && rotated.sessions[token.session].revokedAt.Some? by { hide Reachable; }
    hide RefreshTx, Reachable, RunAll, HasOpen;
    RevokedSessionsNeverChange(c, rotated, between, token.session);
    var later := RunAll(c, rotated, between);
    ReuseClosesTheFamily(c, later, token, secret2, t2);
    var replayed := RefreshTx(c, later, Some(token), secret2, t2).auth;
    ReachableInv(c, s);
    FamilyExists(c, s, later, token, secret2, t2);
    ClosedFamiliesStayClosed(c, replayed, after, s.sessions[token.session].family);
  }

  lemma FamilyExists(c: Lifetimes, s: Auth, later: Auth, token: RefreshToken, secret: string, now: Time)
    requires Inv(s) && token.session < |s.sessions| && token.session < |later.sessions|
    ensures s.sessions[token.session].family < |RefreshTx(c, later, Some(token), secret, now).auth.sessions|
  {
    assert OwnsOk(s.sessions, token.session);
    RefreshStep(c, later, Some(token), secret, now);
  }

  predicate RotatesSession(c: Lifetimes, s: Auth, call: Call, now: Time, i: SessionId) {
    i < |s.sessions| && s.sessions[i].replacedBy.None?
    && i < |Exec(c, s, call, now).auth.sessions| && Exec(c, s, call, now).auth.sessions[i].replacedBy.Some?
  }

  /** How many calls of a run rotate one session, by whichever entry point. */
  function Rotations(c: Lifetimes, s: Auth, calls: seq<(Call, Time)>, i: SessionId): nat
    decreases |calls|
  {
    if calls == [] then 0
    else (if RotatesSession(c, s, calls[0].0, calls[0].1, i) then 1 else 0)
         + Rotations(c, Exec(c, s, calls[0].0, calls[0].1).auth, calls[1..], i)
  }

  /** A session is rotated at most once, whether by refresh, email verification, a password change
      or a preserved revoke-all. */
  lemma {:induction false} RotatedAtMostOnce(c: Lifetimes, s: Auth, calls: seq<(Call, Time)>, i: SessionId)
    ensures Rotations(c, s, calls, i) <= if i < |s.sessions| && s.sessions[i].replacedBy.Some? && !Open(s.sessions[i])
            then 0 else 1
    decreases |calls|
  {
    if calls != [] {
      var next := Exec(c, s, calls[0].0, calls[0].1).auth;
      ExecStep(c, s, calls[0].0, calls[0].1);
      hide Exec, TokensKept;
      if i < |s.sessions| { assert RowKept(s.sessions[i], next.sessions[i]); }
      hide SessionsKept;
      RotatedAtMostOnce(c, next, calls[1..], i);
    }
  }

  // ---------------------------------------------------------------- what the bulk revocations leave

  ghost predicate NoneOpen(sessions: seq<Session>, user: UserId) {
    forall i :: 0 <= i < |sessions| && sessions[i].user == user ==> !Open(sessions[i])
  }

  ghost predicate OnlyOpen(sessions: seq<Session>, user: UserId, i: SessionId) {
    i < |sessions| && sessions[i].user == user && Open(sessions[i])
    && forall j :: 0 <= j < |sessions| && sessions[j].user == user && Open(sessions[j]) ==> j == i
  }

  /** Corollary of one call: after a password reset the user has no open session. */
  lemma ResetClosesEverySession(s: Auth, raw: string, password: string, now: Time)
    requires ResetPasswordTx(s, raw, password, now).reply == Done
    ensures var t := FindToken(s.tokens, PasswordReset, raw);
            t.Some? && NoneOpen(ResetPasswordTx(s, raw, password, now).auth.sessions, s.tokens[t.value].user)
  {
    hide InvalidateTokens, FindToken;
  }

  lemma RotatedAlone(s: seq<Session>, i: SessionId, user: UserId, reason: string, secret: string, now: Time,
      expiresAt: Time)
    requires i < |s|
    ensures OnlyOpen(Rotate(RevokeUser(s, user, Some(i), reason, now), i, user, secret, now, expiresAt), user, |s|)
  {
    var others := RevokeUser(s, user, Some(i), reason, now);
    var after := Rotate(others, i, user, secret, now, expiresAt);
    forall j | 0 <= j < |s| && after[j].user == user ensures !Open(after[j]) {
      assert j != i ==> after[j] == others[j];
    }
  }

  /** After a password change exactly the session just handed out is open. */
  lemma PasswordChangeLeavesOneSession(c: Lifetimes, s: Auth, user: UserId, current: string, password: string,
                                       token: Option<RefreshToken>, secret: string, now: Time)
    ensures var out := ChangePasswordTx(c, s, user, current, password, token, secret, now);
            out.reply.SignedIn? ==> OnlyOpen(out.auth.sessions, user, out.reply.token.session)
  {
    hide InvalidateTokens, Rotate, RevokeUser, OnlyOpen;
    if PresentsOwn(s.sessions, user, token, now) {
      RotatedAlone(s.sessions, token.value.session, user, "password_changed", secret, now, now + c.refresh);
    }
  }

  /** A revoke-all leaves exactly the session it hands out, or none if it keeps none. */
  lemma RevokeAllLeavesAtMostOneSession(c: Lifetimes, s: Auth, user: UserId, token: Option<RefreshToken>,
      secret: string, preserve: bool, now: Time)
    ensures var out := RevokeAllManagedTx(c, s, user, preserve, token, secret, now);
            (out.reply.SignedIn? ==> preserve && OnlyOpen(out.auth.sessions, user, out.reply.token.session))
            && (out.reply == Done ==> !preserve && NoneOpen(out.auth.sessions, user))
  {
    assert NoneOpen(RevokeUser(s.sessions, user, None, "user_revoke_all", now), user);
    hide InvalidateTokens, Rotate, RevokeUser, OnlyOpen, NoneOpen;
    if PresentsOwn(s.sessions, user, token, now) {
      RotatedAlone(s.sessions, token.value.session, user, "user_revoke_all", secret, now, now + c.refresh);
    }
  }

  // ---------------------------------------------------------------- account links

  /** The index that allows one usable link per user and purpose never fires: only a repeated random
      token can make a request for a link fail. */
  lemma UsableLinkIndexNeverFires(c: Lifetimes, s: Auth, user: UserId, email: string, raw: string, now: Time,
      undelivered: bool)
    requires Reachable(c, s) && !RawTaken(s.tokens, raw)
    ensures ResendTx(c, s, user, raw, now, undelivered).reply != Raised(IntegrityViolation)
    ensures RequestResetTx(c, s, email, raw, now).reply == Done
    ensures FindUser(s.users, email).None? ==>
              forall password, secret ::
                RegisterTx(c, s, email, password, raw, secret, now, undelivered).reply != Raised(RegistrationFailed)
  {
    ReachableInv(c, s);
    InvalidateKeeps(s.users, s.tokens, user, EmailVerification, None, now);
    if FindUser(s.users, email).Some? {
      InvalidateKeeps(s.users, s.tokens, FindUser(s.users, email).value, PasswordReset, None, now);
    }
    NoUsableForNewUser(s, EmailVerification);
    hide Inv, TokensOk, HasUsable;
    assert forall u, p :: !RawTaken(InvalidateTokens(s.tokens, u, p, None, now), raw);
  }

  lemma NoUsableForNewUser(s: Auth, purpose: Purpose)
    requires TokensOk(s.users, s.tokens)
    ensures !HasUsable(s.tokens, |s.users|, purpose)
  {
    forall i | 0 <= i < |s.tokens| ensures s.tokens[i].user != |s.users| { assert TokenOk(s.users, s.tokens[i]); }
  }

  lemma FoundIsUnique(s: Auth, purpose: Purpose, raw: string, i: nat)
    requires TokensOk(s.users, s.tokens) && i < |s.tokens| && s.tokens[i].raw == raw && s.tokens[i].purpose == purpose
    ensures FindToken(s.tokens, purpose, raw) == Some(i)
  {}

  /** The calls that use a link. */
  predicate UsesLink(call: Call, purpose: Purpose, raw: string) {
    ((call.VerifyEmail? && purpose == EmailVerification) || (call.ResetPassword? && purpose == PasswordReset))
    && call.raw == raw
  }

  /** A link works once: after it signed someone in or reset a password, it is refused for ever and
      changes nothing. */
  lemma LinksWorkOnce(c: Lifetimes, s: Auth, purpose: Purpose, raw: string, first: Call, t1: Time,
      between: seq<(Call, Time)>, t2: Time)
    requires Reachable(c, s) && UsesLink(first, purpose, raw)
    ensures var out := Exec(c, s, first, t1);
            !out.reply.Raised? && Careful(c, out.auth, between) ==>
              OpenLink(s.tokens, purpose, raw, t1).1.None?
              && OpenLink(RunAll(c, out.auth, between).tokens, purpose, raw, t2).1 == Some(InvalidOrUsedToken)
  {
    ReachableInv(c, s);
    OnlyMisuseBreaksFamilies(c, s, first, t1);
    if !Exec(c, s, first, t1).reply.Raised? && Careful(c, Exec(c, s, first, t1).auth, between) {
      var used := Exec(c, s, first, t1).auth;
      SpentAfterUse(c, s, purpose, raw, first, t1);
      var t := FindToken(s.tokens, purpose, raw).value;
      hide Exec, Inv, OpenLink, FindToken, Reachable;
      RunStep(c, used, between);
      CarefulRunsKeepFamilies(c, used, between);
      var later := RunAll(c, used, between);
      hide RunAll, Careful, SessionsKept;
      assert TokenKept(used.tokens[t], later.tokens[t]);
      TokensOf(later);
      FoundIsUnique(later, purpose, raw, t);
      RefusedWhenSpent(later, purpose, raw, t2);
    }
  }

  lemma TokensOf(s: Auth)
    requires Inv(s)
    ensures TokensOk(s.users, s.tokens)
  {}

  lemma RefusedWhenSpent(s: Auth, purpose: Purpose, raw: string, now: Time)
    requires FindToken(s.tokens, purpose, raw).Some? && !Usable(s.tokens[FindToken(s.tokens, purpose, raw).value])
    ensures OpenLink(s.tokens, purpose, raw, now).1 == Some(InvalidOrUsedToken)
  {}

  lemma SpentAfterUse(c: Lifetimes, s: Auth, purpose: Purpose, raw: string, first: Call, now: Time)
    requires UsesLink(first, purpose, raw)
    ensures var out := Exec(c, s, first, now);
            !out.reply.Raised? ==>
              OpenLink(s.tokens, purpose, raw, now).1.None?
              && var t := FindToken(s.tokens, purpose, raw).value;
                 t < |out.auth.tokens| && out.auth.tokens[t].consumedAt == Some(now) && out.auth.tokens[t].raw == raw
                 && out.auth.tokens[t].purpose == purpose
  {
    hide FindToken, Rotate, AddSession, RevokeUser, PresentsActive;
  }

  /** An expired, still usable link. */
  predicate PresentsExpired(s: Auth, purpose: Purpose, raw: string, t: nat, now: Time) {
    FindToken(s.tokens, purpose, raw) == Some(t) && t < |s.tokens| && Usable(s.tokens[t])
    && s.tokens[t].expiresAt <= now
  }

  /** Presenting an expired link marks it invalid in the transaction's working state, and the raise
      that reports it takes the mark back: what is committed is the state before. */
  lemma ExpiryMarkIsRolledBack(c: Lifetimes, s: Auth, raw: string, currentUser: Option<UserId>,
      token: Option<RefreshToken>, secret: string, password: string, t: nat, now: Time)
    ensures PresentsExpired(s, EmailVerification, raw, t, now) ==>
              (var work := VerifyEmailWork(c, s, raw, currentUser, token, secret, now);
               work == Outcome(s.(tokens := s.tokens[t := s.tokens[t].(invalidatedAt := Some(now))]),
                 Raised(TokenExpired))
               && work.auth != s
               && VerifyEmailTx(c, s, raw, currentUser, token, secret, now) == Outcome(s, Raised(TokenExpired)))
    ensures PresentsExpired(s, PasswordReset, raw, t, now) ==>
              (var work := ResetPasswordWork(s, raw, password, now);
               work == Outcome(s.(tokens := s.tokens[t := s.tokens[t].(invalidatedAt := Some(now))]),
                 Raised(TokenExpired))
               && work.auth != s
               && ResetPasswordTx(s, raw, password, now) == Outcome(s, Raised(TokenExpired)))
  {
    hide FindToken;
    if t < |s.tokens| {
      assert s.tokens[t].invalidatedAt.None? ==>
             s.tokens[t := s.tokens[t].(invalidatedAt := Some(now))][t] != s.tokens[t];
    }
  }

  /** The calls that mark a usable link invalid, judged before the call: a new verification link for an
      active, unverified owner; a new reset link for an active owner; an accepted password change. */
  predicate Replaces(s: Auth, call: Call, now: Time, link: AccountToken) {
    match call
    case Resend(user, raw, _) =>
      link.purpose == EmailVerification && link.user == user && ActiveUser(s.users, user)
      && s.users[user].verifiedAt.None? && !RawTaken(s.tokens, raw)
    case RequestReset(email, raw) =>
      link.purpose == PasswordReset && FindUser(s.users, email) == Some(link.user) && s.users[link.user].active
      && !RawTaken(s.tokens, raw)
    case ChangePassword(user, current, password, token, _) =>
      link.purpose == PasswordReset && link.user == user && token.Some? && ActiveUser(s.users, user)
      && PresentsOwn(s.sessions, user, token, now) && s.users[user].password == current && current != password
    case _ => false
  }

  /** When a link is first replaced in a run, if ever. */
  function ReplacedAt(c: Lifetimes, s: Auth, calls: seq<(Call, Time)>, t: nat): Option<Time>
    decreases |calls|
  {
    if calls == [] || t >= |s.tokens| then None
    else if Replaces(s, calls[0].0, calls[0].1, s.tokens[t]) then Some(calls[0].1)
    else ReplacedAt(c, Exec(c, s, calls[0].0, calls[0].1).auth, calls[1..], t)
  }

  lemma InvalidatesAt(tokens: seq<AccountToken>, user: UserId, purpose: Purpose, kept: Option<nat>, now: Time, t: nat)
    requires t < |tokens|
    ensures InvalidateTokens(tokens, user, purpose, kept, now)[t]
         == if tokens[t].user == user && tokens[t].purpose == purpose && Usable(tokens[t]) && Some(t) != kept
            then tokens[t].(invalidatedAt := Some(now)) else tokens[t]
  {}

  /** A new link comes about exactly when its random token is new: the others have just been cleared. */
  lemma ReplacementIsAdded(s: Auth, user: UserId, purpose: Purpose, raw: string, now: Time, expiresAt: Time)
    requires TokensOk(s.users, s.tokens)
    ensures var cleared := InvalidateTokens(s.tokens, user, purpose, None, now);
            AddToken(cleared, user, purpose, raw, expiresAt).Some? <==> !RawTaken(s.tokens, raw)
  {
    InvalidateKeeps(s.users, s.tokens, user, purpose, None, now);
    var cleared := InvalidateTokens(s.tokens, user, purpose, None, now);
    assert forall i :: 0 <= i < |s.tokens| ==> cleared[i].raw == s.tokens[i].raw;
    hide HasUsable, TokensOk;
  }

  /** Using one link leaves another usable link of the same user and purpose alone, because there is none. */
  lemma UseSparesOthers(s: Auth, purpose: Purpose, raw: string, now: Time, t: nat)
    requires TokensOk(s.users, s.tokens) && t < |s.tokens| && Usable(s.tokens[t])
    requires OpenLink(s.tokens, purpose, raw, now).1.None? && FindToken(s.tokens, purpose, raw) != Some(t)
    ensures var u := FindToken(s.tokens, purpose, raw).value;
            InvalidateTokens(s.tokens[u := s.tokens[u].(consumedAt := Some(now))], s.tokens[u].user, purpose, Some(u),
              now)[t]
            == s.tokens[t]
  {
    var u := FindToken(s.tokens, purpose, raw).value;
    assert Usable(s.tokens[u]) && s.tokens[u].purpose == purpose;
    assert s.tokens[t].user != s.tokens[u].user || s.tokens[t].purpose != purpose;
    InvalidatesAt(s.tokens[u := s.tokens[u].(consumedAt := Some(now))], s.tokens[u].user, purpose, Some(u), now, t);
  }

  lemma ExpiredIsNotOpened(s: Auth, purpose: Purpose, raw: string, now: Time, t: nat)
    requires t < |s.tokens| && s.tokens[t].expiresAt <= now && OpenLink(s.tokens, purpose, raw, now).1.None?
    ensures FindToken(s.tokens, purpose, raw) != Some(t)
  {}

  lemma VerifyTokensAt(c: Lifetimes, s: Auth, raw: string, currentUser: Option<UserId>, token: Option<RefreshToken>,
                       secret: string, now: Time, t: nat)
    requires TokensOk(s.users, s.tokens) && t < |s.tokens| && Usable(s.tokens[t]) && s.tokens[t].expiresAt <= now
    ensures var after := VerifyEmailTx(c, s, raw, currentUser, token, secret, now).auth.tokens;
            t < |after| && after[t] == s.tokens[t]
  {
    hide TokensOk, Rotate, AddSession, InvalidateTokens, PresentsActive, FindToken, OpenLink;
    if OpenLink(s.tokens, EmailVerification, raw, now).1.None? {
      ExpiredIsNotOpened(s, EmailVerification, raw, now, t);
      UseSparesOthers(s, EmailVerification, raw, now, t);
    }
  }

  lemma ResetTokensAt(s: Auth, raw: string, password: string, now: Time, t: nat)
    requires TokensOk(s.users, s.tokens) && t < |s.tokens| && Usable(s.tokens[t]) && s.tokens[t].expiresAt <= now
    ensures var after := ResetPasswordTx(s, raw, password, now).auth.tokens;
            t < |after| && after[t] == s.tokens[t]
  {
    hide TokensOk, InvalidateTokens, RevokeUser, FindToken, OpenLink;
    if OpenLink(s.tokens, PasswordReset, raw, now).1.None? {
      ExpiredIsNotOpened(s, PasswordReset, raw, now, t);
      UseSparesOthers(s, PasswordReset, raw, now, t);
    }
  }

  /** One call changes an expired usable link exactly if it replaces it, and then marks it with its time. */
  lemma CallOnExpiredLink(c: Lifetimes, s: Auth, call: Call, now: Time, t: nat)
    requires TokensOk(s.users, s.tokens) && t < |s.tokens| && Usable(s.tokens[t]) && s.tokens[t].expiresAt <= now
    ensures var after := Exec(c, s, call, now).auth.tokens;
            t < |after|
            && after[t] == if Replaces(s, call, now, s.tokens[t]) then s.tokens[t].(invalidatedAt := Some(now))
              else s.tokens[t]
  {
    hide TokensOk, InvalidateTokens, AddSession, Rotate, RevokeUser;
    hide RevokeFamily, FindUser, VerifyEmailTx, ResetPasswordTx;
    hide RefreshTx, HasUsable, RawTaken, PresentsOwn;
    match call
    case Resend(user, raw, undelivered) =>
      InvalidatesAt(s.tokens, user, EmailVerification, None, now, t);
      ReplacementIsAdded(s, user, EmailVerification, raw, now, now + c.verification);
    case RequestReset(email, raw) =>
      if FindUser(s.users, email).Some? {
        InvalidatesAt(s.tokens, FindUser(s.users, email).value, PasswordReset, None, now, t);
        ReplacementIsAdded(s, FindUser(s.users, email).value, PasswordReset, raw, now, now + c.reset);
      }
    case ChangePassword(user, current, password, token, secret) =>
      InvalidatesAt(s.tokens, user, PasswordReset, None, now, t);
    case VerifyEmail(raw, currentUser, token, secret) => VerifyTokensAt(c, s, raw, currentUser, token, secret, now, t);
    case ResetPassword(raw, password) => ResetTokensAt(s, raw, password, now, t);
    case Refresh(token, secret) => RefreshLeavesTokens(c, s, token, secret, now);
    case _ =>
  }

  lemma RefreshLeavesTokens(c: Lifetimes, s: Auth, token: Option<RefreshToken>, secret: string, now: Time)
    ensures RefreshTx(c, s, token, secret, now).auth.tokens == s.tokens
  {}

  lemma {:induction false} FateOfAnExpiredLink(c: Lifetimes, s: Auth, calls: seq<(Call, Time)>, t: nat)
    requires TokensOk(s.users, s.tokens) && t < |s.tokens| && Usable(s.tokens[t])
    requires forall i :: 0 <= i < |calls| ==> s.tokens[t].expiresAt <= calls[i].1
    ensures var later := RunAll(c, s, calls).tokens;
            t < |later| && later[t] == s.tokens[t].(invalidatedAt := ReplacedAt(c, s, calls, t))
    decreases |calls|
  {
    if calls != [] {
      var next := Exec(c, s, calls[0].0, calls[0].1).auth;
      CallOnExpiredLink(c, s, calls[0].0, calls[0].1, t);
      ExecTokens(c, s, calls[0].0, calls[0].1);
      hide Exec, Replaces, TokensOk, TokenKept;
      assert forall i :: 0 <= i < |calls[1..]| ==> calls[1..][i] == calls[i + 1];
      if Replaces(s, calls[0].0, calls[0].1, s.tokens[t]) {
        RunStep(c, next, calls[1..]);
        SpentStays(next, RunAll(c, next, calls[1..]), t);
      } else {
        FateOfAnExpiredLink(c, next, calls[1..], t);
      }
    }
  }

  lemma SpentStays(s: Auth, s': Auth, t: nat)
    requires Step(s, s') && t < |s.tokens| && !Usable(s.tokens[t])
    ensures t < |s'.tokens| && s'.tokens[t] == s.tokens[t]
  {
    hide SessionsKept;
    assert TokenKept(s.tokens[t], s'.tokens[t]);
  }

  /** Over a whole run an expired link is marked invalid exactly if some call replaces it, and then at
      the time of the first one; presenting it, however often, and using other links never does. */
  lemma ExpiredLinksAreNotInvalidated(c: Lifetimes, s: Auth, calls: seq<(Call, Time)>, t: nat)
    requires Reachable(c, s) && t < |s.tokens| && Usable(s.tokens[t])
    requires forall i :: 0 <= i < |calls| ==> s.tokens[t].expiresAt <= calls[i].1
    ensures var later := RunAll(c, s, calls).tokens;
            t < |later| && later[t] == s.tokens[t].(invalidatedAt := ReplacedAt(c, s, calls, t))
  {
    ReachableInv(c, s);
    TokensOf(s);
    hide Inv, Reachable;
    FateOfAnExpiredLink(c, s, calls, t);
  }

  /** Asked to revoke everything for the reason "rotated", the primitive leaves a last session that
      counts as rotated but was replaced by nothing; a replay of its token then looks like theft. */
  lemma RotatedAsAReasonIsMistaken(c: Lifetimes, s: Auth, user: UserId, i: SessionId, secret: string, now: Time)
    requires Reachable(c, s) && i < |s.sessions| && s.sessions[i].user == user && Open(s.sessions[i])
    ensures var after := RevokeAllTx(s, user, ROTATED, now).auth;
            !Inv(after) && i < |after.sessions| && after.sessions[i].reason == Some(ROTATED)
            && after.sessions[i].replacedBy.None?
  {
    ReachableInv(c, s);
    assert Misuses(s, RevokeAll(user, ROTATED));
    MisuseBreaksALink(s, user, ROTATED, now);
    assert LinkOk(s.sessions, i);
  }

  // ---------------------------------------------------------------- reachable inputs

  const SIGN_UP := Register("e", "p", "raw", "s", false)
  const ASK_RESET := RequestReset("e", "reset")

  /** One user, signed up at time 0, with an open session and an unused verification link. */
  function SignedUp(c: Lifetimes): Auth {
    Auth([User("e", "p", true, None)], [NewSession(0, 0, 0, "s", c.refresh)],
         [AccountToken(0, EmailVerification, "raw", c.verification, None, None)])
  }

  lemma SignUpReachesSignedUp(c: Lifetimes)
    ensures Exec(c, EMPTY, SIGN_UP, 0).auth == SignedUp(c) && Reachable(c, SignedUp(c))
  {
    assert Careful(c, EMPTY, []) && EMPTY == RunAll(c, EMPTY, []);
    NextReachable(c, EMPTY, SIGN_UP, 0);
    assert !RawTaken([], "raw") && !HasUsable([], 0, EmailVerification);
    hide Reachable;
  }

  /** The same user after asking for a reset link. */
  function ResetAsked(c: Lifetimes): Auth {
    SignedUp(c).(tokens := SignedUp(c).tokens + [AccountToken(0, PasswordReset, "reset", c.reset, None, None)])
  }

  lemma AskingAddsALink(c: Lifetimes)
    ensures Exec(c, SignedUp(c), ASK_RESET, 0).auth == ResetAsked(c) && !Misuses(SignedUp(c), ASK_RESET)
  {
    var tokens := SignedUp(c).tokens;
    assert FindUser(SignedUp(c).users, "e") == Some(0);
    assert InvalidateTokens(tokens, 0, PasswordReset, None, 0) == tokens;
    assert "raw" != "reset" && !RawTaken(tokens, "reset") && !HasUsable(tokens, 0, PasswordReset);
  }

  lemma AskingReachesResetAsked(c: Lifetimes)
    ensures Exec(c, SignedUp(c), ASK_RESET, 0).auth == ResetAsked(c) && Reachable(c, ResetAsked(c))
  {
    hide *;
    SignUpReachesSignedUp(c);
    AskingAddsALink(c);
    NextReachable(c, SignedUp(c), ASK_RESET, 0);
  }

  lemma BothLinksExpire(c: Lifetimes)
    ensures PresentsExpired(ResetAsked(c), EmailVerification, "raw", 0, c.verification)
    ensures PresentsExpired(ResetAsked(c), PasswordReset, "reset", 1, c.reset)
  {
    assert "raw" != "reset";
    assert ResetAsked(c).tokens[..1] == SignedUp(c).tokens;
  }

  /** A reachable state in which both kinds of links are presented too late: each mark is written and
      rolled back. */
  lemma MarksAreRolledBack(c: Lifetimes, password: string)
    ensures var s := ResetAsked(c);
            Reachable(c, s) && PresentsExpired(s, EmailVerification, "raw", 0, c.verification)
            && PresentsExpired(s, PasswordReset, "reset", 1, c.reset)
            && VerifyEmailWork(c, s, "raw", None, None, "", c.verification).auth != s
            && VerifyEmailTx(c, s, "raw", None, None, "", c.verification) == Outcome(s, Raised(TokenExpired))
            && ResetPasswordWork(s, "reset", password, c.reset).auth != s
            && ResetPasswordTx(s, "reset", password, c.reset) == Outcome(s, Raised(TokenExpired))
  {
    hide *;
    AskingReachesResetAsked(c);
    BothLinksExpire(c);
    ExpiryMarkIsRolledBack(c, ResetAsked(c), "raw", None, None, "", password, 0, c.verification);
    ExpiryMarkIsRolledBack(c, ResetAsked(c), "reset", None, None, "", password, 1, c.reset);
  }

  /** From that kind of state, presenting the link leaves it usable; a new link then marks it. */
  lemma PresentedLinksStayUsable(c: Lifetimes)
    ensures var s := SignedUp(c); var present := (VerifyEmail("raw", None, None, ""), c.verification);
            var replace := (Resend(0, "new", false), c.verification);
            Reachable(c, s) && |RunAll(c, s, [present]).tokens| > 0 && |RunAll(c, s, [present, replace]).tokens| > 0
            && Usable(RunAll(c, s, [present]).tokens[0])
            && RunAll(c, s, [present, replace]).tokens[0].invalidatedAt == Some(c.verification)
  {
    var s := SignedUp(c);
    var present := (VerifyEmail("raw", None, None, ""), c.verification);
    var replace := (Resend(0, "new", false), c.verification);
    assert s == Exec(c, s, present.0, present.1).auth;
    assert "raw" != "new" && Replaces(s, replace.0, replace.1, s.tokens[0]);
    assert [present][1..] == [] && [present, replace][1..] == [replace];
    assert ReplacedAt(c, s, [present], 0) == None;
    assert ReplacedAt(c, s, [replace], 0) == Some(c.verification);
    hide Exec, Replaces;
    assert ReplacedAt(c, s, [present, replace], 0) == ReplacedAt(c, s, [replace], 0);
    SignUpReachesSignedUp(c);
    hide RunAll, ReplacedAt, Reachable;
    ExpiredLinksAreNotInvalidated(c, s, [present], 0);
    ExpiredLinksAreNotInvalidated(c, s, [present, replace], 0);
  }

  /** A reachable state in which the misused reason breaks a family. */
  lemma RotatedReasonsDoMislead(c: Lifetimes, secret: string, now: Time)
    ensures Reachable(c, SignedUp(c)) && Misuses(SignedUp(c), RevokeAll(0, ROTATED))
    ensures !Inv(RevokeAllTx(SignedUp(c), 0, ROTATED, now).auth)
  {
    SignUpReachesSignedUp(c);
    assert Open(SignedUp(c).sessions[0]) && SignedUp(c).sessions[0].user == 0;
    assert Misuses(SignedUp(c), RevokeAll(0, ROTATED));
    hide *;
    assert |SignedUp(c).sessions| == 1 by { OneSession(c); }
    RotatedAsAReasonIsMistaken(c, SignedUp(c), 0, 0, secret, now);
  }

  lemma OneSession(c: Lifetimes)
    ensures |SignedUp(c).sessions| == 1
  {}
}
