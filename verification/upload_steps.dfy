/** Each remaining transaction, and each step between transactions, keeps the upload invariant. */
module UploadSteps {
  import opened Common
  import opened UploadParts
  import opened UploadRows
  import opened UploadProtocol
  import opened UploadInvariant

  lemma RowFact(cfg: Config, s: State, id: SessionId)
    requires Inv(cfg, s) && id in s.world.rows
    ensures RowOk(cfg, s.now, id, s.world.rows[id])
    ensures s.world.rows[id].abortedAt.Some? ==> !HeldOpen(s.world.uploads, s.world.rows[id].Ref())
  {}

  lemma CallFact(cfg: Config, s: State, call: nat)
    requires Inv(cfg, s) && call in s.calls
    ensures CallFits(cfg, s.world.rows, s.calls[call])
  {}

  /** A completion call in flight means its row is `completing`. */
  lemma CompletionCallsComplete(cfg: Config, rows: Rows, calls: map<nat, Call>)
    requires CallsInv(cfg, rows, calls)
    ensures forall c :: c in calls && CompletionCall(calls[c])
              ==> calls[c].sid in rows && rows[calls[c].sid].status == Completing
  {
    forall c | c in calls && CompletionCall(calls[c])
      ensures calls[c].sid in rows && rows[calls[c].sid].status == Completing
    {
      assert CallFits(cfg, rows, calls[c]);
    }
  }

  /** One row moves along an edge; calls only leave, and none of a completion that just ended stays. */
  lemma RowStepKeeps(cfg: Config, s: State, id: SessionId, r': UploadSession, uploads': Uploads, calls': map<nat, Call>)
    requires Inv(cfg, s) && id in s.world.rows
    requires RowStep(s.world.rows[id], r') && RowOk(cfg, s.now, id, r')
    requires UploadsMove(s.world.uploads, uploads') && (r'.abortedAt.Some? ==> !HeldOpen(uploads', r'.Ref()))
    requires calls'.Keys <= s.calls.Keys && forall c :: c in calls' ==> calls'[c] == s.calls[c]
    requires r'.status != Completing ==> forall c :: c in calls' && CompletionCall(calls'[c]) ==> calls'[c].sid != id
    ensures TxGoal(cfg, s, s.(world := s.world.(rows := s.world.rows[id := r'], uploads := uploads'), calls := calls'))
  {
    hide RowsInv, QuotaInv, RegistryInv, RowStep, RowOk, UploadsMove, CallFits, CallsInv, HeldOpen, CompletionCall;
    var w := s.world;
    CompletionCallsComplete(cfg, w.rows, s.calls);
    CallsAreUnique(cfg, w.rows, s.calls);
    RowRewritten(cfg, s.now, w, id, r', uploads');
    CallsKept(cfg, w.rows, w.rows[id := r'], s.calls, calls');
  }

  /** A row that is not completing has no completion call. */
  lemma NoCompletionCall(cfg: Config, s: State, id: SessionId)
    requires Inv(cfg, s) && id in s.world.rows && s.world.rows[id].status != Completing
    ensures forall c :: c in s.calls && CompletionCall(s.calls[c]) ==> s.calls[c].sid != id
  {
    CompletionCallsComplete(cfg, s.world.rows, s.calls);
  }

  lemma RowsStay(rows: Rows)
    ensures forall id :: id in rows ==> RowStep(rows[id], rows[id])
  {}

  lemma CompletionCallFits(cfg: Config, rows: Rows, c: Call)
    requires CallFits(cfg, rows, c) && CompletionCall(c)
    ensures c.sid in rows && rows[c.sid].status == Completing
  {}

  lemma CallsAreUnique(cfg: Config, rows: Rows, calls: map<nat, Call>)
    requires CallsInv(cfg, rows, calls)
    ensures forall c, d ::
      (c in calls && d in calls && CompletionCall(calls[c]) && CompletionCall(calls[d]) && calls[c].sid == calls[d].sid)
      ==> c == d
  {}

  /** The calls stay consistent when one of them starts or advances with its row. */
  lemma CallAdded(cfg: Config, s: State, id: SessionId, r': UploadSession, call: nat, next: Call)
    requires Inv(cfg, s) && id in s.world.rows && s.world.rows[id].status != Completing
    requires forall i :: i in s.world.rows ==> RowStep(s.world.rows[i], s.world.rows[id := r'][i])
    requires next.sid == id && CallFits(cfg, s.world.rows[id := r'], next)
    ensures CallsInv(cfg, s.world.rows[id := r'], s.calls[call := next])
  {
    hide RowsInv, QuotaInv, RegistryInv, RowStep, CallsInv, CallFits;
    CompletionCallsComplete(cfg, s.world.rows, s.calls);
    if CompletionCall(next) { CompletionCallFits(cfg, s.world.rows[id := r'], next); }
    CallsAreUnique(cfg, s.world.rows, s.calls);
    CallsKept(cfg, s.world.rows, s.world.rows[id := r'], s.calls, s.calls[call := next]);
  }

  /** The tables stay consistent when one row moves along an edge. */
  lemma RowMoved(cfg: Config, s: State, id: SessionId, r': UploadSession)
    requires Inv(cfg, s) && id in s.world.rows
    requires RowStep(s.world.rows[id], r') && RowOk(cfg, s.now, id, r')
    requires r'.abortedAt.Some? ==> !HeldOpen(s.world.uploads, r'.Ref())
    ensures var w' := s.world.(rows := s.world.rows[id := r']);
            RowsInv(cfg, s.now, w') && QuotaInv(cfg, w'.rows) && RegistryInv(cfg, w') && WorldStep(s.world, w')
  {
    assert UploadsMove(s.world.uploads, s.world.uploads);
    hide RowsInv, QuotaInv, RegistryInv, RowStep, RowOk, UploadsMove, CallsInv, WorldStep;
    RowRewritten(cfg, s.now, s.world, id, r', s.world.uploads);
  }

  /** One call starts or advances while its row moves along an edge. */
  lemma CallAdvances(cfg: Config, s: State, id: SessionId, r': UploadSession, call: nat, next: Call)
    requires Inv(cfg, s) && id in s.world.rows
    requires RowStep(s.world.rows[id], r') && RowOk(cfg, s.now, id, r')
    requires r'.abortedAt.Some? ==> !HeldOpen(s.world.uploads, r'.Ref())
    requires s.world.rows[id].status != Completing
    requires next.sid == id && CallFits(cfg, s.world.rows[id := r'], next)
    ensures TxGoal(cfg, s, s.(world := s.world.(rows := s.world.rows[id := r']), calls := s.calls[call := next]))
  {
    RowMoved(cfg, s, id, r');
    hide RowsInv, QuotaInv, RegistryInv, RowStep, RowOk, CallFits, CallsInv, HeldOpen;
    CallAdded(cfg, s, id, r', call, next);
  }

  /** A call moves on without touching the tables. */
  lemma CallOnly(cfg: Config, s: State, call: nat, next: Call)
    requires Inv(cfg, s) && call in s.calls && next.sid == s.calls[call].sid
    requires CallFits(cfg, s.world.rows, next) && (CompletionCall(next) ==> CompletionCall(s.calls[call]))
    ensures Inv(cfg, s.(calls := s.calls[call := next]))
  {
    RowsStay(s.world.rows);
    hide RowsInv, QuotaInv, RegistryInv, CallsInv, CallFits, RowStep, CompletionCall;
    CompletionCallsComplete(cfg, s.world.rows, s.calls);
    CallsAreUnique(cfg, s.world.rows, s.calls);
    if CompletionCall(next) { CompletionCallFits(cfg, s.world.rows, next); }
    CallsKept(cfg, s.world.rows, s.world.rows, s.calls, s.calls[call := next]);
  }

  lemma CallOnlyGoal(cfg: Config, s: State, call: nat, next: Call)
    requires Inv(cfg, s) && call in s.calls && next.sid == s.calls[call].sid
    requires CallFits(cfg, s.world.rows, next) && (CompletionCall(next) ==> CompletionCall(s.calls[call]))
    ensures TxGoal(cfg, s, s.(calls := s.calls[call := next]))
  {
    NothingHappens(cfg, s);
    hide Inv, WorldStep, CallFits, CompletionCall;
    CallOnly(cfg, s, call, next);
  }

  lemma NothingHappens(cfg: Config, s: State)
    requires Inv(cfg, s)
    ensures TxGoal(cfg, s, s)
  {}

  /** The rewritings of a row that keep its verification columns are edges of the status graph. */
  lemma MovedIsAnEdge(cfg: Config, s: State, id: SessionId, status: Status)
    requires Inv(cfg, s) && id in s.world.rows
    requires StatusEdge(s.world.rows[id].status, status)
    requires status == Uploading || status == Completing || status == Verifying
    ensures RowStep(s.world.rows[id], Moved(s.world.rows[id], status))
    ensures RowOk(cfg, s.now, id, Moved(s.world.rows[id], status)) && s.world.rows[id].abortedAt.None?
  {
    hide Inv;
    RowFact(cfg, s, id);
  }

  lemma FailedIsAnEdge(cfg: Config, s: State, id: SessionId, reason: Reason)
    requires Inv(cfg, s) && id in s.world.rows && StatusEdge(s.world.rows[id].status, Failed)
    requires !Settled(s.world.rows[id]) && reason != DuplicateCleanupPending && reason != VerifiedChecksumMissing
    ensures RowStep(s.world.rows[id], FailedRow(s.world.rows[id], reason))
    ensures RowOk(cfg, s.now, id, FailedRow(s.world.rows[id], reason)) && s.world.rows[id].abortedAt.None?
  {
    hide Inv;
    RowFact(cfg, s, id);
  }

  lemma FencedIsAnEdge(cfg: Config, s: State, id: SessionId)
    requires Inv(cfg, s) && id in s.world.rows
    requires ActiveMultipart(s.world.rows[id].status) || s.world.rows[id].status == Expired
    ensures RowStep(s.world.rows[id], FencedRow(s.world.rows[id], s.now))
    ensures RowOk(cfg, s.now, id, FencedRow(s.world.rows[id], s.now))
    ensures s.world.rows[id].abortedAt.Some? ==> !HeldOpen(s.world.uploads, s.world.rows[id].Ref())
  {
    hide Inv;
    RowFact(cfg, s, id);
  }

  // ---------------------------------------------------------------- expiry, admission, part URLs

  /** An expired row, whether the provider was asked just now or earlier. */
  lemma ExpiryKeeps(cfg: Config, s: State, id: SessionId, unreachable: set<UploadRef>)
    requires Inv(cfg, s) && id in s.world.rows
    ensures var step := ExpireIfNeeded(s.world.rows[id], s.world.uploads, unreachable, s.now);
            step.Some? ==>
              TxGoal(cfg, s, s.(world := s.world.(rows := s.world.rows[id := step.value.0], uploads := step.value.1)))
              && UploadsMove(s.world.uploads, step.value.1)
  {
    var r := s.world.rows[id];
    var step := ExpireIfNeeded(r, s.world.uploads, unreachable, s.now);
    if step.Some? {
      if NeedsExpiry(r, s.now) {
        ExpiredRowIsAnEdge(cfg, s.now, id, r);
        NoCompletionCall(cfg, s, id);
      }
      assert RowOk(cfg, s.now, id, r);
      hide QuotaInv, RegistryInv, CallsInv, TxGoal;
      if r.status == Completing {
        assert step.value == (r, s.world.uploads);
      } else {
        NoCompletionCall(cfg, s, id);
      }
      RowStepKeeps(cfg, s, id, step.value.0, step.value.1, s.calls);
    }
  }

  /** A repeated request either raises, with at most the provider's half of an expiry done, or commits
      that expiry. */
  lemma ResumeShape(w: World, now: Time, req: InitiateRequest, id: SessionId, env: Provider)
    requires id in w.rows
    ensures var out := ResumeTx(w, now, req, id, env);
            var step := ExpireIfNeeded(w.rows[id], w.uploads, env.unreachable, now);
            if out.reply.Raised? then out.world == w || (step.Some? && out.world == w.(uploads := step.value.1))
            else step.Some? && out.world == w.(rows := w.rows[id := step.value.0], uploads := step.value.1)
  {
    hide ExpireIfNeeded;
  }

  lemma ResumeStep(cfg: Config, s: State, req: InitiateRequest, id: SessionId, env: Provider)
    requires Inv(cfg, s) && id in s.world.rows
    ensures TxGoal(cfg, s, s.(world := RollBackIfRaised(s.world, ResumeTx(s.world, s.now, req, id, env))))
  {
    UploadsStay(s.world.uploads);
    ExpiryKeeps(cfg, s, id, env.unreachable);
    ResumeShape(s.world, s.now, req, id, env);
    hide Inv, ExpireIfNeeded, WorldStep, ResumeTx, UploadsMove;
    var out := ResumeTx(s.world, s.now, req, id, env);
    if out.reply.Raised? {
      RolledBack(cfg, s, out.world, s.calls);
    }
  }

  lemma InitiateStep(cfg: Config, s: State, req: InitiateRequest, id: SessionId, env: Provider)
    requires Inv(cfg, s) && cfg.partSize > 0
    ensures TxGoal(cfg, s, Exec(cfg, s, Initiate(req, id, env)))
  {
    hide Inv, TxGoal, AdmitTx, ResumeTx;
    var found := FindByKey(s.world.rows, req.owner, req.keyHash);
    if found.None? {
      AdmitStep(cfg, s, req, id, env);
    } else {
      ResumeStep(cfg, s, req, found.value, env);
    }
  }

  lemma RefreshStep(cfg: Config, s: State, owner: OwnerId, id: SessionId, env: Provider)
    requires Inv(cfg, s) && cfg.partSize > 0
    ensures TxGoal(cfg, s, Exec(cfg, s, Refresh(owner, id, env)))
  {
    var out := RefreshTx(s.world, s.now, owner, id, env);
    if Owned(s.world, owner, id) { ExpiryKeeps(cfg, s, id, env.unreachable); }
    hide RowsInv, QuotaInv, RegistryInv, CallsInv, ExpireIfNeeded, WorldStep;
    if out.reply.Raised? {
      RolledBack(cfg, s, out.world, s.calls);
    }
  }

  lemma PartUrlsShape(cfg: Config, s: State, owner: OwnerId, id: SessionId, numbers: seq<nat>, env: Provider)
    requires cfg.partSize > 0
    ensures var t := Exec(cfg, s, PartUrls(owner, id, numbers, env));
            t == s || (id in s.world.rows && s.world.rows[id].status == Initiated
                       && t == s.(world := s.world.(rows := s.world.rows[id := Moved(s.world.rows[id], Uploading)])))
  {
    assert RollBack(s.world, s.world) == s.world;
  }

  lemma PartUrlsStep(cfg: Config, s: State, owner: OwnerId, id: SessionId, numbers: seq<nat>, env: Provider)
    requires Inv(cfg, s) && cfg.partSize > 0
    ensures TxGoal(cfg, s, Exec(cfg, s, PartUrls(owner, id, numbers, env)))
  {
    NothingHappens(cfg, s);
    UploadsStay(s.world.uploads);
    PartUrlsShape(cfg, s, owner, id, numbers, env);
    hide Inv, TxGoal, Exec, UploadsMove;
    if Exec(cfg, s, PartUrls(owner, id, numbers, env)) != s {
      var r := s.world.rows[id];
      NoCompletionCall(cfg, s, id);
      MovedIsAnEdge(cfg, s, id, Uploading);
      hide RowStep, RowOk, CompletionCall;
      RowStepKeeps(cfg, s, id, Moved(r, Uploading), s.world.uploads, s.calls);
      assert s.world.(rows := s.world.rows[id := Moved(r, Uploading)], uploads := s.world.uploads)
          == s.world.(rows := s.world.rows[id := Moved(r, Uploading)]);
    }
  }

  // ---------------------------------------------------------------- completion

  lemma BeginCompleteShape(cfg: Config, s: State, owner: OwnerId, id: SessionId, parts: seq<nat>, call: nat)
    requires cfg.partSize > 0
    ensures var t := Exec(cfg, s, BeginComplete(owner, id, parts, call));
            t == s || (id in s.world.rows && ActiveMultipart(s.world.rows[id].status)
                       && var r' := Moved(s.world.rows[id], Completing);
                          t == s.(world := s.world.(rows := s.world.rows[id := r']),
                                  calls := s.calls[call := CompletionSent(id)], sent := s.sent + {r'.Ref()}))
  {
    hide Ascending, OneTo;
  }

  lemma BeginCompleteStep(cfg: Config, s: State, owner: OwnerId, id: SessionId, parts: seq<nat>, call: nat)
    requires Inv(cfg, s) && cfg.partSize > 0
    ensures TxGoal(cfg, s, Exec(cfg, s, BeginComplete(owner, id, parts, call)))
  {
    NothingHappens(cfg, s);
    BeginCompleteShape(cfg, s, owner, id, parts, call);
    hide Inv, TxGoal, Exec;
    if Exec(cfg, s, BeginComplete(owner, id, parts, call)) != s {
      MovedIsAnEdge(cfg, s, id, Completing);
      var r' := Moved(s.world.rows[id], Completing);
      assert CallFits(cfg, s.world.rows[id := r'], CompletionSent(id));
      hide RowStep, RowOk, CallFits;
      CallAdvances(cfg, s, id, r', call, CompletionSent(id));
      SentIsFree(cfg, s, s.(world := s.world.(rows := s.world.rows[id := r']),
        calls := s.calls[call := CompletionSent(id)]),
                 s.sent + {r'.Ref()});
    }
  }

  /** The invariant says nothing about which requests may still be under way at the provider. */
  lemma SentIsFree(cfg: Config, s: State, t: State, sent: set<UploadRef>)
    requires TxGoal(cfg, s, t)
    ensures TxGoal(cfg, s, t.(sent := sent))
  {
    hide RowsInv, QuotaInv, RegistryInv, CallsInv, WorldStep;
  }

  /** Ending a completion consumes the only completion call of its session. */
  lemma CompletionEnds(cfg: Config, s: State, call: nat, r': UploadSession)
    requires Inv(cfg, s) && call in s.calls && CompletionCall(s.calls[call])
    requires s.calls[call].sid in s.world.rows
    requires RowStep(s.world.rows[s.calls[call].sid], r') && RowOk(cfg, s.now, s.calls[call].sid, r')
    requires r'.abortedAt.None?
    ensures var id := s.calls[call].sid;
            TxGoal(cfg, s, s.(world := s.world.(rows := s.world.rows[id := r']), calls := Drop(s.calls, call)))
  {
    var id := s.calls[call].sid;
    RowStepKeeps(cfg, s, id, r', s.world.uploads, Drop(s.calls, call));
    assert s.world.(rows := s.world.rows[id := r'], uploads := s.world.uploads)
           == s.world.(rows := s.world.rows[id := r']);
  }

  lemma CompletionStep(cfg: Config, s: State, tx: Tx)
    requires Inv(cfg, s) && cfg.partSize > 0 && (tx.FinishComplete? || tx.Restore? || tx.FailCompletion?)
    ensures TxGoal(cfg, s, ExecCompletion(s, tx))
  {
    NothingHappens(cfg, s);
    hide Inv, TxGoal, RowStep, RowOk;
    if tx.call in s.calls && CompletionCall(s.calls[tx.call]) {
      var c := s.calls[tx.call];
      CallFact(cfg, s, tx.call);
      CompletingRow(cfg, s, c.sid);
      if tx.FinishComplete? && c.HeadRead? && HeadMatches(c.head, c.sid, s.world.rows[c.sid]) {
        MovedIsAnEdge(cfg, s, c.sid, Verifying);
        CompletionEnds(cfg, s, tx.call, Moved(s.world.rows[c.sid], Verifying));
      } else if tx.FinishComplete? && c.HeadRead? {
        FailedIsAnEdge(cfg, s, c.sid, MetadataMismatch);
        CompletionEnds(cfg, s, tx.call, FailedRow(s.world.rows[c.sid], MetadataMismatch));
      } else if tx.Restore? && c.RestoreDue? {
        MovedIsAnEdge(cfg, s, c.sid, Uploading);
        CompletionEnds(cfg, s, tx.call, Moved(s.world.rows[c.sid], Uploading));
      } else if tx.FailCompletion? && c.CompletionFailDue? {
        FailedIsAnEdge(cfg, s, c.sid, HeadFailed);
        CompletionEnds(cfg, s, tx.call, FailedRow(s.world.rows[c.sid], HeadFailed));
      }
    }
  }

  /** A completing row is neither settled nor failed. */
  lemma CompletingRow(cfg: Config, s: State, id: SessionId)
    requires Inv(cfg, s) && id in s.world.rows && s.world.rows[id].status == Completing
    ensures !Settled(s.world.rows[id])
  {
    hide Inv;
    RowFact(cfg, s, id);
  }

  // ---------------------------------------------------------------- cancellation and sweeping

  lemma FenceShape(cfg: Config, s: State, owner: OwnerId, id: SessionId, call: nat)
    requires cfg.partSize > 0
    ensures var t := Exec(cfg, s, Fence(owner, id, call));
            t == s ||
            (Owned(s.world, owner, id)
              && (ActiveMultipart(s.world.rows[id].status) || s.world.rows[id].status == Expired)
             && t == s.(world := s.world.(rows := s.world.rows[id := FencedRow(s.world.rows[id], s.now)]),
                        calls := s.calls[call := CancelFenced(id, owner)]))
  {}

  lemma FenceStep(cfg: Config, s: State, owner: OwnerId, id: SessionId, call: nat)
    requires Inv(cfg, s) && cfg.partSize > 0
    ensures TxGoal(cfg, s, Exec(cfg, s, Fence(owner, id, call)))
  {
    NothingHappens(cfg, s);
    FenceShape(cfg, s, owner, id, call);
    hide Inv, TxGoal, Exec;
    if Exec(cfg, s, Fence(owner, id, call)) != s {
      FencedIsAnEdge(cfg, s, id);
      var r' := FencedRow(s.world.rows[id], s.now);
      assert CallFits(cfg, s.world.rows[id := r'], CancelFenced(id, owner));
      hide RowStep, RowOk, CallFits, HeldOpen;
      CallAdvances(cfg, s, id, r', call, CancelFenced(id, owner));
    }
  }

  lemma AbortReleases(uploads: Uploads, ref: UploadRef)
    ensures UploadsMove(uploads, AbortUpload(uploads, ref)) && !HeldOpen(AbortUpload(uploads, ref), ref)
  {}

  /** The provider upload is given back and the row is marked aborted. */
  lemma AbortKeeps(cfg: Config, s: State, id: SessionId, at: Time, reason: Option<Reason>, calls': map<nat, Call>)
    requires Inv(cfg, s) && id in s.world.rows
    requires ActiveMultipart(s.world.rows[id].status) || s.world.rows[id].status == Expired
    requires reason == s.world.rows[id].failureReason || reason == Some(SessionReconciled)
    requires calls'.Keys <= s.calls.Keys && forall c :: c in calls' ==> calls'[c] == s.calls[c]
    ensures var r' := AbortedRow(s.world.rows[id], at).(failureReason := reason);
            TxGoal(cfg, s, s.(world := s.world.(rows := s.world.rows[id := r'],
                                                uploads := AbortUpload(s.world.uploads, r'.Ref())), calls := calls'))
  {
    hide Inv, TxGoal;
    var r := s.world.rows[id];
    RowFact(cfg, s, id);
    NoCompletionCall(cfg, s, id);
    AbortReleases(s.world.uploads, r.Ref());
    hide AbortUpload, HeldOpen, UploadsMove;
    RowStepKeeps(cfg, s, id, AbortedRow(r, at).(failureReason := reason), AbortUpload(s.world.uploads, r.Ref()),
      calls');
  }

  lemma ReleaseShape(cfg: Config, s: State, call: nat, env: Provider)
    requires cfg.partSize > 0 && call in s.calls && s.calls[call].CancelFenced?
    ensures var c := s.calls[call];
            var t := Exec(cfg, s, Release(call, env));
            t == s.(calls := Drop(s.calls, call)) ||
            (c.sid in s.world.rows
              && (ActiveMultipart(s.world.rows[c.sid].status) || s.world.rows[c.sid].status == Expired) &&
             var r' := AbortedRow(s.world.rows[c.sid], s.now).(failureReason := s.world.rows[c.sid].failureReason);
             t == s.(world := s.world.(rows := s.world.rows[c.sid := r'],
               uploads := AbortUpload(s.world.uploads, r'.Ref())),
                     calls := Drop(s.calls, call)))
  {}

  lemma ReleaseStep(cfg: Config, s: State, call: nat, env: Provider)
    requires Inv(cfg, s) && cfg.partSize > 0
    ensures TxGoal(cfg, s, Exec(cfg, s, Release(call, env)))
  {
    NothingHappens(cfg, s);
    if call in s.calls && s.calls[call].CancelFenced? {
      DropKeeps(cfg, s, call);
      ReleaseShape(cfg, s, call, env);
      hide Inv, TxGoal, Exec;
      if Exec(cfg, s, Release(call, env)) != s.(calls := Drop(s.calls, call)) {
        var r := s.world.rows[s.calls[call].sid];
        AbortKeeps(cfg, s, s.calls[call].sid, s.now, r.failureReason, Drop(s.calls, call));
      }
    }
  }

  lemma SweepStep(cfg: Config, s: State, id: SessionId, asOf: Time, env: Provider)
    requires Inv(cfg, s) && cfg.partSize > 0
    ensures TxGoal(cfg, s, Exec(cfg, s, Sweep(id, asOf, env)))
  {
    NothingHappens(cfg, s);
    hide Inv, TxGoal;
    assert RollBack(s.world, s.world) == s.world;
    if asOf <= s.now && SweepTx(s.world, id, asOf, env).reply == Done(Aborted) {
      AbortKeeps(cfg, s, id, asOf, Some(SessionReconciled), s.calls);
    }
  }

  // ---------------------------------------------------------------- verification and duplicates

  function Leased(r: UploadSession, at: Time): UploadSession {
    r.(verificationStartedAt := Some(at), rowVersion := r.rowVersion + 1)
  }

  function LeaseCall(id: SessionId, r: UploadSession): Call {
    if r.status == Analyzing then ResumeDue(id, r.verifiedSha256) else HashDue(id)
  }

  lemma LeasedIsAnEdge(cfg: Config, s: State, id: SessionId, at: Time)
    requires Inv(cfg, s) && id in s.world.rows && LeaseFree(cfg, s.world.rows[id], at) && at <= s.now
    ensures var r := s.world.rows[id];
            RowStep(r, Leased(r, at)) && RowOk(cfg, s.now, id, Leased(r, at)) && r.abortedAt.None?
            && CallFits(cfg, s.world.rows[id := Leased(r, at)], LeaseCall(id, r))
  {
    hide Inv;
    RowFact(cfg, s, id);
  }

  lemma LeaseShape(cfg: Config, s: State, id: SessionId, at: Time, call: nat)
    requires cfg.partSize > 0
    ensures var t := Exec(cfg, s, Lease(id, at, call));
            t == s ||
            (id in s.world.rows && LeaseFree(cfg, s.world.rows[id], at) && at <= s.now
             && t == s.(world := s.world.(rows := s.world.rows[id := Leased(s.world.rows[id], at)]),
                        calls := s.calls[call := LeaseCall(id, s.world.rows[id])]))
  {}

  lemma LeaseStep(cfg: Config, s: State, id: SessionId, at: Time, call: nat)
    requires Inv(cfg, s) && cfg.partSize > 0
    ensures TxGoal(cfg, s, Exec(cfg, s, Lease(id, at, call)))
  {
    NothingHappens(cfg, s);
    LeaseShape(cfg, s, id, at, call);
    hide Inv, TxGoal, Exec;
    if Exec(cfg, s, Lease(id, at, call)) != s {
      LeasedIsAnEdge(cfg, s, id, at);
      hide RowStep, RowOk, CallFits, HeldOpen;
      CallAdvances(cfg, s, id, Leased(s.world.rows[id], at), call, LeaseCall(id, s.world.rows[id]));
    }
  }

  /** The row of a verification call is past the multipart phase. */
  lemma VerificationRow(cfg: Config, s: State, call: nat)
    requires Inv(cfg, s) && call in s.calls && !CompletionCall(s.calls[call]) && !s.calls[call].CancelFenced?
    ensures s.calls[call].sid in s.world.rows && CallFits(cfg, s.world.rows, s.calls[call])
    ensures var r := s.world.rows[s.calls[call].sid];
            RowOk(cfg, s.now, s.calls[call].sid, r) && r.abortedAt.None? && (r.status == Verifying || Worked(r.status))
  {
    assert CallFits(cfg, s.world.rows, s.calls[call]);
    assert RowOk(cfg, s.now, s.calls[call].sid, s.world.rows[s.calls[call].sid]);
  }

  /** A verification call ends, moving its row along an edge. */
  lemma VerificationEnds(cfg: Config, s: State, call: nat, r': UploadSession)
    requires Inv(cfg, s) && call in s.calls && !CompletionCall(s.calls[call]) && !s.calls[call].CancelFenced?
    requires s.calls[call].sid in s.world.rows
    requires RowStep(s.world.rows[s.calls[call].sid], r') && RowOk(cfg, s.now, s.calls[call].sid, r')
    requires r'.abortedAt.None?
    ensures var id := s.calls[call].sid;
            TxGoal(cfg, s, s.(world := s.world.(rows := s.world.rows[id := r']), calls := Drop(s.calls, call)))
  {
    var id := s.calls[call].sid;
    VerificationRow(cfg, s, call);
    NoCompletionCall(cfg, s, id);
    RowStepKeeps(cfg, s, id, r', s.world.uploads, Drop(s.calls, call));
    assert s.world.(rows := s.world.rows[id := r'], uploads := s.world.uploads)
           == s.world.(rows := s.world.rows[id := r']);
  }

  lemma DropKeeps(cfg: Config, s: State, call: nat)
    requires Inv(cfg, s)
    ensures TxGoal(cfg, s, s.(calls := Drop(s.calls, call)))
  {
    RolledBack(cfg, s, s.world, Drop(s.calls, call));
    assert RollBack(s.world, s.world) == s.world;
  }

  function Verified(r: UploadSession, checksum: Checksum, now: Time): UploadSession {
    r.(verifiedSha256 := Some(checksum), status := Analyzing, verificationStartedAt := Some(now),
      rowVersion := r.rowVersion + 1)
  }

  lemma VerifiedIsAnEdge(cfg: Config, s: State, call: nat)
    requires Inv(cfg, s) && call in s.calls && s.calls[call].Hashed? && s.calls[call].sid in s.world.rows
    requires s.world.rows[s.calls[call].sid].status == Verifying
    ensures var c := s.calls[call]; var r := s.world.rows[c.sid]; var r' := Verified(r, c.checksum, s.now);
            RowStep(r, r') && RowOk(cfg, s.now, c.sid, r') && r'.abortedAt.None?
            && CallFits(cfg, s.world.rows[c.sid := r'], WorkflowDue(c.sid, c.checksum))
  {
    hide Inv;
    VerificationRow(cfg, s, call);
  }

  lemma RecordVerifiedShape(cfg: Config, s: State, call: nat)
    requires call in s.calls && s.calls[call].Hashed? && s.calls[call].sid in s.world.rows
    ensures var c := s.calls[call]; var r := s.world.rows[c.sid];
            ExecVerification(cfg, s, RecordVerified(call))
            == if r.status != Verifying then s.(calls := Drop(s.calls, call))
               else if c.size != r.facts.declaredSize then
                 s.(world := s.world.(rows := s.world.rows[c.sid := FailedRow(r, SizeMismatch)]),
                   calls := Drop(s.calls, call))
               else
                 s.(world := s.world.(rows := s.world.rows[c.sid := Verified(r, c.checksum, s.now)]),
                    calls := s.calls[call := WorkflowDue(c.sid, c.checksum)])
  {}

  lemma RecordVerifiedStep(cfg: Config, s: State, call: nat)
    requires Inv(cfg, s) && call in s.calls && s.calls[call].Hashed?
    ensures TxGoal(cfg, s, ExecVerification(cfg, s, RecordVerified(call)))
  {
    VerificationRow(cfg, s, call);
    RecordVerifiedShape(cfg, s, call);
    hide Inv, TxGoal, ExecVerification, CallFits;
    var c := s.calls[call];
    var r := s.world.rows[c.sid];
    if r.status != Verifying {
      DropKeeps(cfg, s, call);
    } else if c.size != r.facts.declaredSize {
      FailedIsAnEdge(cfg, s, c.sid, SizeMismatch);
      hide RowStep, RowOk;
      VerificationEnds(cfg, s, call, FailedRow(r, SizeMismatch));
    } else {
      VerifiedIsAnEdge(cfg, s, call);
      hide RowStep, RowOk;
      CallAdvances(cfg, s, c.sid, Verified(r, c.checksum, s.now), call, WorkflowDue(c.sid, c.checksum));
    }
  }

  function Intended(r: UploadSession, outcome: Outcome): UploadSession {
    r.(result := Some(outcome), failureReason := Some(DuplicateCleanupPending), rowVersion := r.rowVersion + 1)
  }

  lemma IntendedIsAnEdge(cfg: Config, s: State, call: nat)
    requires Inv(cfg, s) && call in s.calls && s.calls[call].WorkflowAnswered? && s.calls[call].outcome.Duplicate?
    requires s.calls[call].sid in s.world.rows && s.world.rows[s.calls[call].sid].status == Analyzing
    ensures var c := s.calls[call]; var r := s.world.rows[c.sid]; var r' := Intended(r, c.outcome);
            RowStep(r, r') && RowOk(cfg, s.now, c.sid, r') && r'.abortedAt.None?
            && CallFits(cfg, s.world.rows[c.sid := r'], CleanupDue(c.sid, r.facts.owner))
  {
    hide Inv;
    VerificationRow(cfg, s, call);
  }

  lemma CommitIntentShape(cfg: Config, s: State, call: nat)
    requires call in s.calls && s.calls[call].WorkflowAnswered? && s.calls[call].outcome.Duplicate?
    requires s.calls[call].sid in s.world.rows
    ensures var c := s.calls[call]; var r := s.world.rows[c.sid];
            ExecVerification(cfg, s, CommitIntent(call))
            == if r.status != Analyzing then s.(calls := Drop(s.calls, call))
               else
                 s.(world := s.world.(rows := s.world.rows[c.sid := Intended(r, c.outcome)]),
                    calls := s.calls[call := CleanupDue(c.sid, r.facts.owner)])
  {}

  lemma CommitIntentStep(cfg: Config, s: State, call: nat)
    requires Inv(cfg, s) && call in s.calls && s.calls[call].WorkflowAnswered? && s.calls[call].outcome.Duplicate?
    ensures TxGoal(cfg, s, ExecVerification(cfg, s, CommitIntent(call)))
  {
    VerificationRow(cfg, s, call);
    CommitIntentShape(cfg, s, call);
    hide Inv, TxGoal, ExecVerification, CallFits;
    var c := s.calls[call];
    var r := s.world.rows[c.sid];
    if r.status != Analyzing {
      DropKeeps(cfg, s, call);
    } else {
      IntendedIsAnEdge(cfg, s, call);
      hide RowStep, RowOk;
      CallAdvances(cfg, s, c.sid, Intended(r, c.outcome), call, CleanupDue(c.sid, r.facts.owner));
    }
  }

  lemma CommitResultStep(cfg: Config, s: State, call: nat)
    requires Inv(cfg, s) && call in s.calls && s.calls[call].WorkflowAnswered? && s.calls[call].outcome.Created?
    ensures TxGoal(cfg, s, ExecVerification(cfg, s, CommitResult(call)))
  {
    VerificationRow(cfg, s, call);
    var c := s.calls[call];
    if s.world.rows[c.sid].status != Analyzing {
      DropKeeps(cfg, s, call);
    } else {
      VerificationEnds(cfg, s, call, FinishTx(s.world, s.now, c.sid, c.outcome).rows[c.sid]);
    }
  }

  lemma FailVerificationStep(cfg: Config, s: State, call: nat)
    requires Inv(cfg, s) && call in s.calls && s.calls[call].VerificationFailDue?
    ensures TxGoal(cfg, s, ExecVerification(cfg, s, FailVerification(call)))
  {
    VerificationRow(cfg, s, call);
    var c := s.calls[call];
    if FailTx(s.world, c.sid, c.reason) == s.world {
      DropKeeps(cfg, s, call);
    } else {
      VerificationEnds(cfg, s, call, FailedRow(s.world.rows[c.sid], c.reason));
    }
  }

  function CleanedUp(r: UploadSession, now: Time): UploadSession {
    r.(status := Completed, failureReason := None, completedAt := Some(now), rowVersion := r.rowVersion + 1)
  }

  lemma CleanedUpIsAnEdge(cfg: Config, s: State, id: SessionId)
    requires Inv(cfg, s) && id in s.world.rows && IntentCommitted(s.world.rows[id])
    ensures var r := s.world.rows[id];
            RowStep(r, CleanedUp(r, s.now)) && RowOk(cfg, s.now, id, CleanedUp(r, s.now)) && r.abortedAt.None?
            && r.status == Analyzing && cfg.outcome(id).Duplicate?
            && r.facts.storageKey == SourceKey(r.facts.owner, id, r.facts.suffix)
  {
    hide Inv;
    RowFact(cfg, s, id);
  }

  lemma DeletionRecorded(cfg: Config, now: Time, w: World, key: StorageKey)
    requires RowsInv(cfg, now, w) && RegistryInv(cfg, w) && DeletedOk(cfg, w.rows, key)
    ensures RowsInv(cfg, now, w.(deleted := w.deleted + {key})) && RegistryInv(cfg, w.(deleted := w.deleted + {key}))
  {
    hide RowOk;
  }

  /** Deleting the duplicate's bytes and completing its session. */
  lemma CleanupCompletes(cfg: Config, s: State, id: SessionId, calls': map<nat, Call>)
    requires Inv(cfg, s) && id in s.world.rows && IntentCommitted(s.world.rows[id])
    requires calls'.Keys <= s.calls.Keys && forall c :: c in calls' ==> calls'[c] == s.calls[c]
    ensures var r := s.world.rows[id];
            TxGoal(cfg, s, s.(world :=
              WithRow(s.world, id, CleanedUp(r, s.now)).(deleted := s.world.deleted + {r.facts.storageKey}),
                              calls := calls'))
  {
    hide RowsInv, QuotaInv, CallsInv, RowStep, RowOk, RegistryInv, CallFits, CompletionCall;
    var r := s.world.rows[id];
    var r' := CleanedUp(r, s.now);
    var w1 := WithRow(s.world, id, r');
    CleanedUpIsAnEdge(cfg, s, id);
    assert DeletedOk(cfg, s.world.rows, r.facts.storageKey) && DeletedOk(cfg, w1.rows, r.facts.storageKey);
    hide DeletedOk, IntentCommitted, UploadsMove;
    NoCompletionCall(cfg, s, id);
    UploadsStay(s.world.uploads);
    RowStepKeeps(cfg, s, id, r', s.world.uploads, calls');
    DeletionRecorded(cfg, s.now, w1, r.facts.storageKey);
  }

  lemma UploadsStay(uploads: Uploads)
    ensures UploadsMove(uploads, uploads)
  {}

  lemma CleanupKeeps(cfg: Config, s: State, owner: OwnerId, id: SessionId, env: Provider, calls': map<nat, Call>)
    requires Inv(cfg, s)
    requires calls'.Keys <= s.calls.Keys && forall c :: c in calls' ==> calls'[c] == s.calls[c]
    ensures var out := CleanupTx(s.world, s.now, owner, id, env);
            TxGoal(cfg, s, s.(world := RollBackIfRaised(s.world, out), calls := calls'))
            && (out.reply.Raised? ==> RollBackIfRaised(s.world, out) == s.world)
  {
    UploadsStay(s.world.uploads);
    hide Inv, UploadsMove, WorldStep;
    var out := CleanupTx(s.world, s.now, owner, id, env);
    var w := s.world;
    assert RollBack(w, w) == w;
    if out.reply.Raised? || w.rows[id].status == Completed {
      RolledBack(cfg, s, w, calls');
    } else {
      CleanupCompletes(cfg, s, id, calls');
    }
  }

  lemma WorkerCleanupShape(cfg: Config, s: State, call: nat, env: Provider)
    requires call in s.calls && s.calls[call].CleanupDue?
    ensures var c := s.calls[call]; var out := CleanupTx(s.world, s.now, c.owner, c.sid, env);
            ExecVerification(cfg, s, WorkerCleanup(call, env))
            == s.(world := RollBackIfRaised(s.world, out),
                  calls := if out.reply.Raised?
                    then s.calls[call := VerificationFailDue(c.sid, WorkflowFailed("cleanup"))]
                           else Drop(s.calls, call))
  {
    hide CleanupTx;
  }

  lemma WorkerCleanupStep(cfg: Config, s: State, call: nat, env: Provider)
    requires Inv(cfg, s) && call in s.calls && s.calls[call].CleanupDue?
    ensures TxGoal(cfg, s, ExecVerification(cfg, s, WorkerCleanup(call, env)))
  {
    hide Inv, TxGoal, CleanupTx, ExecVerification, RollBackIfRaised, CallFits, CompletionCall;
    WorkerCleanupShape(cfg, s, call, env);
    var c := s.calls[call];
    var out := CleanupTx(s.world, s.now, c.owner, c.sid, env);
    CleanupKeeps(cfg, s, c.owner, c.sid, env, Drop(s.calls, call));
    if out.reply.Raised? {
      CleanupFailureFits(cfg, s, call);
      CallOnlyGoal(cfg, s, call, VerificationFailDue(c.sid, WorkflowFailed("cleanup")));
    }
  }

  lemma CleanupFailureFits(cfg: Config, s: State, call: nat)
    requires Inv(cfg, s) && call in s.calls && s.calls[call].CleanupDue?
    ensures CallFits(cfg, s.world.rows, VerificationFailDue(s.calls[call].sid, WorkflowFailed("cleanup")))
    ensures !CompletionCall(VerificationFailDue(s.calls[call].sid, WorkflowFailed("cleanup")))
  {
    VerificationRow(cfg, s, call);
    hide Inv;
  }

  // ---------------------------------------------------------------- every transaction

  lemma VerificationStep(cfg: Config, s: State, tx: Tx)
    requires Inv(cfg, s) && cfg.partSize > 0
    requires tx.RecordVerified? || tx.CommitIntent? || tx.CommitResult? || tx.WorkerCleanup? || tx.FailVerification?
    ensures TxGoal(cfg, s, ExecVerification(cfg, s, tx))
  {
    NothingHappens(cfg, s);
    hide Inv, TxGoal;
    if tx.call in s.calls {
      var c := s.calls[tx.call];
      if tx.RecordVerified? && c.Hashed? { RecordVerifiedStep(cfg, s, tx.call); }
      else if tx.CommitIntent? && c.WorkflowAnswered? && c.outcome.Duplicate? { CommitIntentStep(cfg, s, tx.call); }
      else if tx.CommitResult? && c.WorkflowAnswered? && !c.outcome.Duplicate? { CommitResultStep(cfg, s, tx.call); }
      else if tx.WorkerCleanup? && c.CleanupDue? { WorkerCleanupStep(cfg, s, tx.call, tx.env); }
      else if tx.FailVerification? && c.VerificationFailDue? { FailVerificationStep(cfg, s, tx.call); }
    }
  }

  lemma TxStep(cfg: Config, s: State, tx: Tx)
    requires Inv(cfg, s) && cfg.partSize > 0
    ensures TxGoal(cfg, s, Exec(cfg, s, tx))
  {
    hide Inv, TxGoal;
    match tx {
      case Initiate(req, id, env) => InitiateStep(cfg, s, req, id, env);
      case Refresh(owner, id, env) => RefreshStep(cfg, s, owner, id, env);
      case PartUrls(owner, id, numbers, env) => PartUrlsStep(cfg, s, owner, id, numbers, env);
      case BeginComplete(owner, id, parts, call) => BeginCompleteStep(cfg, s, owner, id, parts, call);
      case Fence(owner, id, call) => FenceStep(cfg, s, owner, id, call);
      case Release(call, env) => ReleaseStep(cfg, s, call, env);
      case Sweep(id, asOf, env) => SweepStep(cfg, s, id, asOf, env);
      case Lease(id, at, call) => LeaseStep(cfg, s, id, at, call);
      case Cleanup(owner, id, env) => CleanupKeeps(cfg, s, owner, id, env, s.calls);
      case FinishComplete(_) => CompletionStep(cfg, s, tx);
      case Restore(_) => CompletionStep(cfg, s, tx);
      case FailCompletion(_) => CompletionStep(cfg, s, tx);
      case _ => VerificationStep(cfg, s, tx);
    }
  }

  /** Dying inside a transaction: provider effects without the commit. */
  lemma DyingStep(cfg: Config, s: State, tx: Tx)
    requires Inv(cfg, s) && cfg.partSize > 0
    ensures StepGoal(cfg, s, ExecDying(cfg, s, tx))
  {
    TxStep(cfg, s, tx);
    var t := Exec(cfg, s, tx);
    RolledBack(cfg, s, t.world, if HasCall(tx) then Drop(s.calls, tx.call) else s.calls);
  }

  // ---------------------------------------------------------------- steps between transactions

  lemma AnswerStep(cfg: Config, s: State, call: nat, assembled: bool, reported: bool)
    requires Inv(cfg, s)
    ensures StepGoal(cfg, s, CallStep(cfg, s, AnswerCompletion(call, assembled, reported)))
  {
    if call in s.calls && s.calls[call].CompletionSent? {
      var c := s.calls[call];
      assert CallFits(cfg, s.world.rows, c);
      var s' := CallStep(cfg, s, AnswerCompletion(call, assembled, reported));
      var s1 := s.(world := s'.world);
      RolledBack(cfg, s, s'.world, s.calls);
      assert RollBack(s.world, s'.world) == s'.world;
      CallOnly(cfg, s1, call, s'.calls[call]);
    }
  }

  /** Registering a created analysis and its video keeps the registry apart from deleted sources. */
  lemma RegistrationKeeps(cfg: Config, s: State, w': World, id: SessionId)
    requires Inv(cfg, s) && id in s.world.rows && cfg.outcome(id).Created?
    requires w' == s.world.(analyses := w'.analyses, videos := s.world.videos + {s.world.rows[id].facts.storageKey})
    requires forall a :: a in w'.analyses ==> a in s.world.analyses || a == id
    ensures StepGoal(cfg, s, s.(world := w'))
  {
    assert RowOk(cfg, s.now, id, s.world.rows[id]);
    assert RegistryInv(cfg, w');
    hide RowOk, QuotaInv, CallsInv, RegistryInv;
  }

  function RegisteredWorld(w: World, r: UploadSession): World {
    w.(analyses := if r.facts.analysisId in w.analyses then w.analyses else w.analyses[r.facts.analysisId := Live],
       videos := w.videos + {r.facts.storageKey})
  }

  function WorkflowNext(cfg: Config, id: SessionId, failure: Option<string>): Call {
    if failure.Some? then VerificationFailDue(id, WorkflowFailed(failure.value))
       else WorkflowAnswered(id, cfg.outcome(id))
  }

  lemma WorkflowShape(cfg: Config, s: State, call: nat, registers: bool, failure: Option<string>)
    ensures var t := CallStep(cfg, s, RunWorkflow(call, registers, failure));
            t == s ||
            (call in s.calls && s.calls[call].WorkflowDue? && s.calls[call].sid in s.world.rows &&
             var id := s.calls[call].sid;
             t == s.(world := if cfg.outcome(id).Created? && registers then RegisteredWorld(s.world, s.world.rows[id])
               else s.world,
                     calls := s.calls[call := WorkflowNext(cfg, id, failure)]))
  {}

  lemma WorkflowNextFits(cfg: Config, s: State, call: nat, failure: Option<string>)
    requires Inv(cfg, s) && call in s.calls && s.calls[call].WorkflowDue?
    ensures var next := WorkflowNext(cfg, s.calls[call].sid, failure);
            CallFits(cfg, s.world.rows, next) && !CompletionCall(next) && next.sid == s.calls[call].sid
  {
    hide Inv;
    CallFact(cfg, s, call);
  }

  lemma WorkflowStep(cfg: Config, s: State, call: nat, registers: bool, failure: Option<string>)
    requires Inv(cfg, s)
    ensures StepGoal(cfg, s, CallStep(cfg, s, RunWorkflow(call, registers, failure)))
  {
    NothingHappens(cfg, s);
    WorkflowShape(cfg, s, call, registers, failure);
    hide Inv, WorldStep, CallStep;
    if CallStep(cfg, s, RunWorkflow(call, registers, failure)) != s {
      var id := s.calls[call].sid;
      WorkflowNextFits(cfg, s, call, failure);
      hide CallFits, CompletionCall, WorkflowNext;
      if cfg.outcome(id).Created? && registers {
        RegistrationKeeps(cfg, s, RegisteredWorld(s.world, s.world.rows[id]), id);
        CallOnly(cfg, s.(world := RegisteredWorld(s.world, s.world.rows[id])), call, WorkflowNext(cfg, id, failure));
      } else {
        CallOnly(cfg, s, call, WorkflowNext(cfg, id, failure));
      }
    }
  }

  lemma ReadHeadStep(cfg: Config, s: State, call: nat, head: Option<Head>)
    requires Inv(cfg, s)
    ensures StepGoal(cfg, s, CallStep(cfg, s, ReadHead(call, head)))
  {
    NothingHappens(cfg, s);
    hide Inv;
    if call in s.calls && s.calls[call].CompletionAnswered? {
      CallFact(cfg, s, call);
      CallOnly(cfg, s, call, CallStep(cfg, s, ReadHead(call, head)).calls[call]);
    }
  }

  lemma ReadResumedStep(cfg: Config, s: State, call: nat)
    requires Inv(cfg, s)
    ensures StepGoal(cfg, s, CallStep(cfg, s, ReadResumed(call)))
  {
    NothingHappens(cfg, s);
    hide Inv;
    if call in s.calls && s.calls[call].ResumeDue? {
      CallFact(cfg, s, call);
      var c := s.calls[call];
      if s.world.rows[c.sid].status == Analyzing {
        CallOnly(cfg, s, call, WorkflowDue(c.sid, c.verified.value));
      } else {
        DropKeeps(cfg, s, call);
      }
    }
  }

  lemma HashedCallFits(cfg: Config, s: State, call: nat, identity: Option<Checksum>, sha256: Option<Checksum>,
                       stamped: Option<int>)
    requires Inv(cfg, s) && call in s.calls && s.calls[call].HashDue?
    ensures s.calls[call].sid in s.world.rows
    ensures var next := HashedCall(s.calls[call].sid, s.world.rows[s.calls[call].sid], identity, sha256, stamped);
            CallFits(cfg, s.world.rows, next) && next.sid == s.calls[call].sid && !CompletionCall(next)
  {
    hide Inv;
    CallFact(cfg, s, call);
  }

  lemma HashShape(cfg: Config, s: State, call: nat, identity: Option<Checksum>, sha256: Option<Checksum>,
      stamped: Option<int>)
    ensures var t := CallStep(cfg, s, HashObject(call, identity, sha256, stamped));
            t == s ||
            (call in s.calls && s.calls[call].HashDue? && s.calls[call].sid in s.world.rows &&
             var id := s.calls[call].sid;
             t == s.(calls := s.calls[call := HashedCall(id, s.world.rows[id], identity, sha256, stamped)]))
  {}

  lemma HashStep(cfg: Config, s: State, call: nat, identity: Option<Checksum>, sha256: Option<Checksum>,
      stamped: Option<int>)
    requires Inv(cfg, s)
    ensures StepGoal(cfg, s, CallStep(cfg, s, HashObject(call, identity, sha256, stamped)))
  {
    NothingHappens(cfg, s);
    HashShape(cfg, s, call, identity, sha256, stamped);
    hide Inv, CallStep, WorldStep, HashedCall;
    if CallStep(cfg, s, HashObject(call, identity, sha256, stamped)) != s {
      HashedCallFits(cfg, s, call, identity, sha256, stamped);
      hide CallFits, CompletionCall;
      var c := s.calls[call];
      CallOnly(cfg, s, call, HashedCall(c.sid, s.world.rows[c.sid], identity, sha256, stamped));
    }
  }

  lemma FailureFits(cfg: Config, s: State, call: nat)
    requires Inv(cfg, s) && call in s.calls && Working(s.calls[call])
    ensures var next := VerificationFailDue(s.calls[call].sid, FinalizationFailed);
            s.calls[call].sid in s.world.rows && CallFits(cfg, s.world.rows, next) && !CompletionCall(next)
  {
    VerificationRow(cfg, s, call);
    hide Inv, RowOk;
  }

  lemma RaiseShape(cfg: Config, s: State, call: nat)
    ensures var t := CallStep(cfg, s, RaiseInside(call));
            t == s || (call in s.calls && Working(s.calls[call])
                       && t == s.(calls := s.calls[call := VerificationFailDue(s.calls[call].sid, FinalizationFailed)]))
  {}

  /** Any exception of the worker that nothing else catches. */
  lemma RaiseStep(cfg: Config, s: State, call: nat)
    requires Inv(cfg, s)
    ensures StepGoal(cfg, s, CallStep(cfg, s, RaiseInside(call)))
  {
    hide Inv, TxGoal, StepGoal, CallStep, CallFits, CompletionCall;
    NothingHappens(cfg, s);
    RaiseShape(cfg, s, call);
    if CallStep(cfg, s, RaiseInside(call)) != s {
      FailureFits(cfg, s, call);
      CallOnlyGoal(cfg, s, call, VerificationFailDue(s.calls[call].sid, FinalizationFailed));
    }
    TxGoalIsStepGoal(cfg, s, CallStep(cfg, s, RaiseInside(call)));
  }

  /** A request that reaches the provider late changes no row and no upload that is already settled. */
  lemma LateStep(cfg: Config, s: State, ref: UploadRef)
    requires Inv(cfg, s) && cfg.partSize > 0
    ensures StepGoal(cfg, s, Apply(cfg, s, LateAssembly(ref)))
  {
    var w' := s.world.(uploads := CompleteAtProvider(s.world.uploads, ref, ref in s.sent));
    assert UploadsMove(s.world.uploads, w'.uploads);
    assert RollBack(s.world, w') == w';
    hide Inv, UploadsMove;
    RolledBack(cfg, s, w', s.calls);
  }

  lemma DeletionRequested(cfg: Config, s: State, a: nat)
    requires Inv(cfg, s) && a in s.world.analyses
    ensures StepGoal(cfg, s, s.(world := s.world.(analyses := s.world.analyses[a := DeletionPending])))
  {
    UploadsStay(s.world.uploads);
    RowsStay(s.world.rows);
    assert RegistryInv(cfg, s.world.(analyses := s.world.analyses[a := DeletionPending]));
    hide RegistryInv, QuotaInv, CallsInv, RowOk, RowStep, UploadsMove;
  }

  lemma TickStep(cfg: Config, s: State, elapsed: nat)
    requires Inv(cfg, s)
    ensures StepGoal(cfg, s, s.(now := s.now + elapsed))
  {
    UploadsStay(s.world.uploads);
    RowsStay(s.world.rows);
    hide QuotaInv, RegistryInv, CallsInv, UploadsMove, RowStep;
  }

  lemma TxGoalIsStepGoal(cfg: Config, s: State, t: State)
    requires TxGoal(cfg, s, t)
    ensures StepGoal(cfg, s, t)
  {}

  /** Every event keeps the invariant and moves every row along an edge of the status graph. */
  lemma EventStep(cfg: Config, s: State, e: Event)
    requires Inv(cfg, s) && cfg.partSize > 0
    ensures StepGoal(cfg, s, Apply(cfg, s, e))
  {
    hide Inv, StepGoal, TxGoal, Exec, ExecDying, CallStep, CompleteAtProvider;
    match e {
      case Tick(elapsed) => TickStep(cfg, s, elapsed);
      case Commit(tx) =>
        TxStep(cfg, s, tx);
        TxGoalIsStepGoal(cfg, s, Exec(cfg, s, tx));
      case DieInside(tx) => DyingStep(cfg, s, tx);
      case Die(call) =>
        DropKeeps(cfg, s, call);
        TxGoalIsStepGoal(cfg, s, s.(calls := Drop(s.calls, call)));
      case RequestDeletion(a) =>
        NothingHappens(cfg, s);
        TxGoalIsStepGoal(cfg, s, s);
        if a in s.world.analyses { DeletionRequested(cfg, s, a); }
      case AnswerCompletion(call, assembled, reported) => AnswerStep(cfg, s, call, assembled, reported);
      case RunWorkflow(call, registers, failure) => WorkflowStep(cfg, s, call, registers, failure);
      case ReadHead(call, head) => ReadHeadStep(cfg, s, call, head);
      case ReadResumed(call) => ReadResumedStep(cfg, s, call);
      case HashObject(call, identity, sha256, stamped) => HashStep(cfg, s, call, identity, sha256, stamped);
      case RaiseInside(call) => RaiseStep(cfg, s, call);
      case LateAssembly(ref) => LateStep(cfg, s, ref);
    }
  }
}
