/** What the direct-upload protocol guarantees over every run: any number of owners, sessions and
    concurrent calls, in any interleaving, with crashes, retries and provider failures. */
module UploadTheorems {
  import opened Common
  import opened UploadParts
  import opened UploadRows
  import opened UploadProtocol
  import opened UploadInvariant
  import opened UploadSteps

  lemma StartInv(cfg: Config, now: Time)
    ensures Inv(cfg, Start(now))
  {
    forall owner ensures |ActiveIds(EMPTY.rows, owner)| <= cfg.maxActive {
      assert ActiveIds(EMPTY.rows, owner) == {};
    }
  }

  /** The two-state half of every guarantee: rows never disappear, never leave a terminal status,
      a status change always raises the row version, and uploads that are settled at the provider stay so. */
  ghost predicate RunGoal(cfg: Config, s: State, s': State) {
    Inv(cfg, s') && RowsMove(s.world.rows, s'.world.rows) && s.world.deleted <= s'.world.deleted
    && UploadsMove(s.world.uploads, s'.world.uploads)
  }

  lemma RowMoveTrans(a: UploadSession, b: UploadSession, c: UploadSession)
    requires RowMove(a, b) && RowMove(b, c)
    ensures RowMove(a, c)
  {}

  lemma RowsMoveTrans(a: Rows, b: Rows, c: Rows)
    requires RowsMove(a, b) && RowsMove(b, c)
    ensures RowsMove(a, c)
  {
    hide RowMove;
    forall id | id in a ensures id in c && RowMove(a[id], c[id]) { RowMoveTrans(a[id], b[id], c[id]); }
  }

  lemma UploadsMoveTrans(a: Uploads, b: Uploads, c: Uploads)
    requires UploadsMove(a, b) && UploadsMove(b, c)
    ensures UploadsMove(a, c)
  {}

  lemma OneEventGoal(cfg: Config, s: State, e: Event)
    requires Inv(cfg, s) && cfg.partSize > 0
    ensures RunGoal(cfg, s, Apply(cfg, s, e))
  {
    hide Inv, Apply, UploadsMove, RowMove;
    EventStep(cfg, s, e);
  }

  lemma {:induction false} RunKeeps(cfg: Config, s: State, events: seq<Event>)
    requires Inv(cfg, s) && cfg.partSize > 0
    ensures RunGoal(cfg, s, Run(cfg, s, events))
    decreases |events|
  {
    if events == [] {
      hide Inv;
    } else {
      hide Inv, Apply, RowsMove, UploadsMove;
      var s1 := Apply(cfg, s, events[0]);
      OneEventGoal(cfg, s, events[0]);
      RunKeeps(cfg, s1, events[1..]);
      var s2 := Run(cfg, s1, events[1..]);
      RowsMoveTrans(s.world.rows, s1.world.rows, s2.world.rows);
      UploadsMoveTrans(s.world.uploads, s1.world.uploads, s2.world.uploads);
    }
  }

  /** The states any run can reach. */
  ghost predicate Reachable(cfg: Config, s: State) {
    exists now, events :: cfg.partSize > 0 && s == Run(cfg, Start(now), events)
  }

  lemma ReachableInv(cfg: Config, s: State)
    requires Reachable(cfg, s)
    ensures Inv(cfg, s) && cfg.partSize > 0
  {
    var now, events :| cfg.partSize > 0 && s == Run(cfg, Start(now), events);
    StartInv(cfg, now);
    RunKeeps(cfg, Start(now), events);
  }

  lemma {:induction false} OneMoreEvent(cfg: Config, s: State, events: seq<Event>, e: Event)
    requires cfg.partSize > 0
    ensures Run(cfg, s, events + [e]) == Apply(cfg, Run(cfg, s, events), e)
    decreases |events|
  {
    hide Apply;
    var longer := events + [e];
    if events == [] {
      assert longer[1..] == [];
    } else {
      assert longer[0] == events[0] && longer[1..] == events[1..] + [e];
      OneMoreEvent(cfg, Apply(cfg, s, events[0]), events[1..], e);
    }
  }

  lemma StartIsReachable(cfg: Config, now: Time)
    requires cfg.partSize > 0
    ensures Reachable(cfg, Start(now))
  {
    assert Start(now) == Run(cfg, Start(now), []);
  }

  lemma NextReachable(cfg: Config, s: State, e: Event)
    requires Reachable(cfg, s) && cfg.partSize > 0
    ensures Reachable(cfg, Apply(cfg, s, e))
  {
    var now, events :| cfg.partSize > 0 && s == Run(cfg, Start(now), events);
    OneMoreEvent(cfg, Start(now), events, e);
    hide Apply, Run;
  }

  /** Owner quota: whatever interleaves, no owner ever holds more unfinished sessions than the cap. */
  lemma QuotaHolds(cfg: Config, s: State, owner: OwnerId)
    requires Reachable(cfg, s)
    ensures |ActiveIds(s.world.rows, owner)| <= cfg.maxActive
  {
    ReachableInv(cfg, s);
  }

  /** A fresh admission commits only once the provider has given back every expired or cancelled
      upload of that owner, and it leaves the owner within the cap. */
  lemma AdmissionReleasesClaims(cfg: Config, s: State, req: InitiateRequest, id: SessionId, env: Provider)
    requires Reachable(cfg, s)
    ensures var out := InitiateTx(cfg, s.world, s.now, req, id, env);
            Admits(out.reply, id) && FindByKey(s.world.rows, req.owner, req.keyHash).None? ==>
              id !in s.world.rows && id in out.world.rows
              && ClaimsSettled(out.world.rows - {id}, out.world.uploads, req.owner, s.now)
              && |ActiveIds(out.world.rows, req.owner)| <= cfg.maxActive
  {
    ReachableInv(cfg, s);
    AdmissionSettles(cfg, s, req, id, env);
    InitiateStep(cfg, s, req, id, env);
  }

  /** An idempotency key names one session for ever: whoever repeats the request later gets that
      session or an error, and a different request under the same key is refused. */
  lemma KeyNamesOneSession(cfg: Config, s: State, events: seq<Event>, a: SessionId, req: InitiateRequest,
                           id: SessionId, env: Provider)
    requires Reachable(cfg, s) && a in s.world.rows
    requires s.world.rows[a].facts.owner == req.owner && s.world.rows[a].facts.keyHash == req.keyHash
    ensures var later := Run(cfg, s, events);
            var reply := InitiateTx(cfg, later.world, later.now, req, id, env).reply;
            (reply == Accepted(a, true) || reply.Raised?)
            && (s.world.rows[a].facts.fingerprint != req.fingerprint ==> reply.Raised?)
  {
    ReachableInv(cfg, s);
    RunKeeps(cfg, s, events);
    var later := Run(cfg, s, events);
    var r := later.world.rows[a];
    assert RowMove(s.world.rows[a], r);
    assert MatchesKey(later.world.rows, req.owner, req.keyHash, a);
    var found := FindByKey(later.world.rows, req.owner, req.keyHash);
    assert found == Some(a);
  }

  /** Completed, failed and aborted are never left; expired leads only to aborted; an aborted-at
      stamp means expired or aborted; every status change raised the row version. */
  lemma StatusesAreFinal(cfg: Config, s: State, events: seq<Event>, id: SessionId)
    requires Reachable(cfg, s) && id in s.world.rows
    ensures var later := Run(cfg, s, events).world.rows;
            id in later &&
            var r := s.world.rows[id]; var r' := later[id];
            (r.status == Completed || r.status == Failed || r.status == Aborted ==> r'.status == r.status)
            && (r.status == Expired ==> r'.status == Expired || r'.status == Aborted)
            && (r.abortedAt.Some? ==> r'.status == Expired || r'.status == Aborted)
            && (r'.status != r.status ==> r'.rowVersion > r.rowVersion)
            && r'.facts.owner == r.facts.owner && r'.facts.storageKey == r.facts.storageKey
            && r'.facts.uploadId == r.facts.uploadId
  {
    hide Inv, Run, Reachable, UploadsMove;
    ReachableInv(cfg, s);
    RunKeeps(cfg, s, events);
    RowFact(cfg, Run(cfg, s, events), id);
  }

  /** One event moves a session along one edge of the status graph, or leaves its status alone. */
  lemma OneEdgeAtATime(cfg: Config, s: State, e: Event, id: SessionId)
    requires Reachable(cfg, s) && id in s.world.rows
    ensures id in Apply(cfg, s, e).world.rows
    ensures StatusEdge(s.world.rows[id].status, Apply(cfg, s, e).world.rows[id].status)
    ensures Apply(cfg, s, e).world.rows[id].status != s.world.rows[id].status
        ==> Apply(cfg, s, e).world.rows[id].rowVersion > s.world.rows[id].rowVersion
  {
    ReachableInv(cfg, s);
    hide Inv, Apply;
    EventStep(cfg, s, e);
  }

  /** A session that is analyzing or completed carries a verified checksum, equal to the one the
      client announced when it announced one; so no worker ever finds the checksum missing. */
  lemma VerifiedBeforeAnalysis(cfg: Config, s: State, id: SessionId)
    requires Reachable(cfg, s) && id in s.world.rows
    ensures var r := s.world.rows[id];
            (r.status == Analyzing || r.status == Completed ==>
               r.verifiedSha256.Some? && (r.facts.expectedSha256.Some? ==> r.verifiedSha256 == r.facts.expectedSha256))
            && r.failureReason != Some(VerifiedChecksumMissing)
    ensures forall c :: c in s.calls ==> s.calls[c] != VerificationFailDue(s.calls[c].sid, VerifiedChecksumMissing)
  {
    ReachableInv(cfg, s);
    RowFact(cfg, s, id);
    forall c | c in s.calls ensures s.calls[c] != VerificationFailDue(s.calls[c].sid, VerifiedChecksumMissing) {
      CallFact(cfg, s, c);
    }
  }

  /** Once the intent to delete a duplicate is committed, the only other status the session can
      ever have is completed, whatever competing workers, late failures and crashes do. */
  lemma IntentLeadsToCompleted(cfg: Config, s: State, events: seq<Event>, id: SessionId)
    requires Reachable(cfg, s) && id in s.world.rows && IntentCommitted(s.world.rows[id])
    ensures var later := Run(cfg, s, events).world.rows;
            s.world.rows[id].status == Analyzing && id in later
            && (later[id].status == Completed || (later[id].status == Analyzing && IntentCommitted(later[id])))
            && later[id].result == s.world.rows[id].result
  {
    ReachableInv(cfg, s);
    RunKeeps(cfg, s, events);
    RowFact(cfg, s, id);
    RowFact(cfg, Run(cfg, s, events), id);
  }

  /** A source object is deleted only for a session settled as a duplicate, and in no later state
      is that key the source of a registered analysis or video. */
  lemma DeletedSourcesStayUnused(cfg: Config, s: State, events: seq<Event>, key: StorageKey)
    requires Reachable(cfg, s) && key in s.world.deleted
    ensures var later := Run(cfg, s, events).world;
            key.analysisId in later.rows && later.rows[key.analysisId].facts.storageKey == key
            && Settled(later.rows[key.analysisId])
            && later.rows[key.analysisId].result.Some? && later.rows[key.analysisId].result.value.Duplicate?
            && key !in later.videos && key.analysisId !in later.analyses
  {
    ReachableInv(cfg, s);
    RunKeeps(cfg, s, events);
    var later := Run(cfg, s, events);
    assert DeletedOk(cfg, later.world.rows, key);
    RowFact(cfg, later, key.analysisId);
  }

  lemma AdmissionDeletesNothing(cfg: Config, w: World, now: Time, req: InitiateRequest, id: SessionId, env: Provider)
    requires cfg.partSize > 0
    ensures InitiateTx(cfg, w, now, req, id, env).world.deleted == w.deleted
  {
    hide ReconcileClaims, ExpireIfNeeded, ActiveIds, ClaimIds, FindByKey;
  }

  lemma VerificationDeletesNothing(cfg: Config, s: State, tx: Tx)
    requires tx.RecordVerified? || tx.CommitIntent? || tx.CommitResult? || tx.FailVerification?
    ensures ExecVerification(cfg, s, tx).world.deleted == s.world.deleted
  {}

  lemma CompletionDeletesNothing(s: State, tx: Tx)
    requires tx.FinishComplete? || tx.Restore? || tx.FailCompletion?
    ensures ExecCompletion(s, tx).world.deleted == s.world.deleted
  {}

  /** The only transaction that deletes a source is the duplicate cleanup. */
  lemma OnlyCleanupDeletes(cfg: Config, s: State, tx: Tx)
    requires cfg.partSize > 0
    requires !tx.Cleanup? && !tx.WorkerCleanup?
    ensures Exec(cfg, s, tx).world.deleted == s.world.deleted
  {
    hide InitiateTx, ExecCompletion, ExecVerification, ExpireIfNeeded, Ascending, OneTo;
    match tx
    case Initiate(req, id, env) => AdmissionDeletesNothing(cfg, s.world, s.now, req, id, env);
    case FinishComplete(_) => CompletionDeletesNothing(s, tx);
    case Restore(_) => CompletionDeletesNothing(s, tx);
    case FailCompletion(_) => CompletionDeletesNothing(s, tx);
    case RecordVerified(_) => VerificationDeletesNothing(cfg, s, tx);
    case CommitIntent(_) => VerificationDeletesNothing(cfg, s, tx);
    case CommitResult(_) => VerificationDeletesNothing(cfg, s, tx);
    case FailVerification(_) => VerificationDeletesNothing(cfg, s, tx);
    case _ =>
  }

  /** What the cleanup transaction deletes. */
  lemma CleanupDeletes(w: World, now: Time, owner: OwnerId, id: SessionId, env: Provider)
    ensures var out := CleanupTx(w, now, owner, id, env);
            out.world.deleted == w.deleted
            || (id in w.rows && IntentCommitted(w.rows[id]) && CleanupAllowed(w, owner, w.rows[id])
                && out.world.deleted == w.deleted + {w.rows[id].facts.storageKey})
  {}

  lemma CleanupExec(cfg: Config, s: State, tx: Tx)
    requires cfg.partSize > 0
             && (tx.Cleanup? || (tx.WorkerCleanup? && tx.call in s.calls && s.calls[tx.call].CleanupDue?))
    ensures Exec(cfg, s, tx).world.deleted
         == if tx.Cleanup? then CleanupTx(s.world, s.now, tx.owner, tx.id, tx.env).world.deleted
            else CleanupTx(s.world, s.now, s.calls[tx.call].owner, s.calls[tx.call].sid, tx.env).world.deleted
  {
    hide CleanupTx;
  }

  lemma WorkerCleanupIdle(cfg: Config, s: State, tx: Tx)
    requires cfg.partSize > 0 && tx.WorkerCleanup? && (tx.call !in s.calls || !s.calls[tx.call].CleanupDue?)
    ensures Exec(cfg, s, tx) == s
  {}

  lemma StepsDeleteNothing(cfg: Config, s: State, e: Event)
    requires cfg.partSize > 0 && !e.Commit? && !e.DieInside?
    ensures Apply(cfg, s, e).world.deleted == s.world.deleted
  {}

  /** A step deletes a source only under a committed cleanup intent, and only when neither an
      analysis nor a video is registered on it at that moment. */
  lemma DeletionNeedsIntent(cfg: Config, s: State, e: Event, key: StorageKey)
    requires Reachable(cfg, s) && cfg.partSize > 0
    requires key !in s.world.deleted && key in Apply(cfg, s, e).world.deleted
    ensures var id := key.analysisId;
            id in s.world.rows && s.world.rows[id].facts.storageKey == key
            && IntentCommitted(s.world.rows[id]) && s.world.rows[id].status == Analyzing
            && id !in s.world.analyses && key !in s.world.videos
  {
    ReachableInv(cfg, s);
    hide Inv, Reachable;
    if !e.Commit? && !e.DieInside? {
      StepsDeleteNothing(cfg, s, e);
      assert false;
    } else {
      var tx := e.tx;
      assert key in Exec(cfg, s, tx).world.deleted;
      hide Exec, Apply, CleanupTx;
      if !tx.Cleanup? && !tx.WorkerCleanup? {
        OnlyCleanupDeletes(cfg, s, tx);
        assert false;
      } else if tx.WorkerCleanup? && (tx.call !in s.calls || !s.calls[tx.call].CleanupDue?) {
        WorkerCleanupIdle(cfg, s, tx);
        assert false;
      } else {
        CleanupExec(cfg, s, tx);
        var owner := if tx.Cleanup? then tx.owner else s.calls[tx.call].owner;
        var id := if tx.Cleanup? then tx.id else s.calls[tx.call].sid;
        CleanupDeletes(s.world, s.now, owner, id, tx.env);
        RowFact(cfg, s, id);
      }
    }
  }

  predicate CompletionUnderWay(s: State, id: SessionId) {
    exists c :: c in s.calls && CompletionCall(s.calls[c]) && s.calls[c].sid == id
  }

  /** The fence: once a cancellation has committed its first transaction, no completion of that
      session is in flight then or ever again, so none can race the provider abort. A request the
      provider executes late can still assemble the upload, but only until it is given back: from the
      moment the row carries its abort stamp the upload is not open, and never changes again. */
  lemma CancellationFencesCompletion(cfg: Config, s: State, events: seq<Event>, id: SessionId)
    requires Reachable(cfg, s) && id in s.world.rows && s.world.rows[id].status == Expired
    ensures var later := Run(cfg, s, events);
            !CompletionUnderWay(later, id) && id in later.world.rows
            && later.world.rows[id].Ref() == s.world.rows[id].Ref()
    ensures var ref := s.world.rows[id].Ref();
            s.world.rows[id].abortedAt.Some? ==>
              ref in s.world.uploads && s.world.uploads[ref] != Open
              && ref in Run(cfg, s, events).world.uploads
              && Run(cfg, s, events).world.uploads[ref] == s.world.uploads[ref]
  {
    StatusesAreFinal(cfg, s, events, id);
    ReachableInv(cfg, s);
    RunKeeps(cfg, s, events);
    RefFact(cfg, s, id);
    hide Inv, Run, Reachable, CompletionCall, RowsMove;
    NoCompletionCall(cfg, Run(cfg, s, events), id);
  }

  lemma RefFact(cfg: Config, s: State, id: SessionId)
    requires Inv(cfg, s) && id in s.world.rows
    ensures s.world.rows[id].Ref() in s.world.uploads
    ensures s.world.rows[id].abortedAt.Some? ==> !HeldOpen(s.world.uploads, s.world.rows[id].Ref())
  {}

  /** Whatever a late request does, an upload that was given back never becomes an object, and an
      object never becomes an open upload again. */
  lemma SettledUploadsStay(cfg: Config, s: State, events: seq<Event>, ref: UploadRef)
    requires Reachable(cfg, s) && ref in s.world.uploads && s.world.uploads[ref] != Open
    ensures var later := Run(cfg, s, events).world.uploads; ref in later && later[ref] == s.world.uploads[ref]
  {
    ReachableInv(cfg, s);
    RunKeeps(cfg, s, events);
    hide Inv, Run, Reachable, RowsMove;
  }

  /** At most one completion per session talks to the provider, and while it does the session is
      `completing`, so neither expiry, cancellation nor the sweeper touches it. */
  lemma OneCompletionAtATime(cfg: Config, s: State, c: nat, d: nat)
    requires Reachable(cfg, s) && c in s.calls && d in s.calls && CompletionCall(s.calls[c])
             && CompletionCall(s.calls[d])
    ensures s.calls[c].sid in s.world.rows && s.world.rows[s.calls[c].sid].status == Completing
    ensures s.calls[c].sid == s.calls[d].sid ==> c == d
  {
    ReachableInv(cfg, s);
    CompletionCallsComplete(cfg, s.world.rows, s.calls);
    CallsAreUnique(cfg, s.world.rows, s.calls);
  }

  /** The second transaction of a cancellation only ever finds its session expired or aborted:
      its test for an unfinished upload never fires. */
  lemma FencedStaysFenced(cfg: Config, s: State, c: nat)
    requires Reachable(cfg, s) && c in s.calls && s.calls[c].CancelFenced?
    ensures s.calls[c].sid in s.world.rows
    ensures s.world.rows[s.calls[c].sid].status == Expired || s.world.rows[s.calls[c].sid].status == Aborted
  {
    ReachableInv(cfg, s);
    CallFact(cfg, s, c);
  }
}
