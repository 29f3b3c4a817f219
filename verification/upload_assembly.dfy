/** Nothing is verified before it exists: a session past completion has an assembled object, and objects
    come only from completions that were begun. */
module UploadAssembly {
  import opened Common
  import opened UploadRows
  import opened UploadProtocol
  import opened UploadInvariant
  import opened UploadSteps
  import opened UploadTheorems

  predicate Past(status: Status) { status == Verifying || status == Analyzing || status == Completed }

  ghost predicate PastIsAssembled(s: State) {
    (forall id :: id in s.world.rows && Past(s.world.rows[id].status) ==>
       IsAssembled(s.world.uploads, s.world.rows[id].Ref()))
    && (forall c :: c in s.calls && s.calls[c].HeadRead? ==>
          s.calls[c].sid in s.world.rows && IsAssembled(s.world.uploads, s.world.rows[s.calls[c].sid].Ref()))
  }

  ghost predicate AssembledIsSent(s: State) {
    (forall ref :: IsAssembled(s.world.uploads, ref) ==> ref in s.sent)
    && (forall c :: c in s.calls && s.calls[c].CompletionSent? ==>
          s.calls[c].sid in s.world.rows && s.world.rows[s.calls[c].sid].Ref() in s.sent)
  }

  ghost predicate ObjectsOk(s: State) { PastIsAssembled(s) && AssembledIsSent(s) }

  // ---------------------------------------------------------------- steps that begin nothing

  /** No session starts to be verified, and new sessions start at the beginning. */
  ghost predicate RowsQuiet(rows: Rows, rows': Rows) {
    forall id :: id in rows' ==>
      if id in rows then rows'[id].status == Verifying ==> rows[id].status == Verifying
      else rows'[id].status == Initiated
  }

  ghost predicate CallsQuiet(calls: map<nat, Call>, calls': map<nat, Call>) {
    forall c :: c in calls' && (calls'[c].HeadRead? || calls'[c].CompletionSent?) ==>
      c in calls && calls'[c] == calls[c]
  }

  ghost predicate UploadsQuiet(u: Uploads, u': Uploads) {
    forall ref :: IsAssembled(u', ref) ==> IsAssembled(u, ref)
  }

  /** A step that begins no completion, reads no object and assembles none. */
  ghost predicate BeginsNothing(s: State, t: State) {
    RowsQuiet(s.world.rows, t.world.rows) && CallsQuiet(s.calls, t.calls)
    && UploadsQuiet(s.world.uploads, t.world.uploads) && t.sent == s.sent
  }

  lemma SameRef(w: World, w': World, id: SessionId)
    requires WorldStep(w, w') && id in w.rows
    ensures id in w'.rows && w'.rows[id].Ref() == w.rows[id].Ref()
    ensures IsAssembled(w.uploads, w.rows[id].Ref()) ==> IsAssembled(w'.uploads, w'.rows[id].Ref())
    ensures Past(w'.rows[id].status) ==> Past(w.rows[id].status) || w'.rows[id].status == Verifying
  {}

  lemma QuietKeepsPast(cfg: Config, s: State, t: State)
    requires PastIsAssembled(s) && StepGoal(cfg, s, t) && BeginsNothing(s, t)
    ensures PastIsAssembled(t)
  {
    hide Inv, WorldStep, IsAssembled;
    forall id | id in t.world.rows && Past(t.world.rows[id].status)
      ensures IsAssembled(t.world.uploads, t.world.rows[id].Ref())
    {
      if id in s.world.rows { SameRef(s.world, t.world, id); }
    }
    forall c | c in t.calls && t.calls[c].HeadRead?
      ensures t.calls[c].sid in t.world.rows
      ensures IsAssembled(t.world.uploads, t.world.rows[t.calls[c].sid].Ref())
    {
      SameRef(s.world, t.world, s.calls[c].sid);
    }
  }

  lemma QuietKeepsSent(cfg: Config, s: State, t: State)
    requires AssembledIsSent(s) && StepGoal(cfg, s, t) && BeginsNothing(s, t)
    ensures AssembledIsSent(t)
  {
    hide Inv, WorldStep, IsAssembled;
    forall c | c in t.calls && t.calls[c].CompletionSent?
      ensures t.calls[c].sid in t.world.rows && t.world.rows[t.calls[c].sid].Ref() in t.sent
    {
      SameRef(s.world, t.world, s.calls[c].sid);
    }
  }

  lemma QuietKeeps(cfg: Config, s: State, t: State)
    requires ObjectsOk(s) && StepGoal(cfg, s, t) && BeginsNothing(s, t)
    ensures ObjectsOk(t)
  {
    hide StepGoal, BeginsNothing, PastIsAssembled, AssembledIsSent;
    QuietKeepsPast(cfg, s, t);
    QuietKeepsSent(cfg, s, t);
  }

  // ---------------------------------------------------------------- which steps begin nothing

  lemma AbortIsQuiet(uploads: Uploads, ref: UploadRef)
    ensures UploadsQuiet(uploads, AbortUpload(uploads, ref))
  {}

  lemma ExpiryIsQuiet(r: UploadSession, uploads: Uploads, unreachable: set<UploadRef>, now: Time)
    ensures var step := ExpireIfNeeded(r, uploads, unreachable, now);
            step.Some? ==> UploadsQuiet(uploads, step.value.1)
                           && (step.value.0.status == r.status || step.value.0.status == Expired)
  {
    AbortIsQuiet(uploads, r.Ref());
  }

  lemma {:induction false} ReconcileIsQuiet(
      rows: Rows, uploads: Uploads, ids: seq<SessionId>, unreachable: set<UploadRef>, now: Time)
    requires forall id :: id in ids ==> id in rows
    ensures var out := ReconcileClaims(rows, uploads, ids, unreachable, now);
            out.0.Keys == rows.Keys && RowsQuiet(rows, out.0) && UploadsQuiet(uploads, out.1)
  {
    if ids != [] {
      ExpiryIsQuiet(rows[ids[0]], uploads, unreachable, now);
      match ExpireIfNeeded(rows[ids[0]], uploads, unreachable, now) {
        case None =>
        case Some(step) =>
          var rows1 := rows[ids[0] := step.0];
          assert rows1.Keys == rows.Keys;
          hide ExpireIfNeeded;
          ReconcileIsQuiet(rows1, step.1, ids[1..], unreachable, now);
      }
    }
  }

  lemma AdmissionIsQuiet(cfg: Config, w: World, now: Time, req: InitiateRequest, id: SessionId, env: Provider)
    requires cfg.partSize > 0
    ensures var out := AdmitTx(cfg, w, now, req, id, env);
            UploadsQuiet(w.uploads, out.world.uploads) && (!out.reply.Raised? ==> RowsQuiet(w.rows, out.world.rows))
  {
    var ids := SortedIds(ClaimIds(w.rows, req.owner, now));
    ReconcileIsQuiet(w.rows, w.uploads, ids, env.unreachable, now);
    AdmitShape(cfg, w, now, req, id, env);
    var out := AdmitTx(cfg, w, now, req, id, env);
    hide ReconcileClaims, ActiveIds;
    if out.reply.Raised? {
    } else {
      hide AdmitTx;
    }
  }

  lemma InitiateIsQuiet(cfg: Config, s: State, req: InitiateRequest, id: SessionId, env: Provider)
    requires cfg.partSize > 0
    ensures BeginsNothing(s, Exec(cfg, s, Initiate(req, id, env)))
  {
    hide AdmitTx, ResumeTx, UploadsQuiet, CallsQuiet;
    assert UploadsQuiet(s.world.uploads, s.world.uploads) && CallsQuiet(s.calls, s.calls) by { Still(s); }
    var found := FindByKey(s.world.rows, req.owner, req.keyHash);
    if found.None? {
      AdmissionIsQuiet(cfg, s.world, s.now, req, id, env);
    } else {
      ExpiryIsQuiet(s.world.rows[found.value], s.world.uploads, env.unreachable, s.now);
      ResumeShape(s.world, s.now, req, found.value, env);
      hide ExpireIfNeeded;
    }
  }

  lemma Still(s: State)
    ensures UploadsQuiet(s.world.uploads, s.world.uploads) && CallsQuiet(s.calls, s.calls)
    ensures RowsQuiet(s.world.rows, s.world.rows) && BeginsNothing(s, s)
  {}

  lemma RefreshIsQuiet(cfg: Config, s: State, owner: OwnerId, id: SessionId, env: Provider)
    requires cfg.partSize > 0
    ensures BeginsNothing(s, Exec(cfg, s, Refresh(owner, id, env)))
  {
    Still(s);
    if Owned(s.world, owner, id) { ExpiryIsQuiet(s.world.rows[id], s.world.uploads, env.unreachable, s.now); }
    hide ExpireIfNeeded, UploadsQuiet, CallsQuiet;
  }

  lemma ReleaseIsQuiet(cfg: Config, s: State, call: nat, env: Provider)
    requires cfg.partSize > 0
    ensures BeginsNothing(s, Exec(cfg, s, Release(call, env)))
  {
    Still(s);
    if call in s.calls && s.calls[call].CancelFenced? {
      ReleaseShape(cfg, s, call, env);
      if s.calls[call].sid in s.world.rows {
        AbortIsQuiet(s.world.uploads, s.world.rows[s.calls[call].sid].Ref());
      }
      hide Exec, AbortUpload, UploadsQuiet;
    }
  }

  lemma SweepIsQuiet(cfg: Config, s: State, id: SessionId, asOf: Time, env: Provider)
    requires cfg.partSize > 0
    ensures BeginsNothing(s, Exec(cfg, s, Sweep(id, asOf, env)))
  {
    Still(s);
    if id in s.world.rows { AbortIsQuiet(s.world.uploads, s.world.rows[id].Ref()); }
    hide AbortUpload, UploadsQuiet, CallsQuiet;
  }

  lemma VerificationIsQuiet(cfg: Config, s: State, tx: Tx)
    requires tx.RecordVerified? || tx.CommitIntent? || tx.CommitResult? || tx.WorkerCleanup? || tx.FailVerification?
    ensures BeginsNothing(s, ExecVerification(cfg, s, tx))
  {
    Still(s);
    hide CleanupAllowed, UploadsQuiet;
  }

  lemma CompletionIsQuiet(s: State, tx: Tx)
    requires tx.Restore? || tx.FailCompletion?
    ensures BeginsNothing(s, ExecCompletion(s, tx))
  {
    Still(s);
    hide UploadsQuiet;
  }

  lemma PartUrlsAreQuiet(cfg: Config, s: State, owner: OwnerId, id: SessionId, numbers: seq<nat>, env: Provider)
    requires cfg.partSize > 0
    ensures BeginsNothing(s, Exec(cfg, s, PartUrls(owner, id, numbers, env)))
  {
    hide Exec, UploadsQuiet, CallsQuiet;
    Still(s);
    PartUrlsShape(cfg, s, owner, id, numbers, env);
  }

  lemma FenceIsQuiet(cfg: Config, s: State, owner: OwnerId, id: SessionId, call: nat)
    requires cfg.partSize > 0
    ensures BeginsNothing(s, Exec(cfg, s, Fence(owner, id, call)))
  {
    hide Exec, UploadsQuiet;
    Still(s);
    FenceShape(cfg, s, owner, id, call);
  }

  lemma LeaseIsQuiet(cfg: Config, s: State, id: SessionId, at: Time, call: nat)
    requires cfg.partSize > 0
    ensures BeginsNothing(s, Exec(cfg, s, Lease(id, at, call)))
  {
    hide Exec, UploadsQuiet;
    Still(s);
    LeaseShape(cfg, s, id, at, call);
  }

  lemma CleanupIsQuiet(cfg: Config, s: State, owner: OwnerId, id: SessionId, env: Provider)
    requires cfg.partSize > 0
    ensures BeginsNothing(s, Exec(cfg, s, Cleanup(owner, id, env)))
  {
    hide CleanupAllowed, UploadsQuiet, CallsQuiet;
    Still(s);
  }

  /** Every transaction but the first and the second of a completion. */
  lemma TxIsQuiet(cfg: Config, s: State, tx: Tx)
    requires cfg.partSize > 0 && !tx.BeginComplete? && !tx.FinishComplete?
    ensures BeginsNothing(s, Exec(cfg, s, tx))
  {
    hide BeginsNothing, InitiateTx, RefreshTx, ReleaseTx, SweepTx, ExecVerification, ExecCompletion;
    match tx
    case Initiate(req, id, env) => InitiateIsQuiet(cfg, s, req, id, env);
    case Refresh(owner, id, env) => RefreshIsQuiet(cfg, s, owner, id, env);
    case Release(call, env) => ReleaseIsQuiet(cfg, s, call, env);
    case Sweep(id, asOf, env) => SweepIsQuiet(cfg, s, id, asOf, env);
    case Restore(_) => CompletionIsQuiet(s, tx);
    case FailCompletion(_) => CompletionIsQuiet(s, tx);
    case PartUrls(owner, id, numbers, env) => PartUrlsAreQuiet(cfg, s, owner, id, numbers, env);
    case Fence(owner, id, call) => FenceIsQuiet(cfg, s, owner, id, call);
    case Lease(id, at, call) => LeaseIsQuiet(cfg, s, id, at, call);
    case Cleanup(owner, id, env) => CleanupIsQuiet(cfg, s, owner, id, env);
    case _ => VerificationIsQuiet(cfg, s, tx);
  }

  // ---------------------------------------------------------------- the steps that begin something

  lemma BeginObjects(cfg: Config, s: State, owner: OwnerId, id: SessionId, parts: seq<nat>, call: nat)
    requires ObjectsOk(s) && cfg.partSize > 0
    ensures ObjectsOk(Exec(cfg, s, BeginComplete(owner, id, parts, call)))
  {
    BeginCompleteShape(cfg, s, owner, id, parts, call);
    hide Exec, IsAssembled;
  }

  lemma FinishShape(cfg: Config, s: State, call: nat)
    requires cfg.partSize > 0
    ensures var t := Exec(cfg, s, FinishComplete(call));
            t == s || (call in s.calls && s.calls[call].HeadRead? && t.calls == Drop(s.calls, call) && t.sent == s.sent
                       && t.world.uploads == s.world.uploads
                       && FinishedRow(s.world.rows, t.world.rows, s.calls[call].sid))
  {
    hide HeadMatches;
  }

  /** At most one row changed, and not its facts. */
  predicate FinishedRow(rows: Rows, rows': Rows, id: SessionId) {
    rows' == rows || (id in rows && id in rows' && rows'[id].facts == rows[id].facts && rows' == rows[id := rows'[id]])
  }

  lemma FinishObjects(cfg: Config, s: State, call: nat)
    requires ObjectsOk(s) && cfg.partSize > 0
    ensures ObjectsOk(Exec(cfg, s, FinishComplete(call)))
  {
    FinishShape(cfg, s, call);
    hide Exec, IsAssembled;
  }

  lemma TxObjects(cfg: Config, s: State, tx: Tx)
    requires Inv(cfg, s) && ObjectsOk(s) && cfg.partSize > 0
    ensures ObjectsOk(Exec(cfg, s, tx))
  {
    hide Inv, ObjectsOk, Exec, StepGoal, TxGoal, BeginsNothing;
    match tx
    case BeginComplete(owner, id, parts, call) => BeginObjects(cfg, s, owner, id, parts, call);
    case FinishComplete(call) => FinishObjects(cfg, s, call);
    case _ =>
      TxStep(cfg, s, tx);
      TxGoalIsStepGoal(cfg, s, Exec(cfg, s, tx));
      TxIsQuiet(cfg, s, tx);
      QuietKeeps(cfg, s, Exec(cfg, s, tx));
  }

  /** The provider's half of a transaction assembles nothing, whichever transaction it is. */
  lemma TxAssemblesNothing(cfg: Config, s: State, tx: Tx)
    requires cfg.partSize > 0
    ensures UploadsQuiet(s.world.uploads, Exec(cfg, s, tx).world.uploads)
  {
    hide Exec, UploadsQuiet;
    match tx
    case BeginComplete(owner, id, parts, call) =>
      BeginCompleteShape(cfg, s, owner, id, parts, call);
      Still(s);
    case FinishComplete(call) =>
      FinishShape(cfg, s, call);
      Still(s);
    case _ => TxIsQuiet(cfg, s, tx);
  }

  lemma DyingIsQuiet(cfg: Config, s: State, tx: Tx)
    requires cfg.partSize > 0
    ensures BeginsNothing(s, ExecDying(cfg, s, tx))
  {
    TxAssemblesNothing(cfg, s, tx);
    hide Exec, UploadsQuiet;
  }

  lemma AnswerObjects(cfg: Config, s: State, call: nat, assembled: bool, reported: bool)
    requires ObjectsOk(s)
    ensures ObjectsOk(CallStep(cfg, s, AnswerCompletion(call, assembled, reported)))
  {}

  lemma ReadObjects(cfg: Config, s: State, call: nat, head: Option<Head>)
    requires ObjectsOk(s)
    ensures ObjectsOk(CallStep(cfg, s, ReadHead(call, head)))
  {
    hide IsAssembled;
  }

  lemma LateObjects(cfg: Config, s: State, ref: UploadRef)
    requires ObjectsOk(s) && cfg.partSize > 0
    ensures ObjectsOk(Apply(cfg, s, LateAssembly(ref)))
  {}

  lemma OtherEventsAreQuiet(cfg: Config, s: State, e: Event)
    requires cfg.partSize > 0
    requires e.Tick? || e.Die? || e.RequestDeletion? || e.ReadResumed? || e.HashObject? || e.RunWorkflow?
             || e.RaiseInside?
    ensures BeginsNothing(s, Apply(cfg, s, e))
  {
    Still(s);
    hide UploadsQuiet;
  }

  lemma EventObjects(cfg: Config, s: State, e: Event)
    requires Inv(cfg, s) && ObjectsOk(s) && cfg.partSize > 0
    ensures ObjectsOk(Apply(cfg, s, e))
  {
    hide Inv, ObjectsOk, Exec, ExecDying, CallStep, StepGoal, BeginsNothing, CompleteAtProvider;
    match e
    case Commit(tx) => TxObjects(cfg, s, tx);
    case DieInside(tx) =>
      DyingStep(cfg, s, tx);
      DyingIsQuiet(cfg, s, tx);
      QuietKeeps(cfg, s, ExecDying(cfg, s, tx));
    case AnswerCompletion(call, assembled, reported) => AnswerObjects(cfg, s, call, assembled, reported);
    case ReadHead(call, head) => ReadObjects(cfg, s, call, head);
    case LateAssembly(ref) => LateObjects(cfg, s, ref);
    case _ =>
      EventStep(cfg, s, e);
      OtherEventsAreQuiet(cfg, s, e);
      QuietKeeps(cfg, s, Apply(cfg, s, e));
  }

  lemma {:induction false} RunObjects(cfg: Config, s: State, events: seq<Event>)
    requires Inv(cfg, s) && ObjectsOk(s) && cfg.partSize > 0
    ensures ObjectsOk(Run(cfg, s, events))
    decreases |events|
  {
    if events != [] {
      hide Inv, ObjectsOk, Apply, StepGoal;
      EventObjects(cfg, s, events[0]);
      InvGoesOn(cfg, s, events[0]);
      RunObjects(cfg, Apply(cfg, s, events[0]), events[1..]);
    }
  }

  lemma InvGoesOn(cfg: Config, s: State, e: Event)
    requires Inv(cfg, s) && cfg.partSize > 0
    ensures Inv(cfg, Apply(cfg, s, e))
  {
    hide Inv, Apply, WorldStep;
    EventStep(cfg, s, e);
  }

  lemma ReachableObjects(cfg: Config, s: State)
    requires Reachable(cfg, s)
    ensures ObjectsOk(s)
  {
    var now, events :| cfg.partSize > 0 && s == Run(cfg, Start(now), events);
    StartInv(cfg, now);
    assert ObjectsOk(Start(now));
    hide Inv, ObjectsOk, Run;
    RunObjects(cfg, Start(now), events);
  }

  // ---------------------------------------------------------------- theorems

  /** A session that is verifying, analyzing or completed has an assembled object, then and in every
      later state; and a completion of it was begun. */
  lemma VerifiedUploadsAreAssembled(cfg: Config, s: State, events: seq<Event>, id: SessionId)
    requires Reachable(cfg, s) && id in s.world.rows && Past(s.world.rows[id].status)
    ensures var ref := s.world.rows[id].Ref();
            IsAssembled(s.world.uploads, ref) && ref in s.sent
            && IsAssembled(Run(cfg, s, events).world.uploads, ref)
  {
    ReachableObjects(cfg, s);
    hide Run, Reachable;
    SettledUploadsStay(cfg, s, events, s.world.rows[id].Ref());
  }

  /** An object exists only if a completion of its upload was begun. */
  lemma ObjectsComeFromCompletions(cfg: Config, s: State, ref: UploadRef)
    requires Reachable(cfg, s) && IsAssembled(s.world.uploads, ref)
    ensures ref in s.sent
  {
    ReachableObjects(cfg, s);
  }
}
