/** The direct-upload protocol as one transition system: the world, a clock, and the calls that are
    between two of their steps. Any number of calls may be in flight, a process may die between any
    two steps or inside a transaction, and provider calls may fail, answer ambiguously, or take effect
    long after their caller has given up on them. */
module UploadProtocol {
  import opened Common
  import opened UploadRows

  /** Where a call stands between two atomic steps. */
  datatype Call =
    | CompletionSent(sid: SessionId)
    | CompletionAnswered(sid: SessionId, reported: bool)
    | HeadRead(sid: SessionId, head: Head)
    | RestoreDue(sid: SessionId)
    | CompletionFailDue(sid: SessionId)
    | CancelFenced(sid: SessionId, owner: OwnerId)
    | ResumeDue(sid: SessionId, verified: Option<Checksum>)
    | HashDue(sid: SessionId)
    | Hashed(sid: SessionId, checksum: Checksum, size: int)
    | WorkflowDue(sid: SessionId, checksum: Checksum)
    | WorkflowAnswered(sid: SessionId, outcome: Outcome)
    | CleanupDue(sid: SessionId, owner: OwnerId)
    | VerificationFailDue(sid: SessionId, reason: Reason)

  /** `sent` holds the uploads whose completion may have been requested from the provider. */
  datatype State = State(now: Time, world: World, calls: map<nat, Call>, sent: set<UploadRef>)

  /** One database transaction, with the provider behaviour it meets and the call it belongs to. */
  datatype Tx =
    | Initiate(req: InitiateRequest, id: SessionId, env: Provider)
    | Refresh(owner: OwnerId, id: SessionId, env: Provider)
    | PartUrls(owner: OwnerId, id: SessionId, numbers: seq<nat>, env: Provider)
    | BeginComplete(owner: OwnerId, id: SessionId, parts: seq<nat>, call: nat)
    | FinishComplete(call: nat)
    | Restore(call: nat)
    | FailCompletion(call: nat)
    | Fence(owner: OwnerId, id: SessionId, call: nat)
    | Release(call: nat, env: Provider)
    | Sweep(id: SessionId, asOf: Time, env: Provider)
    | Lease(id: SessionId, at: Time, call: nat)
    | RecordVerified(call: nat)
    | CommitIntent(call: nat)
    | CommitResult(call: nat)
    | WorkerCleanup(call: nat, env: Provider)
    | Cleanup(owner: OwnerId, id: SessionId, env: Provider)
    | FailVerification(call: nat)

  datatype Event =
    | Tick(elapsed: nat)
    | Commit(tx: Tx)
    | DieInside(tx: Tx)
    | Die(call: nat)
    | AnswerCompletion(call: nat, assembled: bool, reported: bool)
    | ReadHead(call: nat, head: Option<Head>)
    | ReadResumed(call: nat)
    | HashObject(call: nat, identity: Option<Checksum>, sha256: Option<Checksum>, stampedSize: Option<int>)
    | RunWorkflow(call: nat, registers: bool, failure: Option<string>)
    | RaiseInside(call: nat)
    | LateAssembly(ref: UploadRef)
    | RequestDeletion(analysis: nat)

  function Drop(calls: map<nat, Call>, c: nat): map<nat, Call> { calls - {c} }

  // ---------------------------------------------------------------- one transaction

  function ExecCompletion(s: State, tx: Tx): State
    requires tx.FinishComplete? || tx.Restore? || tx.FailCompletion?
  {
    if tx.call !in s.calls then s
    else
      var c := s.calls[tx.call];
      if tx.FinishComplete? && c.HeadRead? then
        s.(world := FinishCompleteTx(s.world, c.sid, c.head).world, calls := Drop(s.calls, tx.call))
      else if tx.Restore? && c.RestoreDue? then
        s.(world := RestoreTx(s.world, c.sid).world, calls := Drop(s.calls, tx.call))
      else if tx.FailCompletion? && c.CompletionFailDue? then
        s.(world := FailTx(s.world, c.sid, HeadFailed), calls := Drop(s.calls, tx.call))
      else s
  }

  function ExecVerification(cfg: Config, s: State, tx: Tx): State
    requires tx.RecordVerified? || tx.CommitIntent? || tx.CommitResult? || tx.WorkerCleanup? || tx.FailVerification?
  {
    if tx.call !in s.calls then s
    else
      var c := s.calls[tx.call];
      if tx.RecordVerified? && c.Hashed? then
        var (w, go) := RecordVerifiedTx(s.world, s.now, c.sid, c.checksum, c.size);
        s.(world := w,
           calls := if go then s.calls[tx.call := WorkflowDue(c.sid, c.checksum)] else Drop(s.calls, tx.call))
      else if tx.CommitIntent? && c.WorkflowAnswered? && c.outcome.Duplicate? then
        var (w, go) := IntentTx(s.world, c.sid, c.outcome);
        s.(world := w,
           calls := if go && c.sid in w.rows then s.calls[tx.call := CleanupDue(c.sid, w.rows[c.sid].facts.owner)]
                    else Drop(s.calls, tx.call))
      else if tx.CommitResult? && c.WorkflowAnswered? && !c.outcome.Duplicate? then
        s.(world := FinishTx(s.world, s.now, c.sid, c.outcome), calls := Drop(s.calls, tx.call))
      else if tx.WorkerCleanup? && c.CleanupDue? then
        var out := CleanupTx(s.world, s.now, c.owner, c.sid, tx.env);
        s.(world := RollBackIfRaised(s.world, out),
           calls := if out.reply.Raised? then s.calls[tx.call := VerificationFailDue(c.sid, WorkflowFailed("cleanup"))]
                    else Drop(s.calls, tx.call))
      else if tx.FailVerification? && c.VerificationFailDue? then
        s.(world := FailTx(s.world, c.sid, c.reason), calls := Drop(s.calls, tx.call))
      else s
  }

  function Exec(cfg: Config, s: State, tx: Tx): State
    requires cfg.partSize > 0
  {
    match tx
    case Initiate(req, id, env) =>
      s.(world := RollBackIfRaised(s.world, InitiateTx(cfg, s.world, s.now, req, id, env)))
    case Refresh(owner, id, env) =>
      s.(world := RollBackIfRaised(s.world, RefreshTx(s.world, s.now, owner, id, env)))
    case PartUrls(owner, id, numbers, env) =>
      s.(world := RollBackIfRaised(s.world, PartUrlsTx(s.world, owner, id, numbers, env)))
    case BeginComplete(owner, id, parts, call) =>
      var out := BeginCompleteTx(s.world, owner, id, parts);
      if call in s.calls || out.reply != Done(Completing) then s
      else s.(world := out.world, calls := s.calls[call := CompletionSent(id)],
        sent := s.sent + {out.world.rows[id].Ref()})
    case Fence(owner, id, call) =>
      var out := FenceTx(s.world, s.now, owner, id);
      if call in s.calls || out.reply != Done(Expired) then s
      else s.(world := out.world, calls := s.calls[call := CancelFenced(id, owner)])
    case Release(call, env) =>
      if call !in s.calls || !s.calls[call].CancelFenced? then s
      else
        var c := s.calls[call];
        s.(world := RollBackIfRaised(s.world, ReleaseTx(s.world, s.now, c.owner, c.sid, env)),
          calls := Drop(s.calls, call))
    case Sweep(id, asOf, env) =>
      if asOf > s.now then s else s.(world := RollBackIfRaised(s.world, SweepTx(s.world, id, asOf, env)))
    case Lease(id, at, call) =>
      if call in s.calls || at > s.now then s
      else
        (match LeaseTx(cfg, s.world, id, at)
         case None => s
         case Some(w) =>
           s.(world := w,
              calls := s.calls[call := if w.rows[id].status == Analyzing then ResumeDue(id, w.rows[id].verifiedSha256)
                                       else HashDue(id)]))
    case Cleanup(owner, id, env) =>
      s.(world := RollBackIfRaised(s.world, CleanupTx(s.world, s.now, owner, id, env)))
    case FinishComplete(_) => ExecCompletion(s, tx)
    case Restore(_) => ExecCompletion(s, tx)
    case FailCompletion(_) => ExecCompletion(s, tx)
    case _ => ExecVerification(cfg, s, tx)
  }

  predicate HasCall(tx: Tx) {
    !tx.Initiate? && !tx.Refresh? && !tx.PartUrls? && !tx.Sweep? && !tx.Cleanup?
  }

  /** The process dies before the commit: provider effects stay, the database does not move, and
      the call is gone. */
  function ExecDying(cfg: Config, s: State, tx: Tx): State
    requires cfg.partSize > 0
  {
    var t := Exec(cfg, s, tx);
    s.(world := RollBack(s.world, t.world), calls := if HasCall(tx) then Drop(s.calls, tx.call) else s.calls)
  }

  // ---------------------------------------------------------------- steps between transactions

  /** The steps of the worker that run under its catch-all handler. */
  predicate Working(c: Call) {
    c.ResumeDue? || c.HashDue? || c.Hashed? || c.WorkflowDue? || c.WorkflowAnswered? || c.CleanupDue?
  }

  function CompleteAtProvider(uploads: Uploads, ref: UploadRef, assembled: bool): Uploads {
    if assembled && HeldOpen(uploads, ref) then uploads[ref := Assembled] else uploads
  }

  function CallStep(cfg: Config, s: State, e: Event): State
    requires e.AnswerCompletion? || e.ReadHead? || e.ReadResumed? || e.HashObject? || e.RunWorkflow? || e.RaiseInside?
  {
    if e.call !in s.calls || s.calls[e.call].sid !in s.world.rows then s
    else
      var c := s.calls[e.call];
      var r := s.world.rows[c.sid];
      match e
      case AnswerCompletion(call, assembled, reported) =>
        if !c.CompletionSent? then s
        else
          var uploads := CompleteAtProvider(s.world.uploads, r.Ref(), assembled);
          s.(world := s.world.(uploads := uploads),
             calls := s.calls[call := CompletionAnswered(c.sid, reported && IsAssembled(uploads, r.Ref()))])
      case ReadHead(call, head) =>
        if !c.CompletionAnswered? then s
        else if head.Some? && IsAssembled(s.world.uploads, r.Ref())
        then s.(calls := s.calls[call := HeadRead(c.sid, head.value)])
        else s.(calls := s.calls[call := if c.reported then CompletionFailDue(c.sid) else RestoreDue(c.sid)])
      case ReadResumed(call) =>
        if !c.ResumeDue? then s
        else if c.verified.None? then s.(calls := s.calls[call := VerificationFailDue(c.sid, VerifiedChecksumMissing)])
        else if r.status == Analyzing then s.(calls := s.calls[call := WorkflowDue(c.sid, c.verified.value)])
        else s.(calls := Drop(s.calls, call))
      case HashObject(call, identity, sha256, stampedSize) =>
        if !c.HashDue? then s
        else s.(calls := s.calls[call := HashedCall(c.sid, r, identity, sha256, stampedSize)])
      case RunWorkflow(call, registers, failure) =>
        if !c.WorkflowDue? then s
        else
          var outcome := cfg.outcome(c.sid);
          var w := if outcome.Created? && registers
                   then s.world.(analyses := if r.facts.analysisId in s.world.analyses then s.world.analyses
                                             else s.world.analyses[r.facts.analysisId := Live],
                                 videos := s.world.videos + {r.facts.storageKey})
                   else s.world;
          s.(world := w,
             calls := s.calls[call := if failure.Some? then VerificationFailDue(c.sid, WorkflowFailed(failure.value))
                                      else WorkflowAnswered(c.sid, outcome)])
      case RaiseInside(call) =>
        if !Working(c) then s else s.(calls := s.calls[call := VerificationFailDue(c.sid, FinalizationFailed)])
  }

  /** Content identity first, then the SHA-256, then the stamped metadata; any failure ends in `_fail`. */
  function HashedCall(sid: SessionId, r: UploadSession, identity: Option<Checksum>, sha256: Option<Checksum>,
                      stampedSize: Option<int>): Call
  {
    if r.facts.fileIdentity.Some? && identity.None? then VerificationFailDue(sid, VerificationFailed)
    else if r.facts.fileIdentity.Some? && identity != r.facts.fileIdentity
      then VerificationFailDue(sid, ChecksumMismatch)
    else if sha256.None? then VerificationFailDue(sid, VerificationFailed)
    else if r.facts.expectedSha256.Some? && sha256 != r.facts.expectedSha256
      then VerificationFailDue(sid, ChecksumMismatch)
    else if stampedSize.None? then VerificationFailDue(sid, VerificationFailed)
    else Hashed(sid, sha256.value, stampedSize.value)
  }

  function Apply(cfg: Config, s: State, e: Event): State
    requires cfg.partSize > 0
  {
    match e
    case Tick(elapsed) => s.(now := s.now + elapsed)
    case Commit(tx) => Exec(cfg, s, tx)
    case DieInside(tx) => ExecDying(cfg, s, tx)
    case Die(call) => s.(calls := Drop(s.calls, call))
    case LateAssembly(ref) => s.(world := s.world.(uploads := CompleteAtProvider(s.world.uploads, ref, ref in s.sent)))
    case RequestDeletion(a) =>
      if a in s.world.analyses then s.(world := s.world.(analyses := s.world.analyses[a := DeletionPending])) else s
    case _ => CallStep(cfg, s, e)
  }

  function Run(cfg: Config, s: State, events: seq<Event>): State
    requires cfg.partSize > 0
    decreases |events|
  {
    if events == [] then s else Run(cfg, Apply(cfg, s, events[0]), events[1..])
  }

  const EMPTY := World(map[], map[], {}, map[], {})

  function Start(now: Time): State { State(now, EMPTY, map[], {}) }

  // ---------------------------------------------------------------- how one row may move

  predicate StatusEdge(a: Status, b: Status) {
    a == b ||
    match a
    case Initiated => b == Uploading || b == Completing || b == Expired || b == Aborted
    case Uploading => b == Completing || b == Expired || b == Aborted
    case Completing => b == Uploading || b == Verifying || b == Failed
    case Verifying => b == Analyzing || b == Failed
    case Analyzing => b == Completed || b == Failed
    case Expired => b == Aborted
    case _ => false
  }

  predicate StatusReach(a: Status, b: Status) {
    a == b ||
    match a
    case Initiated => true
    case Uploading => b != Initiated
    case Completing => b != Initiated
    case Verifying => b == Analyzing || b == Completed || b == Failed
    case Analyzing => b == Completed || b == Failed
    case Expired => b == Aborted
    case _ => false
  }

  predicate IntentCommitted(r: UploadSession) { r.failureReason == Some(DuplicateCleanupPending) }

  /** Cleanup intent is committed, or the session is completed. */
  predicate Settled(r: UploadSession) { IntentCommitted(r) || r.status == Completed }

  predicate RowMove(r: UploadSession, r': UploadSession) {
    r'.facts == r.facts
    && StatusReach(r.status, r'.status)
    && r.rowVersion <= r'.rowVersion
    && (r.status != r'.status ==> r.rowVersion < r'.rowVersion)
    && (r.verifiedSha256.Some? ==> r'.verifiedSha256 == r.verifiedSha256)
    && (Settled(r) ==> Settled(r'))
    && (r.abortedAt.Some? ==> r'.abortedAt.Some?)
    && (r.verificationStartedAt.Some? ==>
          r'.verificationStartedAt.Some? && r.verificationStartedAt.value <= r'.verificationStartedAt.value)
  }

  predicate Worked(s: Status) { s == Analyzing || s == Completed || s == Failed }

  predicate ChecksumAgrees(r: UploadSession, c: Checksum) {
    r.facts.expectedSha256.Some? ==> r.facts.expectedSha256.value == c
  }

  ghost predicate RowOk(cfg: Config, now: Time, id: SessionId, r: UploadSession) {
    r.facts.analysisId == id && r.facts.storageKey == SourceKey(r.facts.owner, id, r.facts.suffix)
    && (r.abortedAt.Some? ==> r.status == Expired || r.status == Aborted)
    && (r.status == Aborted ==> r.abortedAt.Some?)
    && (r.status == Expired ==> r.expiresAt <= now)
    && (r.status == Analyzing || r.status == Completed
        ==> r.verifiedSha256.Some? && ChecksumAgrees(r, r.verifiedSha256.value))
    && (r.verifiedSha256.Some? ==> Worked(r.status))
    && (IntentCommitted(r) ==> r.status == Analyzing && cfg.outcome(id).Duplicate?)
    && (Settled(r) ==> r.result == Some(cfg.outcome(id)))
    && r.failureReason != Some(VerifiedChecksumMissing)
    && (r.verificationStartedAt.Some? ==> r.verificationStartedAt.value <= now)
  }

  // ---------------------------------------------------------------- the invariant

  /** No upload disappears, and one that was given back or assembled stays what it is. */
  ghost predicate UploadsMove(u: Uploads, u': Uploads) {
    forall ref :: ref in u ==> ref in u' && (HeldOpen(u, ref) || u'[ref] == u[ref])
  }

  ghost predicate RowsInv(cfg: Config, now: Time, w: World) {
    (forall id :: id in w.rows ==>
       RowOk(cfg, now, id, w.rows[id]) && w.rows[id].Ref() in w.uploads
       && (w.rows[id].abortedAt.Some? ==> !HeldOpen(w.uploads, w.rows[id].Ref())))
    && (forall a, b ::
          (a in w.rows && b in w.rows && w.rows[a].facts.owner == w.rows[b].facts.owner
            && w.rows[a].facts.keyHash == w.rows[b].facts.keyHash)
          ==> a == b)
  }

  ghost predicate QuotaInv(cfg: Config, rows: Rows) {
    forall owner :: |ActiveIds(rows, owner)| <= cfg.maxActive
  }

  ghost predicate KeyHolder(cfg: Config, rows: Rows, key: StorageKey) {
    key.analysisId in rows && rows[key.analysisId].facts.storageKey == key
  }

  /** A deleted source key belongs to a settled duplicate. */
  ghost predicate DeletedOk(cfg: Config, rows: Rows, key: StorageKey) {
    KeyHolder(cfg, rows, key) && Settled(rows[key.analysisId]) && cfg.outcome(key.analysisId).Duplicate?
  }

  ghost predicate RegistryInv(cfg: Config, w: World) {
    (forall a :: a in w.analyses ==> a in w.rows && cfg.outcome(a).Created?)
    && (forall key :: key in w.videos ==> KeyHolder(cfg, w.rows, key) && cfg.outcome(key.analysisId).Created?)
    && (forall key :: key in w.deleted ==> DeletedOk(cfg, w.rows, key))
  }

  predicate CompletionCall(c: Call) {
    c.CompletionSent? || c.CompletionAnswered? || c.HeadRead? || c.RestoreDue? || c.CompletionFailDue?
  }

  ghost predicate CallFits(cfg: Config, rows: Rows, c: Call) {
    c.sid in rows &&
    var r := rows[c.sid];
    match c
    case CancelFenced(_, owner) => r.facts.owner == owner && (r.status == Expired || r.status == Aborted)
    case ResumeDue(_, verified) => Worked(r.status) && verified.Some? && r.verifiedSha256 == verified
    case HashDue(_) => r.status == Verifying || Worked(r.status)
    case Hashed(_, checksum, _) => (r.status == Verifying || Worked(r.status)) && ChecksumAgrees(r, checksum)
    case WorkflowDue(_, checksum) => Worked(r.status) && r.verifiedSha256 == Some(checksum)
    case WorkflowAnswered(_, outcome) => Worked(r.status) && outcome == cfg.outcome(c.sid)
    case CleanupDue(_, owner) => r.facts.owner == owner && Settled(r)
    case VerificationFailDue(_, reason) =>
      (r.status == Verifying || Worked(r.status)) && reason != DuplicateCleanupPending
      && reason != VerifiedChecksumMissing
    case _ => r.status == Completing
  }

  ghost predicate CallsInv(cfg: Config, rows: Rows, calls: map<nat, Call>) {
    (forall c :: c in calls ==> CallFits(cfg, rows, calls[c]))
    && (forall c, d ::
          (c in calls && d in calls && CompletionCall(calls[c]) && CompletionCall(calls[d])
            && calls[c].sid == calls[d].sid)
          ==> c == d)
  }

  ghost predicate Inv(cfg: Config, s: State) {
    RowsInv(cfg, s.now, s.world) && QuotaInv(cfg, s.world.rows) && RegistryInv(cfg, s.world)
    && CallsInv(cfg, s.world.rows, s.calls)
  }

  ghost predicate RowsMove(rows: Rows, rows': Rows) {
    forall id :: id in rows ==> id in rows' && RowMove(rows[id], rows'[id])
  }
}
