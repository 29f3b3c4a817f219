/** The upload-session table, the multipart provider, and what each database transaction of the
    direct-upload service does to them. A transaction is a function of the world it starts from:
    it answers with the world it leaves and with the reply (or the exception) its caller sees. */
module UploadRows {
  import opened Common
  import opened UploadParts

  type SessionId = nat
  type OwnerId = nat
  type Time = int
  type Checksum = string

  /** Keys are built from owner, analysis id and suffix; distinct triples give distinct keys. */
  datatype StorageKey = SourceKey(owner: OwnerId, analysisId: nat, suffix: string)

  datatype UploadRef = UploadRef(key: StorageKey, uploadId: nat)
  datatype ProviderPhase = Open | Released | Assembled

  datatype Status =
    | Initiated | Uploading | Completing | Verifying | Analyzing
    | Completed | Aborted | Failed | Expired

  datatype Reason =
    | SessionExpired | CancelRequested | SessionReconciled
    | MetadataMismatch | SizeMismatch | ChecksumMismatch | VerifiedChecksumMissing
    | HeadFailed | VerificationFailed | FinalizationFailed | WorkflowFailed(code: string)
    | DuplicateCleanupPending

  /** What the analysis workflow answers for a session's idempotency key. */
  datatype Outcome = Created | Duplicate(existing: nat)

  datatype Lifecycle = Live | DeletionPending

  /** The columns that are written once, when the session is admitted. */
  datatype Facts = Facts(
    owner: OwnerId,
    analysisId: nat,
    storageKey: StorageKey,
    uploadId: nat,
    suffix: string,
    contentType: string,
    declaredSize: nat,
    partSize: nat,
    partCount: nat,
    expectedSha256: Option<Checksum>,
    fileIdentity: Option<Checksum>,
    keyHash: Checksum,
    fingerprint: Checksum,
    reanalyze: bool)

  datatype UploadSession = UploadSession(
    facts: Facts,
    status: Status,
    verifiedSha256: Option<Checksum>,
    result: Option<Outcome>,
    failureReason: Option<Reason>,
    rowVersion: nat,
    expiresAt: Time,
    verificationStartedAt: Option<Time>,
    completedAt: Option<Time>,
    abortedAt: Option<Time>)
  {
    function Ref(): UploadRef { UploadRef(facts.storageKey, facts.uploadId) }
  }

  type Rows = map<SessionId, UploadSession>
  type Uploads = map<UploadRef, ProviderPhase>

  /** Database tables (`rows`, `analyses`, `videos`) and provider state (`uploads`, `deleted`).
      `deleted` records every source key the service ever asked the provider to delete. */
  datatype World = World(
    rows: Rows,
    analyses: map<nat, Lifecycle>,
    videos: set<StorageKey>,
    uploads: Uploads,
    deleted: set<StorageKey>)

  datatype Config = Config(maxActive: nat, ttl: nat, partSize: nat, lease: nat, outcome: nat -> Outcome)

  datatype Error =
    | NotFound | MatchDeleted | IdempotencyConflict | CapacityBusy | StorageBackend | SessionConflict
    | SessionIsExpired | InvalidUploadState | InvalidPartNumber | MissingPart | MetadataRejected
    | CleanupNeedsReview | NothingPending

  /** `Unsigned`: the session is committed, but its caller sees a storage error, because the part URLs
      are signed after the commit. */
  datatype Reply =
    | Accepted(id: SessionId, resumed: bool)
    | Unsigned(id: SessionId)
    | Done(status: Status)
    | Skipped
    | Raised(error: Error)

  datatype TxOut = TxOut(world: World, reply: Reply)

  predicate ActiveMultipart(s: Status) { s == Initiated || s == Uploading }

  predicate CountsAgainstQuota(s: Status) {
    s == Initiated || s == Uploading || s == Completing || s == Verifying || s == Analyzing
  }

  /** An exception inside a transaction undoes its database writes; provider calls stay made. */
  function RollBack(before: World, after: World): World {
    after.(rows := before.rows, analyses := before.analyses, videos := before.videos)
  }

  /** The session context manager: a transaction that raises is rolled back. */
  function RollBackIfRaised(before: World, out: TxOut): World {
    if out.reply.Raised? then RollBack(before, out.world) else out.world
  }

  /** Provider abort; an unknown or finished upload counts as already released. */
  function AbortUpload(uploads: Uploads, ref: UploadRef): Uploads {
    if ref in uploads && uploads[ref] == Open then uploads[ref := Released] else uploads
  }

  predicate HeldOpen(uploads: Uploads, ref: UploadRef) {
    ref in uploads && uploads[ref] == Open
  }

  /** There is an object under the key of the upload. */
  predicate IsAssembled(uploads: Uploads, ref: UploadRef) { ref in uploads && uploads[ref] == Assembled }

  // ---------------------------------------------------------------- rows as they are rewritten

  predicate NeedsExpiry(r: UploadSession, now: Time) {
    (ActiveMultipart(r.status) || r.status == Expired) && r.expiresAt <= now
  }

  /** The row after expiry: aborted at the provider once, and stamped expired. */
  function ExpiredRow(r: UploadSession, now: Time): UploadSession {
    r.(abortedAt := if r.abortedAt.None? then Some(now) else r.abortedAt,
       status := Expired,
       failureReason := Some(SessionExpired),
       rowVersion := r.rowVersion + 1)
  }

  function Moved(r: UploadSession, status: Status): UploadSession {
    r.(status := status, rowVersion := r.rowVersion + 1)
  }

  function FailedRow(r: UploadSession, reason: Reason): UploadSession {
    r.(status := Failed, failureReason := Some(reason), rowVersion := r.rowVersion + 1)
  }

  function FencedRow(r: UploadSession, now: Time): UploadSession {
    r.(expiresAt := if r.expiresAt <= now then r.expiresAt else now,
       status := Expired,
       failureReason := Some(CancelRequested),
       rowVersion := r.rowVersion + 1)
  }

  function AbortedRow(r: UploadSession, at: Time): UploadSession {
    r.(status := Aborted, abortedAt := Some(at), rowVersion := r.rowVersion + 1)
  }

  /** Outcome of the expiry helper on one row; `None` when the provider abort failed. */
  function ExpireIfNeeded(r: UploadSession, uploads: Uploads, unreachable: set<UploadRef>, now: Time)
    : Option<(UploadSession, Uploads)>
  {
    if !NeedsExpiry(r, now) then Some((r, uploads))
    else if r.abortedAt.Some? then Some((ExpiredRow(r, now), uploads))
    else if r.Ref() in unreachable then None
    else Some((ExpiredRow(r, now), AbortUpload(uploads, r.Ref())))
  }

  // ---------------------------------------------------------------- admission

  datatype InitiateRequest = InitiateRequest(
    owner: OwnerId, keyHash: Checksum, fingerprint: Checksum, suffix: string, contentType: string,
    byteSize: nat, expectedSha256: Option<Checksum>, fileIdentity: Option<Checksum>, reanalyze: bool,
    requestedAt: Time)

  /** What the provider does during one transaction: which aborts fail, whether the multipart
      initiation, the URL signing or the object deletion fails, and the new upload's id. */
  datatype Provider = Provider(
    unreachable: set<UploadRef>, initiationFails: bool, signingFails: bool, deletionFails: bool, newUploadId: nat)

  predicate MatchesKey(rows: Rows, owner: OwnerId, keyHash: Checksum, id: SessionId) {
    id in rows && rows[id].facts.owner == owner && rows[id].facts.keyHash == keyHash
  }

  function FindByKey(rows: Rows, owner: OwnerId, keyHash: Checksum): (r: Option<SessionId>)
    ensures r.Some? ==> MatchesKey(rows, owner, keyHash, r.value)
    ensures r.None? ==> forall id :: !MatchesKey(rows, owner, keyHash, id)
  {
    var ids := set id | id in rows && MatchesKey(rows, owner, keyHash, id);
    if ids == {} then assert forall id :: MatchesKey(rows, owner, keyHash, id) ==> id in ids; None
    else Some(MinOf(ids))
  }

  /** Claims that admission must reconcile before it counts. */
  predicate IsClaim(r: UploadSession, owner: OwnerId, now: Time) {
    r.facts.owner == owner && NeedsExpiry(r, now) && r.abortedAt.None?
  }

  function ClaimIds(rows: Rows, owner: OwnerId, now: Time): set<SessionId> {
    set id | id in rows && IsClaim(rows[id], owner, now)
  }

  function ActiveIds(rows: Rows, owner: OwnerId): set<SessionId> {
    set id | id in rows && rows[id].facts.owner == owner && CountsAgainstQuota(rows[id].status)
  }

  /** Expire the listed rows in order; stop at the first provider abort that fails. */
  function ReconcileClaims(rows: Rows, uploads: Uploads, ids: seq<SessionId>, unreachable: set<UploadRef>, now: Time)
    : (Rows, Uploads, bool)
    requires forall id :: id in ids ==> id in rows
  {
    if ids == [] then (rows, uploads, true)
    else
      match ExpireIfNeeded(rows[ids[0]], uploads, unreachable, now)
      case None => (rows, uploads, false)
      case Some(step) => ReconcileClaims(rows[ids[0] := step.0], step.1, ids[1..], unreachable, now)
  }

  function NewSession(cfg: Config, req: InitiateRequest, id: SessionId, uploadId: nat): UploadSession
    requires cfg.partSize > 0
  {
    UploadSession(
      facts := Facts(
        owner := req.owner, analysisId := id, storageKey := SourceKey(req.owner, id, req.suffix), uploadId := uploadId,
        suffix := req.suffix, contentType := req.contentType, declaredSize := req.byteSize, partSize := cfg.partSize,
        partCount := PartCountFor(req.byteSize, cfg.partSize), expectedSha256 := req.expectedSha256,
        fileIdentity := req.fileIdentity, keyHash := req.keyHash, fingerprint := req.fingerprint,
        reanalyze := req.reanalyze),
      status := Initiated, verifiedSha256 := None, result := None, failureReason := None, rowVersion := 1,
      expiresAt := req.requestedAt + cfg.ttl, verificationStartedAt := None, completedAt := None, abortedAt := None)
  }

  /** An answer to `initiate` carries one URL per part of an upload that still takes parts. */
  predicate SigningFails(r: UploadSession, env: Provider) {
    ActiveMultipart(r.status) && r.facts.partCount > 0 && env.signingFails
  }

  /** A reply of a fresh admission that committed. */
  predicate Admits(reply: Reply, id: SessionId) { reply == Accepted(id, false) || reply == Unsigned(id) }

  /** The repeated request: answer with the session already bound to the key. */
  function ResumeTx(w: World, now: Time, req: InitiateRequest, id: SessionId, env: Provider): TxOut
    requires id in w.rows
  {
    var r := w.rows[id];
    if r.facts.analysisId in w.analyses && w.analyses[r.facts.analysisId] != Live then TxOut(w, Raised(MatchDeleted))
    else if r.facts.fingerprint != req.fingerprint then TxOut(w, Raised(IdempotencyConflict))
    else
      match ExpireIfNeeded(r, w.uploads, env.unreachable, now)
      case None => TxOut(w, Raised(StorageBackend))
      case Some(step) =>
        if SigningFails(step.0, env)
        then TxOut(w.(uploads := step.1), Raised(StorageBackend))
        else TxOut(w.(rows := w.rows[id := step.0], uploads := step.1), Accepted(id, true))
  }

  /** A new request: reconcile the owner's claims, count, start the provider upload, insert. */
  function AdmitTx(cfg: Config, w: World, now: Time, req: InitiateRequest, id: SessionId, env: Provider): TxOut
    requires cfg.partSize > 0
  {
    var (rows, uploads, ok) :=
      ReconcileClaims(w.rows, w.uploads, SortedIds(ClaimIds(w.rows, req.owner, now)), env.unreachable, now);
    if !ok then TxOut(w.(uploads := uploads), Raised(StorageBackend))
    else if |ActiveIds(rows, req.owner)| >= cfg.maxActive then TxOut(w.(uploads := uploads), Raised(CapacityBusy))
    else
      var row := NewSession(cfg, req, id, env.newUploadId);
      if env.initiationFails || row.Ref() in uploads then TxOut(w.(uploads := uploads), Raised(StorageBackend))
      else if id in rows then TxOut(w.(uploads := uploads[row.Ref() := Open]), Raised(SessionConflict))
      else TxOut(w.(rows := rows[id := row], uploads := uploads[row.Ref() := Open]),
                 if SigningFails(row, env) then Unsigned(id) else Accepted(id, false))
  }

  function InitiateTx(cfg: Config, w: World, now: Time, req: InitiateRequest, id: SessionId, env: Provider): TxOut
    requires cfg.partSize > 0
  {
    match FindByKey(w.rows, req.owner, req.keyHash)
    case Some(existing) => ResumeTx(w, now, req, existing, env)
    case None => AdmitTx(cfg, w, now, req, id, env)
  }

  // ---------------------------------------------------------------- upload in progress

  predicate Owned(w: World, owner: OwnerId, id: SessionId) {
    id in w.rows && w.rows[id].facts.owner == owner
  }

  function WithRow(w: World, id: SessionId, r: UploadSession): World {
    w.(rows := w.rows[id := r])
  }

  /** `get`, and the expiry transaction that part URLs and completion run first. */
  function RefreshTx(w: World, now: Time, owner: OwnerId, id: SessionId, env: Provider): TxOut {
    if !Owned(w, owner, id) then TxOut(w, Raised(NotFound))
    else
      match ExpireIfNeeded(w.rows[id], w.uploads, env.unreachable, now)
      case None => TxOut(w, Raised(StorageBackend))
      case Some(step) => TxOut(WithRow(w, id, step.0).(uploads := step.1), Done(step.0.status))
  }

  function PartUrlsTx(w: World, owner: OwnerId, id: SessionId, numbers: seq<nat>, env: Provider): TxOut {
    if !Owned(w, owner, id) then TxOut(w, Raised(NotFound))
    else
      var r := w.rows[id];
      if r.status == Expired then TxOut(w, Raised(SessionIsExpired))
      else if !ActiveMultipart(r.status) then TxOut(w, Raised(InvalidUploadState))
      else if exists n :: n in numbers && n > r.facts.partCount then TxOut(w, Raised(InvalidPartNumber))
      else if env.signingFails then TxOut(w, Raised(StorageBackend))
      else if r.status == Initiated then TxOut(WithRow(w, id, Moved(r, Uploading)), Done(Uploading))
      else TxOut(w, Done(r.status))
  }

  function BeginCompleteTx(w: World, owner: OwnerId, id: SessionId, parts: seq<nat>): TxOut {
    if !Owned(w, owner, id) then TxOut(w, Raised(NotFound))
    else
      var r := w.rows[id];
      if r.status == Expired then TxOut(w, Raised(SessionIsExpired))
      else if r.status == Completed || r.status == Verifying || r.status == Analyzing then TxOut(w, Done(r.status))
      else if !ActiveMultipart(r.status) then TxOut(w, Raised(InvalidUploadState))
      else if Ascending(parts) != OneTo(r.facts.partCount) then TxOut(w, Raised(MissingPart))
      else TxOut(WithRow(w, id, Moved(r, Completing)), Done(Completing))
  }

  /** Object metadata read back after completion; custom metadata may be missing. */
  datatype Head = Head(size: int, session: Option<SessionId>, declaredSize: Option<int>, contentType: string)

  predicate HeadMatches(head: Head, id: SessionId, r: UploadSession) {
    head.size == r.facts.declaredSize && head.session == Some(id) && head.declaredSize == Some(r.facts.declaredSize)
    && head.contentType == r.facts.contentType
  }

  function FinishCompleteTx(w: World, id: SessionId, head: Head): TxOut {
    if id !in w.rows then TxOut(w, Raised(NotFound))
    else
      var r := w.rows[id];
      if r.status != Completing then TxOut(w, Raised(InvalidUploadState))
      else if !HeadMatches(head, id, r)
      then TxOut(WithRow(w, id, FailedRow(r, MetadataMismatch)), Raised(MetadataRejected))
      else TxOut(WithRow(w, id, Moved(r, Verifying)), Done(Verifying))
  }

  function RestoreTx(w: World, id: SessionId): TxOut {
    if id in w.rows && w.rows[id].status == Completing
    then TxOut(WithRow(w, id, Moved(w.rows[id], Uploading)), Raised(StorageBackend))
    else TxOut(w, Raised(StorageBackend))
  }

  function FailTx(w: World, id: SessionId, reason: Reason): World {
    if id !in w.rows || w.rows[id].status == Completed || w.rows[id].status == Aborted
       || w.rows[id].failureReason == Some(DuplicateCleanupPending)
    then w
    else WithRow(w, id, FailedRow(w.rows[id], reason))
  }

  // ---------------------------------------------------------------- cancellation and sweeping

  /** First transaction of a cancellation: fence completion before touching the provider. */
  function FenceTx(w: World, now: Time, owner: OwnerId, id: SessionId): TxOut {
    if !Owned(w, owner, id) then TxOut(w, Raised(NotFound))
    else
      var r := w.rows[id];
      if r.status == Aborted then TxOut(w, Done(Aborted))
      else if !ActiveMultipart(r.status) && r.status != Expired then TxOut(w, Raised(InvalidUploadState))
      else TxOut(WithRow(w, id, FencedRow(r, now)), Done(Expired))
  }

  /** Second transaction of a cancellation: release the provider upload, then mark aborted. */
  function ReleaseTx(w: World, now: Time, owner: OwnerId, id: SessionId, env: Provider): TxOut {
    if !Owned(w, owner, id) then TxOut(w, Raised(NotFound))
    else
      var r := w.rows[id];
      if r.status == Aborted then TxOut(w, Done(Aborted))
      else if !ActiveMultipart(r.status) && r.status != Expired then TxOut(w, Raised(InvalidUploadState))
      else if r.Ref() in env.unreachable then TxOut(w, Raised(StorageBackend))
      else TxOut(WithRow(w, id, AbortedRow(r, now)).(uploads := AbortUpload(w.uploads, r.Ref())), Done(Aborted))
  }

  /** The reconciliation script on one candidate; `asOf` is the time its scan started. */
  function SweepTx(w: World, id: SessionId, asOf: Time, env: Provider): TxOut {
    if id !in w.rows || !NeedsExpiry(w.rows[id], asOf) then TxOut(w, Skipped)
    else
      var r := w.rows[id];
      if r.Ref() in env.unreachable then TxOut(w, Raised(StorageBackend))
      else TxOut(WithRow(w, id, AbortedRow(r, asOf).(failureReason := Some(SessionReconciled)))
                 .(uploads := AbortUpload(w.uploads, r.Ref())), Done(Aborted))
  }

  // ---------------------------------------------------------------- verification and duplicates

  predicate LeaseFree(cfg: Config, r: UploadSession, at: Time) {
    (r.status == Verifying || r.status == Analyzing)
    && (r.verificationStartedAt.None? || r.verificationStartedAt.value <= at - cfg.lease)
  }

  /** Take (or take over) the verification lease; `None` when there is nothing to do. */
  function LeaseTx(cfg: Config, w: World, id: SessionId, at: Time): Option<World> {
    if id in w.rows && LeaseFree(cfg, w.rows[id], at)
    then Some(WithRow(w, id, w.rows[id].(verificationStartedAt := Some(at), rowVersion := w.rows[id].rowVersion + 1)))
    else None
  }

  /** Record the verified checksum; the flag says whether the worker goes on to the analysis. */
  function RecordVerifiedTx(w: World, now: Time, id: SessionId, checksum: Checksum, size: int): (World, bool) {
    if id !in w.rows || w.rows[id].status != Verifying then (w, false)
    else
      var r := w.rows[id];
      if size != r.facts.declaredSize then (WithRow(w, id, FailedRow(r, SizeMismatch)), false)
      else
        (WithRow(w, id, r.(verifiedSha256 := Some(checksum), status := Analyzing,
                           verificationStartedAt := Some(now), rowVersion := r.rowVersion + 1)), true)
  }

  /** Commit the intent to delete the duplicate's bytes before any provider call. */
  function IntentTx(w: World, id: SessionId, outcome: Outcome): (World, bool) {
    if id !in w.rows || w.rows[id].status != Analyzing then (w, false)
    else
      var r := w.rows[id];
      (WithRow(w, id, r.(result := Some(outcome), failureReason := Some(DuplicateCleanupPending),
                         rowVersion := r.rowVersion + 1)), true)
  }

  function FinishTx(w: World, now: Time, id: SessionId, outcome: Outcome): World {
    if id !in w.rows || w.rows[id].status != Analyzing then w
    else
      var r := w.rows[id];
      WithRow(w, id, r.(status := Completed, result := Some(outcome), completedAt := Some(now),
                        rowVersion := r.rowVersion + 1))
  }

  predicate CleanupAllowed(w: World, owner: OwnerId, r: UploadSession) {
    r.result.Some? && r.result.value.Duplicate? && r.result.value.existing != r.facts.analysisId
    && r.facts.storageKey == SourceKey(owner, r.facts.analysisId, r.facts.suffix)
    && r.facts.analysisId !in w.analyses && r.facts.storageKey !in w.videos
  }

  function CleanupTx(w: World, now: Time, owner: OwnerId, id: SessionId, env: Provider): TxOut {
    if !Owned(w, owner, id) then TxOut(w, Raised(NotFound))
    else
      var r := w.rows[id];
      if r.status == Completed then TxOut(w, Done(Completed))
      else if r.failureReason != Some(DuplicateCleanupPending) || r.facts.reanalyze
        then TxOut(w, Raised(NothingPending))
      else if !CleanupAllowed(w, owner, r) then TxOut(w, Raised(CleanupNeedsReview))
      else if env.deletionFails then TxOut(w, Raised(StorageBackend))
      else
        TxOut(WithRow(w, id, r.(status := Completed, failureReason := None, completedAt := Some(now),
                                rowVersion := r.rowVersion + 1))
              .(deleted := w.deleted + {r.facts.storageKey}), Done(Completed))
  }
}
