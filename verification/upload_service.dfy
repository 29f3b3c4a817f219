/** The direct-upload service as it runs: tables and provider are mutable state, records are
    rewritten field by field, and every method is one database transaction. */
module UploadService {
  import opened Common
  import opened UploadParts
  import opened UploadRows
  import Protocol = UploadProtocol
  import Theorems = UploadTheorems

  class DirectUploadService {
    const settings: Config
    var rows: Rows
    var analyses: map<nat, Lifecycle>
    var videos: set<StorageKey>
    var uploads: Uploads
    var deleted: set<StorageKey>

    constructor (settings: Config)
      ensures this.settings == settings && Now() == Protocol.EMPTY
      ensures settings.partSize > 0 ==>
                forall now :: Theorems.Reachable(settings, Protocol.State(now, Now(), map[], {}))
    {
      this.settings := settings;
      rows, analyses, videos, uploads, deleted := map[], map[], {}, map[], {};
      new;
      if settings.partSize > 0 {
        forall now: Time ensures Theorems.Reachable(settings, Protocol.State(now, Now(), map[], {})) {
          Theorems.StartIsReachable(settings, now);
          assert Protocol.Start(now) == Protocol.State(now, Now(), map[], {});
        }
      }
    }

    function Now(): World
      reads this
    {
      World(rows, analyses, videos, uploads, deleted)
    }

    /** Provider abort, idempotent for uploads the provider no longer holds. */
    method AbortProvider(record: UploadSession, env: Provider) returns (ok: bool)
      modifies this`uploads
      ensures ok == (record.Ref() !in env.unreachable)
      ensures uploads == if ok then AbortUpload(old(uploads), record.Ref()) else old(uploads)
    {
      if record.Ref() in env.unreachable {
        return false;
      }
      if record.Ref() in uploads && uploads[record.Ref()] == Open {
        uploads := uploads[record.Ref() := Released];
      }
      return true;
    }

    /** `_expire_record_if_needed` on a loaded record. */
    method ExpireRecordIfNeeded(loaded: UploadSession, now: Time, env: Provider)
        returns (ok: bool, record: UploadSession)
      modifies this`uploads
      ensures ok <==> ExpireIfNeeded(loaded, old(uploads), env.unreachable, now).Some?
      ensures ok ==> ExpireIfNeeded(loaded, old(uploads), env.unreachable, now) == Some((record, uploads))
      ensures !ok ==> uploads == old(uploads)
    {
      record := loaded;
      if !(ActiveMultipart(record.status) || record.status == Expired) || record.expiresAt > now {
        return true, record;
      }
      if record.abortedAt.None? {
        ok := AbortProvider(record, env);
        if !ok { return false, loaded; }
        record := record.(abortedAt := Some(now));
      }
      record := record.(status := Expired);
      record := record.(failureReason := Some(SessionExpired));
      record := record.(rowVersion := record.rowVersion + 1);
      ok := true;
    }

    /** The transaction of `initiate`, under the owner's admission lock, and the signing after it. */
    method Initiate(req: InitiateRequest, id: SessionId, now: Time, env: Provider) returns (reply: Reply)
      requires settings.partSize > 0
      modifies this
      ensures reply == InitiateTx(settings, old(Now()), now, req, id, env).reply
      ensures Now() == RollBackIfRaised(old(Now()), InitiateTx(settings, old(Now()), now, req, id, env))
    {
      var existing := FindByKey(rows, req.owner, req.keyHash);
      if existing.Some? {
        reply := Resume(req, existing.value, now, env);
        return;
      }
      var expired := SortedIds(ClaimIds(rows, req.owner, now));
      var work := rows;
      for i := 0 to |expired|
        invariant rows == old(rows) && analyses == old(analyses) && videos == old(videos) && deleted == old(deleted)
        invariant work.Keys == rows.Keys && forall id :: id in expired[i..] ==> id in work
        invariant ReconcileClaims(old(rows), old(uploads), expired, env.unreachable, now)
               == ReconcileClaims(work, uploads, expired[i..], env.unreachable, now)
      {
        var ok, record := ExpireRecordIfNeeded(work[expired[i]], now, env);
        assert expired[i..][1..] == expired[i + 1..];
        if !ok {
          return Raised(StorageBackend);
        }
        work := work[expired[i] := record];
      }
      var active := ActiveIds(work, req.owner);
      if |active| >= settings.maxActive {
        return Raised(CapacityBusy);
      }
      var created := NewSession(settings, req, id, env.newUploadId);
      if env.initiationFails || created.Ref() in uploads {
        return Raised(StorageBackend);
      }
      uploads := uploads[created.Ref() := Open];
      if id in work {
        return Raised(SessionConflict);
      }
      rows := work[id := created];
      if SigningFails(created, env) {
        return Unsigned(id);
      }
      return Accepted(id, false);
    }

    /** The branch of `initiate` that finds the idempotency key already bound. */
    method Resume(req: InitiateRequest, id: SessionId, now: Time, env: Provider) returns (reply: Reply)
      requires id in rows
      modifies this
      ensures reply == ResumeTx(old(Now()), now, req, id, env).reply
      ensures Now() == RollBackIfRaised(old(Now()), ResumeTx(old(Now()), now, req, id, env))
    {
      var existing := rows[id];
      if existing.facts.analysisId in analyses && analyses[existing.facts.analysisId] != Live {
        return Raised(MatchDeleted);
      }
      if existing.facts.fingerprint != req.fingerprint {
        return Raised(IdempotencyConflict);
      }
      var ok, record := ExpireRecordIfNeeded(existing, now, env);
      if !ok {
        return Raised(StorageBackend);
      }
      if SigningFails(record, env) {
        return Raised(StorageBackend);
      }
      rows := rows[id := record];
      return Accepted(id, true);
    }

    /** `get`, and `_expire_owned_if_needed`. */
    method Get(owner: OwnerId, id: SessionId, now: Time, env: Provider) returns (reply: Reply)
      modifies this
      ensures reply == RefreshTx(old(Now()), now, owner, id, env).reply
      ensures Now() == RollBackIfRaised(old(Now()), RefreshTx(old(Now()), now, owner, id, env))
    {
      if !(id in rows && rows[id].facts.owner == owner) { return Raised(NotFound); }
      var ok, record := ExpireRecordIfNeeded(rows[id], now, env);
      if !ok { return Raised(StorageBackend); }
      rows := rows[id := record];
      return Done(record.status);
    }

    /** Second transaction of `create_part_urls`. */
    method CreatePartUrls(owner: OwnerId, id: SessionId, numbers: seq<nat>, env: Provider) returns (reply: Reply)
      modifies this
      ensures reply == PartUrlsTx(old(Now()), owner, id, numbers, env).reply
      ensures Now() == RollBackIfRaised(old(Now()), PartUrlsTx(old(Now()), owner, id, numbers, env))
    {
      if !(id in rows && rows[id].facts.owner == owner) { return Raised(NotFound); }
      var record := rows[id];
      if record.status == Expired { return Raised(SessionIsExpired); }
      if !ActiveMultipart(record.status) { return Raised(InvalidUploadState); }
      var beyond := exists n :: n in numbers && n > record.facts.partCount;
      if beyond { return Raised(InvalidPartNumber); }
      if record.status == Initiated {
        record := record.(status := Uploading);
        record := record.(rowVersion := record.rowVersion + 1);
      }
      if env.signingFails { return Raised(StorageBackend); }
      rows := rows[id := record];
      return Done(record.status);
    }

    /** Claiming transaction of `complete`. */
    method BeginComplete(owner: OwnerId, id: SessionId, parts: seq<nat>) returns (reply: Reply)
      modifies this
      ensures reply == BeginCompleteTx(old(Now()), owner, id, parts).reply
      ensures Now() == RollBackIfRaised(old(Now()), BeginCompleteTx(old(Now()), owner, id, parts))
    {
      if !(id in rows && rows[id].facts.owner == owner) { return Raised(NotFound); }
      var record := rows[id];
      if record.status == Expired { return Raised(SessionIsExpired); }
      if record.status == Completed || record.status == Verifying || record.status == Analyzing {
        return Done(record.status);
      }
      if !ActiveMultipart(record.status) { return Raised(InvalidUploadState); }
      var ordered := Ascending(parts);
      if ordered != OneTo(record.facts.partCount) { return Raised(MissingPart); }
      record := record.(status := Completing);
      record := record.(rowVersion := record.rowVersion + 1);
      rows := rows[id := record];
      return Done(Completing);
    }

    /** Provider completion: it may assemble the object and still report an error. */
    method CompleteAtProvider(id: SessionId, assembles: bool, answers: bool) returns (reported: bool)
      requires id in rows
      modifies this`uploads
      ensures uploads == if assembles && HeldOpen(old(uploads), rows[id].Ref())
                         then old(uploads)[rows[id].Ref() := Assembled] else old(uploads)
      ensures reported <==> answers && rows[id].Ref() in uploads && uploads[rows[id].Ref()] == Assembled
    {
      var ref := rows[id].Ref();
      if assembles && ref in uploads && uploads[ref] == Open {
        uploads := uploads[ref := Assembled];
      }
      reported := answers && ref in uploads && uploads[ref] == Assembled;
    }

    /** Final transaction of `complete`; a metadata mismatch is committed before it is raised. */
    method FinishComplete(id: SessionId, head: Head) returns (reply: Reply)
      modifies this
      ensures Now() == FinishCompleteTx(old(Now()), id, head).world
      ensures reply == FinishCompleteTx(old(Now()), id, head).reply
    {
      if id !in rows { return Raised(NotFound); }
      var record := rows[id];
      if record.status != Completing { return Raised(InvalidUploadState); }
      var verificationFailed := false;
      if head.size != record.facts.declaredSize || head.session != Some(id)
         || head.declaredSize != Some(record.facts.declaredSize) || head.contentType != record.facts.contentType {
        record := record.(status := Failed);
        record := record.(failureReason := Some(MetadataMismatch));
        record := record.(rowVersion := record.rowVersion + 1);
        verificationFailed := true;
      } else {
        record := record.(status := Verifying);
        record := record.(rowVersion := record.rowVersion + 1);
      }
      rows := rows[id := record];
      return if verificationFailed then Raised(MetadataRejected) else Done(Verifying);
    }

    method RestoreUploading(id: SessionId)
      modifies this`rows
      ensures Now() == RestoreTx(old(Now()), id).world
    {
      if id in rows && rows[id].status == Completing {
        var record := rows[id].(status := Uploading);
        record := record.(rowVersion := record.rowVersion + 1);
        rows := rows[id := record];
      }
    }

    method Fail(id: SessionId, reason: Reason)
      modifies this`rows
      ensures Now() == FailTx(old(Now()), id, reason)
    {
      if id !in rows { return; }
      var record := rows[id];
      if record.status == Completed || record.status == Aborted
         || record.failureReason == Some(DuplicateCleanupPending) {
        return;
      }
      record := record.(status := Failed);
      record := record.(failureReason := Some(reason));
      record := record.(rowVersion := record.rowVersion + 1);
      rows := rows[id := record];
    }

    /** First transaction of `abort`. */
    method FenceAbort(owner: OwnerId, id: SessionId, now: Time) returns (reply: Reply)
      modifies this`rows
      ensures reply == FenceTx(old(Now()), now, owner, id).reply
      ensures Now() == RollBackIfRaised(old(Now()), FenceTx(old(Now()), now, owner, id))
    {
      if !(id in rows && rows[id].facts.owner == owner) { return Raised(NotFound); }
      var record := rows[id];
      if record.status == Aborted { return Done(Aborted); }
      if !ActiveMultipart(record.status) && record.status != Expired { return Raised(InvalidUploadState); }
      record := record.(expiresAt := if record.expiresAt <= now then record.expiresAt else now);
      record := record.(status := Expired);
      record := record.(failureReason := Some(CancelRequested));
      record := record.(rowVersion := record.rowVersion + 1);
      rows := rows[id := record];
      return Done(Expired);
    }

    /** Second transaction of `abort`. */
    method ReleaseAbort(owner: OwnerId, id: SessionId, now: Time, env: Provider) returns (reply: Reply)
      modifies this
      ensures reply == ReleaseTx(old(Now()), now, owner, id, env).reply
      ensures Now() == RollBackIfRaised(old(Now()), ReleaseTx(old(Now()), now, owner, id, env))
    {
      if !(id in rows && rows[id].facts.owner == owner) { return Raised(NotFound); }
      var record := rows[id];
      if record.status == Aborted { return Done(Aborted); }
      if !ActiveMultipart(record.status) && record.status != Expired { return Raised(InvalidUploadState); }
      var ok := AbortProvider(record, env);
      if !ok { return Raised(StorageBackend); }
      record := record.(status := Aborted);
      record := record.(abortedAt := Some(now));
      record := record.(rowVersion := record.rowVersion + 1);
      rows := rows[id := record];
      return Done(Aborted);
    }

    /** `abort` when nothing comes between its transactions. Once the first has committed, a
        provider failure still leaves the session fenced: expired, and unable to complete. */
    method Abort(owner: OwnerId, id: SessionId, now: Time, env: Provider) returns (reply: Reply)
      modifies this
      ensures reply == Done(Aborted) ==>
                id in rows && rows[id].status == Aborted
                && (old(id in rows && rows[id].status != Aborted) ==> !HeldOpen(uploads, rows[id].Ref()))
      ensures reply == Raised(StorageBackend) ==>
                id in rows && rows[id].status == Expired && rows[id].failureReason == Some(CancelRequested)
                && forall parts :: BeginCompleteTx(Now(), owner, id, parts).reply == Raised(SessionIsExpired)
      ensures reply == Raised(NotFound) || reply == Raised(InvalidUploadState) ==> Now() == old(Now())
      ensures reply == Done(Aborted) || reply == Raised(StorageBackend) || reply == Raised(NotFound)
           || reply == Raised(InvalidUploadState)
    {
      reply := FenceAbort(owner, id, now);
      if reply != Done(Expired) { return; }
      reply := ReleaseAbort(owner, id, now, env);
    }

    /** `_mark_aborted` of the reconciliation script; `asOf` is when its scan began. */
    method MarkAborted(id: SessionId, asOf: Time, env: Provider) returns (reply: Reply)
      modifies this
      ensures reply == SweepTx(old(Now()), id, asOf, env).reply
      ensures Now() == RollBackIfRaised(old(Now()), SweepTx(old(Now()), id, asOf, env))
    {
      if id !in rows { return Skipped; }
      var record := rows[id];
      if !(ActiveMultipart(record.status) || record.status == Expired) || record.expiresAt > asOf { return Skipped; }
      var ok := AbortProvider(record, env);
      if !ok { return Raised(StorageBackend); }
      record := record.(status := Aborted);
      record := record.(failureReason := Some(SessionReconciled));
      record := record.(abortedAt := Some(asOf));
      record := record.(rowVersion := record.rowVersion + 1);
      rows := rows[id := record];
      return Done(Aborted);
    }

    /** The sweep: candidates in scan order, each under its own lock; failures do not stop it. */
    method Reconcile(candidates: seq<SessionId>, asOf: Time, env: Provider)
      returns (aborted: seq<SessionId>, failed: seq<SessionId>)
      modifies this
      ensures rows.Keys == old(rows.Keys)
      ensures forall id ::
              id in aborted ==> id in rows && rows[id].status == Aborted && !HeldOpen(uploads, rows[id].Ref())
      ensures forall id :: id in candidates && id in rows && NeedsExpiry(rows[id], asOf) ==> id in failed
    {
      aborted, failed := [], [];
      for i := 0 to |candidates|
        invariant rows.Keys == old(rows.Keys)
        invariant forall id ::
                  id in aborted ==> id in rows && rows[id].status == Aborted && !HeldOpen(uploads, rows[id].Ref())
        invariant forall k :: 0 <= k < i && candidates[k] in rows && NeedsExpiry(rows[candidates[k]], asOf)
                    ==> candidates[k] in failed
      {
        var changed := MarkAborted(candidates[i], asOf, env);
        if changed.Raised? {
          failed := failed + [candidates[i]];
        } else if changed == Done(Aborted) {
          aborted := aborted + [candidates[i]];
        }
      }
    }

    /** Lease transaction of `verify_and_analyze`. */
    method TakeLease(id: SessionId, at: Time) returns (leased: bool)
      modifies this`rows
      ensures leased <==> LeaseTx(settings, old(Now()), id, at).Some?
      ensures Now() == if leased then LeaseTx(settings, old(Now()), id, at).value else old(Now())
    {
      if id !in rows { return false; }
      var record := rows[id];
      if record.status != Verifying && record.status != Analyzing { return false; }
      var cutoff := at - settings.lease;
      if record.verificationStartedAt.Some? && record.verificationStartedAt.value > cutoff { return false; }
      record := record.(verificationStartedAt := Some(at));
      record := record.(rowVersion := record.rowVersion + 1);
      rows := rows[id := record];
      return true;
    }

    /** The transaction that stores the verified checksum. */
    method RecordVerified(id: SessionId, checksum: Checksum, size: int, now: Time) returns (go: bool)
      modifies this`rows
      ensures (Now(), go) == RecordVerifiedTx(old(Now()), now, id, checksum, size)
    {
      if id !in rows || rows[id].status != Verifying { return false; }
      var record := rows[id];
      if size != record.facts.declaredSize {
        record := record.(status := Failed);
        record := record.(failureReason := Some(SizeMismatch));
        record := record.(rowVersion := record.rowVersion + 1);
        rows := rows[id := record];
        return false;
      }
      record := record.(verifiedSha256 := Some(checksum));
      record := record.(status := Analyzing);
      record := record.(verificationStartedAt := Some(now));
      record := record.(rowVersion := record.rowVersion + 1);
      rows := rows[id := record];
      return true;
    }

    method CommitDuplicateIntent(id: SessionId, outcome: Outcome) returns (go: bool)
      modifies this`rows
      ensures (Now(), go) == IntentTx(old(Now()), id, outcome)
    {
      if id !in rows || rows[id].status != Analyzing { return false; }
      var record := rows[id].(result := Some(outcome));
      record := record.(failureReason := Some(DuplicateCleanupPending));
      record := record.(rowVersion := record.rowVersion + 1);
      rows := rows[id := record];
      return true;
    }

    method CommitResult(id: SessionId, outcome: Outcome, now: Time)
      modifies this`rows
      ensures Now() == FinishTx(old(Now()), now, id, outcome)
    {
      if id !in rows || rows[id].status != Analyzing { return; }
      var record := rows[id].(status := Completed);
      record := record.(result := Some(outcome));
      record := record.(completedAt := Some(now));
      record := record.(rowVersion := record.rowVersion + 1);
      rows := rows[id := record];
    }

    method CleanupDuplicate(owner: OwnerId, id: SessionId, now: Time, env: Provider) returns (reply: Reply)
      modifies this
      ensures reply == CleanupTx(old(Now()), now, owner, id, env).reply
      ensures Now() == RollBackIfRaised(old(Now()), CleanupTx(old(Now()), now, owner, id, env))
    {
      if !(id in rows && rows[id].facts.owner == owner) { return Raised(NotFound); }
      var record := rows[id];
      if record.status == Completed { return Done(Completed); }
      if record.failureReason != Some(DuplicateCleanupPending) || record.facts.reanalyze {
        return Raised(NothingPending);
      }
      var expectedKey := SourceKey(owner, record.facts.analysisId, record.facts.suffix);
      if record.result.None? || !record.result.value.Duplicate?
         || record.result.value.existing == record.facts.analysisId
         || record.facts.storageKey != expectedKey || record.facts.analysisId in analyses
         || record.facts.storageKey in videos {
        return Raised(CleanupNeedsReview);
      }
      if env.deletionFails { return Raised(StorageBackend); }
      deleted := deleted + {record.facts.storageKey};
      record := record.(status := Completed);
      record := record.(failureReason := None);
      record := record.(completedAt := Some(now));
      record := record.(rowVersion := record.rowVersion + 1);
      rows := rows[id := record];
      return Done(Completed);
    }

    // -------------------------------------------------------------- the service takes the protocol's steps

    /** The transactions that end a completion. */
    method ServeCompletion(tx: Protocol.Tx, now: Time, calls: map<nat, Protocol.Call>, ghost sent: set<UploadRef>)
      requires tx.FinishComplete? || tx.Restore? || tx.FailCompletion?
      modifies this
      ensures Now() == Protocol.ExecCompletion(Protocol.State(now, old(Now()), calls, sent), tx).world
    {
      hide FinishCompleteTx, RestoreTx, FailTx;
      if tx.call in calls {
        var c := calls[tx.call];
        if tx.FinishComplete? && c.HeadRead? {
          var _ := FinishComplete(c.sid, c.head);
        } else if tx.Restore? && c.RestoreDue? {
          RestoreUploading(c.sid);
        } else if tx.FailCompletion? && c.CompletionFailDue? {
          Fail(c.sid, HeadFailed);
        }
      }
    }

    /** The transactions of the verification worker. */
    method ServeVerification(tx: Protocol.Tx, now: Time, calls: map<nat, Protocol.Call>, ghost sent: set<UploadRef>)
      requires tx.RecordVerified? || tx.CommitIntent? || tx.CommitResult? || tx.WorkerCleanup? || tx.FailVerification?
      modifies this
      ensures Now() == Protocol.ExecVerification(settings, Protocol.State(now, old(Now()), calls, sent), tx).world
    {
      hide RecordVerifiedTx, IntentTx, FinishTx, CleanupTx, FailTx;
      if tx.call in calls {
        var c := calls[tx.call];
        if tx.RecordVerified? && c.Hashed? {
          var _ := RecordVerified(c.sid, c.checksum, c.size, now);
        } else if tx.CommitIntent? && c.WorkflowAnswered? && c.outcome.Duplicate? {
          var _ := CommitDuplicateIntent(c.sid, c.outcome);
        } else if tx.CommitResult? && c.WorkflowAnswered? && !c.outcome.Duplicate? {
          CommitResult(c.sid, c.outcome, now);
        } else if tx.WorkerCleanup? && c.CleanupDue? {
          var _ := CleanupDuplicate(c.owner, c.sid, now, tx.env);
        } else if tx.FailVerification? && c.VerificationFailDue? {
          Fail(c.sid, c.reason);
        }
      }
    }

    /** Any transaction of the protocol, with the calls that are between two of their steps: the service
        takes exactly the protocol's step, so that whatever holds in every reachable state holds of the
        service's tables and provider after any transactions. */
    method Serve(tx: Protocol.Tx, now: Time, calls: map<nat, Protocol.Call>, ghost sent: set<UploadRef>)
      requires settings.partSize > 0 && Theorems.Reachable(settings, Protocol.State(now, Now(), calls, sent))
      modifies this
      ensures var after := Protocol.Exec(settings, Protocol.State(now, old(Now()), calls, sent), tx);
              Now() == after.world && Theorems.Reachable(settings, after)
    {
      ghost var s := Protocol.State(now, Now(), calls, sent);
      Theorems.NextReachable(settings, s, Protocol.Commit(tx));
      assert Protocol.Apply(settings, s, Protocol.Commit(tx)) == Protocol.Exec(settings, s, tx);
      hide Theorems.Reachable, Protocol.ExecCompletion, Protocol.ExecVerification;
      hide InitiateTx, RefreshTx, ReleaseTx, SweepTx, LeaseTx, CleanupTx, ExpireIfNeeded, Ascending, OneTo;
      match tx
      case Initiate(req, id, env) => var _ := Initiate(req, id, now, env);
      case Refresh(owner, id, env) => var _ := Get(owner, id, now, env);
      case PartUrls(owner, id, numbers, env) => var _ := CreatePartUrls(owner, id, numbers, env);
      case BeginComplete(owner, id, parts, call) =>
        if call !in calls {
          var _ := BeginComplete(owner, id, parts);
        }
      case Fence(owner, id, call) =>
        if call !in calls {
          var _ := FenceAbort(owner, id, now);
        }
      case Release(call, env) =>
        if call in calls && calls[call].CancelFenced? {
          var _ := ReleaseAbort(calls[call].owner, calls[call].sid, now, env);
        }
      case Sweep(id, asOf, env) =>
        if asOf <= now {
          var _ := MarkAborted(id, asOf, env);
        }
      case Lease(id, at, call) =>
        if call !in calls && at <= now {
          var _ := TakeLease(id, at);
        }
      case Cleanup(owner, id, env) => var _ := CleanupDuplicate(owner, id, now, env);
      case FinishComplete(_) => ServeCompletion(tx, now, calls, sent);
      case Restore(_) => ServeCompletion(tx, now, calls, sent);
      case FailCompletion(_) => ServeCompletion(tx, now, calls, sent);
      case _ => ServeVerification(tx, now, calls, sent);
    }
  }
}
