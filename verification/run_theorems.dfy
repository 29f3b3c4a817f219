/** What the persistence service guarantees in every reachable state and over every run: attempt
    chains, the event log, idempotency keys, optimistic locking, deleted matches and duplicates. */
module RunTheorems {
  import opened Common
  import opened ArtifactRegistry
  import opened RunStore
  import opened RunHistory
  import opened RunSteps

  // ---------------------------------------------------------------- attempts

  /** The runs of one analysis, oldest first. */
  function RunsOf(runs: seq<Run>, a: AnalysisId): (ids: seq<RunId>)
    ensures forall k :: 0 <= k < |ids| ==> ids[k] < |runs| && runs[ids[k]].analysis == a
    ensures forall i :: 0 <= i < |runs| && runs[i].analysis == a ==> i in ids
    ensures |ids| == CountRuns(runs, a)
    ensures LastRun(runs, a) == if ids == [] then None else Some(ids[|ids| - 1])
  {
    if runs == [] then []
    else
      var init := runs[..|runs| - 1];
      var ids := RunsOf(init, a);
      assert forall i :: 0 <= i < |init| ==> init[i] == runs[i];
      if runs[|runs| - 1].analysis == a then ids + [|runs| - 1] else ids
  }

  /** Entry k of the list is attempt k + 1 and points at entry k - 1. */
  ghost predicate IsAttempt(runs: seq<Run>, ids: seq<RunId>, k: nat)
    requires k < |ids| && ids[k] < |runs|
  {
    runs[ids[k]].attempt == k + 1 && runs[ids[k]].previous == if k == 0 then None else Some(ids[k - 1])
  }

  lemma {:induction false} RunsOfNumbered(runs: seq<Run>, a: AnalysisId, k: nat)
    requires Linked(runs) && k < |RunsOf(runs, a)|
    ensures IsAttempt(runs, RunsOf(runs, a), k)
  {
    var n := |runs| - 1;
    LinkedPrefix(runs, n);
    if k < |RunsOf(runs[..n], a)| {
      RunsOfNumbered(runs[..n], a, k);
    } else {
      assert LinkedAt(runs, n);
    }
  }

  lemma OlderRunsEnded(runs: seq<Run>, a: AnalysisId, k: nat)
    requires Linked(runs) && OnlyLastActive(runs) && k < |RunsOf(runs, a)| - 1
    ensures !Active(runs[RunsOf(runs, a)[k]].state)
  {
    var ids := RunsOf(runs, a);
    RunsOfNumbered(runs, a, k);
    RunsOfNumbered(runs, a, |ids| - 1);
    hide Linked;
    assert ids[k] != ids[|ids| - 1];
  }

  ghost predicate IsChain(runs: seq<Run>, a: AnalysisId) {
    var ids := RunsOf(runs, a);
    (forall k :: 0 <= k < |ids| ==> IsAttempt(runs, ids, k))
    && (forall k :: 0 <= k < |ids| - 1 ==> !Active(runs[ids[k]].state))
  }

  lemma LinkedRunsFormAChain(runs: seq<Run>, a: AnalysisId)
    requires Linked(runs) && OnlyLastActive(runs)
    ensures IsChain(runs, a)
  {
    var ids := RunsOf(runs, a);
    hide Linked, OnlyLastActive, RunsOf;
    forall k | 0 <= k < |ids| ensures IsAttempt(runs, ids, k) {
      RunsOfNumbered(runs, a, k);
    }
    forall k | 0 <= k < |ids| - 1 ensures !Active(runs[ids[k]].state) {
      OlderRunsEnded(runs, a, k);
    }
  }

  lemma ReachableRuns(db: Db)
    requires Reachable(db)
    ensures Linked(db.runs) && OnlyLastActive(db.runs)
  {
    ReachableInv(db);
  }

  /** The runs of an analysis are attempts 1..n, each linked to the one before; only attempt n can
      be queued or processing, and it is the run both lookups of the service return. */
  lemma AttemptsFormAChain(db: Db, a: AnalysisId)
    requires Reachable(db)
    ensures IsChain(db.runs, a)
    ensures var ids := RunsOf(db.runs, a);
            ActiveOrLatest(db.runs, a) == Newest(db.runs, a) == if ids == [] then None else Some(ids[|ids| - 1])
  {
    hide *;
    ReachableRuns(db);
    LookupsFindTheLast(db.runs, a);
    LinkedRunsFormAChain(db.runs, a);
  }

  /** An ended run is never written again, and no run goes back. */
  lemma EndedRunsNeverMove(db: Db, calls: seq<Call>, r: RunId)
    requires Reachable(db) && r < |db.runs|
    ensures var later := RunAll(db, calls).runs;
            r < |later| && StateReach(db.runs[r].state, later[r].state) && db.runs[r].version <= later[r].version
            && (!Active(db.runs[r].state) ==> later[r] == db.runs[r])
  {
    ReachableInv(db);
    RunKeeps(db, calls);
    assert RunAdvance(db.runs[r], RunAll(db, calls).runs[r]);
  }

  /** The promoted run is a completed run of that very analysis, and stays one. */
  lemma PromotedRunsAreCompleted(db: Db, a: AnalysisId, calls: seq<Call>)
    requires Reachable(db) && a in db.analyses && db.analyses[a].promoted.Some?
    ensures var r := db.analyses[a].promoted.value; var later := RunAll(db, calls);
            r < |db.runs| && db.runs[r].analysis == a && db.runs[r].state == Completed
            && r < |later.runs| && later.runs[r] == db.runs[r]
            && a in later.analyses && later.analyses[a].promoted.Some?
  {
    ReachableInv(db);
    assert RowOk(db, a);
    EndedRunsNeverMove(db, calls, db.analyses[a].promoted.value);
    RunKeeps(db, calls);
    hide Inv;
    assert RowAdvance(db.analyses[a], RunAll(db, calls).analyses[a]);
  }

  // ---------------------------------------------------------------- the event log

  /** The events of one run or analysis, in log order. */
  function History(log: seq<Event>, subject: Subject): seq<Event> {
    if log == [] then []
    else
      var before := History(log[..|log| - 1], subject);
      if log[|log| - 1].subject == subject then before + [log[|log| - 1]] else before
  }

  /** A history that leads from nothing to a state and version. */
  ghost predicate LeadsTo(h: seq<Event>, state: State, version: nat) {
    h != [] && h[0].previous == None && h[0].version == 1
    && (forall i :: 1 <= i < |h| ==> h[i].previous == Some(h[i - 1].state) && h[i].version > h[i - 1].version)
    && h[|h| - 1].state == state && h[|h| - 1].version == version
  }

  lemma {:induction false} ReplayIsHistory(log: seq<Event>, subject: Subject)
    ensures Replay(log, subject) == Fresh ==> History(log, subject) == []
    ensures Replay(log, subject).At? ==>
            LeadsTo(History(log, subject), Replay(log, subject).state, Replay(log, subject).version)
    ensures Replay(log, subject).At? && subject.OnRun? ==>
              forall i :: 0 <= i < |History(log, subject)| ==> History(log, subject)[i].version == i + 1
  {
    if log != [] { ReplayIsHistory(log[..|log| - 1], subject); }
  }

  /** The log of a run of a live match chains from nothing to its current state, with versions
      exactly 1, 2, ..., row_version. */
  lemma LogRebuildsRuns(db: Db, r: RunId)
    requires Reachable(db) && r < |db.runs| && IsLive(db, db.runs[r].analysis)
    ensures var h := History(db.events, OnRun(r));
            LeadsTo(h, db.runs[r].state, db.runs[r].version) && |h| == db.runs[r].version
            && forall i :: 0 <= i < |h| ==> h[i].version == i + 1
  {
    ReachableInv(db);
    assert RunLogged(db, r);
    ReplayIsHistory(db.events, OnRun(r));
  }

  /** The log of an analysis chains to its current state with strictly increasing versions. */
  lemma LogRebuildsAnalyses(db: Db, a: AnalysisId)
    requires Reachable(db) && a in db.analyses
    ensures var h := History(db.events, OnAnalysis(a));
            h != [] && LeadsTo(h, db.analyses[a].state, h[|h| - 1].version)
            && h[|h| - 1].version <= db.analyses[a].version
  {
    ReachableInv(db);
    assert AnalysisLogged(db, a);
    ReplayIsHistory(db.events, OnAnalysis(a));
  }

  /** The log stops short of a run: replaying it does not give the run's state and version. */
  ghost predicate LogShort(db: Db, r: RunId)
    requires r < |db.runs|
  {
    Replay(db.events, OnRun(r)) != At(db.runs[r].state, db.runs[r].version)
  }

  /** Where the log stops short, it ends in an active state of a run whose match is deleted. */
  lemma ShortLogsBelongToDeletedMatches(db: Db, r: RunId)
    requires Reachable(db) && r < |db.runs|
    ensures Replay(db.events, OnRun(r)).At? && Replay(db.events, OnRun(r)).version == db.runs[r].version
    ensures LogShort(db, r) <==> Active(Replay(db.events, OnRun(r)).state) && !IsLive(db, db.runs[r].analysis)
    ensures LogShort(db, r) ==> db.runs[r].state == Cancelled
  {
    ReachableInv(db);
    assert RunLogged(db, r);
    if !IsLive(db, db.runs[r].analysis) {
      assert RowOk(db, db.runs[r].analysis);
    }
  }

  lemma AcceptedDeletion(db: Db, owner: OwnerId, a: AnalysisId, uploading: bool, r: RunId)
    requires r < |db.runs| && DeleteTx(db, owner, a, uploading).reply == Accepted
    ensures var after := DeleteTx(db, owner, a, uploading).db; var run := db.runs[r];
            after.events == db.events && r < |after.runs| && !IsLive(after, a)
            && (forall b :: b != a && IsLive(db, b) ==> IsLive(after, b))
            && after.runs[r] == if run.analysis == a && Active(run.state) then run.(state := Cancelled) else run
  {
    hide SharesVideo;
  }

  lemma {:induction false} UnmentionedReplays(log: seq<Event>, log': seq<Event>, subject: Subject)
    requires log <= log' && forall i :: |log| <= i < |log'| ==> log'[i].subject != subject
    ensures Replay(log', subject) == Replay(log, subject)
  {
    if |log'| == |log| {
      assert log' == log;
    } else {
      UnmentionedReplays(log, log'[..|log'| - 1], subject);
    }
  }

  ghost predicate KeepsLives(db: Db, db': Db) { forall b :: IsLive(db, b) ==> IsLive(db', b) }

  lemma SaveRowsKeepsLives(db: Db, req: SaveRequest)
    requires req.analysis in db.analyses && SaveRows(db, req).Some?
    ensures KeepsLives(db, SaveRows(db, req).value.0)
  {
    hide RunForSave, KeptInputs, WithdrawDependents, SourceInput;
  }

  lemma FinishRunKeepsLives(db: Db, a: AnalysisId, run: Option<RunId>, status: State)
    requires a in db.analyses
    ensures KeepsLives(db, FinishRun(db, a, run, status))
  {}

  lemma SaveKeepsLives(db: Db, req: SaveRequest)
    requires req.analysis in db.analyses && SaveOn(db, req).Some?
    ensures KeepsLives(db, SaveOn(db, req).value)
  {
    hide SaveRows, FinishRun, KeptInputs, RegisterAll;
    SaveRowsKeepsLives(db, req);
    var rows := SaveRows(db, req).value;
    FinishRunKeepsLives(rows.0, req.analysis, rows.1, req.payload.status);
  }

  lemma LoadKeepsLives(db: Db, req: SaveRequest, now: Time)
    requires LoadOrImport(db, req, now).Some?
    ensures var loaded := LoadOrImport(db, req, now).value; req.analysis in loaded.analyses && KeepsLives(db, loaded)
  {
    hide HasActive, Newest;
  }

  lemma PersistKeepsLives(db: Db, req: SaveRequest, now: Time)
    ensures KeepsLives(db, PersistTx(db, req, now).db)
  {
    hide SaveDenied, LoadOrImport, SaveOn;
    if LoadOrImport(db, req, now).Some? {
      LoadKeepsLives(db, req, now);
      var loaded := LoadOrImport(db, req, now).value;
      if SaveOn(loaded, req).Some? { SaveKeepsLives(loaded, req); }
    }
  }

  lemma LivesStay(db: Db, call: Call)
    requires !call.DeleteMatch?
    ensures KeepsLives(db, Exec(db, call).db)
  {
    hide HasActive, Newest, ActiveRun, SharesVideo, FindDuplicate, PersistTx;
    if call.Persist? { PersistKeepsLives(db, call.save, call.now); }
  }

  lemma DeletedMatchesLogNothing(db: Db, call: Call, r: RunId)
    requires Reachable(db) && r < |db.runs| && !IsLive(db, db.runs[r].analysis)
    ensures var after := Exec(db, call).db;
            r < |after.runs| && after.runs[r] == db.runs[r]
            && Replay(after.events, OnRun(r)) == Replay(db.events, OnRun(r))
  {
    ReachableInv(db);
    TransactionStep(db, call);
    assert RowOk(db, db.runs[r].analysis);
    var after := Exec(db, call).db;
    hide Exec, Inv, Reachable, RowsAdvance, VideosAdvance, RecordsKept, AppendOnly;
    assert RunAdvance(db.runs[r], after.runs[r]);
    assert !HasActive(db.runs, db.runs[r].analysis);
    assert Quiet(db, after, db.runs[r].analysis);
    forall i | |db.events| <= i < |after.events| ensures after.events[i].subject != OnRun(r) {
      assert !About(after.runs, after.events[i].subject, db.runs[r].analysis);
    }
    UnmentionedReplays(db.events, after.events, OnRun(r));
  }

  /** What a caller can check before a deletion. */
  predicate DeletionAccepted(db: Db, owner: OwnerId, a: AnalysisId, uploading: bool) {
    a in db.analyses && db.analyses[a].owner == owner && !SharesVideo(db, a) && !uploading
  }

  /** A deletion is accepted exactly when its guard holds in the state before it. */
  lemma DeletedExactlyWhenAccepted(db: Db, owner: OwnerId, a: AnalysisId, uploading: bool)
    requires Reachable(db)
    ensures DeleteTx(db, owner, a, uploading).reply == Accepted <==> DeletionAccepted(db, owner, a, uploading)
  {
    ReachableInv(db);
    if a in db.analyses { assert RowOk(db, a); }
    hide Inv, Reachable, SharesVideo;
  }

  /** The call is a deletion of the run's match that will be accepted while the run is active. */
  predicate DeletesActive(db: Db, call: Call, r: RunId)
    requires r < |db.runs|
  {
    call.DeleteMatch? && call.analysis == db.runs[r].analysis && Active(db.runs[r].state)
    && DeletionAccepted(db, call.owner, call.analysis, call.uploading)
  }

  /** Deleting a match cancels its active run without an event, and nothing else ever loses one: after
      any call the log stops short of a run exactly if it did before, or if the call is an acceptable
      deletion of the run's match and the run is active. */
  lemma DeletionSkipsTheLog(db: Db, call: Call, r: RunId)
    requires Reachable(db) && r < |db.runs|
    ensures r < |Exec(db, call).db.runs|
    ensures LogShort(Exec(db, call).db, r) <==> LogShort(db, r) || DeletesActive(db, call, r)
  {
    var a := db.runs[r].analysis;
    var after := Exec(db, call).db;
    NextReachable(db, call);
    ShortLogsBelongToDeletedMatches(db, r);
    if call.DeleteMatch? { DeletedExactlyWhenAccepted(db, call.owner, call.analysis, call.uploading); }
    hide DeletionAccepted;
    if !IsLive(db, a) {
      DeletedMatchesLogNothing(db, call, r);
      RunsOfDeletedEnd(db, r);
      hide Exec, Reachable, Replay;
    } else if call.DeleteMatch? && Exec(db, call).reply == Accepted {
      AcceptedDeletion(db, call.owner, call.analysis, call.uploading, r);
      hide DeleteTx, Reachable, Replay;
      ShortLogsBelongToDeletedMatches(after, r);
    } else {
      RunsSurvive(db, call, r);
      assert IsLive(after, a) by { LivesOrRefused(db, call); }
      hide DeleteTx, Reachable, Replay;
      ShortLogsBelongToDeletedMatches(after, r);
    }
  }

  lemma RunsOfDeletedEnd(db: Db, r: RunId)
    requires Reachable(db) && r < |db.runs| && !IsLive(db, db.runs[r].analysis)
    ensures !Active(db.runs[r].state)
  {
    ReachableInv(db);
    assert RowOk(db, db.runs[r].analysis);
  }

  lemma RunsSurvive(db: Db, call: Call, r: RunId)
    requires Reachable(db) && r < |db.runs|
    ensures r < |Exec(db, call).db.runs| && Exec(db, call).db.runs[r].analysis == db.runs[r].analysis
  {
    ReachableInv(db);
    TransactionStep(db, call);
    hide Exec, Inv, Reachable;
    assert RunAdvance(db.runs[r], Exec(db, call).db.runs[r]);
  }

  lemma LivesOrRefused(db: Db, call: Call)
    requires call.DeleteMatch? ==> Exec(db, call).reply != Accepted
    ensures KeepsLives(db, Exec(db, call).db)
  {
    if !call.DeleteMatch? { LivesStay(db, call); hide Exec; } else { hide SharesVideo; }
  }

  // ---------------------------------------------------------------- idempotency keys

  /** What a bound upload key answers: its analysis while the match is live, and nothing else. */
  function BoundAnswer(db: Db, record: Record, fingerprint: string): Reply
    requires record.resource.Some? && !record.resource.value.OfRun? && record.resource.value.analysis in db.analyses
  {
    var a := record.resource.value.analysis;
    if record.fingerprint != fingerprint then Raised(IdempotencyConflict)
    else if !IsLive(db, a) then Raised(NotFound)
    else Reserved(a, false, if record.resource.value.OfDuplicate? then Some(db.analyses[a].video) else None)
  }

  /** Once bound, an upload key answers the same way for ever, on the main path and on the retry
      path, and changes nothing; a request with another fingerprint is always refused. */
  lemma UploadKeysStayBound(db: Db, calls: seq<Call>, req: ReserveRequest, now: Time)
    requires Reachable(db) && req.Key() in db.records
    ensures var later := RunAll(db, calls); var record := db.records[req.Key()];
            req.Key() in later.records && later.records[req.Key()] == record
            && record.resource.Some? && !record.resource.value.OfRun?
            && record.resource.value.analysis in later.analyses
            && ReserveTx(later, req, now) == Outcome(later, BoundAnswer(later, record, req.fingerprint))
            && ReserveAgain(later, req) == BoundAnswer(later, record, req.fingerprint)
  {
    hide Reachable, RunAll, RunsAdvance, RowsAdvance, VideosAdvance, AppendOnly, Quiet;
    hide Linked, OnlyLastActive, RunsLogged, AnalysesLogged, VideosUnshared, LogMentionsRows, Unique;
    ReachableInv(db);
    RunKeeps(db, calls);
    var later := RunAll(db, calls);
    assert RecordOk(later, req.Key());
    assert RowOk(later, later.records[req.Key()].resource.value.analysis);
    hide Inv;
  }

  /** Whatever a reservation answers, the key is bound to it from then on. */
  lemma ReservationBindsItsKey(db: Db, req: ReserveRequest, now: Time)
    requires Reachable(db) && ReserveTx(db, req, now).reply.Reserved?
    ensures var out := ReserveTx(db, req, now);
            req.Key() in out.db.records
            && out.db.records[req.Key()].fingerprint == req.fingerprint
            && (out.db.records[req.Key()].resource == Some(OfAnalysis(out.reply.analysis))
                || out.db.records[req.Key()].resource == Some(OfDuplicate(out.reply.analysis)))
  {
    ReachableInv(db);
    hide CreateAnalysis, InsertRun, FindDuplicate, Inv;
  }

  lemma NextReachable(db: Db, call: Call)
    requires Reachable(db)
    ensures Reachable(Exec(db, call).db)
  {
    var calls :| db == RunAll(EMPTY, calls);
    RunAllAppend(EMPTY, calls, [call]);
    assert RunAll(db, [call]) == RunAll(Exec(db, call).db, []);
  }

  lemma {:induction false} RunAllAppend(db: Db, calls: seq<Call>, more: seq<Call>)
    ensures RunAll(db, calls + more) == RunAll(RunAll(db, calls), more)
    decreases |calls|
  {
    hide Exec;
    if calls == [] {
      assert calls + more == more;
    } else {
      assert (calls + more)[1..] == calls[1..] + more;
      RunAllAppend(Exec(db, calls[0]).db, calls[1..], more);
    }
  }

  /** Two requests under one key never receive two analyses, however much happens in between. */
  lemma OneKeyOneAnalysis(db: Db, first: ReserveRequest, t1: Time, calls: seq<Call>, second: ReserveRequest, t2: Time)
    requires Reachable(db) && first.Key() == second.Key() && ReserveTx(db, first, t1).reply.Reserved?
    ensures var later := RunAll(ReserveTx(db, first, t1).db, calls); var reply := ReserveTx(later, second, t2).reply;
            reply.Raised? || (reply.analysis == ReserveTx(db, first, t1).reply.analysis && !reply.created
                              && first.fingerprint == second.fingerprint)
  {
    ReservationBindsItsKey(db, first, t1);
    NextReachable(db, Reserve(first, t1));
    UploadKeysStayBound(ReserveTx(db, first, t1).db, calls, second, t2);
  }

  /** The key stands for what was answered: the analysis, and whether it is a duplicate of which video. */
  predicate Remembers(db: Db, key: RecordKey, fingerprint: string, a: AnalysisId, duplicate: Option<VideoId>) {
    key in db.records && db.records[key].fingerprint == fingerprint && a in db.analyses
    && db.records[key].resource == Some(if duplicate.Some? then OfDuplicate(a) else OfAnalysis(a))
    && (duplicate.Some? ==> duplicate.value == db.analyses[a].video)
  }

  lemma FreshReservationsAreRemembered(db: Db, req: ReserveRequest, now: Time)
    requires req.Key() !in db.records && ReserveTx(db, req, now).reply.Reserved?
    ensures var out := ReserveTx(db, req, now);
            Remembers(out.db, req.Key(), req.fingerprint, out.reply.analysis, out.reply.duplicate)
  {
    hide HasActive, Newest;
  }

  lemma BoundReservationsAreRemembered(db: Db, req: ReserveRequest, now: Time)
    requires req.Key() in db.records && ReserveTx(db, req, now).reply.Reserved?
    ensures var out := ReserveTx(db, req, now);
            Remembers(out.db, req.Key(), req.fingerprint, out.reply.analysis, out.reply.duplicate)
  {
    hide InsertRun, FindDuplicate, CreateAnalysis;
  }

  /** The key remembers whether it was answered with a duplicate, and with which recording. */
  lemma ReservationBindsItsFlag(db: Db, req: ReserveRequest, now: Time)
    requires ReserveTx(db, req, now).reply.Reserved?
    ensures var out := ReserveTx(db, req, now);
            Remembers(out.db, req.Key(), req.fingerprint, out.reply.analysis, out.reply.duplicate)
  {
    hide ReserveTx, Remembers;
    if req.Key() in db.records {
      BoundReservationsAreRemembered(db, req, now);
    } else {
      FreshReservationsAreRemembered(db, req, now);
    }
  }

  lemma RowsKeepTheirVideo(db: Db, calls: seq<Call>, a: AnalysisId)
    requires Reachable(db) && a in db.analyses
    ensures a in RunAll(db, calls).analyses && RunAll(db, calls).analyses[a].video == db.analyses[a].video
  {
    ReachableInv(db);
    RunKeeps(db, calls);
    assert RowAdvance(db.analyses[a], RunAll(db, calls).analyses[a]);
  }

  /** What the analysis workflow concludes from a reservation, new recording or duplicate of which match,
      never changes for a key: every later request under it gets the same conclusion or an error. */
  lemma WorkflowOutcomesAreStable(
      db: Db, first: ReserveRequest, t1: Time, calls: seq<Call>, second: ReserveRequest, t2: Time)
    requires Reachable(db) && first.Key() == second.Key() && ReserveTx(db, first, t1).reply.Reserved?
    ensures var later := RunAll(ReserveTx(db, first, t1).db, calls); var reply := ReserveTx(later, second, t2).reply;
            reply.Raised? || (reply.Reserved? && reply.analysis == ReserveTx(db, first, t1).reply.analysis
                              && reply.duplicate == ReserveTx(db, first, t1).reply.duplicate)
  {
    hide Reachable, ReserveTx, RunAll;
    ReservationBindsItsFlag(db, first, t1);
    NextReachable(db, Reserve(first, t1));
    assert Exec(db, Reserve(first, t1)) == ReserveTx(db, first, t1);
    var out := ReserveTx(db, first, t1);
    UploadKeysStayBound(out.db, calls, second, t2);
    RowsKeepTheirVideo(out.db, calls, out.reply.analysis);
  }

  /** The same for run-start keys: one run for ever, whichever of the two paths answers. */
  lemma RunKeysStayBound(db: Db, calls: seq<Call>, req: RunRequest)
    requires Reachable(db) && req.Key() in db.records
    ensures var later := RunAll(db, calls); var record := db.records[req.Key()];
            record.resource.Some? && record.resource.value.OfRun? && record.resource.value.run < |db.runs|
            && StartRunTx(later, req).db == later && StartRunAgainTx(later, req).db == later
            && StartRunAgainTx(later, req).reply
               == (if record.fingerprint != req.fingerprint then Raised(IdempotencyConflict)
                   else RunStarted(record.resource.value.run, false))
            && (StartRunTx(later, req).reply == StartRunAgainTx(later, req).reply
              || StartRunTx(later, req).reply.Raised?)
  {
    hide RunsAdvance, RowsAdvance, VideosAdvance, AppendOnly, Quiet, InsertRun, ActiveRun, RunAll, Reachable;
    hide Linked, OnlyLastActive, RunsLogged, AnalysesLogged, RowsOk, VideosUnshared, LogMentionsRows, Unique;
    ReachableInv(db);
    RunKeeps(db, calls);
    assert RecordOk(db, req.Key());
    hide Inv, RecordsOk, ChangeAnalysis;
  }

  predicate Creates(db: Db, call: Call, key: RecordKey) {
    match Exec(db, call).reply
    case Reserved(_, created, _) => created && call.Reserve? && call.reserve.Key() == key
    case RunStarted(_, created) => created && call.StartRun? && call.start.Key() == key
    case _ => false
  }

  /** How many calls of a run report that they created the resource of a key. */
  function Creations(db: Db, calls: seq<Call>, key: RecordKey): nat
    decreases |calls|
  {
    if calls == [] then 0
    else (if Creates(db, calls[0], key) then 1 else 0) + Creations(Exec(db, calls[0]).db, calls[1..], key)
  }

  lemma ReserveCreates(db: Db, req: ReserveRequest, now: Time)
    requires Inv(db)
    ensures var out := ReserveTx(db, req, now);
            out.reply.Reserved? && out.reply.created ==> req.Key() !in db.records && req.Key() in out.db.records
    ensures ReserveTx(db, req, now).reply.Reserved? || ReserveTx(db, req, now).reply.Raised?
  {
    hide Inv, CreateAnalysis, InsertRun, FindDuplicate;
  }

  lemma StartRunCreates(db: Db, req: RunRequest)
    requires Inv(db)
    ensures var out := StartRunTx(db, req);
            out.reply.RunStarted? && out.reply.created ==> req.Key() !in db.records && req.Key() in out.db.records
    ensures StartRunTx(db, req).reply.RunStarted? || StartRunTx(db, req).reply.Raised?
  {
    hide Inv, InsertRun, ChangeAnalysis;
  }

  lemma CreatingBinds(db: Db, call: Call, key: RecordKey)
    requires Inv(db)
    ensures key in db.records ==> !Creates(db, call, key) && key in Exec(db, call).db.records
    ensures Creates(db, call, key) ==> key in Exec(db, call).db.records
  {
    TransactionStep(db, call);
    hide Inv, RunsAdvance, RowsAdvance, VideosAdvance, AppendOnly, Quiet;
    hide ReserveTx, StartRunTx, PersistTx, DeleteTx, TransitionTx, RemoveSourceTx, StartRunAgainTx;
    match call
    case Reserve(req, now) => ReserveCreates(db, req, now);
    case StartRun(req) => StartRunCreates(db, req);
    case _ =>
  }

  /** At most one call ever reports that it created what a key stands for. */
  lemma {:induction false} CreatedAtMostOnce(db: Db, calls: seq<Call>, key: RecordKey)
    requires Inv(db)
    ensures Creations(db, calls, key) <= if key in db.records then 0 else 1
    decreases |calls|
  {
    if calls != [] {
      CreatingBinds(db, calls[0], key);
      TransactionStep(db, calls[0]);
      hide Inv, Step, Exec, Creates;
      CreatedAtMostOnce(Exec(db, calls[0]).db, calls[1..], key);
    }
  }

  /** A second key that races an active run: its insert aborts without a trace, and the retry joins
      the active run, which is the last attempt, for ever. */
  lemma SecondKeyJoinsTheActiveRun(db: Db, req: RunRequest, calls: seq<Call>)
    requires Reachable(db) && Active(req.state) && req.Key() !in db.records
    requires Denied(db, req.analysis, req.owner).None? && HasActive(db.runs, req.analysis)
    ensures StartRunTx(db, req) == Outcome(db, Raised(IntegrityViolation))
    ensures var out := StartRunAgainTx(db, req); var r := LastRun(db.runs, req.analysis);
            r.Some? && Active(db.runs[r.value].state) && out.reply == RunStarted(r.value, false)
            && out.db.runs == db.runs
            && StartRunAgainTx(RunAll(out.db, calls), req).reply == RunStarted(r.value, false)
  {
    ReachableInv(db);
    LookupsFindTheLast(db.runs, req.analysis);
    NextReachable(db, StartRunAgain(req));
    RunKeysStayBound(StartRunAgainTx(db, req).db, calls, req);
  }

  /** Without `allow_duplicate` a known recording is answered with the latest live analysis of it; the
      key is bound to that analysis and nothing is created. */
  lemma KnownRecordingIsAnswered(db: Db, req: ReserveRequest, now: Time)
    requires Reachable(db) && req.Key() !in db.records && !req.allowDuplicate
    ensures var known := SourcesOf(db, req.owner, req.checksum, req.sport);
            known != {} ==>
              exists a :: IsLatest(db, known, a) && IsLive(db, a) && db.analyses[a].owner == req.owner
                          && ReserveTx(db, req, now)
                             == Outcome(Bind(db, req.Key(), req.fingerprint, OfDuplicate(a)),
                               Reserved(a, false, Some(db.analyses[a].video)))
    ensures var known := SourcesOf(db, req.owner, req.checksum, req.sport);
            known == {} ==>
              ReserveTx(db, req, now).reply
              == if req.analysis in db.analyses then Raised(IntegrityViolation) else Reserved(req.analysis, true, None)
  {
    ReachableInv(db);
    var known := SourcesOf(db, req.owner, req.checksum, req.sport);
    if known != {} {
      var a := LatestOf(db, known);
      assert IsLatest(db, known, a) && HasSource(db, a, req.owner, req.checksum, req.sport);
    } else if req.analysis !in db.analyses {
      var video := Video(req.owner, Awaited, Some(req.checksum), None);
      CreateStep(db, req.analysis, req.owner, req.sport, Processing, req.payload, video, now);
    }
    hide Inv, Step, Reachable;
  }

  // ---------------------------------------------------------------- optimistic locking

  /** A row version that has been passed never writes again: every later save that names it is
      refused and changes nothing. */
  lemma PassedVersionsNeverSave(db: Db, calls: seq<Call>, save: SaveRequest, now: Time)
    requires Reachable(db) && save.analysis in db.analyses && save.expected.Some?
    requires db.analyses[save.analysis].version > save.expected.value
    ensures var later := RunAll(db, calls);
            PersistTx(later, save, now).db == later && PersistTx(later, save, now).reply.Raised?
  {
    ReachableInv(db);
    RunKeeps(db, calls);
    var later := RunAll(db, calls);
    hide Inv, RunsAdvance, VideosAdvance, AppendOnly, Quiet;
    assert RowAdvance(db.analyses[save.analysis], later.analyses[save.analysis]);
    hide LoadOrImport, SaveOn, RunAll;
  }

  lemma PassedVersionsNeverTransition(db: Db, calls: seq<Call>, owner: OwnerId, r: RunId, expected: nat, to: State)
    requires Reachable(db) && r < |db.runs| && db.runs[r].version > expected
    ensures var later := RunAll(db, calls); TransitionTx(later, owner, r, expected, to).db == later
  {
    ReachableInv(db);
    RunKeeps(db, calls);
    hide Inv, RowsAdvance, VideosAdvance, AppendOnly, Quiet;
    assert RunAdvance(db.runs[r], RunAll(db, calls).runs[r]);
    hide ChangeAnalysis, ChangeRun, RunAll;
  }

  /** A successful save passes the version it was given. */
  lemma SavingPassesTheVersion(db: Db, save: SaveRequest, now: Time)
    requires Reachable(db) && save.analysis in db.analyses
    ensures var out := PersistTx(db, save, now);
            out.reply.Saved? ==>
              save.analysis in out.db.analyses && out.db.analyses[save.analysis].version == out.reply.version
              && out.reply.version == db.analyses[save.analysis].version + 1
              && (save.expected.Some? ==> save.expected.value == db.analyses[save.analysis].version)
              && out.db.analyses[save.analysis].payload == save.payload
  {
    if PersistTx(db, save, now).reply.Saved? {
      SaveBumps(db, save);
      hide SaveOn;
    }
  }

  /** So does a transition that writes: it makes one permitted change, the analysis follows the run
      unless it went stale, and completion promotes the run. */
  lemma TransitionPassesTheVersion(db: Db, owner: OwnerId, r: RunId, expected: nat, to: State)
    ensures var out := TransitionTx(db, owner, r, expected, to);
            out.db != db ==>
              r < |db.runs| && |out.db.runs| == |db.runs| && db.runs[r].version == expected
              && TransitionAllowed(db.runs[r].state, to) && db.runs[r].analysis in db.analyses
              && out.db.runs == db.runs[r := db.runs[r].(state := to, version := expected + 1)]
              && (var a := db.runs[r].analysis; var row := db.analyses[a];
                  out.db.analyses
                  == if to == Stale then db.analyses
                     else db.analyses[a := row.(state := to, version := row.version + 1,
                                                promoted := if to == Completed then Some(r) else row.promoted)])
  {
    hide ChangeAnalysis;
    var out := TransitionTx(db, owner, r, expected, to);
    if out.db != db && to != Stale {
      var a := db.runs[r].analysis;
      ChangeAnalysisShape(db, a, to, db.analyses[a].payload, true);
    }
  }

  lemma SaveBumps(db: Db, req: SaveRequest)
    requires req.analysis in db.analyses && SaveOn(db, req).Some?
    ensures var db' := SaveOn(db, req).value;
            req.analysis in db'.analyses && db'.analyses[req.analysis].version == db.analyses[req.analysis].version + 1
            && db'.analyses[req.analysis].payload == req.payload
            && db'.analyses[req.analysis].state == req.payload.status
  {
    hide WithdrawDependents, KeptInputs, RegisterAll, ActiveOrLatest, Newest, HasActive;
  }
}
