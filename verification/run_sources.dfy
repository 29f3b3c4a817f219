/** What one save does to runs and artifacts, what deletion freezes, and when two live analyses can
    stand for the same recording. */
module RunSources {
  import opened Common
  import opened ArtifactRegistry
  import opened RunStore
  import opened RunHistory
  import opened RunSteps

  // ---------------------------------------------------------------- when a call is accepted

  /** The payload a save is compared with; a compatibility import is compared with itself. */
  function PayloadBefore(db: Db, req: SaveRequest): Payload {
    if req.analysis in db.analyses then db.analyses[req.analysis].payload else req.payload
  }

  /** What a caller can check before a save: no refusal, a status the table allows, and artifacts that
      fit the unique indexes once the withdrawals are done. */
  predicate SaveAccepted(db: Db, req: SaveRequest) {
    SaveDenied(db, req).None? && AnalysisState(req.payload.status)
    && Registrable(WithdrawDependents(db.artifacts, req.analysis, PayloadBefore(db, req), req.payload), req.analysis,
                   KeptInputs(req.inputs, PayloadBefore(db, req), req.payload))
  }

  /** What a caller can check before a reservation that is to create an analysis. */
  predicate ReserveCreates(db: Db, req: ReserveRequest) {
    req.Key() !in db.records && req.analysis !in db.analyses
    && (req.allowDuplicate || SourcesOf(db, req.owner, req.checksum, req.sport) == {})
  }

  lemma FreshHasNoRun(db: Db, a: AnalysisId)
    requires Inv(db) && a !in db.analyses
    ensures !HasActive(db.runs, a)
  {}

  /** A reservation creates its analysis exactly when the guard holds. */
  lemma CreatesExactlyWhenFree(db: Db, req: ReserveRequest, now: Time)
    requires Inv(db)
    ensures ReserveTx(db, req, now).reply == Reserved(req.analysis, true, None) <==> ReserveCreates(db, req)
  {
    if req.analysis !in db.analyses { FreshHasNoRun(db, req.analysis); }
    hide Inv, HasSource, Newest;
  }

  /** Up to the registrations a save of a live match cannot fail. */
  lemma SaveReachesRegistration(db: Db, req: SaveRequest)
    requires Inv(db) && IsLive(db, req.analysis)
    ensures SaveRows(db, req).Some?
  {
    var a := req.analysis;
    var db1 := db.(artifacts := WithdrawDependents(db.artifacts, a, db.analyses[a].payload, req.payload));
    WithdrawStep(db, a, req.payload);
    hide KeptInputs, WithdrawDependents, ChangeAnalysis, SaveVideo, Step;
    RunForSaveStep(db1, a, req.payload.status);
    hide Inv, RunForSave;
  }

  lemma SaveOnRegisters(db: Db, req: SaveRequest)
    requires req.analysis in db.analyses && SaveRows(db, req).Some?
    ensures var rows := SaveRows(db, req).value;
            var kept := KeptInputs(req.inputs, db.analyses[req.analysis].payload, req.payload);
            SaveOn(db, req).Some? <==> RegisterAll(rows.0.artifacts, req.analysis, rows.1, None, kept).Some?
  {
    hide SaveRows, FinishRun, KeptInputs, RegisterAll;
    var rows := SaveRows(db, req).value;
    FinishRunArtifacts(rows.0, req.analysis, rows.1, req.payload.status);
  }

  lemma SaveOnAccepts(db: Db, req: SaveRequest)
    requires Inv(db) && IsLive(db, req.analysis)
    ensures var before := db.analyses[req.analysis].payload;
            SaveOn(db, req).Some? <==>
            Registrable(WithdrawDependents(db.artifacts, req.analysis, before, req.payload), req.analysis,
                        KeptInputs(req.inputs, before, req.payload))
  {
    assert req.analysis in db.analyses && Linked(db.runs) && OnlyLastActive(db.runs);
    hide *;
    SaveReachesRegistration(db, req);
    SaveHalfway(db, req);
    SaveOnRegisters(db, req);
    var before := db.analyses[req.analysis].payload;
    RegistrationIgnoresOrigin(WithdrawDependents(db.artifacts, req.analysis, before, req.payload), req.analysis,
                              SaveRows(db, req).value.1, None, KeptInputs(req.inputs, before, req.payload));
  }

  lemma FinishRunArtifacts(db: Db, a: AnalysisId, run: Option<RunId>, status: State)
    requires a in db.analyses
    ensures FinishRun(db, a, run, status).artifacts == db.artifacts
  {}

  /** An import leaves the artifact table alone and compares the payload with itself. */
  lemma LoadedForSave(db: Db, req: SaveRequest, now: Time)
    requires LoadOrImport(db, req, now).Some?
    ensures var loaded := LoadOrImport(db, req, now).value;
            loaded.artifacts == db.artifacts && req.analysis in loaded.analyses
            && loaded.analyses[req.analysis].payload == PayloadBefore(db, req)
  {}

  /** A save is accepted exactly when its guard holds in the state before it. */
  lemma SavedExactlyWhenAccepted(db: Db, req: SaveRequest, now: Time)
    requires Inv(db)
    ensures PersistTx(db, req, now).reply.Saved? <==> SaveAccepted(db, req)
  {
    hide Inv, Goal, LoadOrImport, SaveOn, SaveDenied, KeptInputs, WithdrawDependents, Registrable, PayloadBefore;
    if SaveDenied(db, req).None? && AnalysisState(req.payload.status) {
      ImportStep(db, req, now);
      LoadedForSave(db, req, now);
      assert Inv(LoadOrImport(db, req, now).value) by { GoalKeepsInv(db, LoadOrImport(db, req, now).value); }
      SaveOnAccepts(LoadOrImport(db, req, now).value, req);
    }
  }

  lemma GoalKeepsInv(db: Db, db': Db)
    requires Goal(db, db')
    ensures Inv(db')
  {}

  // ---------------------------------------------------------------- the effect of a save

  /** How the runs stand after a save on an existing analysis. */
  ghost predicate RunsAfterSave(db: Db, db': Db, a: AnalysisId, status: State) {
    var last := LastRun(db.runs, a);
    var active := last.Some? && Active(db.runs[last.value].state);
    if status == Processing && !active then
      |db'.runs| == |db.runs| + 1 && db'.runs[..|db.runs|] == db.runs
      && db'.runs[|db.runs|] == Run(a, CountRuns(db.runs, a) + 1, Processing, last, 1)
    else if (status == Completed || status == Failed) && active then
      db'.runs == db.runs[last.value :=
        db.runs[last.value].(state := status, version := db.runs[last.value].version + 1)]
    else db'.runs == db.runs
  }

  lemma FinishRunEffect(db: Db, a: AnalysisId, run: Option<RunId>, status: State)
    requires a in db.analyses && (run.Some? ==> run.value < |db.runs|)
    ensures var db' := FinishRun(db, a, run, status);
            var ends := run.Some? && Active(db.runs[run.value].state) && (status == Completed || status == Failed);
            db'.videos == db.videos && db'.artifacts == db.artifacts
            && db'.runs == (if ends
              then db.runs[run.value :=
                db.runs[run.value].(state := status, version := db.runs[run.value].version + 1)] else db.runs)
            && db'.analyses == (if ends && status == Completed then db.analyses[a := db.analyses[a].(promoted := run)]
              else db.analyses)
  {}

  lemma InsertedRow(db: Db, a: AnalysisId, state: State)
    requires Linked(db.runs) && InsertRun(db, a, state).Some?
    ensures InsertRun(db, a, state).value
         == (Log(db.(runs := db.runs + [Run(a, CountRuns(db.runs, a) + 1, state, LastRun(db.runs, a), 1)]),
                 OnRun(|db.runs|), None, state, 1), |db.runs|)
  {
    LookupsFindTheLast(db.runs, a);
    LastCountsAll(db.runs, a);
    hide Linked, LastRun, CountRuns, Newest, HasActive, Log;
  }

  /** What a run start leaves when no run of the analysis is active. */
  ghost predicate Started(db: Db, req: RunRequest, out: Outcome)
    requires req.analysis in db.analyses
  {
    var a := req.analysis;
    out.reply == RunStarted(|db.runs|, true)
    && out.db.runs == db.runs + [Run(a, CountRuns(db.runs, a) + 1, req.state, LastRun(db.runs, a), 1)]
    && out.db.records == db.records[req.Key() := Record(req.fingerprint, Some(OfRun(|db.runs|)))]
    && out.db.analyses == Woken(db, a, req.state)
  }

  lemma StartsWhenIdle(db: Db, req: RunRequest)
    requires Linked(db.runs) && Denied(db, req.analysis, req.owner).None? && req.Key() !in db.records
             && Active(req.state)
    requires !HasActive(db.runs, req.analysis)
    ensures Started(db, req, StartRunTx(db, req))
  {
    InsertsWhenIdle(db, req.analysis, req.state);
    InsertedRow(db, req.analysis, req.state);
    hide Linked, HasActive, CountRuns, LastRun, InsertRun, ChangeAnalysis;
    var started := InsertRun(db, req.analysis, req.state).value.0;
    assert started.analyses == db.analyses && started.records == db.records;
    ChangeAnalysisShape(started, req.analysis, Processing, db.analyses[req.analysis].payload, true);
    hide Log;
  }

  /** A run start that creates its run appends attempt n + 1 behind attempt n, binds the key to it,
      and wakes the analysis exactly when the run starts processing; with an active run it aborts. */
  lemma StartsTheNextAttempt(db: Db, req: RunRequest)
    requires Reachable(db) && Denied(db, req.analysis, req.owner).None? && req.Key() !in db.records && Active(req.state)
    ensures HasActive(db.runs, req.analysis) ==> StartRunTx(db, req) == Outcome(db, Raised(IntegrityViolation))
    ensures !HasActive(db.runs, req.analysis) ==> Started(db, req, StartRunTx(db, req))
  {
    ReachableInv(db);
    InsertsWhenIdle(db, req.analysis, req.state);
    assert Linked(db.runs);
    hide Inv, Linked, OnlyLastActive, Reachable, HasActive, InsertRun, Started;
    if !HasActive(db.runs, req.analysis) { StartsWhenIdle(db, req); }
  }

  lemma InsertsWhenIdle(db: Db, a: AnalysisId, state: State)
    ensures InsertRun(db, a, state).Some? <==> !HasActive(db.runs, a)
  {}

  /** The analyses once a run has started: one that was not processing follows a processing run. */
  function Woken(db: Db, a: AnalysisId, state: State): map<AnalysisId, Analysis>
    requires a in db.analyses
  {
    var row := db.analyses[a];
    if state == Processing && row.state != Processing
       then db.analyses[a := row.(state := Processing, version := row.version + 1)]
    else db.analyses
  }

  /** The run a save acts on is the last attempt, or the new one it starts. */
  lemma RunForSaveEffect(db: Db, a: AnalysisId, status: State)
    requires Linked(db.runs) && OnlyLastActive(db.runs) && RunForSave(db, a, status).Some?
    ensures var work := RunForSave(db, a, status).value; var last := LastRun(db.runs, a);
            work.0.videos == db.videos && work.0.analyses == db.analyses && work.0.artifacts == db.artifacts
            && (if status == Processing && !(last.Some? && Active(db.runs[last.value].state))
                then work.0.runs == db.runs + [Run(a, CountRuns(db.runs, a) + 1, Processing, last, 1)]
                  && work.1 == Some(|db.runs|)
                else work.0.runs == db.runs && work.1 == last)
  {
    LookupsFindTheLast(db.runs, a);
    hide Linked, OnlyLastActive, LastRun, CountRuns, Newest, ActiveOrLatest, HasActive, InsertRun;
    if InsertRun(db, a, Processing).Some? { InsertedRow(db, a, Processing); }
  }

  /** The analysis row a save leaves behind. */
  function SavedRow(before: Analysis, payload: Payload, promoted: Option<RunId>): Analysis {
    before.(state := payload.status, payload := payload, version := before.version + 1, promoted := promoted)
  }

  /** The runs and the run in hand halfway through a save. */
  ghost predicate RunsHalfway(runs: seq<Run>, a: AnalysisId, status: State, runs': seq<Run>, run: Option<RunId>) {
    var last := LastRun(runs, a);
    if status == Processing && !(last.Some? && Active(runs[last.value].state))
    then runs' == runs + [Run(a, CountRuns(runs, a) + 1, Processing, last, 1)] && run == Some(|runs|)
    else runs' == runs && run == last
  }

  lemma SaveVideoFrame(db: Db, db': Db, v: VideoId, payload: Payload, inputs: seq<ArtifactInput>)
    requires db'.videos == db.videos
    ensures SaveVideo(db', v, payload, inputs) == db'.(videos := SaveVideo(db, v, payload, inputs).videos)
  {}

  /** Every table halfway through a save. */
  lemma SaveHalfway(db: Db, req: SaveRequest)
    requires Linked(db.runs) && OnlyLastActive(db.runs) && req.analysis in db.analyses && SaveRows(db, req).Some?
    ensures var a := req.analysis; var before := db.analyses[a]; var rows := SaveRows(db, req).value;
            var kept := KeptInputs(req.inputs, before.payload, req.payload);
            rows.0.artifacts == WithdrawDependents(db.artifacts, a, before.payload, req.payload)
            && rows.0.videos == SaveVideo(db, before.video, req.payload, kept).videos
            && rows.0.analyses == db.analyses[a := SavedRow(before, req.payload, before.promoted)]
            && RunsHalfway(db.runs, a, req.payload.status, rows.0.runs, rows.1)
  {
    var a := req.analysis;
    var before := db.analyses[a];
    var db1 := db.(artifacts := WithdrawDependents(db.artifacts, a, before.payload, req.payload));
    hide KeptInputs, WithdrawDependents, RunForSave, LastRun, CountRuns;
    hide ChangeAnalysis, SaveVideo, Linked, OnlyLastActive;
    RunForSaveEffect(db1, a, req.payload.status);
    var work := RunForSave(db1, a, req.payload.status).value;
    var db2 := ChangeAnalysis(work.0, a, req.payload.status, req.payload, before.state != req.payload.status);
    ChangeAnalysisShape(work.0, a, req.payload.status, req.payload, before.state != req.payload.status);
    SaveVideoFrame(db, db2, before.video, req.payload, KeptInputs(req.inputs, before.payload, req.payload));
  }

  lemma SaveRunsEffect(db: Db, req: SaveRequest)
    requires Linked(db.runs) && OnlyLastActive(db.runs) && req.analysis in db.analyses && SaveOn(db, req).Some?
    ensures RunsAfterSave(db, SaveOn(db, req).value, req.analysis, req.payload.status)
  {
    hide SaveRows, SaveVideo, KeptInputs, WithdrawDependents, RegisterAll, LastRun;
    hide CountRuns, FinishRun, Linked, OnlyLastActive;
    SaveHalfway(db, req);
    var rows := SaveRows(db, req).value;
    FinishRunEffect(rows.0, req.analysis, rows.1, req.payload.status);
  }

  lemma SaveRowEffect(db: Db, req: SaveRequest)
    requires Linked(db.runs) && OnlyLastActive(db.runs) && req.analysis in db.analyses && SaveOn(db, req).Some?
    ensures var a := req.analysis; var promotes := req.payload.status == Completed && HasActive(db.runs, a);
            SaveOn(db, req).value.analyses
            == db.analyses[a := SavedRow(db.analyses[a], req.payload, if promotes then LastRun(db.runs, a)
              else db.analyses[a].promoted)]
  {
    hide SaveRows, SaveVideo, KeptInputs, WithdrawDependents, RegisterAll, HasActive;
    hide LastRun, CountRuns, FinishRun, Linked, OnlyLastActive;
    SaveHalfway(db, req);
    ActiveIsLast(db.runs, req.analysis);
    var rows := SaveRows(db, req).value;
    FinishRunEffect(rows.0, req.analysis, rows.1, req.payload.status);
  }

  lemma SaveTablesEffect(db: Db, req: SaveRequest)
    requires Linked(db.runs) && OnlyLastActive(db.runs) && req.analysis in db.analyses && SaveOn(db, req).Some?
    ensures var a := req.analysis; var before := db.analyses[a]; var db' := SaveOn(db, req).value;
            var kept := KeptInputs(req.inputs, before.payload, req.payload);
            var withdrawn := WithdrawDependents(db.artifacts, a, before.payload, req.payload);
            db'.videos == SaveVideo(db, before.video, req.payload, kept).videos
            && exists run :: RegisterAll(withdrawn, a, run, None, kept).Some?
                             && db'.artifacts == RegisterAll(withdrawn, a, run, None, kept).value.0
  {
    hide SaveRows, SaveVideo, KeptInputs, WithdrawDependents, RegisterAll, LastRun;
    hide CountRuns, FinishRun, Linked, OnlyLastActive;
    SaveHalfway(db, req);
    var rows := SaveRows(db, req).value;
    FinishRunEffect(rows.0, req.analysis, rows.1, req.payload.status);
  }

  lemma ActiveIsLast(runs: seq<Run>, a: AnalysisId)
    requires Linked(runs) && OnlyLastActive(runs)
    ensures HasActive(runs, a) <==> LastRun(runs, a).Some? && Active(runs[LastRun(runs, a).value].state)
  {
    LookupsFindTheLast(runs, a);
  }

  predicate Withdrawn(before: Payload, after: Payload, key: string) {
    (CourtCorrected(before, after) && Like(key, COURT_PREFIXES))
    || (EvidenceWithdrawn(before, after) && Like(key, EVIDENCE_PREFIXES))
  }

  /** What readers see under a key after a save. */
  function ShownAfterSave(db: Db, req: SaveRequest, b: AnalysisId, key: string): Option<Identity>
    requires req.analysis in db.analyses
  {
    var before := db.analyses[req.analysis].payload;
    var input := LastInput(KeptInputs(req.inputs, before, req.payload), key);
    if b != req.analysis then View(db.artifacts, b, key)
    else if input.Some? then input
    else if Withdrawn(before, req.payload, key) then None
    else View(db.artifacts, b, key)
  }

  lemma DependentsView(t: Table, a: AnalysisId, before: Payload, after: Payload, b: AnalysisId, key: string)
    requires Unique(t)
    ensures View(WithdrawDependents(t, a, before, after), b, key)
         == if b == a && Withdrawn(before, after, key) then None else View(t, b, key)
  {
    var t1 := if CourtCorrected(before, after) then Withdraw(t, a, COURT_PREFIXES) else t;
    WithdrawalHidesPrefixes(t, a, COURT_PREFIXES);
    WithdrawalHidesPrefixes(t1, a, EVIDENCE_PREFIXES);
    hide Withdraw, Unique, Like, View, AppendOnly;
  }

  /** After a save every key of every analysis shows exactly what `ShownAfterSave` says; when the
      evidence changed or completed analytics were withdrawn, nothing shows under those prefixes. */
  lemma SaveShowsExactly(db: Db, req: SaveRequest, now: Time, b: AnalysisId, key: string)
    requires Reachable(db) && req.analysis in db.analyses && SaveAccepted(db, req)
    ensures View(PersistTx(db, req, now).db.artifacts, b, key) == ShownAfterSave(db, req, b, key)
    ensures EvidenceWithdrawn(db.analyses[req.analysis].payload, req.payload) && Under(key, EVIDENCE_PREFIXES)
            ==> View(PersistTx(db, req, now).db.artifacts, req.analysis, key).None?
  {
    ReachableInv(db);
    SavedExactlyWhenAccepted(db, req, now);
    hide SaveAccepted;
    var a := req.analysis;
    var before := db.analyses[a].payload;
    SaveTablesEffect(db, req);
    var kept := KeptInputs(req.inputs, before, req.payload);
    var t1 := WithdrawDependents(db.artifacts, a, before, req.payload);
    DependentsAreLocal(db.artifacts, a, before, req.payload);
    assert SaveOn(db, req).value == PersistTx(db, req, now).db;
    var run :| RegisterAll(t1, a, run, None, kept).Some?
               && SaveOn(db, req).value.artifacts == RegisterAll(t1, a, run, None, kept).value.0;
    RegistrationRefinesMap(t1, a, run, None, kept);
    DependentsView(db.artifacts, a, before, req.payload, b, key);
    DependentsView(db.artifacts, a, before, req.payload, a, key);
    UnderIsLike(key, EVIDENCE_PREFIXES);
    hide Inv, SaveOn, PersistTx, RegisterAll, WithdrawDependents, Unique, AppendOnly;
    hide LastInput, Under, Like, View, Reachable;
    if EvidenceWithdrawn(before, req.payload) && Under(key, EVIDENCE_PREFIXES) {
      FilteredHasNone(req.inputs, EVIDENCE_PREFIXES, key);
    }
  }

  // ---------------------------------------------------------------- deletion

  /** After a match is deleted nothing of it changes any more: its row, runs, artifacts and log stay
      as they were, whatever is called; only repeated deletions raise the row version. */
  lemma DeletedMatchesAreFrozen(db: Db, calls: seq<Call>, a: AnalysisId)
    requires Reachable(db) && a in db.analyses && !IsLive(db, a)
    ensures var later := RunAll(db, calls);
            a in later.analyses && later.analyses[a] == db.analyses[a].(version := later.analyses[a].version)
            && |db.runs| <= |later.runs| && |db.events| <= |later.events| && |db.artifacts| <= |later.artifacts|
            && Quiet(db, later, a) && !HasActive(later.runs, a)
            && (forall r :: 0 <= r < |db.runs| && db.runs[r].analysis == a ==> later.runs[r] == db.runs[r])
  {
    ReachableInv(db);
    RunKeeps(db, calls);
    var later := RunAll(db, calls);
    assert RowOk(db, a);
    assert RowAdvance(db.analyses[a], later.analyses[a]);
    assert RowOk(later, a);
    forall r | 0 <= r < |db.runs| && db.runs[r].analysis == a ensures later.runs[r] == db.runs[r] {
      assert RunAdvance(db.runs[r], later.runs[r]);
    }
    hide Inv, RunAll, Reachable;
  }

  /** Once removal of the source recording has been requested, no save is ever accepted again. */
  lemma RemovedSourcesRefuseSaves(db: Db, calls: seq<Call>, req: SaveRequest, now: Time)
    requires Reachable(db) && req.analysis in db.analyses
    requires var v := db.analyses[req.analysis].video; v < |db.videos| && db.videos[v].state == Deleting
    ensures var later := RunAll(db, calls);
            PersistTx(later, req, now).db == later && PersistTx(later, req, now).reply.Raised?
  {
    ReachableInv(db);
    hide Inv, RunAll, Reachable, LoadOrImport, SaveOn, RunsAdvance, Quiet, AppendOnly, RecordsKept;
    RunKeeps(db, calls);
    var later := RunAll(db, calls);
    assert RowAdvance(db.analyses[req.analysis], later.analyses[req.analysis]);
    assert VideoAdvance(db.videos[db.analyses[req.analysis].video], later.videos[db.analyses[req.analysis].video]);
    hide RowsAdvance, VideosAdvance, Step, Goal;
    DeletingIsDenied(later, req);
  }

  lemma DeletingIsDenied(db: Db, req: SaveRequest)
    requires req.analysis in db.analyses
    requires var v := db.analyses[req.analysis].video; v < |db.videos| && db.videos[v].state == Deleting
    ensures SaveDenied(db, req).Some?
  {}

  // ---------------------------------------------------------------- duplicates

  datatype Source = Source(owner: OwnerId, checksum: string, sport: Sport)

  /** The recording a live analysis stands for, once its checksum is known. */
  function SourceOf(db: Db, a: AnalysisId): Option<Source> {
    if IsLive(db, a) && db.analyses[a].video < |db.videos| && db.videos[db.analyses[a].video].checksum.Some? then
      Some(Source(db.analyses[a].owner, db.videos[db.analyses[a].video].checksum.value, db.analyses[a].sport))
    else None
  }

  /** No two live analyses stand for the same recording. */
  ghost predicate DistinctSources(db: Db) {
    forall a, b :: a in db.analyses && b in db.analyses && a != b && SourceOf(db, a).Some? ==>
      SourceOf(db, a) != SourceOf(db, b)
  }

  lemma SourceIsQueried(db: Db, a: AnalysisId, s: Source)
    requires Inv(db)
    ensures a in SourcesOf(db, s.owner, s.checksum, s.sport) <==> SourceOf(db, a) == Some(s)
  {
    if a in db.analyses { assert RowOk(db, a); }
    hide Inv;
  }

  /** The checksum a save writes onto its video, if any. */
  function WrittenChecksum(db: Db, req: SaveRequest): Option<string> {
    var before := if req.analysis in db.analyses then db.analyses[req.analysis].payload else req.payload;
    if req.payload.sourceVideo.None? then None
    else
      match SourceInput(KeptInputs(req.inputs, before, req.payload), req.payload.sourceVideo.value)
      case None => None
      case Some(input) => Some(input.checksum)
  }

  /** The recording a call will give to an analysis, read off the state before it. */
  function NewSource(db: Db, call: Call): Option<(AnalysisId, Source)> {
    match call
    case Reserve(req, _) =>
      if ReserveCreates(db, req) then Some((req.analysis, Source(req.owner, req.checksum, req.sport))) else None
    case Persist(req, _) =>
      if SaveAccepted(db, req) && WrittenChecksum(db, req).Some?
      then Some((req.analysis, Source(req.owner, WrittenChecksum(db, req).value, req.payload.sport))) else None
    case _ => None
  }

  /** The duplicate query, asked for the recording the call is about to write, finds another match. */
  predicate Clashes(db: Db, call: Call) {
    match NewSource(db, call)
    case None => false
    case Some(written) => SourcesOf(db, written.1.owner, written.1.checksum, written.1.sport) - {written.0} != {}
  }

  /** The recordings after a call: the one it writes, and otherwise what was there, or nothing any
      more for a match that stopped being live. */
  ghost predicate SourcesFollow(db: Db, call: Call) {
    var db' := Exec(db, call).db; var written := NewSource(db, call);
    (forall a :: a in db.analyses ==> a in db'.analyses)
    && (forall a :: a in db'.analyses && (written.None? || written.value.0 != a) ==>
          SourceOf(db', a) == SourceOf(db, a) || SourceOf(db', a).None?)
    && (written.Some? ==> written.value.0 in db'.analyses && SourceOf(db', written.value.0) == Some(written.value.1)
                          && forall b :: b in db'.analyses && b != written.value.0 ==>
                            SourceOf(db', b) == SourceOf(db, b))
  }

  /** The calls that write no checksum. */
  predicate WritesNoSource(call: Call) { !call.Reserve? && !call.Persist? }

  lemma ChecksumsStay(db: Db, call: Call)
    requires WritesNoSource(call)
    ensures var db' := Exec(db, call).db;
            db'.analyses.Keys == db.analyses.Keys && |db'.videos| == |db.videos|
            && forall v :: 0 <= v < |db.videos| ==> db'.videos[v].checksum == db.videos[v].checksum
  {
    hide HasActive, Newest, ActiveRun, SharesVideo, CancelActive;
  }

  lemma OtherSources(db: Db, call: Call)
    requires Inv(db) && WritesNoSource(call)
    ensures SourcesFollow(db, call)
  {
    var db' := Exec(db, call).db;
    hide Inv, Exec, RunsAdvance, VideosAdvance, AppendOnly, Quiet, RecordsKept;
    assert NewSource(db, call).None?;
    hide NewSource, WritesNoSource;
    ChecksumsStay(db, call);
    TransactionStep(db, call);
    forall a | a in db'.analyses ensures SourceOf(db', a) == SourceOf(db, a) || SourceOf(db', a).None? {
      assert RowAdvance(db.analyses[a], db'.analyses[a]);
    }
  }

  /** Creating an analysis with its own video leaves every other recording alone. */
  lemma AddedSource(db: Db, db': Db, a: AnalysisId, row: Analysis, video: Video)
    requires Inv(db) && a !in db.analyses && db'.analyses == db.analyses[a := row] && db'.videos == db.videos + [video]
    ensures forall b :: b in db.analyses ==> SourceOf(db', b) == SourceOf(db, b)
  {
    hide Linked, OnlyLastActive, RunsLogged, AnalysesLogged, RecordsOk, VideosUnshared, LogMentionsRows, Unique;
    forall b | b in db.analyses ensures SourceOf(db', b) == SourceOf(db, b) {
      assert RowOk(db, b);
    }
  }

  /** The rows and videos after a reservation: one of each more when it creates, the same otherwise. */
  lemma ReserveTables(db: Db, req: ReserveRequest, now: Time)
    ensures var out := ReserveTx(db, req, now); var created := out.reply == Reserved(req.analysis, true, None);
            (created ==> req.analysis !in db.analyses)
            && out.db.analyses == (if created then db.analyses[req.analysis := NewRow(db, req, now)] else db.analyses)
            && out.db.videos == (if created then db.videos + [Video(req.owner, Awaited, Some(req.checksum), None)]
              else db.videos)
  {
    hide HasActive, Newest, HasSource;
  }

  function NewRow(db: Db, req: ReserveRequest, now: Time): Analysis {
    Analysis(req.owner, |db.videos|, req.sport, Live, Processing, req.payload, None, 1, now)
  }

  lemma ReserveSources(db: Db, req: ReserveRequest, now: Time)
    requires Inv(db)
    ensures SourcesFollow(db, Reserve(req, now))
  {
    hide Inv, ReserveTx, ReserveCreates;
    CreatesExactlyWhenFree(db, req, now);
    ReserveTables(db, req, now);
    var db' := ReserveTx(db, req, now).db;
    assert Exec(db, Reserve(req, now)).db == db';
    hide Exec;
    if ReserveCreates(db, req) {
      AddedSource(db, db', req.analysis, NewRow(db, req, now), Video(req.owner, Awaited, Some(req.checksum), None));
    }
  }

  /** Rewriting one live row and its own video leaves every other recording alone. */
  lemma RewrittenSource(db: Db, db': Db, a: AnalysisId, row: Analysis)
    requires Inv(db) && IsLive(db, a) && db'.analyses == db.analyses[a := row]
    requires var v := db.analyses[a].video;
             |db'.videos| == |db.videos| && forall w :: 0 <= w < |db.videos| && w != v ==> db'.videos[w] == db.videos[w]
    ensures forall b :: b in db.analyses && b != a ==> SourceOf(db', b) == SourceOf(db, b)
  {
    hide Linked, OnlyLastActive, RunsLogged, AnalysesLogged, RecordsOk, LogMentionsRows, Unique;
    forall b | b in db.analyses && b != a ensures SourceOf(db', b) == SourceOf(db, b) {
      assert RowOk(db, b);
      assert db.analyses[b].video != db.analyses[a].video;
    }
  }

  lemma SaveVideoEffect(db: Db, v: VideoId, payload: Payload, inputs: seq<ArtifactInput>)
    requires v < |db.videos|
    ensures var videos' := SaveVideo(db, v, payload, inputs).videos;
            var source := if payload.sourceVideo.Some? then SourceInput(inputs, payload.sourceVideo.value) else None;
            |videos'| == |db.videos| && (forall w :: 0 <= w < |db.videos| && w != v ==> videos'[w] == db.videos[w])
            && videos'[v].checksum == (if source.Some? then Some(source.value.checksum) else db.videos[v].checksum)
  {}

  lemma SaveLeavesOthers(db: Db, req: SaveRequest)
    requires Inv(db) && IsLive(db, req.analysis) && SaveOn(db, req).Some?
    ensures var db' := SaveOn(db, req).value;
            db'.analyses.Keys == db.analyses.Keys && forall b :: b in db.analyses && b != req.analysis ==>
              SourceOf(db', b) == SourceOf(db, b)
  {
    var a := req.analysis;
    var before := db.analyses[a];
    assert RowOk(db, a);
    hide RowOk, SaveOn, RegisterAll, WithdrawDependents, KeptInputs, SaveVideo;
    hide LastRun, HasActive, Linked, OnlyLastActive, SourceOf;
    SaveTablesEffect(db, req);
    SaveRowEffect(db, req);
    hide Inv;
    var db' := SaveOn(db, req).value;
    SaveVideoEffect(db, before.video, req.payload, KeptInputs(req.inputs, before.payload, req.payload));
    RewrittenSource(db, db', a, db'.analyses[a]);
  }

  lemma LiveRowsHaveVideos(db: Db, a: AnalysisId)
    requires Inv(db) && IsLive(db, a)
    ensures a in db.analyses && db.analyses[a].video < |db.videos| && Linked(db.runs) && OnlyLastActive(db.runs)
  {
    assert RowOk(db, a);
  }

  lemma NotDenied(db: Db, req: SaveRequest)
    requires req.analysis in db.analyses && SaveDenied(db, req).None?
    ensures db.analyses[req.analysis].owner == req.owner && db.analyses[req.analysis].sport == req.payload.sport
  {}

  /** A rewritten row with the checksum its save writes. */
  lemma WrittenSource(db: Db, db': Db, req: SaveRequest, promoted: Option<RunId>)
    requires IsLive(db, req.analysis)
    requires var before := db.analyses[req.analysis];
             before.owner == req.owner && before.sport == req.payload.sport && before.video < |db.videos|
             && db'.analyses == db.analyses[req.analysis := SavedRow(before, req.payload, promoted)]
             && db'.videos == SaveVideo(db, before.video, req.payload,
                                        KeptInputs(req.inputs, before.payload, req.payload)).videos
    ensures var a := req.analysis; var written := WrittenChecksum(db, req);
            SourceOf(db', a) == if written.Some? then Some(Source(req.owner, written.value, req.payload.sport))
                                else SourceOf(db, a)
  {
    hide KeptInputs, SaveVideo;
    var before := db.analyses[req.analysis];
    SaveVideoEffect(db, before.video, req.payload, KeptInputs(req.inputs, before.payload, req.payload));
  }

  lemma SaveWritesItsSource(db: Db, req: SaveRequest)
    requires Inv(db) && IsLive(db, req.analysis) && SaveOn(db, req).Some? && SaveDenied(db, req).None?
    ensures var db' := SaveOn(db, req).value; var a := req.analysis; var written := WrittenChecksum(db, req);
            SourceOf(db', a) == if written.Some? then Some(Source(req.owner, written.value, req.payload.sport))
                                else SourceOf(db, a)
  {
    hide *;
    var a := req.analysis;
    LiveRowsHaveVideos(db, a);
    NotDenied(db, req);
    SaveTablesEffect(db, req);
    SaveRowEffect(db, req);
    var promotes := req.payload.status == Completed && HasActive(db.runs, a);
    WrittenSource(db, SaveOn(db, req).value, req, if promotes then LastRun(db.runs, a) else db.analyses[a].promoted);
  }

  lemma ImportSources(db: Db, req: SaveRequest, now: Time)
    requires Inv(db) && req.analysis !in db.analyses && LoadOrImport(db, req, now).Some?
    ensures var loaded := LoadOrImport(db, req, now).value;
            loaded.analyses.Keys == db.analyses.Keys + {req.analysis}
            && (forall b :: b in db.analyses ==> SourceOf(loaded, b) == SourceOf(db, b))
            && SourceOf(loaded, req.analysis).None?
            && loaded.analyses[req.analysis].payload == req.payload
            && WrittenChecksum(loaded, req) == WrittenChecksum(db, req)
            && SaveDenied(loaded, req.(expected := Some(1))).None?
            && loaded.analyses[req.analysis].owner == req.owner && IsLive(loaded, req.analysis)
            && loaded.analyses[req.analysis].sport == req.payload.sport
  {
    hide Inv, HasActive, Newest;
    var loaded := LoadOrImport(db, req, now).value;
    var video := Video(req.owner, Available, None, None);
    assert loaded.analyses == db.analyses[req.analysis := loaded.analyses[req.analysis]]
           && loaded.videos == db.videos + [video];
    AddedSource(db, loaded, req.analysis, loaded.analyses[req.analysis], video);
  }

  lemma PersistSources(db: Db, req: SaveRequest, now: Time)
    requires Inv(db)
    ensures SourcesFollow(db, Persist(req, now))
  {
    hide Inv, SaveOn, LoadOrImport, WrittenChecksum, SourceOf, SaveAccepted;
    SavedExactlyWhenAccepted(db, req, now);
    if PersistTx(db, req, now).reply.Saved? {
      ImportStep(db, req, now);
      var loaded := LoadOrImport(db, req, now).value;
      hide Goal;
      if req.analysis in db.analyses {
        assert loaded == db by { LoadedAsIs(db, req, now); }
        SaveLeavesOthers(db, req);
        SaveWritesItsSource(db, req);
      } else {
        ImportSources(db, req, now);
        SaveIgnoresExpectation(loaded, req, Some(1));
        SaveLeavesOthers(loaded, req.(expected := Some(1)));
        SaveWritesItsSource(loaded, req.(expected := Some(1)));
      }
    }
  }

  lemma LoadedAsIs(db: Db, req: SaveRequest, now: Time)
    requires req.analysis in db.analyses
    ensures LoadOrImport(db, req, now) == Some(db)
  {}

  lemma SaveIgnoresExpectation(db: Db, req: SaveRequest, expected: Option<nat>)
    requires req.analysis in db.analyses
    ensures SaveOn(db, req) == SaveOn(db, req.(expected := expected))
    ensures WrittenChecksum(db, req) == WrittenChecksum(db, req.(expected := expected))
  {}

  lemma CallSources(db: Db, call: Call)
    requires Inv(db)
    ensures SourcesFollow(db, call)
  {
    hide Inv, SourcesFollow;
    match call
    case Reserve(req, now) => ReserveSources(db, req, now);
    case Persist(req, now) => PersistSources(db, req, now);
    case _ => OtherSources(db, call);
  }

  /** A call gives one recording to two live matches exactly when it writes a recording that the
      duplicate query already finds under another match. */
  lemma DuplicatesAppearExactlyByClashes(db: Db, call: Call)
    requires Inv(db) && DistinctSources(db)
    ensures DistinctSources(Exec(db, call).db) <==> !Clashes(db, call)
  {
    var db' := Exec(db, call).db;
    var written := NewSource(db, call);
    CallSources(db, call);
    hide Inv, Exec, NewSource, SourceOf;
    if written.Some? {
      var a := written.value.0; var s := written.value.1;
      var others := SourcesOf(db, s.owner, s.checksum, s.sport) - {a};
      forall b ensures b in others <==> b in db'.analyses && b != a && SourceOf(db', b) == Some(s) {
        SourceIsQueried(db, b, s);
      }
      if others != {} {
        var b :| b in others;
        assert SourceOf(db', a) == SourceOf(db', b);
      }
    }
  }

  /** Corollary of the guard: a reservation without `allow_duplicate` never clashes. */
  lemma PlainReservationsNeverClash(db: Db, req: ReserveRequest, now: Time)
    requires !req.allowDuplicate
    ensures !Clashes(db, Reserve(req, now))
  {}

  lemma {:induction false} FilterAddsNoSource(inputs: seq<ArtifactInput>, prefixes: seq<string>, sourceVideo: string)
    requires SourceInput(inputs, sourceVideo).None?
    ensures SourceInput(NotUnder(inputs, prefixes), sourceVideo).None?
  {
    if inputs != [] {
      var init := inputs[..|inputs| - 1];
      assert forall i :: 0 <= i < |init| ==> init[i] == inputs[i];
      FilterAddsNoSource(init, prefixes, sourceVideo);
      hide SourceInput;
      var kept := NotUnder(init, prefixes);
      forall k | 0 <= k < |NotUnder(inputs, prefixes)|
        ensures NotUnder(inputs, prefixes)[k].Key() != sourceVideo
                || NotUnder(inputs, prefixes)[k].kind != "source_video"
      {
        assert k < |kept| ==> NotUnder(inputs, prefixes)[k] == kept[k];
        assert k >= |kept| ==> NotUnder(inputs, prefixes)[k] == inputs[|inputs| - 1];
      }
    }
  }

  /** Calls anyone can recognise as harmless: reservations without `allow_duplicate`, and saves that
      name no source file among their inputs. */
  predicate Harmless(call: Call) {
    match call
    case Reserve(req, _) => !req.allowDuplicate
    case Persist(req, _) =>
      req.payload.sourceVideo.None? || SourceInput(req.inputs, req.payload.sourceVideo.value).None?
    case _ => true
  }

  lemma HarmlessNeverClashes(db: Db, call: Call)
    requires Harmless(call)
    ensures !Clashes(db, call)
  {
    hide SaveAccepted, ReserveCreates, SourceInput, SourcesOf;
    match call
    case Reserve(req, now) => PlainReservationsNeverClash(db, req, now);
    case Persist(req, now) =>
      if req.payload.sourceVideo.Some? {
        FilterAddsNoSource(req.inputs, EVIDENCE_PREFIXES, req.payload.sourceVideo.value);
      }
    case _ =>
  }

  /** No call of a run clashes with the state it meets. */
  ghost predicate NeverClashes(db: Db, calls: seq<Call>)
    decreases |calls|
  {
    calls == [] || (!Clashes(db, calls[0]) && NeverClashes(Exec(db, calls[0]).db, calls[1..]))
  }

  /** Runs without clashes keep at most one live analysis per owner, recording and sport. */
  lemma {:induction false} OneLiveAnalysisPerRecording(db: Db, calls: seq<Call>)
    requires Inv(db) && DistinctSources(db) && NeverClashes(db, calls)
    ensures DistinctSources(RunAll(db, calls))
    decreases |calls|
  {
    if calls != [] {
      DuplicatesAppearExactlyByClashes(db, calls[0]);
      TransactionStep(db, calls[0]);
      hide Inv, Step, Exec, DistinctSources, Clashes;
      OneLiveAnalysisPerRecording(Exec(db, calls[0]).db, calls[1..]);
    }
  }

  /** Harmless calls alone never let two live matches stand for one recording, whatever their order. */
  lemma {:induction false} HarmlessRunsKeepRecordingsDistinct(db: Db, calls: seq<Call>)
    requires Inv(db) && DistinctSources(db) && forall i :: 0 <= i < |calls| ==> Harmless(calls[i])
    ensures DistinctSources(RunAll(db, calls))
    decreases |calls|
  {
    if calls != [] {
      HarmlessNeverClashes(db, calls[0]);
      DuplicatesAppearExactlyByClashes(db, calls[0]);
      TransactionStep(db, calls[0]);
      hide Inv, Step, Exec, DistinctSources, Clashes, Harmless;
      assert forall i :: 0 <= i < |calls[1..]| ==> calls[1..][i] == calls[i + 1];
      HarmlessRunsKeepRecordingsDistinct(Exec(db, calls[0]).db, calls[1..]);
    }
  }

  // ---------------------------------------------------------------- a clash

  const BLANK := Payload(Processing, Pickleball, None, false, false, false, None, false, false, None)
  const FIRST_UPLOAD := ReserveRequest(0, 1, "k1", "f1", "x", BLANK, false, Pickleball)
  const SECOND_UPLOAD := ReserveRequest(0, 2, "k2", "f2", "y", BLANK, false, Pickleball)
  const COPIED_SOURCE := ArtifactInput("object", "s3", "x", 1, "source_video", "video/mp4", Some("match.mp4"))
  const COPYING_SAVE := SaveRequest(0, 2, BLANK.(sourceVideo := Some("match.mp4")), [COPIED_SOURCE], false, Some(1))

  /** A plain reservation of a new recording under a new key and id is admitted. */
  lemma NewRecordingIsAdmitted(db: Db, req: ReserveRequest, now: Time)
    requires Inv(db) && req.Key() !in db.records && req.analysis !in db.analyses
    requires SourcesOf(db, req.owner, req.checksum, req.sport) == {}
    ensures var db' := ReserveTx(db, req, now).db; var a := req.analysis;
            Inv(db') && ReserveTx(db, req, now).reply == Reserved(a, true, None)
            && db'.records.Keys == db.records.Keys + {req.Key()} && db'.artifacts == db.artifacts
            && db'.analyses == db.analyses[a :=
              Analysis(req.owner, |db.videos|, req.sport, Live, Processing, req.payload, None, 1, now)]
            && db'.videos == db.videos + [Video(req.owner, Awaited, Some(req.checksum), None)]
            && db'.runs == db.runs + [Run(a, 1, Processing, None, 1)]
  {
    TransactionStep(db, Reserve(req, now));
    NoRunOfANewAnalysis(db, req.analysis);
    hide Inv, HasSource;
    var video := Video(req.owner, Awaited, Some(req.checksum), None);
    CreateStep(db, req.analysis, req.owner, req.sport, Processing, req.payload, video, now);
    hide Step, HasActive, Newest;
  }

  lemma NoRunOfANewAnalysis(db: Db, a: AnalysisId)
    requires Inv(db) && a !in db.analyses
    ensures Newest(db.runs, a).None?
  {}

  lemma EmptyInv()
    ensures Inv(EMPTY)
  {}

  lemma TwoUploads(first: Db, second: Db)
    requires first == ReserveTx(EMPTY, FIRST_UPLOAD, 0).db && second == ReserveTx(first, SECOND_UPLOAD, 0).db
    ensures Inv(second) && second.artifacts == []
            && second.videos == [Video(0, Awaited, Some("x"), None), Video(0, Awaited, Some("y"), None)]
            && second.analyses == map[1 := Analysis(0, 0, Pickleball, Live, Processing, BLANK, None, 1, 0),
                                      2 := Analysis(0, 1, Pickleball, Live, Processing, BLANK, None, 1, 0)]
  {
    EmptyInv();
    hide Inv, ReserveTx;
    NewRecordingIsAdmitted(EMPTY, FIRST_UPLOAD, 0);
    assert "x" != "y" && "k1" != "k2";
    assert SourcesOf(first, 0, "y", Pickleball) == {};
    NewRecordingIsAdmitted(first, SECOND_UPLOAD, 0);
  }

  lemma OneInputRegisters(a: AnalysisId, run: Option<RunId>, input: ArtifactInput)
    ensures RegisterAll([], a, run, None, [input]).Some?
  {
    var init: seq<ArtifactInput> := [];
    assert [input][..0] == init;
    assert RegisterAll([], a, run, None, init) == Some(([], []));
  }

  /** The save of a source file under the key of another recording is accepted. */
  lemma CopyIsAccepted(db: Db)
    requires Inv(db) && db.artifacts == [] && 2 in db.analyses && |db.videos| > 1
    requires db.analyses[2] == Analysis(0, 1, Pickleball, Live, Processing, BLANK, None, 1, 0)
             && db.videos[1].state == Awaited
    ensures SaveDenied(db, COPYING_SAVE).None? && SaveOn(db, COPYING_SAVE).Some?
    ensures WrittenChecksum(db, COPYING_SAVE) == Some("x")
  {
    hide Linked, OnlyLastActive, ActiveOrLatest, LastRun, CountRuns, RunsLogged;
    hide AnalysesLogged, RowsOk, RecordsOk, Unique, RegisterAll;
    assert KeptInputs(COPYING_SAVE.inputs, BLANK, COPYING_SAVE.payload) == [COPIED_SOURCE];
    assert SaveDenied(db, COPYING_SAVE).None?;
    assert SourceInput([COPIED_SOURCE], "match.mp4") == Some(COPIED_SOURCE);
    var db1 := db.(artifacts := WithdrawDependents(db.artifacts, 2, BLANK, COPYING_SAVE.payload));
    assert db1 == db;
    RunForSaveStep(db, 2, Processing);
    SaveHalfway(db, COPYING_SAVE);
    hide Inv, RunForSave, SaveVideo, KeptInputs;
    OneInputRegisters(2, SaveRows(db, COPYING_SAVE).value.1, COPIED_SOURCE);
  }

  /** Two plain reservations and one save whose source file repeats the first recording: two live
      analyses of one owner then stand for the same video. */
  lemma SavesCanClash(first: Db, second: Db)
    requires first == Exec(EMPTY, Reserve(FIRST_UPLOAD, 0)).db && second == Exec(first, Reserve(SECOND_UPLOAD, 0)).db
    ensures Clashes(second, Persist(COPYING_SAVE, 0)) && !DistinctSources(Exec(second, Persist(COPYING_SAVE, 0)).db)
  {
    hide Inv, SaveOn, SaveDenied, WrittenChecksum, ReserveTx, SourcesOf;
    TwoUploads(first, second);
    CopyIsAccepted(second);
    SaveOnAccepts(second, COPYING_SAVE);
    var save := Persist(COPYING_SAVE, 0);
    CallSources(second, save);
    assert NewSource(second, save) == Some((2, Source(0, "x", Pickleball)));
    assert SourceOf(second, 1) == Some(Source(0, "x", Pickleball));
    SourceIsQueried(second, 1, Source(0, "x", Pickleball));
    hide Exec, NewSource, SourceOf;
    assert 1 in SourcesOf(second, 0, "x", Pickleball) - {2};
    var after := Exec(second, save).db;
    assert SourceOf(after, 1) == SourceOf(after, 2);
  }
}
