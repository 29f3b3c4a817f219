/** When each call of the persistence service is accepted, what it answers otherwise, and what it writes, in the
    columns of the tables and the fields of the payloads. */
module RunAnswers {
  import opened Common
  import opened ArtifactRegistry
  import opened RunStore
  import opened RunHistory
  import opened RunSteps
  import opened RunSources
  import opened RunSaves

  import AA = ArtifactAnswers
  import RT = RunTheorems

  // ---------------------------------------------------------------- what a save withdraws

  /** A calibration became active that is neither verified nor tracked yet. */
  predicate NewCourt(before: Payload, after: Payload) {
    after.activeCalibration != before.activeCalibration && after.activeCalibration != None
    && after.activeCalibration != Some("") && after.calibrationVerified == false && after.trackingCompleted == false
  }

  /** The evidence changed, or analytics that were completed are not any more. */
  predicate LostAnalytics(before: Payload, after: Payload) {
    before.evidence != after.evidence || (before.analyticsCompleted == true && after.analyticsCompleted == false)
  }

  /** The key starts with the prefix, an underscore of which stands for any character. */
  predicate Fits(key: string, prefix: string) {
    |prefix| <= |key| && forall i :: 0 <= i < |prefix| ==> prefix[i] in {'_', key[i]}
  }

  predicate Retires(before: Payload, after: Payload, key: string) {
    (NewCourt(before, after) && (Fits(key, "tracking/") || Fits(key, "analytics/") || Fits(key, "active_play/")))
    || (LostAnalytics(before, after) && (Fits(key, "analytics/") || Fits(key, "active_play/")))
  }

  lemma FitsIsLike(key: string)
    ensures Like(key, COURT_PREFIXES) <==>
            Fits(key, "tracking/") || Fits(key, "analytics/") || Fits(key, "active_play/")
    ensures Like(key, EVIDENCE_PREFIXES) <==> Fits(key, "analytics/") || Fits(key, "active_play/")
  {
    var c := COURT_PREFIXES; var e := EVIDENCE_PREFIXES;
    assert c[0] == "tracking/" && c[1] == "analytics/" && c[2] == "active_play/" && e[0] == c[1] && e[1] == c[2];
    forall p ensures LikePrefix(key, p) <==> Fits(key, p) { }
    hide LikePrefix, Fits;
  }

  /** A save retires exactly the current rows of its analysis that its payload withdraws. */
  lemma WithdrawalRowsExactly(t: Table, a: AnalysisId, before: Payload, after: Payload, i: nat)
    requires i < |t|
    ensures var r := WithdrawDependents(t, a, before, after);
            |r| == |t|
            && r[i] == t[i].(current := t[i].current && !(t[i].analysis == a && Retires(before, after, t[i].key)))
  {
    FitsIsLike(t[i].key);
    hide Like, Fits;
  }

  /** It drops its own inputs under the evidence prefixes exactly if the analytics are lost. */
  lemma KeptInputsExactly(inputs: seq<ArtifactInput>, before: Payload, after: Payload, x: ArtifactInput)
    ensures var drops := LostAnalytics(before, after) && ("analytics/" <= x.Key() || "active_play/" <= x.Key());
            multiset(KeptInputs(inputs, before, after))[x] == if drops then 0 else multiset(inputs)[x]
  {
    AA.FilterCounts(inputs, EVIDENCE_PREFIXES, x);
    UnderEvidence(x.Key());
    hide NotUnder, Under;
  }

  lemma UnderEvidence(key: string)
    ensures Under(key, EVIDENCE_PREFIXES) <==> "analytics/" <= key || "active_play/" <= key
  {
    var e := EVIDENCE_PREFIXES;
    AA.UnderIs(key, e);
    assert |e| == 2 && e[0] == "analytics/" && e[1] == "active_play/";
    hide Under;
  }

  // ---------------------------------------------------------------- what readers see after a save

  lemma WithdrawnIsRetired(before: Payload, after: Payload, key: string)
    ensures Withdrawn(before, after, key) <==> Retires(before, after, key)
    ensures EvidenceWithdrawn(before, after) <==> LostAnalytics(before, after)
  {
    FitsIsLike(key);
    hide Like, Fits;
  }

  /** What a key shows once the save has withdrawn and registered. */
  function ShownThen(db: Db, req: SaveRequest, b: AnalysisId, key: string): Option<Identity>
    requires req.analysis in db.analyses
  {
    var before := db.analyses[req.analysis].payload; var after := req.payload;
    var drops := LostAnalytics(before, after) && ("analytics/" <= key || "active_play/" <= key);
    if b != req.analysis then View(db.artifacts, b, key)
    else if LastInput(req.inputs, key).Some? && !drops then LastInput(req.inputs, key)
    else if Retires(before, after, key) then None
    else View(db.artifacts, b, key)
  }

  lemma ShownIs(db: Db, req: SaveRequest, b: AnalysisId, key: string)
    requires req.analysis in db.analyses
    ensures ShownAfterSave(db, req, b, key) == ShownThen(db, req, b, key)
  {
    var before := db.analyses[req.analysis].payload;
    WithdrawnIsRetired(before, req.payload, key);
    AA.FilterKeepsLast(req.inputs, EVIDENCE_PREFIXES, key);
    UnderEvidence(key);
    hide LastInput, View, NotUnder, Under, Withdrawn, Retires, EvidenceWithdrawn, LostAnalytics;
  }

  /** After an accepted save a key shows the last input of the save under it, unless that was dropped; else
      nothing if it was withdrawn; else what it showed. */
  lemma SaveShows(db: Db, req: SaveRequest, now: Time, b: AnalysisId, key: string)
    requires Reachable(db) && req.analysis in db.analyses && PersistTx(db, req, now).reply.Saved?
    ensures View(PersistTx(db, req, now).db.artifacts, b, key) == ShownThen(db, req, b, key)
  {
    hide *;
    ReachableInv(db);
    SavedExactlyWhenAccepted(db, req, now);
    SaveShowsExactly(db, req, now, b, key);
    ShownIs(db, req, b, key);
  }

  /** A save that loses the evidence, or withdraws completed analytics, leaves nothing shown under the keys
      of analytics and active play. */
  lemma LostAnalyticsShowNothing(db: Db, req: SaveRequest, now: Time, key: string)
    requires Reachable(db) && req.analysis in db.analyses && PersistTx(db, req, now).reply.Saved?
    requires var before := db.analyses[req.analysis].payload;
             before.evidence != req.payload.evidence || (before.analyticsCompleted && !req.payload.analyticsCompleted)
    requires "analytics/" <= key || "active_play/" <= key
    ensures View(PersistTx(db, req, now).db.artifacts, req.analysis, key) == None
  {
    SaveShows(db, req, now, req.analysis, key);
    assert Fits(key, "analytics/") || Fits(key, "active_play/");
    hide PersistTx, Reachable, View, LastInput;
  }

  /** A save that keeps evidence, analytics and calibration leaves every key alone that it has no input for. */
  lemma OtherKeysStay(db: Db, req: SaveRequest, now: Time, b: AnalysisId, key: string)
    requires Reachable(db) && req.analysis in db.analyses && PersistTx(db, req, now).reply.Saved?
    requires var before := db.analyses[req.analysis].payload;
             before.evidence == req.payload.evidence && (before.analyticsCompleted ==> req.payload.analyticsCompleted)
             && before.activeCalibration == req.payload.activeCalibration
    requires forall i :: 0 <= i < |req.inputs| ==> req.inputs[i].Key() != key
    ensures View(PersistTx(db, req, now).db.artifacts, b, key) == View(db.artifacts, b, key)
  {
    SaveShows(db, req, now, b, key);
    LastInputOf(req.inputs, key);
    hide PersistTx, Reachable, View, LastInput;
  }

  /** A save that makes another, unverified and untracked calibration active leaves under tracking, analytics
      and active play only its own inputs. */
  lemma NewCourtShowsOnlyInputs(db: Db, req: SaveRequest, now: Time, key: string)
    requires Reachable(db) && req.analysis in db.analyses && PersistTx(db, req, now).reply.Saved?
    requires var c := req.payload.activeCalibration;
             c != None && c != Some("") && c != db.analyses[req.analysis].payload.activeCalibration
             && !req.payload.calibrationVerified && !req.payload.trackingCompleted
    requires "tracking/" <= key || "analytics/" <= key || "active_play/" <= key
    requires forall i :: 0 <= i < |req.inputs| ==> req.inputs[i].Key() != key
    ensures View(PersistTx(db, req, now).db.artifacts, req.analysis, key) == None
  {
    SaveShows(db, req, now, req.analysis, key);
    LastInputOf(req.inputs, key);
    assert Fits(key, "tracking/") || Fits(key, "analytics/") || Fits(key, "active_play/");
    hide PersistTx, Reachable, View, LastInput;
  }

  // ---------------------------------------------------------------- when a save is accepted

  /** The artifacts of a save do not fit beside what it leaves current. */
  ghost predicate FilesClash(db: Db, req: SaveRequest) {
    var before := PayloadBefore(db, req);
    exists k: nat :: AA.Clashes(WithdrawDependents(db.artifacts, req.analysis, before, req.payload), req.analysis, None,
                                None, KeptInputs(req.inputs, before, req.payload), k)
  }

  /** A save of an existing match: its owner, its lifecycle, its version, its recording, its sport, the status
      and the files are asked in this order, and the first that fails is answered. A save that names no
      version is refused once the calibration is completed. */
  lemma SaveAnswersExactly(db: Db, req: SaveRequest, now: Time)
    requires Reachable(db) && req.analysis in db.analyses
    ensures var out := PersistTx(db, req, now); var row := db.analyses[req.analysis]; var p := req.payload;
            row.video < |db.videos|
            && if row.owner != req.owner then out == Outcome(db, Raised(OwnershipMismatch))
               else if row.lifecycle == DeletionPending then out == Outcome(db, Raised(NotFound))
               else if (req.expected != None && req.expected != Some(row.version))
                       || (req.expected == None && row.payload.calibrationCompleted)
               then out == Outcome(db, Raised(ConcurrentChange))
               else if db.videos[row.video].state == Deleting then out == Outcome(db, Raised(SourceMediaUnavailable))
               else if row.sport != p.sport then out == Outcome(db, Raised(InvalidValue))
               else if p.status == Queued || p.status == Stale || FilesClash(db, req)
               then out == Outcome(db, Raised(IntegrityViolation))
               else out.reply == Saved(row.version + 1)
  {
    ReachableInv(db);
    assert RowOk(db, req.analysis);
    SavedExactlyWhenAccepted(db, req, now);
    FitsExactly(db, req);
    if PersistTx(db, req, now).reply.Saved? { RT.SaveBumps(db, req); }
    hide Inv, Reachable, RowOk, SaveOn, FilesClash, Registrable, WithdrawDependents, KeptInputs;
  }

  lemma FitsExactly(db: Db, req: SaveRequest)
    requires Inv(db)
    ensures Registrable(WithdrawDependents(db.artifacts, req.analysis, PayloadBefore(db, req), req.payload),
                        req.analysis, KeptInputs(req.inputs, PayloadBefore(db, req), req.payload))
            <==> !FilesClash(db, req)
  {
    var before := PayloadBefore(db, req);
    var t := WithdrawDependents(db.artifacts, req.analysis, before, req.payload);
    DependentsAreLocal(db.artifacts, req.analysis, before, req.payload);
    hide Inv, WithdrawDependents, KeptInputs, PayloadBefore, RegisterAll;
    AA.RefusedExactly(t, req.analysis, None, None, KeptInputs(req.inputs, before, req.payload));
  }

  lemma LoadedRow(db: Db, req: SaveRequest, now: Time)
    requires req.analysis !in db.analyses && LoadOrImport(db, req, now).Some?
    ensures req.analysis in LoadOrImport(db, req, now).value.analyses
    ensures LoadOrImport(db, req, now).value.analyses[req.analysis]
         == Analysis(req.owner, |db.videos|, req.payload.sport, Live, req.payload.status, req.payload, None, 1, now)
  {
    hide HasActive, Newest;
  }

  /** A match that is not there is saved only as a compatibility import. */
  lemma ImportAnswersExactly(db: Db, req: SaveRequest, now: Time)
    requires Reachable(db) && req.analysis !in db.analyses
    ensures var out := PersistTx(db, req, now); var p := req.payload;
            if !req.compatibilityImport then out == Outcome(db, Raised(NotFound))
            else if p.status == Queued || p.status == Stale || FilesClash(db, req)
            then out == Outcome(db, Raised(IntegrityViolation))
            else out.reply == Saved(2)
  {
    ReachableInv(db);
    SavedExactlyWhenAccepted(db, req, now);
    FitsExactly(db, req);
    RefusedSavesWriteNothing(db, req, now);
    if PersistTx(db, req, now).reply.Saved? {
      SaveStages(db, req, now);
      LoadedRow(db, req, now);
      hide SaveOn;
      RT.SaveBumps(LoadOrImport(db, req, now).value, req);
    }
    hide Inv, Reachable, SaveOn, FilesClash, Registrable, WithdrawDependents, KeptInputs, LoadOrImport;
  }

  // ---------------------------------------------------------------- what a save writes

  predicate IsSource(input: ArtifactInput, name: string) { input.Key() == name && input.kind == "source_video" }

  lemma {:induction false} FirstSource(inputs: seq<ArtifactInput>, name: string, i: nat)
    requires i < |inputs| && IsSource(inputs[i], name) && forall j :: 0 <= j < i ==> !IsSource(inputs[j], name)
    ensures SourceInput(inputs, name) == Some(inputs[i])
  {
    if i > 0 {
      assert !IsSource(inputs[0], name);
      assert forall j :: 0 <= j < i - 1 ==> inputs[1..][j] == inputs[j + 1];
      FirstSource(inputs[1..], name, i - 1);
    }
  }

  /** A save that names a source video makes the recording available: under the object and checksum of the
      first input registered as that source, and otherwise under the name itself with the old checksum. */
  lemma SavedVideoExactly(db: Db, v: VideoId, payload: Payload, inputs: seq<ArtifactInput>, i: nat)
    requires v < |db.videos|
    ensures payload.sourceVideo == None ==> SaveVideo(db, v, payload, inputs) == db
    ensures payload.sourceVideo.Some? && i < |inputs| && IsSource(inputs[i], payload.sourceVideo.value)
            && (forall j :: 0 <= j < i ==> !IsSource(inputs[j], payload.sourceVideo.value)) ==>
              SaveVideo(db, v, payload, inputs)
              == db.(videos := db.videos[v := Video(db.videos[v].owner, Available, Some(inputs[i].checksum),
                                                    Some(inputs[i].storageKey))])
    ensures payload.sourceVideo.Some?
            && (forall j :: 0 <= j < |inputs| ==> !IsSource(inputs[j], payload.sourceVideo.value)) ==>
              SaveVideo(db, v, payload, inputs)
              == db.(videos := db.videos[v := Video(db.videos[v].owner, Available, db.videos[v].checksum,
                                                    payload.sourceVideo)])
  {
    if payload.sourceVideo.Some? {
      var name := payload.sourceVideo.value;
      if i < |inputs| && IsSource(inputs[i], name) && (forall j :: 0 <= j < i ==> !IsSource(inputs[j], name)) {
        FirstSource(inputs, name, i);
      }
      if forall j :: 0 <= j < |inputs| ==> !IsSource(inputs[j], name) {
        assert SourceInput(inputs, name).None?;
      }
      hide SourceInput;
    }
  }

  /** The events of a save: its run starts, the analysis changes its state, its run ends. */
  function SaveLog(db: Db, a: AnalysisId, last: Option<RunId>, status: State): seq<Event>
    requires a in db.analyses && (last.Some? ==> last.value < |db.runs|)
  {
    var row := db.analyses[a]; var active := last.Some? && Active(db.runs[last.value].state);
    (if status == Processing && !active then [Event(OnRun(|db.runs|), None, Processing, 1)] else [])
    + (if row.state != status then [Event(OnAnalysis(a), Some(row.state), status, row.version + 1)] else [])
    + (if (status == Completed || status == Failed) && active
       then [Event(OnRun(last.value), Some(db.runs[last.value].state), status, db.runs[last.value].version + 1)]
         else [])
  }

  lemma RunForSaveLog(db: Db, a: AnalysisId, status: State)
    requires Linked(db.runs) && OnlyLastActive(db.runs) && RunForSave(db, a, status).Some?
    ensures var work := RunForSave(db, a, status).value; var last := LastRun(db.runs, a);
            var starts := status == Processing && !(last.Some? && Active(db.runs[last.value].state));
            work.0.records == db.records
            && work.0.events == db.events + if starts then [Event(OnRun(|db.runs|), None, Processing, 1)] else []
  {
    LookupsFindTheLast(db.runs, a);
    hide Linked, OnlyLastActive, LastRun, Newest, ActiveOrLatest, HasActive;
  }

  lemma HalfwayLog(db: Db, req: SaveRequest)
    requires Linked(db.runs) && OnlyLastActive(db.runs) && req.analysis in db.analyses && SaveRows(db, req).Some?
    ensures var a := req.analysis; var row := db.analyses[a]; var rows := SaveRows(db, req).value.0;
            var last := LastRun(db.runs, a); var status := req.payload.status;
            var starts := status == Processing && !(last.Some? && Active(db.runs[last.value].state));
            rows.records == db.records
            && rows.events == db.events + (if starts then [Event(OnRun(|db.runs|), None, Processing, 1)] else [])
               + (if row.state != status then [Event(OnAnalysis(a), Some(row.state), status, row.version + 1)] else [])
  {
    var a := req.analysis; var before := db.analyses[a];
    var db1 := db.(artifacts := WithdrawDependents(db.artifacts, a, before.payload, req.payload));
    hide KeptInputs, WithdrawDependents, RunForSave, LastRun, Linked, OnlyLastActive;
    RunForSaveLog(db1, a, req.payload.status);
    hide SourceInput;
  }

  /** The runs after a save: the next attempt starts, the active one ends, or none moves. */
  function RunsThen(runs: seq<Run>, a: AnalysisId, last: Option<RunId>, status: State): seq<Run>
    requires last.Some? ==> last.value < |runs|
  {
    var active := last.Some? && Active(runs[last.value].state);
    if status == Processing && !active then runs + [Run(a, CountRuns(runs, a) + 1, Processing, last, 1)]
    else if (status == Completed || status == Failed) && active
    then runs[last.value := runs[last.value].(state := status, version := runs[last.value].version + 1)]
    else runs
  }

  lemma RunsSpelled(db: Db, db': Db, a: AnalysisId, status: State)
    requires RunsAfterSave(db, db', a, status)
    ensures db'.runs == RunsThen(db.runs, a, LastRun(db.runs, a), status)
  {
    hide CountRuns, LastRun;
    if |db'.runs| == |db.runs| + 1 { assert db'.runs == db'.runs[..|db.runs|] + [db'.runs[|db.runs|]]; }
  }

  lemma RowSpelled(db: Db, req: SaveRequest)
    requires Linked(db.runs) && OnlyLastActive(db.runs) && req.analysis in db.analyses && SaveOn(db, req).Some?
    ensures var a := req.analysis; var row := db.analyses[a]; var p := req.payload; var last := LastRun(db.runs, a);
            SaveOn(db, req).value.analyses
            == db.analyses[a := row.(state := p.status, payload := p, version := row.version + 1,
                 promoted := if p.status == Completed && last.Some? && Active(db.runs[last.value].state) then last
                             else row.promoted)]
  {
    SaveRowEffect(db, req);
    ActiveIsLast(db.runs, req.analysis);
    hide SaveOn, LastRun, HasActive, Linked, OnlyLastActive;
  }

  lemma VideosSpelled(db: Db, req: SaveRequest)
    requires Linked(db.runs) && OnlyLastActive(db.runs) && req.analysis in db.analyses && SaveOn(db, req).Some?
    ensures var row := db.analyses[req.analysis];
            SaveOn(db, req).value.videos
            == SaveVideo(db, row.video, req.payload, KeptInputs(req.inputs, row.payload, req.payload)).videos
  {
    hide *;
    SaveTablesEffect(db, req);
  }

  lemma SaveOnWrites(db: Db, req: SaveRequest)
    requires Linked(db.runs) && OnlyLastActive(db.runs) && req.analysis in db.analyses && SaveOn(db, req).Some?
    ensures var a := req.analysis; var row := db.analyses[a]; var p := req.payload; var last := LastRun(db.runs, a);
            var db' := SaveOn(db, req).value;
            db'.analyses == db.analyses[a := row.(state := p.status, payload := p, version := row.version + 1,
                 promoted := if p.status == Completed && last.Some? && Active(db.runs[last.value].state) then last
                             else row.promoted)]
            && db'.runs == RunsThen(db.runs, a, last, p.status)
            && db'.events == db.events + SaveLog(db, a, last, p.status)
            && db'.videos == SaveVideo(db, row.video, p, KeptInputs(req.inputs, row.payload, p)).videos
            && db'.records == db.records
  {
    hide *;
    SaveRunsEffect(db, req);
    RunsSpelled(db, SaveOn(db, req).value, req.analysis, req.payload.status);
    RowSpelled(db, req);
    VideosSpelled(db, req);
    SaveLogEffect(db, req);
  }

  /** An accepted save of an existing match writes its row, its recording, its run and the log so, and nothing
      else; a completed job promotes the run it ends. */
  lemma SaveWritesExactly(db: Db, req: SaveRequest, now: Time)
    requires Reachable(db) && req.analysis in db.analyses && PersistTx(db, req, now).reply.Saved?
    ensures var a := req.analysis; var row := db.analyses[a]; var p := req.payload;
            var db' := PersistTx(db, req, now).db; var last := LastRun(db.runs, a);
            row.video < |db.videos|
            && db'.analyses == db.analyses[a := row.(state := p.status, payload := p, version := row.version + 1,
                 promoted := if p.status == Completed && last.Some? && Active(db.runs[last.value].state) then last
                             else row.promoted)]
            && db'.runs == RunsThen(db.runs, a, last, p.status)
            && db'.events == db.events + SaveLog(db, a, last, p.status)
            && db'.videos == SaveVideo(db, row.video, p, KeptInputs(req.inputs, row.payload, p)).videos
            && db'.records == db.records
  {
    ReachableInv(db);
    assert RowOk(db, req.analysis) && Linked(db.runs) && OnlyLastActive(db.runs);
    assert db.analyses[req.analysis].video < |db.videos|;
    SaveStages(db, req, now);
    assert SaveOn(db, req) == Some(PersistTx(db, req, now).db);
    hide *;
    SaveOnWrites(db, req);
  }

  lemma FinishRunLog(db: Db, a: AnalysisId, run: Option<RunId>, status: State)
    requires a in db.analyses && (run.Some? ==> run.value < |db.runs|)
    ensures var db' := FinishRun(db, a, run, status);
            var ends := run.Some? && Active(db.runs[run.value].state) && (status == Completed || status == Failed);
            db'.records == db.records
            && db'.events == db.events + if ends then [Event(OnRun(run.value), Some(db.runs[run.value].state), status,
                                                             db.runs[run.value].version + 1)] else []
  {}

  lemma SaveOnHasRows(db: Db, req: SaveRequest)
    requires req.analysis in db.analyses && SaveOn(db, req).Some?
    ensures SaveRows(db, req).Some?
  {
    hide SaveRows, FinishRun, KeptInputs, RegisterAll;
  }

  lemma SaveOnLog(db: Db, req: SaveRequest)
    requires req.analysis in db.analyses && SaveOn(db, req).Some? && SaveRows(db, req).Some?
    ensures var rows := SaveRows(db, req).value; var db' := SaveOn(db, req).value;
            var ended := FinishRun(rows.0, req.analysis, rows.1, req.payload.status);
            db'.records == ended.records && db'.events == ended.events
  {
    hide SaveRows, FinishRun, KeptInputs, RegisterAll;
  }

  lemma LogsJoin(db: Db, rows: Db, a: AnalysisId, run: Option<RunId>, status: State, log: seq<Event>)
    requires a in db.analyses && RunsHalfway(db.runs, a, status, rows.runs, run)
    requires var row := db.analyses[a]; var last := LastRun(db.runs, a);
             var starts := status == Processing && !(last.Some? && Active(db.runs[last.value].state));
             rows.events == db.events + (if starts then [Event(OnRun(|db.runs|), None, Processing, 1)] else [])
                + (if row.state != status then [Event(OnAnalysis(a), Some(row.state), status, row.version + 1)] else [])
    ensures run.Some? ==> run.value < |rows.runs|
    ensures var ends := run.Some? && Active(rows.runs[run.value].state) && (status == Completed || status == Failed);
            log == rows.events + (if ends then [Event(OnRun(run.value), Some(rows.runs[run.value].state), status,
                                                      rows.runs[run.value].version + 1)] else [])
            ==> log == db.events + SaveLog(db, a, LastRun(db.runs, a), status)
  {
    hide LastRun, CountRuns;
  }

  lemma SaveLogEffect(db: Db, req: SaveRequest)
    requires Linked(db.runs) && OnlyLastActive(db.runs) && req.analysis in db.analyses && SaveOn(db, req).Some?
    ensures var a := req.analysis; var db' := SaveOn(db, req).value;
            db'.records == db.records
            && db'.events == db.events + SaveLog(db, a, LastRun(db.runs, a), req.payload.status)
  {
    hide *;
    SaveOnHasRows(db, req);
    var rows := SaveRows(db, req).value;
    HalfwayLog(db, req);
    SaveHalfway(db, req);
    LogsJoin(db, rows.0, req.analysis, rows.1, req.payload.status, SaveOn(db, req).value.events);
    FinishRunLog(rows.0, req.analysis, rows.1, req.payload.status);
    SaveOnLog(db, req);
  }

  /** What an import starts from: the match as the save gives it, a recording of its own and a first run. */
  function Imported(db: Db, req: SaveRequest, now: Time): Db {
    var a := req.analysis; var p := req.payload;
    Db(db.analyses[a := Analysis(req.owner, |db.videos|, p.sport, Live, p.status, p, None, 1, now)],
       db.videos + [Video(req.owner, Available, None, None)], db.runs + [Run(a, 1, Processing, None, 1)],
       db.events + [Event(OnAnalysis(a), None, p.status, 1), Event(OnRun(|db.runs|), None, Processing, 1)], db.records,
       db.artifacts)
  }

  lemma LoadedIsImported(db: Db, req: SaveRequest, now: Time)
    requires Inv(db) && req.analysis !in db.analyses
    ensures LoadOrImport(db, req, now) == Some(Imported(db, req, now))
    ensures LastRun(Imported(db, req, now).runs, req.analysis) == Some(|db.runs|)
  {
    NoRunOfANewAnalysis(db, req.analysis);
    FreshHasNoRun(db, req.analysis);
    hide Inv, Newest, HasActive;
    var to := Imported(db, req, now);
    assert to.runs[..|to.runs| - 1] == db.runs;
    var p := req.payload;
    var created := CreateAnalysis(db, req.analysis, req.owner, p.sport, p.status, p,
      Video(req.owner, Available, None, None), now);
    assert to.events == created.events + [Event(OnRun(|db.runs|), None, Processing, 1)];
  }

  lemma FirstRunThen(db: Db, req: SaveRequest, now: Time)
    requires req.payload.status != Queued && req.payload.status != Stale
    requires CountRuns(db.runs, req.analysis) == 0
    ensures var from := Imported(db, req, now); var status := req.payload.status;
            var ends := status == Completed || status == Failed;
            RunsThen(from.runs, req.analysis, Some(|db.runs|), status)
            == db.runs + [Run(req.analysis, 1, if ends then status else Processing, None, if ends then 2 else 1)]
            && SaveLog(from, req.analysis, Some(|db.runs|), status)
               == if ends then [Event(OnRun(|db.runs|), Some(Processing), status, 2)] else []
  {
    hide CountRuns;
  }

  lemma ImportedRow(db: Db, req: SaveRequest, now: Time, row: Analysis)
    ensures Imported(db, req, now).analyses[req.analysis := row] == db.analyses[req.analysis := row]
    ensures Imported(db, req, now).records == db.records
  {}

  /** An accepted import writes what a save of the imported match writes: a completed or failed job ends the
      first run at once. */
  lemma ImportWritesExactly(db: Db, req: SaveRequest, now: Time)
    requires Reachable(db) && req.analysis !in db.analyses && PersistTx(db, req, now).reply.Saved?
    ensures var a := req.analysis; var p := req.payload; var db' := PersistTx(db, req, now).db;
            var from := Imported(db, req, now); var ends := p.status == Completed || p.status == Failed;
            db'.analyses == db.analyses[a := Analysis(req.owner, |db.videos|, p.sport, Live, p.status, p,
                              if p.status == Completed then Some(|db.runs|) else None, 2, now)]
            && db'.runs == db.runs + [Run(a, 1, if ends then p.status else Processing, None, if ends then 2 else 1)]
            && db'.events
               == from.events + (if ends then [Event(OnRun(|db.runs|), Some(Processing), p.status, 2)] else [])
            && db'.videos == SaveVideo(from, |db.videos|, p, req.inputs).videos && db'.records == db.records
  {
    var from := Imported(db, req, now); var a := req.analysis; var p := req.payload;
    assert from.analyses[a] == Analysis(req.owner, |db.videos|, p.sport, Live, p.status, p, None, 1, now);
    assert Active(from.runs[|db.runs|].state);
    hide *;
    ImportStages(db, req, now);
    ImportKeepsInputs(req);
    SaveOnWrites(from, req);
    FirstRunThen(db, req, now);
    ImportedRow(db, req, now, Analysis(req.owner, |db.videos|, p.sport, Live, p.status, p,
      if p.status == Completed then Some(|db.runs|) else None, 2, now));
  }

  lemma ImportKeepsInputs(req: SaveRequest)
    ensures KeptInputs(req.inputs, req.payload, req.payload) == req.inputs
  {}

  lemma ImportStages(db: Db, req: SaveRequest, now: Time)
    requires Reachable(db) && req.analysis !in db.analyses && PersistTx(db, req, now).reply.Saved?
    ensures var from := Imported(db, req, now);
            Linked(from.runs) && OnlyLastActive(from.runs) && req.analysis in from.analyses
            && SaveOn(from, req) == Some(PersistTx(db, req, now).db)
            && req.payload.status != Queued && req.payload.status != Stale
            && CountRuns(db.runs, req.analysis) == 0 && LastRun(from.runs, req.analysis) == Some(|db.runs|)
  {
    assert AnalysisState(req.payload.status) ==> req.payload.status != Queued && req.payload.status != Stale;
    hide *;
    ReachableInv(db);
    SaveStages(db, req, now);
    ImportStep(db, req, now);
    LoadedIsImported(db, req, now);
    GoalKeepsInv(db, Imported(db, req, now));
    InvLinks(Imported(db, req, now));
    NoRunCounts(db, req.analysis);
  }

  lemma NoRunCounts(db: Db, a: AnalysisId)
    requires Inv(db) && a !in db.analyses
    ensures CountRuns(db.runs, a) == 0
  {
    LastCountsAll(db.runs, a);
    assert RunsOwned(db);
    hide Linked;
  }

  // ---------------------------------------------------------------- transitions

  /** The state machine of a run. */
  const PERMITTED: set<(State, State)> :=
    {(Queued, Processing), (Queued, Cancelled), (Processing, Completed), (Processing, Failed), (Processing, Cancelled),
     (Processing, Stale)}

  /** Run and log after a transition; the analysis follows unless the run went stale, and a completed run is
      promoted. */
  ghost predicate Moved(db: Db, r: RunId, to: State, db': Db)
    requires r < |db.runs| && db.runs[r].analysis in db.analyses
  {
    var run := db.runs[r]; var a := run.analysis; var row := db.analyses[a];
    db'.runs == db.runs[r := run.(state := to, version := run.version + 1)]
    && db'.analyses == (if to == Stale then db.analyses
                        else db.analyses[a := row.(state := to, version := row.version + 1,
                                                   promoted := if to == Completed then Some(r) else row.promoted)])
    && db'.events
       == db.events + (if to == Stale then [] else [Event(OnAnalysis(a), Some(row.state), to, row.version + 1)])
          + [Event(OnRun(r), Some(run.state), to, run.version + 1)]
    && db'.videos == db.videos && db'.records == db.records && db'.artifacts == db.artifacts
  }

  lemma TransitionMoves(db: Db, owner: OwnerId, r: RunId, expected: nat, to: State)
    requires r < |db.runs| && db.runs[r].analysis in db.analyses
    requires var a := db.runs[r].analysis;
             db.analyses[a].owner == owner && db.runs[r].version == expected && db.runs[r].state != to
             && TransitionAllowed(db.runs[r].state, to)
    ensures Moved(db, r, to, TransitionTx(db, owner, r, expected, to).db)
  {
    hide TransitionAllowed;
    var a := db.runs[r].analysis;
    if to != Stale { ChangeAnalysisShape(db, a, to, db.analyses[a].payload, true); }
  }

  /** A transition is answered with the state the run is in, whatever version is named, if that is the state
      asked for; otherwise it writes exactly for a permitted pair at the current version. */
  lemma TransitionAnswersExactly(db: Db, owner: OwnerId, r: RunId, expected: nat, to: State)
    requires Reachable(db)
    ensures var out := TransitionTx(db, owner, r, expected, to);
            if r >= |db.runs| then out == Outcome(db, Raised(NotFound))
            else
              var run := db.runs[r]; var a := run.analysis;
              a in db.analyses
              && if db.analyses[a].owner != owner then out == Outcome(db, Raised(NotFound))
                 else if run.state == to then out == Outcome(db, Transitioned(r, to, run.version))
                 else if (run.state, to) !in PERMITTED then out == Outcome(db, Raised(InvalidTransition))
                 else if run.version != expected then out == Outcome(db, Raised(ConcurrentChange))
                 else out.reply == Transitioned(r, to, run.version + 1) && Moved(db, r, to, out.db)
  {
    ReachableInv(db);
    assert RunsOwned(db);
    hide Inv, Reachable, Moved, ChangeRun, ChangeAnalysis, Promote, RunsOwned;
    if r < |db.runs| && db.runs[r].analysis in db.analyses && db.analyses[db.runs[r].analysis].owner == owner {
      Permitted(db.runs[r].state, to);
      if TransitionAllowed(db.runs[r].state, to) && db.runs[r].version == expected && db.runs[r].state != to {
        TransitionMoves(db, owner, r, expected, to);
      }
    }
    hide TransitionAllowed;
  }

  lemma Permitted(from: State, to: State)
    ensures TransitionAllowed(from, to) <==> (from, to) in PERMITTED
  {}

  // ---------------------------------------------------------------- starting a run

  /** The error of looking a match up for its owner. */
  lemma DeniedExactly(db: Db, a: AnalysisId, owner: OwnerId)
    ensures Denied(db, a, owner) == Some(OwnershipMismatch) <==> a in db.analyses && db.analyses[a].owner != owner
    ensures Denied(db, a, owner) == Some(NotFound) <==>
            a !in db.analyses || (db.analyses[a].owner == owner && db.analyses[a].lifecycle == DeletionPending)
    ensures Denied(db, a, owner) == None <==>
            a in db.analyses && db.analyses[a].owner == owner && db.analyses[a].lifecycle == Live
  {}

  /** What a request under a bound start key is answered. */
  predicate AnswersStart(record: Record, fingerprint: string, reply: Reply) {
    if record.fingerprint != fingerprint then reply == Raised(IdempotencyConflict)
    else match record.resource
      case Some(OfRun(r)) => reply == RunStarted(r, false)
      case Some(_) => reply == Raised(InvalidValue)
      case None => reply == Raised(OperationInProgress)
  }

  lemma BoundStart(record: Record, fingerprint: string)
    ensures AnswersStart(record, fingerprint, ResolveRunRecord(record, fingerprint))
  {}

  /** What a start that creates its run leaves. */
  ghost predicate StartedSo(db: Db, req: RunRequest, db': Db)
    requires req.analysis in db.analyses
  {
    var a := req.analysis; var row := db.analyses[a]; var wakes := req.state == Processing && row.state != Processing;
    db'.runs == db.runs + [Run(a, CountRuns(db.runs, a) + 1, req.state, LastRun(db.runs, a), 1)]
    && db'.analyses == (if wakes then db.analyses[a := row.(state := Processing, version := row.version + 1)]
                        else db.analyses)
    && db'.events
       == db.events + [Event(OnRun(|db.runs|), None, req.state, 1)]
          + (if wakes then [Event(OnAnalysis(a), Some(row.state), Processing, row.version + 1)] else [])
    && db'.records
       == db.records[RecordKey(req.owner, RunStartScope, req.key) := Record(req.fingerprint, Some(OfRun(|db.runs|)))]
    && db'.videos == db.videos && db'.artifacts == db.artifacts
  }

  lemma StartWrites(db: Db, req: RunRequest)
    requires Linked(db.runs) && Denied(db, req.analysis, req.owner).None? && req.Key() !in db.records
    requires Active(req.state) && !HasActive(db.runs, req.analysis)
    ensures StartRunTx(db, req).reply == RunStarted(|db.runs|, true) && StartedSo(db, req, StartRunTx(db, req).db)
  {
    InsertsWhenIdle(db, req.analysis, req.state);
    InsertedRow(db, req.analysis, req.state);
    hide Linked, LastRun, CountRuns, InsertRun, HasActive;
  }

  /** A start: a state no run starts in is refused before anything is read, then the match must be the owner's
      and live, then a bound key answers, and a run is created exactly if none of the match is active. */
  lemma StartAnswersExactly(db: Db, req: RunRequest)
    requires Reachable(db)
    ensures var out := StartRunTx(db, req); var a := req.analysis;
            var key := RecordKey(req.owner, RunStartScope, req.key);
            if req.state != Queued && req.state != Processing then out == Outcome(db, Raised(InvalidValue))
            else if a !in db.analyses then out == Outcome(db, Raised(NotFound))
            else if db.analyses[a].owner != req.owner then out == Outcome(db, Raised(OwnershipMismatch))
            else if db.analyses[a].lifecycle == DeletionPending then out == Outcome(db, Raised(NotFound))
            else if key in db.records
            then out.db == db && AnswersStart(db.records[key], req.fingerprint, out.reply)
            else if exists i :: 0 <= i < |db.runs| && db.runs[i].analysis == a
                                && (db.runs[i].state == Queued || db.runs[i].state == Processing)
            then out == Outcome(db, Raised(IntegrityViolation))
            else out.reply == RunStarted(|db.runs|, true) && StartedSo(db, req, out.db)
  {
    ReachableInv(db);
    InvLinks(db);
    InsertsWhenIdle(db, req.analysis, req.state);
    DeniedExactly(db, req.analysis, req.owner);
    assert req.Key() == RecordKey(req.owner, RunStartScope, req.key);
    if req.Key() in db.records { BoundStart(db.records[req.Key()], req.fingerprint); }
    hide Inv, Reachable, Linked, OnlyLastActive, InsertRun, StartedSo, Denied, ChangeAnalysis, Bind;
    if Denied(db, req.analysis, req.owner).None? && req.Key() !in db.records && Active(req.state)
       && !HasActive(db.runs, req.analysis) {
      StartWrites(db, req);
    }
  }

  /** The second attempt of a start that was aborted by a unique index: it joins the active run, and binds the
      key to it, exactly if there is one. */
  lemma StartAgainAnswersExactly(db: Db, req: RunRequest)
    requires Reachable(db)
    ensures var out := StartRunAgainTx(db, req); var a := req.analysis;
            var key := RecordKey(req.owner, RunStartScope, req.key);
            if key in db.records then out.db == db && AnswersStart(db.records[key], req.fingerprint, out.reply)
            else if a !in db.analyses then out == Outcome(db, Raised(NotFound))
            else if db.analyses[a].owner != req.owner then out == Outcome(db, Raised(OwnershipMismatch))
            else if db.analyses[a].lifecycle == DeletionPending then out == Outcome(db, Raised(NotFound))
            else
              (forall i :: 0 <= i < |db.runs| && db.runs[i].analysis == a
                           && (db.runs[i].state == Queued || db.runs[i].state == Processing) ==>
                 out == Outcome(db.(records := db.records[key := Record(req.fingerprint, Some(OfRun(i)))]),
                                RunStarted(i, false)))
              && ((forall i :: 0 <= i < |db.runs| && db.runs[i].analysis == a ==>
                     db.runs[i].state != Queued && db.runs[i].state != Processing) ==>
                    out == Outcome(db, Raised(IntegrityViolation)))
  {
    ReachableInv(db);
    assert Linked(db.runs) && OnlyLastActive(db.runs);
    LookupsFindTheLast(db.runs, req.analysis);
    if req.Key() in db.records { BoundStart(db.records[req.Key()], req.fingerprint); }
    hide Inv, Reachable, Linked, LastRun, ActiveRun, Newest, ActiveOrLatest, ResolveRunRecord;
  }

  // ---------------------------------------------------------------- reservations

  /** The recording of a match is the one asked for. */
  predicate StandsFor(db: Db, a: AnalysisId, owner: OwnerId, checksum: string, sport: Sport) {
    a in db.analyses && db.analyses[a].lifecycle == Live && db.analyses[a].owner == owner
    && db.analyses[a].sport == sport && db.analyses[a].video < |db.videos|
    && db.videos[db.analyses[a].video].owner == owner && db.videos[db.analyses[a].video].checksum == Some(checksum)
  }

  /** Of all live matches of a recording, the duplicate query names the one created last, ties broken by the
      greater id. */
  lemma DuplicateIsTheLatest(db: Db, owner: OwnerId, checksum: string, sport: Sport, a: AnalysisId)
    requires StandsFor(db, a, owner, checksum, sport)
    requires forall b: AnalysisId :: StandsFor(db, b, owner, checksum, sport) && b != a ==>
               db.analyses[b].createdAt < db.analyses[a].createdAt
               || (db.analyses[b].createdAt == db.analyses[a].createdAt && b < a)
    ensures FindDuplicate(db, owner, checksum, sport) == Some(a)
  {
    var known := SourcesOf(db, owner, checksum, sport);
    assert a in known;
    var b := FindDuplicate(db, owner, checksum, sport).value;
    assert IsLatest(db, known, b) && b in known;
    assert CreatedBefore(db, a, b);
    assert StandsFor(db, b, owner, checksum, sport);
  }

  lemma NoDuplicateExactly(db: Db, owner: OwnerId, checksum: string, sport: Sport)
    ensures FindDuplicate(db, owner, checksum, sport) == None
            <==> forall a: AnalysisId :: !StandsFor(db, a, owner, checksum, sport)
  {
    var known := SourcesOf(db, owner, checksum, sport);
    if a: AnalysisId :| StandsFor(db, a, owner, checksum, sport) { assert a in known; }
    if a :| a in known { assert StandsFor(db, a, owner, checksum, sport); }
  }

  /** What a request under a bound reservation key is answered. */
  predicate AnswersReservation(db: Db, owner: OwnerId, record: Record, fingerprint: string, reply: Reply) {
    if record.fingerprint != fingerprint then reply == Raised(IdempotencyConflict)
    else if record.resource == None then reply == Raised(OperationInProgress)
    else if record.resource.value.OfRun? then reply == Raised(NotFound)
    else
      var a := record.resource.value.analysis;
      if a !in db.analyses then reply == Raised(NotFound)
      else if db.analyses[a].owner != owner then reply == Raised(OwnershipMismatch)
      else if db.analyses[a].lifecycle == DeletionPending then reply == Raised(NotFound)
      else if record.resource.value.OfAnalysis? then reply == Reserved(a, false, None)
      else
        var v := db.analyses[a].video;
        reply == if v < |db.videos| && db.videos[v].owner == owner then Reserved(a, false, Some(v))
          else Raised(NotFound)
  }

  /** A reservation: a bound key answers; then a known recording is answered unless duplicates are allowed;
      then an id in use aborts; and otherwise the match, its recording and its first run are created. */
  lemma ReservationAnswersExactly(db: Db, req: ReserveRequest, now: Time)
    requires Reachable(db)
    ensures var out := ReserveTx(db, req, now); var key := RecordKey(req.owner, UploadScope, req.key);
            var a := req.analysis;
            if key in db.records
            then out.db == db && AnswersReservation(db, req.owner, db.records[key], req.fingerprint, out.reply)
            else if !req.allowDuplicate && FindDuplicate(db, req.owner, req.checksum, req.sport).Some?
            then
              var d := FindDuplicate(db, req.owner, req.checksum, req.sport).value;
              d in db.analyses
              && out == Outcome(db.(records := db.records[key := Record(req.fingerprint, Some(OfDuplicate(d)))]),
                                Reserved(d, false, Some(db.analyses[d].video)))
            else if a in db.analyses then out == Outcome(db, Raised(IntegrityViolation))
            else
              out.reply == Reserved(a, true, None)
              && out.db
                 == Db(db.analyses[a := Analysis(req.owner, |db.videos|, req.sport, Live, Processing, req.payload, None,
                                                 1, now)],
                       db.videos + [Video(req.owner, Awaited, Some(req.checksum), None)],
                       db.runs + [Run(a, 1, Processing, None, 1)],
                       db.events + [Event(OnAnalysis(a), None, Processing, 1),
                         Event(OnRun(|db.runs|), None, Processing, 1)],
                       db.records[key := Record(req.fingerprint, Some(OfAnalysis(a)))], db.artifacts)
  {
    ReachableInv(db);
    if req.Key() in db.records { BoundReservation(db, req.owner, db.records[req.Key()], req.fingerprint); }
    if req.analysis !in db.analyses {
      NoRunOfANewAnalysis(db, req.analysis);
      FreshHasNoRun(db, req.analysis);
    }
    hide Inv, Reachable, FindDuplicate, Newest, HasActive, ReservationFromRecord, Linked;
  }

  lemma BoundReservation(db: Db, owner: OwnerId, record: Record, fingerprint: string)
    ensures AnswersReservation(db, owner, record, fingerprint, ReservationFromRecord(db, owner, record, fingerprint))
  {}

  /** The read after an aborted insert answers only from the record of the key. */
  lemma ReservedAgainExactly(db: Db, req: ReserveRequest)
    ensures var key := RecordKey(req.owner, UploadScope, req.key);
            if key in db.records
               then AnswersReservation(db, req.owner, db.records[key], req.fingerprint, ReserveAgain(db, req))
            else ReserveAgain(db, req) == Raised(IntegrityViolation)
  {
    if req.Key() in db.records { BoundReservation(db, req.owner, db.records[req.Key()], req.fingerprint); }
    hide ReservationFromRecord;
  }

  // ---------------------------------------------------------------- deletions

  /** In every reachable state no two matches share a recording, so a deletion is refused exactly if the match
      is not the owner's or is still uploading; it hides the match, marks its recording and cancels its active
      run in place. */
  lemma DeletionAnswersExactly(db: Db, owner: OwnerId, a: AnalysisId, uploading: bool)
    requires Reachable(db)
    ensures var out := DeleteTx(db, owner, a, uploading);
            if a !in db.analyses || db.analyses[a].owner != owner then out == Outcome(db, Raised(NotFound))
            else if uploading then out == Outcome(db, Raised(MatchBusy))
            else
              var row := db.analyses[a];
              row.video < |db.videos| && out.reply == Accepted && |out.db.runs| == |db.runs|
              && out.db == db.(runs := out.db.runs,
                               analyses := db.analyses[a :=
                                 row.(lifecycle := DeletionPending, version := row.version + 1)],
                               videos := db.videos[row.video := db.videos[row.video].(state := Deleting)])
              && forall i :: 0 <= i < |db.runs| ==>
                   out.db.runs[i] == if db.runs[i].analysis == a
                                        && (db.runs[i].state == Queued || db.runs[i].state == Processing)
                                     then db.runs[i].(state := Cancelled) else db.runs[i]
  {
    ReachableInv(db);
    if a in db.analyses { assert RowOk(db, a); }
    assert VideosUnshared(db);
    hide Inv, Reachable, RowOk;
  }

  /** A recording that two matches share, which no reachable state has, is neither deleted nor removed. */
  lemma SharedMediaIsTold(db: Db, owner: OwnerId, a: AnalysisId, uploading: bool, b: AnalysisId)
    requires a in db.analyses && db.analyses[a].owner == owner && db.analyses[a].video < |db.videos|
    requires db.videos[db.analyses[a].video].owner == owner
    requires b in db.analyses && b != a && db.analyses[b].video == db.analyses[a].video
    ensures DeleteTx(db, owner, a, uploading) == Outcome(db, Raised(SharedMedia))
    ensures db.analyses[a].lifecycle == Live && db.videos[db.analyses[a].video].state != Awaited ==>
              RemoveSourceTx(db, owner, a, uploading) == Outcome(db, Raised(SharedMedia))
  {}

  /** The source of a match is removed exactly if the match is the owner's and live, the recording has arrived and
      is stored, no upload is running, and either the analytics of a completed job or the inspection of a padel
      match is done; the match itself is left alone. */
  lemma RemovalAnswersExactly(db: Db, owner: OwnerId, a: AnalysisId, uploading: bool)
    requires Reachable(db)
    ensures var out := RemoveSourceTx(db, owner, a, uploading);
            if a !in db.analyses || db.analyses[a].owner != owner || db.analyses[a].lifecycle != Live
            then out == Outcome(db, Raised(NotFound))
            else
              var row := db.analyses[a];
              row.video < |db.videos|
              && var video := db.videos[row.video];
                 var done := (row.state == Completed && row.payload.analyticsCompleted)
                             || (row.sport == Padel && row.payload.inspectionCompleted);
                 if video.state == Awaited then out == Outcome(db, Raised(SourceMediaUnavailable))
                 else if !done || uploading then out == Outcome(db, Raised(MatchBusy))
                 else if video.storageKey == None || video.storageKey == Some("")
                 then out == Outcome(db, Raised(SourceMediaUnavailable))
                 else out == Outcome(db.(videos := db.videos[row.video := video.(state := Deleting)]), Accepted)
  {
    ReachableInv(db);
    if a in db.analyses { assert RowOk(db, a); }
    assert VideosUnshared(db);
    hide Inv, Reachable, RowOk;
  }

  /** In every reachable state two rows shown for one match differ in key and in object. */
  lemma ShownRowsDiffer(db: Db, i: nat, j: nat)
    requires Reachable(db) && i < |db.artifacts| && j < |db.artifacts| && i != j
    requires db.artifacts[i].current && db.artifacts[j].current && db.artifacts[i].analysis == db.artifacts[j].analysis
    ensures var p := db.artifacts[i]; var q := db.artifacts[j];
            p.key != q.key && (p.bytes.provider, p.bytes.storageKey) != (q.bytes.provider, q.bytes.storageKey)
  {
    ReachableInv(db);
    assert Unique(db.artifacts);
    hide Inv, Reachable;
    if i < j { assert Compatible(db.artifacts[i], db.artifacts[j]); } else {
      assert Compatible(db.artifacts[j], db.artifacts[i]);
    }
  }
}
