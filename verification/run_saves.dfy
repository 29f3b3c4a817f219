/** Where saves do more than the rest of the service allows: runs that leave the transition table, and
    keys that the database withdraws but the filter on the inputs does not. */
module RunSaves {
  import opened Common
  import opened ArtifactRegistry
  import opened RunStore
  import opened RunHistory
  import opened RunSteps
  import opened RunTheorems
  import opened RunSources

  // ---------------------------------------------------------------- leaving the transition table

  /** A call moves a run in a way that `transition_run` never allows. */
  predicate LeavesTheTable(db: Db, call: Call, r: RunId) {
    r < |db.runs| && r < |Exec(db, call).db.runs|
    && var from := db.runs[r].state; var to := Exec(db, call).db.runs[r].state;
       from != to && !TransitionAllowed(from, to)
  }

  /** An accepted save of a finished job while the run of its match is still queued. */
  predicate EndsQueued(db: Db, call: Call, r: RunId) {
    call.Persist? && SaveAccepted(db, call.save)
    && (call.save.payload.status == Completed || call.save.payload.status == Failed)
    && r < |db.runs| && db.runs[r].analysis == call.save.analysis && db.runs[r].state == Queued
  }

  /** The calls that only append to the run table, or leave it alone. */
  lemma OthersKeepRuns(db: Db, call: Call)
    requires !call.Transition? && !call.Persist? && !call.DeleteMatch?
    ensures db.runs <= Exec(db, call).db.runs
  {
    hide HasActive, Newest, ActiveRun, FindDuplicate, SharesVideo;
  }

  lemma DeletionStaysInTheTable(db: Db, owner: OwnerId, a: AnalysisId, uploading: bool, r: RunId)
    ensures !LeavesTheTable(db, DeleteMatch(owner, a, uploading), r)
  {
    hide SharesVideo;
  }

  lemma TransitionStaysInTheTable(db: Db, owner: OwnerId, run: RunId, expected: nat, to: State, r: RunId)
    ensures !LeavesTheTable(db, Transition(owner, run, expected, to), r)
  {
    TransitionPassesTheVersion(db, owner, run, expected, to);
    hide TransitionTx;
  }

  /** A run after a save: it ends with the job if it is a run of the job that was still active. */
  function RunAfterSave(run: Run, req: SaveRequest): Run {
    var ends := req.payload.status == Completed || req.payload.status == Failed;
    if ends && run.analysis == req.analysis && Active(run.state)
    then run.(state := req.payload.status, version := run.version + 1) else run
  }

  lemma OneRunAfterSave(db: Db, req: SaveRequest, r: RunId)
    requires Linked(db.runs) && OnlyLastActive(db.runs) && r < |db.runs|
    requires req.analysis in db.analyses && SaveOn(db, req).Some?
    ensures r < |SaveOn(db, req).value.runs| && SaveOn(db, req).value.runs[r] == RunAfterSave(db.runs[r], req)
  {
    hide SaveOn, LastRun, CountRuns, Linked;
    SaveRunsEffect(db, req);
    assert Active(db.runs[r].state) ==> LastRun(db.runs, db.runs[r].analysis) == Some(r);
    hide OnlyLastActive;
  }

  lemma LoadKeepsRuns(db: Db, req: SaveRequest, now: Time)
    requires LoadOrImport(db, req, now).Some?
    ensures db.runs <= LoadOrImport(db, req, now).value.runs
            && req.analysis in LoadOrImport(db, req, now).value.analyses
  {
    hide Newest, HasActive;
  }

  lemma InvLinks(db: Db)
    requires Inv(db)
    ensures Linked(db.runs) && OnlyLastActive(db.runs)
  {}

  /** The stages of an accepted save. */
  lemma SaveStages(db: Db, req: SaveRequest, now: Time)
    requires PersistTx(db, req, now).reply.Saved?
    ensures SaveDenied(db, req).None? && AnalysisState(req.payload.status) && LoadOrImport(db, req, now).Some?
    ensures var loaded := LoadOrImport(db, req, now).value;
            req.analysis in loaded.analyses && SaveOn(loaded, req) == Some(PersistTx(db, req, now).db)
  {
    hide SaveDenied, SaveOn, Newest, HasActive;
  }

  /** What an accepted save does to one run that was there before. */
  lemma SaveOnOneRun(db: Db, req: SaveRequest, now: Time, r: RunId)
    requires Inv(db) && r < |db.runs| && SaveAccepted(db, req)
    ensures var after := PersistTx(db, req, now).db;
            r < |after.runs| && after.runs[r] == RunAfterSave(db.runs[r], req)
  {
    hide *;
    SavedExactlyWhenAccepted(db, req, now);
    SaveStages(db, req, now);
    ImportStep(db, req, now);
    var loaded := LoadOrImport(db, req, now).value;
    GoalKeepsInv(db, loaded);
    InvLinks(loaded);
    LoadKeepsRuns(db, req, now);
    OneRunAfterSave(loaded, req, r);
  }

  lemma RefusedSavesWriteNothing(db: Db, req: SaveRequest, now: Time)
    ensures !PersistTx(db, req, now).reply.Saved? ==> PersistTx(db, req, now).db == db
  {
    hide SaveDenied, LoadOrImport, SaveOn;
  }

  lemma SaveLeavesExactlyQueued(db: Db, req: SaveRequest, now: Time, r: RunId)
    requires Inv(db) && r < |db.runs|
    ensures LeavesTheTable(db, Persist(req, now), r) <==> EndsQueued(db, Persist(req, now), r)
  {
    hide Inv, SaveAccepted, PersistTx;
    SavedExactlyWhenAccepted(db, req, now);
    RefusedSavesWriteNothing(db, req, now);
    assert Exec(db, Persist(req, now)) == PersistTx(db, req, now);
    hide Exec;
    if SaveAccepted(db, req) { SaveOnOneRun(db, req, now, r); }
  }

  /** In every reachable state a call takes a run out of the transition table exactly when it is an
      accepted save of a completed or failed job and that run is still queued. */
  lemma LeavesTheTableExactlyByEndingQueued(db: Db, call: Call, r: RunId)
    requires Reachable(db) && r < |db.runs|
    ensures LeavesTheTable(db, call, r) <==> EndsQueued(db, call, r)
  {
    ReachableInv(db);
    hide Inv, Reachable, SaveAccepted;
    match call
    case Persist(req, now) => SaveLeavesExactlyQueued(db, req, now, r);
    case Transition(owner, run, expected, to) => TransitionStaysInTheTable(db, owner, run, expected, to, r);
    case DeleteMatch(owner, a, uploading) => DeletionStaysInTheTable(db, owner, a, uploading, r);
    case _ =>
      OthersKeepRuns(db, call);
      hide Exec;
  }

  const RERUN := RunRequest(0, 1, "rerun", "f", Queued)
  const ENDING_SAVE := SaveRequest(0, 1, BLANK.(status := Completed), [], false, Some(2))

  lemma NothingToRegister(t: Table, a: AnalysisId)
    ensures Registrable(t, a, [])
  {}

  const UPLOADED_ROW := Analysis(0, 0, Pickleball, Live, Processing, BLANK, None, 1, 0)

  /** The state after one upload into an empty database. */
  ghost predicate Uploaded(db: Db) {
    Reachable(db) && db.artifacts == [] && db.videos == [Video(0, Awaited, Some("x"), None)]
    && db.analyses == map[1 := UPLOADED_ROW] && db.runs == [Run(1, 1, Processing, None, 1)]
    && db.records.Keys == {FIRST_UPLOAD.Key()}
  }

  lemma EmptyIsReachable()
    ensures Reachable(EMPTY)
  {
    assert EMPTY == RunAll(EMPTY, []);
  }

  lemma UploadReachesUploaded()
    ensures Uploaded(Exec(EMPTY, Reserve(FIRST_UPLOAD, 0)).db)
  {
    EmptyIsReachable();
    NextReachable(EMPTY, Reserve(FIRST_UPLOAD, 0));
    EmptyInv();
    hide Inv, Reachable, ReserveTx;
    NewRecordingIsAdmitted(EMPTY, FIRST_UPLOAD, 0);
    assert Exec(EMPTY, Reserve(FIRST_UPLOAD, 0)) == ReserveTx(EMPTY, FIRST_UPLOAD, 0);
  }

  lemma UploadedIsDeletable(db: Db)
    requires Uploaded(db)
    ensures Reachable(db) && |db.runs| == 1 && IsLive(db, db.runs[0].analysis)
    ensures DeletesActive(db, DeleteMatch(0, 1, false), 0)
  {
    hide Reachable;
  }

  /** A reachable state in which the log rebuilds a run, and an accepted deletion after which it does not. */
  lemma DeletionsDoSkipTheLog(first: Db)
    requires first == Exec(EMPTY, Reserve(FIRST_UPLOAD, 0)).db
    ensures Reachable(first) && |first.runs| == 1 && 0 < |Exec(first, DeleteMatch(0, 1, false)).db.runs|
    ensures !LogShort(first, 0) && LogShort(Exec(first, DeleteMatch(0, 1, false)).db, 0)
  {
    hide *;
    UploadReachesUploaded();
    UploadedIsDeletable(first);
    ShortLogsBelongToDeletedMatches(first, 0);
    DeletionSkipsTheLog(first, DeleteMatch(0, 1, false), 0);
  }

  /** The state once the uploaded match is complete. */
  ghost predicate Finished(db: Db) {
    Reachable(db) && db.artifacts == [] && db.videos == [Video(0, Awaited, Some("x"), None)]
    && db.analyses == map[1 := UPLOADED_ROW.(state := Completed, promoted := Some(0), version := 2)]
    && db.runs == [Run(1, 1, Completed, None, 2)] && db.records.Keys == {FIRST_UPLOAD.Key()}
  }

  lemma CompletionReachesFinished(db: Db)
    requires Uploaded(db)
    ensures Finished(Exec(db, Transition(0, 0, 1, Completed)).db)
  {
    NextReachable(db, Transition(0, 0, 1, Completed));
    hide Reachable;
    assert TransitionAllowed(Processing, Completed);
  }

  /** Upload a recording, complete its run, queue another: the state in which a save still finds a
      queued run. */
  ghost predicate QueuedAgain(db: Db) {
    Reachable(db) && db.artifacts == [] && db.videos == [Video(0, Awaited, Some("x"), None)]
    && db.analyses == map[1 := UPLOADED_ROW.(state := Completed, promoted := Some(0), version := 2)]
    && |db.runs| == 2 && db.runs[1].analysis == 1 && db.runs[1].state == Queued
  }

  lemma RerunQueues(db: Db)
    requires Finished(db)
    ensures QueuedAgain(Exec(db, StartRun(RERUN)).db)
  {
    NextReachable(db, StartRun(RERUN));
    hide Reachable, Newest;
    assert RERUN.Key() !in db.records;
    assert !HasActive(db.runs, 1);
  }

  lemma EndingIsAccepted(db: Db)
    requires QueuedAgain(db)
    ensures EndsQueued(db, Persist(ENDING_SAVE, 0), 1)
  {
    NothingToRegister([], 1);
    hide Registrable, Reachable;
  }

  /** A reachable state in which a save takes a run out of the transition table. */
  lemma SavesDoLeaveTheTable(first: Db, second: Db, third: Db)
    requires first == Exec(EMPTY, Reserve(FIRST_UPLOAD, 0)).db
             && second == Exec(first, Transition(0, 0, 1, Completed)).db
    requires third == Exec(second, StartRun(RERUN)).db
    ensures Reachable(third) && |third.runs| == 2 && LeavesTheTable(third, Persist(ENDING_SAVE, 0), 1)
  {
    hide *;
    UploadReachesUploaded();
    CompletionReachesFinished(first);
    RerunQueues(second);
    EndingIsAccepted(third);
    assert Reachable(third) && |third.runs| == 2 by { QueuedHasTwo(third); }
    LeavesTheTableExactlyByEndingQueued(third, Persist(ENDING_SAVE, 0), 1);
  }

  lemma QueuedHasTwo(db: Db)
    requires QueuedAgain(db)
    ensures Reachable(db) && |db.runs| == 2
  {}

  // ---------------------------------------------------------------- two readings of one prefix

  /** Keys like `active-play/...`: the database's reading of `active_play/` matches them, the filter's
      does not. */
  predicate Misread(key: string) {
    |key| >= 12 && key[..6] == "active" && key[6] != '_' && key[7..12] == "play/"
  }

  lemma LikeAnalytics(key: string)
    ensures LikePrefix(key, "analytics/") <==> "analytics/" <= key
  {
    var p := "analytics/";
    assert forall i :: 0 <= i < |p| ==> p[i] != '_';
    if LikePrefix(key, p) {
      assert forall i :: 0 <= i < |p| ==> key[i] == p[i];
      assert key[..|p|] == p;
    }
  }

  lemma LikeActivePlay(key: string)
    ensures LikePrefix(key, "active_play/") <==> |key| >= 12 && key[..6] == "active" && key[7..12] == "play/"
    ensures "active_play/" <= key <==> |key| >= 12 && key[..6] == "active" && key[6] == '_' && key[7..12] == "play/"
  {
    var p := "active_play/";
    assert p[..6] == "active" && p[6] == '_' && p[7..12] == "play/";
    assert p == p[..6] + [p[6]] + p[7..12];
    if |key| >= 12 {
      assert key[..12] == key[..6] + [key[6]] + key[7..12];
      if key[..6] == "active" && key[7..12] == "play/" {
        assert forall i :: 0 <= i < 6 ==> key[i] == key[..6][i] && p[i] == p[..6][i];
        assert forall i :: 7 <= i < 12 ==> key[i] == key[7..12][i - 7] && p[i] == p[7..12][i - 7];
      }
      if LikePrefix(key, p) {
        assert forall i :: 0 <= i < 6 ==> p[..6][i] == p[i] && p[..6][i] != '_';
        assert key[..6] == p[..6];
        assert forall i :: 0 <= i < 5 ==> p[7..12][i] == p[7 + i] && p[7..12][i] != '_';
        assert key[7..12] == p[7..12];
      }
      if p <= key { assert key[..12] == p; }
    }
  }

  lemma TwoPrefixes(key: string)
    ensures Like(key, EVIDENCE_PREFIXES) <==> LikePrefix(key, "analytics/") || LikePrefix(key, "active_play/")
    ensures Under(key, EVIDENCE_PREFIXES) <==> "analytics/" <= key || "active_play/" <= key
  {
    hide LikePrefix;
    var p0 := EVIDENCE_PREFIXES[0];
    var p1 := EVIDENCE_PREFIXES[1];
    assert p0 in EVIDENCE_PREFIXES && p1 in EVIDENCE_PREFIXES && p0 == "analytics/" && p1 == "active_play/";
    assert forall p :: p in EVIDENCE_PREFIXES ==> p == p0 || p == p1;
    assert Under(key, EVIDENCE_PREFIXES) <==> p0 <= key || p1 <= key;
  }

  /** The two prefix tests of one save differ on exactly these keys. */
  lemma PrefixTestsDifferExactlyThere(key: string)
    ensures Like(key, EVIDENCE_PREFIXES) && !Under(key, EVIDENCE_PREFIXES) <==> Misread(key)
    ensures Under(key, EVIDENCE_PREFIXES) ==> Like(key, EVIDENCE_PREFIXES)
  {
    hide LikePrefix, Like, Under;
    TwoPrefixes(key);
    LikeAnalytics(key);
    LikeActivePlay(key);
    NotBoth(key);
  }

  lemma NotBoth(key: string)
    ensures "analytics/" <= key ==> !Misread(key)
  {
    if "analytics/" <= key {
      assert key[..6][1] == key[1] == 'n';
      assert "active"[1] == 'c';
    }
  }

  lemma {:induction false} FilterKeepsOthers(inputs: seq<ArtifactInput>, prefixes: seq<string>, key: string)
    requires !Under(key, prefixes)
    ensures LastInput(NotUnder(inputs, prefixes), key) == LastInput(inputs, key)
  {
    if inputs != [] {
      var init := NotUnder(inputs[..|inputs| - 1], prefixes);
      var last := inputs[|inputs| - 1];
      FilterKeepsOthers(inputs[..|inputs| - 1], prefixes, key);
      if !Under(last.Key(), prefixes) { assert (init + [last])[..|init|] == init; } else { assert init + [] == init; }
    }
  }

  /** What an accepted save that withdraws evidence leaves under a key: nothing where both tests match;
      where only the database's does, the last input of the save itself, so that what was shown before
      survives only if the save happens to carry it; elsewhere evidence plays no part. */
  lemma EvidenceWithdrawalShows(db: Db, req: SaveRequest, now: Time, key: string)
    requires Reachable(db) && req.analysis in db.analyses && SaveAccepted(db, req)
    requires EvidenceWithdrawn(db.analyses[req.analysis].payload, req.payload)
    ensures var after := View(PersistTx(db, req, now).db.artifacts, req.analysis, key);
            var own := LastInput(req.inputs, key);
            after == if Under(key, EVIDENCE_PREFIXES) then None
                     else if Misread(key) || own.Some? then own
                     else if CourtCorrected(db.analyses[req.analysis].payload, req.payload)
                       && Like(key, COURT_PREFIXES) then None
                     else View(db.artifacts, req.analysis, key)
  {
    ReachableInv(db);
    SaveShowsExactly(db, req, now, req.analysis, key);
    PrefixTestsDifferExactlyThere(key);
    hide Inv, Reachable, SaveAccepted, PersistTx, View, Like, Misread;
    if Under(key, EVIDENCE_PREFIXES) {
      hide NotUnder, LastInput;
    } else {
      FilterKeepsOthers(req.inputs, EVIDENCE_PREFIXES, key);
      hide NotUnder, LastInput, Under;
    }
  }

  /** What an accepted save with a corrected court leaves under a key that the court withdraws: the last
      input of the save itself, if the filter of changed evidence keeps it. So the withdrawal lasts
      exactly when the save brings no input of its own under that key. */
  lemma CourtWithdrawalShows(db: Db, req: SaveRequest, now: Time, key: string)
    requires Reachable(db) && req.analysis in db.analyses && SaveAccepted(db, req) && Like(key, COURT_PREFIXES)
    requires CourtCorrected(db.analyses[req.analysis].payload, req.payload)
    ensures var after := View(PersistTx(db, req, now).db.artifacts, req.analysis, key);
            var own := LastInput(KeptInputs(req.inputs, db.analyses[req.analysis].payload, req.payload), key);
            after == own && (after.Some? <==> own.Some?)
  {
    SaveShowsExactly(db, req, now, req.analysis, key);
    hide Reachable, SaveAccepted, PersistTx, View, Like, LastInput, KeptInputs, CourtCorrected;
  }

  /** A tracking file survives the correction of the court exactly if the save carries one under its key:
      the filter never drops it, whether or not evidence changed as well. */
  lemma CorrectedCourtsKeepTheirOwnTracking(db: Db, req: SaveRequest, now: Time, key: string)
    requires Reachable(db) && req.analysis in db.analyses && SaveAccepted(db, req) && "tracking/" <= key
    requires CourtCorrected(db.analyses[req.analysis].payload, req.payload)
    ensures View(PersistTx(db, req, now).db.artifacts, req.analysis, key) == LastInput(req.inputs, key)
    ensures View(PersistTx(db, req, now).db.artifacts, req.analysis, key).Some?
            <==> exists i :: 0 <= i < |req.inputs| && req.inputs[i].Key() == key
  {
    TrackingIsCourts(key);
    LastInputOf(req.inputs, key);
    FilterKeepsOthers(req.inputs, EVIDENCE_PREFIXES, key);
    hide Reachable, SaveAccepted, PersistTx, View, Like, LastInput, Under, NotUnder, CourtCorrected;
    CourtWithdrawalShows(db, req, now, key);
  }

  lemma TrackingIsCourts(key: string)
    requires "tracking/" <= key
    ensures Like(key, COURT_PREFIXES) && !Under(key, EVIDENCE_PREFIXES)
  {
    assert COURT_PREFIXES[0] == "tracking/";
    assert LikePrefix(key, "tracking/");
    TwoPrefixes(key);
    assert key[0] == 't';
    assert "analytics/"[0] == 'a' && "active_play/"[0] == 'a';
    hide LikePrefix, Under;
  }

  const TRACK := ArtifactInput("object", "s3", "x", 1, "tracking", "application/json", Some("tracking/t.json"))
  const COURT_SAVE := SaveRequest(0, 1, BLANK.(activeCalibration := Some("c")), [TRACK], false, Some(1))

  lemma CourtSaveIsAccepted(db: Db)
    requires Uploaded(db)
    ensures Reachable(db) && 1 in db.analyses && SaveAccepted(db, COURT_SAVE)
    ensures CourtCorrected(db.analyses[1].payload, COURT_SAVE.payload)
  {
    OneInputRegisters(1, None, TRACK);
    assert Withdraw(db.artifacts, 1, COURT_PREFIXES) == db.artifacts;
    hide Reachable;
  }

  /** A reachable state in which a save corrects the court and its own tracking file is shown after it. */
  lemma CorrectedCourtsDoShowTracking(first: Db)
    requires first == Exec(EMPTY, Reserve(FIRST_UPLOAD, 0)).db
    ensures Reachable(first) && 1 in first.analyses && SaveAccepted(first, COURT_SAVE)
    ensures CourtCorrected(first.analyses[1].payload, COURT_SAVE.payload) && "tracking/" <= TRACK.Key()
    ensures View(PersistTx(first, COURT_SAVE, 0).db.artifacts, 1, TRACK.Key()) == Some(TRACK.Bytes())
  {
    UploadReachesUploaded();
    assert TRACK.Key() == "tracking/t.json" && TRACK.Key()[..9] == "tracking/";
    assert LastInput([TRACK], TRACK.Key()) == Some(TRACK.Bytes());
    hide *;
    CourtSaveIsAccepted(first);
    CorrectedCourtsKeepTheirOwnTracking(first, COURT_SAVE, 0, TRACK.Key());
  }

  const CLIP := ArtifactInput("object", "s3", "x", 1, "clip", "application/json", Some("active-play/clips.json"))
  const CLIP_SAVE := SaveRequest(0, 1, BLANK, [CLIP], false, Some(1))
  const EVIDENCE_SAVE := SaveRequest(0, 1, BLANK.(evidence := Some("e")), [], false, Some(2))

  lemma ClipIsMisread()
    ensures Misread(CLIP.Key())
  {
    var key := CLIP.Key();
    assert key == "active-play/clips.json";
    assert key[..6] == "active" && key[6] == '-' && key[7..12] == "play/";
  }

  lemma KeepsOne(input: ArtifactInput)
    requires !Under(input.Key(), EVIDENCE_PREFIXES)
    ensures NotUnder([input], EVIDENCE_PREFIXES) == [input]
  {
    var none: seq<ArtifactInput> := [];
    assert [input][..0] == none;
    assert none + [input] == [input];
  }

  /** The state once the clip has been saved: readers see it. */
  ghost predicate ClipSaved(db: Db) {
    Reachable(db) && |db.videos| == 1 && db.videos[0].state == Awaited
    && 1 in db.analyses && db.analyses[1] == UPLOADED_ROW.(version := 2)
    && View(db.artifacts, 1, CLIP.Key()) == Some(CLIP.Bytes())
  }

  lemma ClipIsAccepted(db: Db)
    requires Uploaded(db)
    ensures SaveAccepted(db, CLIP_SAVE)
  {
    OneInputRegisters(1, None, CLIP);
    hide Reachable;
  }

  lemma ClipShows(db: Db)
    requires Uploaded(db) && SaveAccepted(db, CLIP_SAVE)
    ensures View(PersistTx(db, CLIP_SAVE, 0).db.artifacts, 1, CLIP.Key()) == Some(CLIP.Bytes())
  {
    assert Reachable(db) && 1 in db.analyses && db.analyses[1].payload == BLANK;
    assert Inv(db) by { ReachableInv(db); }
    hide *;
    SaveShowsExactly(db, CLIP_SAVE, 0, 1, CLIP.Key());
    OneInputShows(db, CLIP_SAVE, CLIP);
  }

  lemma OneInputShows(db: Db, req: SaveRequest, input: ArtifactInput)
    requires req.analysis in db.analyses && req.inputs == [input]
    requires !EvidenceWithdrawn(db.analyses[req.analysis].payload, req.payload)
    ensures ShownAfterSave(db, req, req.analysis, input.Key()) == Some(input.Bytes())
  {}

  lemma ClipTables(db: Db)
    requires Uploaded(db) && SaveAccepted(db, CLIP_SAVE)
    ensures var after := PersistTx(db, CLIP_SAVE, 0).db;
            after.videos == db.videos && after.analyses == db.analyses[1 := UPLOADED_ROW.(version := 2)]
  {
    assert Reachable(db) && db.analyses == map[1 := UPLOADED_ROW];
    assert Inv(db) by { ReachableInv(db); }
    InvLinks(db);
    hide *;
    SavedExactlyWhenAccepted(db, CLIP_SAVE, 0);
    SaveStages(db, CLIP_SAVE, 0);
    LoadedAsIs(db, CLIP_SAVE, 0);
    SaveRowEffect(db, CLIP_SAVE);
    SaveTablesEffect(db, CLIP_SAVE);
    NoSourceNoVideo(db, 0, BLANK, KeptInputs(CLIP_SAVE.inputs, BLANK, BLANK));
    assert SavedRow(UPLOADED_ROW, BLANK, None) == UPLOADED_ROW.(version := 2) by { RowAfterBlank(); }
  }

  lemma NoSourceNoVideo(db: Db, v: VideoId, payload: Payload, inputs: seq<ArtifactInput>)
    requires payload.sourceVideo.None?
    ensures SaveVideo(db, v, payload, inputs) == db
  {}

  lemma RowAfterBlank()
    ensures SavedRow(UPLOADED_ROW, BLANK, None) == UPLOADED_ROW.(version := 2)
  {}

  lemma ClipReachesSaved(db: Db)
    requires Uploaded(db)
    ensures ClipSaved(Exec(db, Persist(CLIP_SAVE, 0)).db)
  {
    ClipIsAccepted(db);
    ClipShows(db);
    ClipTables(db);
    NextReachable(db, Persist(CLIP_SAVE, 0));
    assert Exec(db, Persist(CLIP_SAVE, 0)) == PersistTx(db, CLIP_SAVE, 0) by { hide PersistTx; }
    hide PersistTx, Reachable, View, SaveAccepted, Exec;
  }

  lemma EvidenceIsAccepted(db: Db)
    requires ClipSaved(db)
    ensures SaveAccepted(db, EVIDENCE_SAVE)
  {
    var t := WithdrawDependents(db.artifacts, 1, BLANK, EVIDENCE_SAVE.payload);
    NothingToRegister(t, 1);
    assert KeptInputs(EVIDENCE_SAVE.inputs, BLANK, EVIDENCE_SAVE.payload) == [];
    hide Registrable, WithdrawDependents, Reachable, View;
  }

  /** In that state a save of new evidence that carries no input makes the clip vanish, although the
      filter of the same save would have kept the clip. */
  lemma EvidenceHidesTheClip(db: Db)
    requires ClipSaved(db)
    ensures SaveAccepted(db, EVIDENCE_SAVE) && KeptInputs([CLIP], BLANK, EVIDENCE_SAVE.payload) == [CLIP]
    ensures View(PersistTx(db, EVIDENCE_SAVE, 0).db.artifacts, 1, CLIP.Key()) == None
  {
    EvidenceIsAccepted(db);
    ClipIsMisread();
    PrefixTestsDifferExactlyThere(CLIP.Key());
    KeepsOne(CLIP);
    assert LastInput(EVIDENCE_SAVE.inputs, CLIP.Key()) == None;
    assert db.analyses[1].payload == BLANK && EvidenceWithdrawn(BLANK, EVIDENCE_SAVE.payload);
    hide *;
    assert KeptInputs([CLIP], BLANK, EVIDENCE_SAVE.payload) == [CLIP] by {
      KeptWhenWithdrawn([CLIP], BLANK, EVIDENCE_SAVE.payload);
    }
    EvidenceWithdrawalShows(db, EVIDENCE_SAVE, 0, CLIP.Key());
  }

  lemma KeptWhenWithdrawn(inputs: seq<ArtifactInput>, before: Payload, after: Payload)
    requires EvidenceWithdrawn(before, after)
    ensures KeptInputs(inputs, before, after) == NotUnder(inputs, EVIDENCE_PREFIXES)
  {}

  lemma ClipSavedShows(db: Db)
    requires ClipSaved(db)
    ensures Reachable(db) && View(db.artifacts, 1, CLIP.Key()) == Some(CLIP.Bytes())
  {}

  /** A reachable run in which a key of that kind is shown, and then vanishes. */
  lemma MisreadKeysDoVanish(first: Db, second: Db)
    requires first == Exec(EMPTY, Reserve(FIRST_UPLOAD, 0)).db && second == Exec(first, Persist(CLIP_SAVE, 0)).db
    ensures Reachable(second) && SaveAccepted(second, EVIDENCE_SAVE)
            && KeptInputs([CLIP], BLANK, EVIDENCE_SAVE.payload) == [CLIP]
    ensures View(second.artifacts, 1, CLIP.Key()) == Some(CLIP.Bytes())
    ensures View(PersistTx(second, EVIDENCE_SAVE, 0).db.artifacts, 1, CLIP.Key()) == None
  {
    hide *;
    UploadReachesUploaded();
    ClipReachesSaved(first);
    ClipSavedShows(second);
    EvidenceHidesTheClip(second);
  }
}
