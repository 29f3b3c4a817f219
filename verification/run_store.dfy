/** The tables behind analyses, runs, the event log and idempotency records, and what each
    transaction of the persistence service does to them. */
module RunStore {
  import opened Common
  import opened ArtifactRegistry

  type OwnerId = nat
  type RunId = nat
  type VideoId = nat
  type Time = nat

  datatype State = Pending | Queued | Processing | Completed | Failed | Cancelled | Stale
  datatype Lifecycle = Live | DeletionPending
  datatype Sport = Pickleball | Padel
  datatype VideoState = Awaited | Available | Deleting

  /** The parts of a job payload that decide anything. */
  datatype Payload = Payload(
    status: State, sport: Sport, activeCalibration: Option<string>, calibrationVerified: bool,
    calibrationCompleted: bool, trackingCompleted: bool, evidence: Option<string>, analyticsCompleted: bool,
    inspectionCompleted: bool, sourceVideo: Option<string>)

  datatype Video = Video(owner: OwnerId, state: VideoState, checksum: Option<string>, storageKey: Option<string>)
  {
    /** An empty storage key counts as missing. */
    predicate Stored() { storageKey.Some? && storageKey.value != "" }
  }


  datatype Analysis = Analysis(
    owner: OwnerId, video: VideoId, sport: Sport, lifecycle: Lifecycle, state: State, payload: Payload,
    promoted: Option<RunId>, version: nat, createdAt: Time)

  datatype Run = Run(analysis: AnalysisId, attempt: nat, state: State, previous: Option<RunId>, version: nat)

  datatype Subject = OnAnalysis(analysis: AnalysisId) | OnRun(run: RunId)
  datatype Event = Event(subject: Subject, previous: Option<State>, state: State, version: nat)

  datatype Scope = UploadScope | RunStartScope
  datatype RecordKey = RecordKey(owner: OwnerId, scope: Scope, key: string)
  datatype Resource = OfAnalysis(analysis: AnalysisId) | OfDuplicate(analysis: AnalysisId) | OfRun(run: RunId)
  datatype Record = Record(fingerprint: string, resource: Option<Resource>)

  datatype Db = Db(
    analyses: map<AnalysisId, Analysis>, videos: seq<Video>, runs: seq<Run>, events: seq<Event>,
    records: map<RecordKey, Record>, artifacts: Table)

  const EMPTY := Db(map[], [], [], [], map[], [])

  datatype Error =
    | NotFound
    | OwnershipMismatch
    | IdempotencyConflict
    | OperationInProgress
    | InvalidTransition
    | ConcurrentChange
    | SourceMediaUnavailable
    | SharedMedia
    | MatchBusy
    | InvalidValue
    | IntegrityViolation

  datatype Reply =
    | Reserved(analysis: AnalysisId, created: bool, duplicate: Option<VideoId>)
    | RunStarted(run: RunId, created: bool)
    | Transitioned(run: RunId, state: State, version: nat)
    | Saved(version: nat)
    | Accepted
    | Raised(error: Error)

  datatype Outcome = Outcome(db: Db, reply: Reply)

  predicate Active(s: State) { s == Queued || s == Processing }
  predicate AnalysisState(s: State) { s != Queued && s != Stale }

  // ---------------------------------------------------------------- queries

  /** The run of an analysis with the greatest attempt number. */
  function Newest(runs: seq<Run>, a: AnalysisId): (r: Option<RunId>)
    ensures r.None? <==> forall i :: 0 <= i < |runs| ==> runs[i].analysis != a
    ensures r.Some? ==> r.value < |runs| && runs[r.value].analysis == a
    ensures r.Some? ==> forall i ::
            0 <= i < |runs| && runs[i].analysis == a ==> runs[i].attempt <= runs[r.value].attempt
  {
    if runs == [] then None
    else
      var last := |runs| - 1;
      var rest := Newest(runs[..last], a);
      if runs[last].analysis == a && (rest.None? || runs[rest.value].attempt < runs[last].attempt) then Some(last)
      else rest
  }

  predicate RanksBelow(p: Run, q: Run) {
    (!Active(p.state) && Active(q.state)) || (Active(p.state) == Active(q.state) && p.attempt < q.attempt)
  }

  /** Active runs first, then the greatest attempt number. */
  function ActiveOrLatest(runs: seq<Run>, a: AnalysisId): (r: Option<RunId>)
    ensures r.None? <==> forall i :: 0 <= i < |runs| ==> runs[i].analysis != a
    ensures r.Some? ==> r.value < |runs| && runs[r.value].analysis == a
    ensures r.Some? ==> forall i :: 0 <= i < |runs| && runs[i].analysis == a ==> !RanksBelow(runs[r.value], runs[i])
  {
    if runs == [] then None
    else
      var last := |runs| - 1;
      var rest := ActiveOrLatest(runs[..last], a);
      if runs[last].analysis == a && (rest.None? || RanksBelow(runs[rest.value], runs[last])) then Some(last)
      else rest
  }

  predicate HasActive(runs: seq<Run>, a: AnalysisId) {
    exists i :: 0 <= i < |runs| && runs[i].analysis == a && Active(runs[i].state)
  }

  function ActiveRun(runs: seq<Run>, a: AnalysisId): (r: Option<RunId>)
    ensures r.Some? <==> HasActive(runs, a)
    ensures r.Some? ==> r.value < |runs| && runs[r.value].analysis == a && Active(runs[r.value].state)
  {
    if runs == [] then None
    else
      var last := |runs| - 1;
      if runs[last].analysis == a && Active(runs[last].state) then Some(last) else ActiveRun(runs[..last], a)
  }

  /** `_owned_analysis`: the error it raises, if any. */
  function Denied(db: Db, a: AnalysisId, owner: OwnerId): Option<Error> {
    if a !in db.analyses then Some(NotFound)
    else if db.analyses[a].owner != owner then Some(OwnershipMismatch)
    else if db.analyses[a].lifecycle != Live then Some(NotFound)
    else None
  }

  /** The join of analysis and video that the duplicate query ranges over. */
  predicate HasSource(db: Db, a: AnalysisId, owner: OwnerId, checksum: string, sport: Sport) {
    a in db.analyses
    && var r := db.analyses[a];
       r.owner == owner && r.sport == sport && r.lifecycle == Live
       && r.video < |db.videos| && db.videos[r.video].owner == owner && db.videos[r.video].checksum == Some(checksum)
  }

  function SourcesOf(db: Db, owner: OwnerId, checksum: string, sport: Sport): set<AnalysisId> {
    set a | a in db.analyses && HasSource(db, a, owner, checksum, sport)
  }

  /** Ascending by creation time, then id. */
  predicate CreatedBefore(db: Db, a: AnalysisId, b: AnalysisId)
    requires a in db.analyses && b in db.analyses
  {
    db.analyses[a].createdAt < db.analyses[b].createdAt
    || (db.analyses[a].createdAt == db.analyses[b].createdAt && a <= b)
  }

  predicate IsLatest(db: Db, s: set<AnalysisId>, a: AnalysisId)
    requires s <= db.analyses.Keys
  {
    a in s && forall b :: b in s ==> CreatedBefore(db, b, a)
  }

  lemma {:induction false} LatestExists(db: Db, s: set<AnalysisId>)
    requires s != {} && s <= db.analyses.Keys
    ensures exists a :: IsLatest(db, s, a)
  {
    var x :| x in s;
    var rest := s - {x};
    var best := x;
    if rest != {} {
      LatestExists(db, rest);
      var y :| IsLatest(db, rest, y);
      best := if CreatedBefore(db, x, y) then y else x;
      assert forall b :: b in rest ==> CreatedBefore(db, b, y);
    }
    forall b | b in s ensures CreatedBefore(db, b, best) {
      if b != x { assert b in rest; }
    }
    assert IsLatest(db, s, best);
  }

  function LatestOf(db: Db, s: set<AnalysisId>): (a: AnalysisId)
    requires s != {} && s <= db.analyses.Keys
    ensures IsLatest(db, s, a)
  {
    LatestExists(db, s);
    var a :| IsLatest(db, s, a);
    a
  }

  function FindDuplicate(db: Db, owner: OwnerId, checksum: string, sport: Sport): (r: Option<AnalysisId>)
    ensures r.None? <==> SourcesOf(db, owner, checksum, sport) == {}
    ensures r.Some? ==> HasSource(db, r.value, owner, checksum, sport)
  {
    var found := SourcesOf(db, owner, checksum, sport);
    if found == {} then None else Some(LatestOf(db, found))
  }

  // ---------------------------------------------------------------- single writes

  function Log(db: Db, subject: Subject, previous: Option<State>, state: State, version: nat): Db {
    db.(events := db.events + [Event(subject, previous, state, version)])
  }

  /** `_insert_run` and its `run_started` event; `None` when the one-active-run index aborts. */
  function InsertRun(db: Db, a: AnalysisId, state: State): Option<(Db, RunId)> {
    if HasActive(db.runs, a) then None
    else
      var latest := Newest(db.runs, a);
      var attempt := if latest.Some? then db.runs[latest.value].attempt + 1 else 1;
      var id := |db.runs|;
      Some((Log(db.(runs := db.runs + [Run(a, attempt, state, latest, 1)]), OnRun(id), None, state, 1), id))
  }

  /** A new state for a run, one version up, with its event. */
  function ChangeRun(db: Db, r: RunId, state: State): Db
    requires r < |db.runs|
  {
    var run := db.runs[r];
    Log(db.(runs := db.runs[r := run.(state := state, version := run.version + 1)]),
        OnRun(r), Some(run.state), state, run.version + 1)
  }

  /** A new state and payload for an analysis, one version up; the event is logged if asked for. */
  function ChangeAnalysis(db: Db, a: AnalysisId, state: State, payload: Payload, logged: bool): Db
    requires a in db.analyses
  {
    var row := db.analyses[a];
    var db' := db.(analyses := db.analyses[a := row.(state := state, payload := payload, version := row.version + 1)]);
    if logged then Log(db', OnAnalysis(a), Some(row.state), state, row.version + 1) else db'
  }

  function Promote(db: Db, a: AnalysisId, r: RunId): Db
    requires a in db.analyses
  {
    db.(analyses := db.analyses[a := db.analyses[a].(promoted := Some(r))])
  }

  function CreateAnalysis(db: Db, a: AnalysisId, owner: OwnerId, sport: Sport, state: State, payload: Payload,
                          video: Video, now: Time): Db
  {
    var row := Analysis(owner, |db.videos|, sport, Live, state, payload, None, 1, now);
    Log(db.(videos := db.videos + [video], analyses := db.analyses[a := row]), OnAnalysis(a), None, state, 1)
  }

  function Bind(db: Db, key: RecordKey, fingerprint: string, resource: Resource): Db {
    db.(records := db.records[key := Record(fingerprint, Some(resource))])
  }

  // ---------------------------------------------------------------- reserve_analysis

  datatype ReserveRequest = ReserveRequest(
    owner: OwnerId, analysis: AnalysisId, key: string, fingerprint: string, checksum: string, payload: Payload,
    allowDuplicate: bool, sport: Sport)
  {
    function Key(): RecordKey { RecordKey(owner, UploadScope, key) }
  }

  /** `_reservation_from_record`, after the fingerprint test both callers make. */
  function ReservationFromRecord(db: Db, owner: OwnerId, record: Record, fingerprint: string): Reply {
    if record.fingerprint != fingerprint then Raised(IdempotencyConflict)
    else match record.resource
      case None => Raised(OperationInProgress)
      case Some(OfRun(_)) => Raised(NotFound)
      case Some(OfAnalysis(a)) =>
        var denied := Denied(db, a, owner);
        if denied.Some? then Raised(denied.value) else Reserved(a, false, None)
      case Some(OfDuplicate(a)) =>
        var denied := Denied(db, a, owner);
        if denied.Some? then Raised(denied.value)
        else
          var video := db.analyses[a].video;
          if video < |db.videos| && db.videos[video].owner == owner then Reserved(a, false, Some(video))
          else Raised(NotFound)
  }

  function ReserveTx(db: Db, req: ReserveRequest, now: Time): Outcome {
    if req.Key() in db.records then
      Outcome(db, ReservationFromRecord(db, req.owner, db.records[req.Key()], req.fingerprint))
    else
      var duplicate := if req.allowDuplicate then None else FindDuplicate(db, req.owner, req.checksum, req.sport);
      if duplicate.Some? then
        Outcome(Bind(db, req.Key(), req.fingerprint, OfDuplicate(duplicate.value)),
                Reserved(duplicate.value, false, Some(db.analyses[duplicate.value].video)))
      else if req.analysis in db.analyses then Outcome(db, Raised(IntegrityViolation))
      else
        var created := CreateAnalysis(db, req.analysis, req.owner, req.sport, Processing, req.payload,
                                      Video(req.owner, Awaited, Some(req.checksum), None), now);
        (match InsertRun(created, req.analysis, Processing)
         case None => Outcome(db, Raised(IntegrityViolation))
         case Some(started) =>
           Outcome(Bind(started.0, req.Key(), req.fingerprint, OfAnalysis(req.analysis)),
                   Reserved(req.analysis, true, None)))
  }

  /** The read that `reserve_analysis` falls back to when a unique index aborted its insert. */
  function ReserveAgain(db: Db, req: ReserveRequest): Reply {
    if req.Key() !in db.records then Raised(IntegrityViolation)
    else ReservationFromRecord(db, req.owner, db.records[req.Key()], req.fingerprint)
  }

  // ---------------------------------------------------------------- start_run

  datatype RunRequest = RunRequest(owner: OwnerId, analysis: AnalysisId, key: string, fingerprint: string, state: State)
  {
    function Key(): RecordKey { RecordKey(owner, RunStartScope, key) }
  }

  function ResolveRunRecord(record: Record, fingerprint: string): Reply {
    if record.fingerprint != fingerprint then Raised(IdempotencyConflict)
    else match record.resource
      case None => Raised(OperationInProgress)
      case Some(OfRun(r)) => RunStarted(r, false)
      case Some(_) => Raised(InvalidValue)
  }

  function StartRunTx(db: Db, req: RunRequest): Outcome {
    var denied := Denied(db, req.analysis, req.owner);
    if !Active(req.state) then Outcome(db, Raised(InvalidValue))
    else if denied.Some? then Outcome(db, Raised(denied.value))
    else if req.Key() in db.records then Outcome(db, ResolveRunRecord(db.records[req.Key()], req.fingerprint))
    else match InsertRun(db, req.analysis, req.state)
      case None => Outcome(db, Raised(IntegrityViolation))
      case Some(started) =>
        var row := db.analyses[req.analysis];
        var db' := if req.state == Processing && row.state != Processing
                   then ChangeAnalysis(started.0, req.analysis, Processing, row.payload, true) else started.0;
        Outcome(Bind(db', req.Key(), req.fingerprint, OfRun(started.1)), RunStarted(started.1, true))
  }

  /** The transaction `start_run` falls back to when a unique index aborted its insert. */
  function StartRunAgainTx(db: Db, req: RunRequest): Outcome {
    if req.Key() in db.records then Outcome(db, ResolveRunRecord(db.records[req.Key()], req.fingerprint))
    else
      var denied := Denied(db, req.analysis, req.owner);
      var active := ActiveRun(db.runs, req.analysis);
      if denied.Some? then Outcome(db, Raised(denied.value))
      else if active.None? then Outcome(db, Raised(IntegrityViolation))
      else Outcome(Bind(db, req.Key(), req.fingerprint, OfRun(active.value)), RunStarted(active.value, false))
  }

  // ---------------------------------------------------------------- transition_run

  predicate TransitionAllowed(from: State, to: State) {
    match from
    case Queued => to == Processing || to == Cancelled
    case Processing => to == Completed || to == Failed || to == Cancelled || to == Stale
    case _ => false
  }

  function TransitionTx(db: Db, owner: OwnerId, r: RunId, expected: nat, to: State): Outcome {
    if !(r < |db.runs| && db.runs[r].analysis in db.analyses && db.analyses[db.runs[r].analysis].owner == owner)
    then Outcome(db, Raised(NotFound))
    else
      var run := db.runs[r];
      if run.state == to then Outcome(db, Transitioned(r, run.state, run.version))
      else if !TransitionAllowed(run.state, to) then Outcome(db, Raised(InvalidTransition))
      else if run.version != expected then Outcome(db, Raised(ConcurrentChange))
      else
        var a := run.analysis;
        var db1 := if to == Stale then db else ChangeAnalysis(db, a, to, db.analyses[a].payload, true);
        var db2 := ChangeRun(db1, r, to);
        var db3 := if to == Completed then Promote(db2, a, r) else db2;
        Outcome(db3, Transitioned(r, to, expected + 1))
  }

  // ---------------------------------------------------------------- persist_job

  datatype SaveRequest = SaveRequest(
    owner: OwnerId, analysis: AnalysisId, payload: Payload, inputs: seq<ArtifactInput>, compatibilityImport: bool,
    expected: Option<nat>)

  const COURT_PREFIXES: seq<string> := ["tracking/", "analytics/", "active_play/"]
  const EVIDENCE_PREFIXES: seq<string> := ["analytics/", "active_play/"]

  /** A corrected court invalidates everything computed from it. */
  predicate CourtCorrected(before: Payload, after: Payload) {
    after.activeCalibration.Some? && after.activeCalibration.value != ""
    && after.activeCalibration != before.activeCalibration
    && !after.calibrationVerified && !after.trackingCompleted
  }

  predicate EvidenceWithdrawn(before: Payload, after: Payload) {
    after.evidence != before.evidence || (before.analyticsCompleted && !after.analyticsCompleted)
  }

  /** Errors raised before a save writes anything to an existing analysis. */
  function SaveDenied(db: Db, req: SaveRequest): Option<Error> {
    if req.analysis !in db.analyses then (if req.compatibilityImport then None else Some(NotFound))
    else
      var denied := Denied(db, req.analysis, req.owner);
      var row := db.analyses[req.analysis];
      if denied.Some? then denied
      else if (req.expected.Some? && row.version != req.expected.value)
              || (req.expected.None? && row.payload.calibrationCompleted) then Some(ConcurrentChange)
      else if row.video < |db.videos| && db.videos[row.video].state == Deleting then Some(SourceMediaUnavailable)
      else if row.sport != req.payload.sport then Some(InvalidValue)
      else None
  }

  /** The analysis a save works on: the one there, or a compatibility import of it. */
  function LoadOrImport(db: Db, req: SaveRequest, now: Time): Option<Db> {
    if req.analysis in db.analyses then Some(db)
    else
      var imported := CreateAnalysis(db, req.analysis, req.owner, req.payload.sport, req.payload.status, req.payload,
                                     Video(req.owner, Available, None, None), now);
      match InsertRun(imported, req.analysis, Processing)
      case None => None
      case Some(started) => Some(started.0)
  }

  function WithdrawDependents(t: Table, a: AnalysisId, before: Payload, after: Payload): Table {
    var t1 := if CourtCorrected(before, after) then Withdraw(t, a, COURT_PREFIXES) else t;
    if EvidenceWithdrawn(before, after) then Withdraw(t1, a, EVIDENCE_PREFIXES) else t1
  }

  function KeptInputs(inputs: seq<ArtifactInput>, before: Payload, after: Payload): seq<ArtifactInput> {
    if EvidenceWithdrawn(before, after) then NotUnder(inputs, EVIDENCE_PREFIXES) else inputs
  }

  /** The run a save acts on: the active or latest one, or a new one when the job goes back to work. */
  function RunForSave(db: Db, a: AnalysisId, status: State): (r: Option<(Db, Option<RunId>)>)
    ensures r.Some? ==> r.value.0.analyses == db.analyses
  {
    var current := ActiveOrLatest(db.runs, a);
    if status == Processing && (current.None? || !Active(db.runs[current.value].state)) then
      match InsertRun(db, a, Processing)
      case None => None
      case Some(started) => Some((started.0, Some(started.1)))
    else Some((db, current))
  }

  /** The source-video input whose checksum a save copies onto the video row. */
  function SourceInput(inputs: seq<ArtifactInput>, sourceVideo: string): (r: Option<ArtifactInput>)
    ensures r.Some? <==> exists i ::
            0 <= i < |inputs| && inputs[i].Key() == sourceVideo && inputs[i].kind == "source_video"
  {
    if inputs == [] then None
    else if inputs[0].Key() == sourceVideo && inputs[0].kind == "source_video" then Some(inputs[0])
    else
      assert forall i :: 0 <= i < |inputs| - 1 ==> inputs[1..][i] == inputs[i + 1];
      SourceInput(inputs[1..], sourceVideo)
  }

  function SaveVideo(db: Db, v: VideoId, payload: Payload, inputs: seq<ArtifactInput>): Db {
    if v >= |db.videos| || payload.sourceVideo.None? then db
    else
      var source := SourceInput(inputs, payload.sourceVideo.value);
      var checksum := if source.Some? then Some(source.value.checksum) else db.videos[v].checksum;
      var key := if source.Some? then source.value.storageKey else payload.sourceVideo.value;
      db.(videos := db.videos[v := db.videos[v].(state := Available, checksum := checksum, storageKey := Some(key))])
  }

  /** A completed or failed job ends the run it was working on, queued ones included. */
  function FinishRun(db: Db, a: AnalysisId, run: Option<RunId>, status: State): Db
    requires a in db.analyses
  {
    if run.Some? && run.value < |db.runs| && (status == Completed || status == Failed)
       && Active(db.runs[run.value].state) then
      var ended := ChangeRun(db, run.value, status);
      if status == Completed then Promote(ended, a, run.value) else ended
    else db
  }

  /** The first half of a save: withdrawals, the run to act on, the analysis row and the video. */
  function SaveRows(db: Db, req: SaveRequest): (r: Option<(Db, Option<RunId>)>)
    requires req.analysis in db.analyses
    ensures r.Some? ==> req.analysis in r.value.0.analyses
  {
    var a := req.analysis;
    var before := db.analyses[a];
    var db1 := db.(artifacts := WithdrawDependents(db.artifacts, a, before.payload, req.payload));
    match RunForSave(db1, a, req.payload.status)
    case None => None
    case Some(work) =>
      var db2 := ChangeAnalysis(work.0, a, req.payload.status, req.payload, before.state != req.payload.status);
      Some((SaveVideo(db2, before.video, req.payload, KeptInputs(req.inputs, before.payload, req.payload)), work.1))
  }

  /** The second half: the run ends if the job did, and the artifacts are registered. */
  function SaveOn(db: Db, req: SaveRequest): Option<Db>
    requires req.analysis in db.analyses
  {
    match SaveRows(db, req)
    case None => None
    case Some(rows) =>
      var ended := FinishRun(rows.0, req.analysis, rows.1, req.payload.status);
      var kept := KeptInputs(req.inputs, db.analyses[req.analysis].payload, req.payload);
      (match RegisterAll(ended.artifacts, req.analysis, rows.1, None, kept)
       case None => None
       case Some(registered) => Some(ended.(artifacts := registered.0)))
  }

  function PersistTx(db: Db, req: SaveRequest, now: Time): Outcome {
    var denied := SaveDenied(db, req);
    if denied.Some? then Outcome(db, Raised(denied.value))
    else if !AnalysisState(req.payload.status) then Outcome(db, Raised(IntegrityViolation))
    else match LoadOrImport(db, req, now)
      case None => Outcome(db, Raised(IntegrityViolation))
      case Some(loaded) =>
        (match SaveOn(loaded, req)
         case None => Outcome(db, Raised(IntegrityViolation))
         case Some(db') => Outcome(db', Saved(db'.analyses[req.analysis].version)))
  }

  // ---------------------------------------------------------------- deletion intents

  predicate SharesVideo(db: Db, a: AnalysisId)
    requires a in db.analyses
  {
    exists b :: b in db.analyses && b != a && db.analyses[b].video == db.analyses[a].video
  }

  /** Active runs of a deleted match are cancelled in place: no event, same version. */
  function CancelActive(runs: seq<Run>, a: AnalysisId): (r: seq<Run>)
    ensures |r| == |runs|
  {
    seq(|runs|, i requires 0 <= i < |runs| =>
      if runs[i].analysis == a && Active(runs[i].state) then runs[i].(state := Cancelled) else runs[i])
  }

  /** The first transaction of `MatchLifecycleService.delete`; `uploading` tells whether an upload
      session of the match is unfinished. */
  function DeleteTx(db: Db, owner: OwnerId, a: AnalysisId, uploading: bool): Outcome {
    if !(a in db.analyses && db.analyses[a].owner == owner) then Outcome(db, Raised(NotFound))
    else
      var row := db.analyses[a];
      if !(row.video < |db.videos| && db.videos[row.video].owner == owner) then Outcome(db, Raised(NotFound))
      else if SharesVideo(db, a) then Outcome(db, Raised(SharedMedia))
      else if uploading then Outcome(db, Raised(MatchBusy))
      else
        Outcome(db.(runs := CancelActive(db.runs, a),
                    analyses := db.analyses[a := row.(lifecycle := DeletionPending, version := row.version + 1)],
                    videos := db.videos[row.video := db.videos[row.video].(state := Deleting)]),
                Accepted)
  }

  /** The intent half of `SourceMediaService.delete`. */
  function RemoveSourceTx(db: Db, owner: OwnerId, a: AnalysisId, uploading: bool): Outcome {
    if Denied(db, a, owner).Some? then Outcome(db, Raised(NotFound))
    else
      var row := db.analyses[a];
      if !(row.video < |db.videos| && db.videos[row.video].owner == owner) then Outcome(db, Raised(NotFound))
      else if db.videos[row.video].state == Awaited then Outcome(db, Raised(SourceMediaUnavailable))
      else if SharesVideo(db, a) then Outcome(db, Raised(SharedMedia))
      else if !((row.state == Completed && row.payload.analyticsCompleted)
                || (row.sport == Padel && row.payload.inspectionCompleted)) || uploading
      then Outcome(db, Raised(MatchBusy))
      else if !db.videos[row.video].Stored() then Outcome(db, Raised(SourceMediaUnavailable))
      else Outcome(db.(videos := db.videos[row.video := db.videos[row.video].(state := Deleting)]), Accepted)
  }

  // ---------------------------------------------------------------- runs of the system

  datatype Call =
    | Reserve(reserve: ReserveRequest, now: Time)
    | StartRun(start: RunRequest)
    | StartRunAgain(start: RunRequest)
    | Transition(owner: OwnerId, run: RunId, expected: nat, to: State)
    | Persist(save: SaveRequest, now: Time)
    | DeleteMatch(owner: OwnerId, analysis: AnalysisId, uploading: bool)
    | RemoveSource(owner: OwnerId, analysis: AnalysisId, uploading: bool)

  function Exec(db: Db, call: Call): Outcome {
    match call
    case Reserve(req, now) => ReserveTx(db, req, now)
    case StartRun(req) => StartRunTx(db, req)
    case StartRunAgain(req) => StartRunAgainTx(db, req)
    case Transition(owner, run, expected, to) => TransitionTx(db, owner, run, expected, to)
    case Persist(req, now) => PersistTx(db, req, now)
    case DeleteMatch(owner, a, uploading) => DeleteTx(db, owner, a, uploading)
    case RemoveSource(owner, a, uploading) => RemoveSourceTx(db, owner, a, uploading)
  }

  /** Any sequence of transactions, in the order in which they commit. */
  function RunAll(db: Db, calls: seq<Call>): Db
    decreases |calls|
  {
    if calls == [] then db else RunAll(Exec(db, calls[0]).db, calls[1..])
  }
}
