/** The persistence service as it runs: tables are mutable state, rows are rewritten field by field,
    and every public method is one database transaction that either commits or rolls back. */
module RunService {
  import opened Common
  import opened ArtifactRegistry
  import opened RunStore
  import RunSteps
  import RunTheorems

  class PersistenceService {
    var analyses: map<AnalysisId, Analysis>
    var videos: seq<Video>
    var runs: seq<Run>
    var events: seq<Event>
    var records: map<RecordKey, Record>
    var artifacts: Table

    constructor ()
      ensures Now() == EMPTY && RunSteps.Reachable(Now())
    {
      analyses, videos, runs, events, records, artifacts := map[], [], [], [], map[], [];
      new;
      assert Now() == RunAll(EMPTY, []);
    }

    function Now(): Db
      reads this
    {
      Db(analyses, videos, runs, events, records, artifacts)
    }

    /** Undoes everything a transaction wrote. */
    method RollBack(before: Db)
      modifies this
      ensures Now() == before
    {
      analyses, videos, runs := before.analyses, before.videos, before.runs;
      events, records, artifacts := before.events, before.records, before.artifacts;
    }

    method AddEvent(subject: Subject, previous: Option<State>, state: State, version: nat)
      modifies this`events
      ensures Now() == Log(old(Now()), subject, previous, state, version)
    {
      events := events + [Event(subject, previous, state, version)];
    }

    /** `_insert_run` followed by its event; refused by the index that allows one active run. */
    method AddRun(a: AnalysisId, state: State) returns (added: Option<RunId>)
      modifies this`runs, this`events
      ensures added.Some? <==> InsertRun(old(Now()), a, state).Some?
      ensures added.Some? ==> InsertRun(old(Now()), a, state) == Some((Now(), added.value))
      ensures added.None? ==> Now() == old(Now())
    {
      var latest := Newest(runs, a);
      if ActiveRun(runs, a).Some? {
        return None;
      }
      var attempt := 1;
      if latest.Some? {
        attempt := runs[latest.value].attempt + 1;
      }
      var id := |runs|;
      runs := runs + [Run(a, attempt, state, latest, 1)];
      AddEvent(OnRun(id), None, state, 1);
      return Some(id);
    }

    /** The transaction of `reserve_analysis`. */
    method ReserveAnalysis(req: ReserveRequest, now: Time) returns (reply: Reply)
      modifies this
      ensures Outcome(Now(), reply) == ReserveTx(old(Now()), req, now)
    {
      if req.Key() in records {
        return ReservationFromRecord(Now(), req.owner, records[req.Key()], req.fingerprint);
      }
      if !req.allowDuplicate {
        var duplicate := FindDuplicate(Now(), req.owner, req.checksum, req.sport);
        if duplicate.Some? {
          records := records[req.Key() := Record(req.fingerprint, Some(OfDuplicate(duplicate.value)))];
          return Reserved(duplicate.value, false, Some(analyses[duplicate.value].video));
        }
      }
      if req.analysis in analyses {
        return Raised(IntegrityViolation);
      }
      var before := Now();
      videos := videos + [Video(req.owner, Awaited, Some(req.checksum), None)];
      analyses := analyses[req.analysis :=
        Analysis(req.owner, |videos| - 1, req.sport, Live, Processing, req.payload, None, 1, now)];
      AddEvent(OnAnalysis(req.analysis), None, Processing, 1);
      var run := AddRun(req.analysis, Processing);
      if run.None? {
        RollBack(before);
        return Raised(IntegrityViolation);
      }
      records := records[req.Key() := Record(req.fingerprint, Some(OfAnalysis(req.analysis)))];
      return Reserved(req.analysis, true, None);
    }

    /** The first transaction of `start_run`. */
    method StartRun(req: RunRequest) returns (reply: Reply)
      modifies this
      ensures Outcome(Now(), reply) == StartRunTx(old(Now()), req)
    {
      if !Active(req.state) {
        return Raised(InvalidValue);
      }
      var denied := Denied(Now(), req.analysis, req.owner);
      if denied.Some? {
        return Raised(denied.value);
      }
      if req.Key() in records {
        return ResolveRunRecord(records[req.Key()], req.fingerprint);
      }
      var run := AddRun(req.analysis, req.state);
      if run.None? {
        return Raised(IntegrityViolation);
      }
      var row := analyses[req.analysis];
      if req.state == Processing && row.state != Processing {
        analyses := analyses[req.analysis := row.(state := Processing, version := row.version + 1)];
        AddEvent(OnAnalysis(req.analysis), Some(row.state), Processing, row.version + 1);
      }
      records := records[req.Key() := Record(req.fingerprint, Some(OfRun(run.value)))];
      return RunStarted(run.value, true);
    }

    /** The transaction `start_run` retries with after a unique index refused the first. */
    method StartRunAgain(req: RunRequest) returns (reply: Reply)
      modifies this`records
      ensures Outcome(Now(), reply) == StartRunAgainTx(old(Now()), req)
    {
      if req.Key() in records {
        return ResolveRunRecord(records[req.Key()], req.fingerprint);
      }
      var denied := Denied(Now(), req.analysis, req.owner);
      if denied.Some? {
        return Raised(denied.value);
      }
      var active := ActiveRun(runs, req.analysis);
      if active.None? {
        return Raised(IntegrityViolation);
      }
      records := records[req.Key() := Record(req.fingerprint, Some(OfRun(active.value)))];
      return RunStarted(active.value, false);
    }

    method SetRunState(r: RunId, state: State)
      requires r < |runs|
      modifies this`runs, this`events
      ensures Now() == ChangeRun(old(Now()), r, state)
    {
      var run := runs[r];
      runs := runs[r := run.(state := state, version := run.version + 1)];
      AddEvent(OnRun(r), Some(run.state), state, run.version + 1);
    }

    /** `transition_run`. */
    method TransitionRun(owner: OwnerId, r: RunId, expected: nat, to: State) returns (reply: Reply)
      modifies this
      ensures Outcome(Now(), reply) == TransitionTx(old(Now()), owner, r, expected, to)
    {
      if !(r < |runs| && runs[r].analysis in analyses && analyses[runs[r].analysis].owner == owner) {
        return Raised(NotFound);
      }
      var run := runs[r];
      if run.state == to {
        return Transitioned(r, run.state, run.version);
      }
      if !TransitionAllowed(run.state, to) {
        return Raised(InvalidTransition);
      }
      if run.version != expected {
        return Raised(ConcurrentChange);
      }
      var a := run.analysis;
      if to != Stale {
        var row := analyses[a];
        analyses := analyses[a := row.(state := to, version := row.version + 1)];
        AddEvent(OnAnalysis(a), Some(row.state), to, row.version + 1);
      }
      SetRunState(r, to);
      if to == Completed {
        analyses := analyses[a := analyses[a].(promoted := Some(r))];
      }
      return Transitioned(r, to, expected + 1);
    }

    /** The part of `persist_job` that finds the analysis, or imports it. */
    method LoadForSave(req: SaveRequest, now: Time) returns (error: Option<Error>)
      modifies this
      ensures SaveDenied(old(Now()), req).Some? ==> error == SaveDenied(old(Now()), req) && Now() == old(Now())
      ensures SaveDenied(old(Now()), req).None? ==>
                (error.Some? <==> LoadOrImport(old(Now()), req, now).None?)
                && (error.None? ==> LoadOrImport(old(Now()), req, now) == Some(Now()))
                && (error.Some? ==> error == Some(IntegrityViolation))
      ensures error.None? ==> req.analysis in analyses
    {
      if req.analysis !in analyses {
        if !req.compatibilityImport {
          return Some(NotFound);
        }
        videos := videos + [Video(req.owner, Available, None, None)];
        analyses := analyses[req.analysis :=
          Analysis(req.owner, |videos| - 1, req.payload.sport, Live, req.payload.status, req.payload, None, 1, now)];
        AddEvent(OnAnalysis(req.analysis), None, req.payload.status, 1);
        var run := AddRun(req.analysis, Processing);
        return if run.None? then Some(IntegrityViolation) else None;
      }
      var denied := Denied(Now(), req.analysis, req.owner);
      if denied.Some? {
        return denied;
      }
      var row := analyses[req.analysis];
      if (req.expected.Some? && row.version != req.expected.value)
         || (req.expected.None? && row.payload.calibrationCompleted) {
        return Some(ConcurrentChange);
      }
      if row.video < |videos| && videos[row.video].state == Deleting {
        return Some(SourceMediaUnavailable);
      }
      if row.sport != req.payload.sport {
        return Some(InvalidValue);
      }
      return None;
    }

    /** Withdrawals of `persist_job`, and the inputs it still registers. */
    method WithdrawForSave(req: SaveRequest) returns (kept: seq<ArtifactInput>)
      requires req.analysis in analyses
      modifies this`artifacts
      ensures kept == KeptInputs(req.inputs, analyses[req.analysis].payload, req.payload)
      ensures artifacts == WithdrawDependents(old(artifacts), req.analysis, analyses[req.analysis].payload, req.payload)
    {
      hide Withdraw, NotUnder;
      var before := analyses[req.analysis].payload;
      kept := req.inputs;
      if CourtCorrected(before, req.payload) {
        artifacts := Withdraw(artifacts, req.analysis, COURT_PREFIXES);
      }
      if EvidenceWithdrawn(before, req.payload) {
        artifacts := Withdraw(artifacts, req.analysis, EVIDENCE_PREFIXES);
        kept := NotUnder(kept, EVIDENCE_PREFIXES);
      }
    }

    /** The run a save acts on; the outer `None` means that an index refused a new one. */
    method PickRun(a: AnalysisId, status: State) returns (run: Option<Option<RunId>>)
      modifies this`runs, this`events
      ensures run.Some? <==> RunForSave(old(Now()), a, status).Some?
      ensures run.Some? ==> RunForSave(old(Now()), a, status) == Some((Now(), run.value))
    {
      hide InsertRun;
      var current := ActiveOrLatest(runs, a);
      if status == Processing && (current.None? || !Active(runs[current.value].state)) {
        current := AddRun(a, Processing);
        if current.None? {
          return None;
        }
      }
      return Some(current);
    }

    /** The video row takes the checksum of the source file, if the save names one. */
    method UpdateVideo(v: VideoId, payload: Payload, inputs: seq<ArtifactInput>)
      modifies this`videos
      ensures Now() == SaveVideo(old(Now()), v, payload, inputs)
    {
      if v < |videos| && payload.sourceVideo.Some? {
        var source := SourceInput(inputs, payload.sourceVideo.value);
        var video := videos[v].(state := Available, storageKey := payload.sourceVideo);
        if source.Some? {
          video := video.(checksum := Some(source.value.checksum), storageKey := Some(source.value.storageKey));
        }
        videos := videos[v := video];
      }
    }

    /** The part of `persist_job` up to the video row; `None` when an index refused the new run. */
    method SaveRunAndRow(req: SaveRequest) returns (kept: seq<ArtifactInput>, run: Option<Option<RunId>>)
      requires req.analysis in analyses
      modifies this
      ensures kept == KeptInputs(req.inputs, old(analyses)[req.analysis].payload, req.payload)
      ensures run.Some? <==> SaveRows(old(Now()), req).Some?
      ensures run.Some? ==> SaveRows(old(Now()), req) == Some((Now(), run.value))
    {
      hide KeptInputs, WithdrawDependents, RunForSave, SaveVideo;
      var a := req.analysis;
      var row := analyses[a];
      kept := WithdrawForSave(req);
      run := PickRun(a, req.payload.status);
      if run.Some? {
        analyses := analyses[a :=
          row.(state := req.payload.status, payload := req.payload, version := row.version + 1)];
        if row.state != req.payload.status {
          AddEvent(OnAnalysis(a), Some(row.state), req.payload.status, row.version + 1);
        }
        UpdateVideo(row.video, req.payload, kept);
      }
    }

    /** `persist_job`. */
    method PersistJob(req: SaveRequest, now: Time) returns (reply: Reply)
      modifies this
      ensures Outcome(Now(), reply) == PersistTx(old(Now()), req, now)
    {
      hide SaveRows, SaveDenied, LoadOrImport, KeptInputs, RegisterAll;
      var before := Now();
      var error := LoadForSave(req, now);
      if error.Some? || !AnalysisState(req.payload.status) {
        RollBack(before);
        return Raised(if SaveDenied(before, req).Some? then SaveDenied(before, req).value else IntegrityViolation);
      }
      var a := req.analysis;
      var kept, run := SaveRunAndRow(req);
      if run.None? {
        RollBack(before);
        return Raised(IntegrityViolation);
      }
      var status := req.payload.status;
      if run.value.Some? && run.value.value < |runs| && (status == Completed || status == Failed)
         && Active(runs[run.value.value].state) {
        SetRunState(run.value.value, status);
        if status == Completed {
          analyses := analyses[a := analyses[a].(promoted := run.value)];
        }
      }
      var registered := RegisterArtifacts(artifacts, a, run.value, None, kept);
      if registered.None? {
        RollBack(before);
        return Raised(IntegrityViolation);
      }
      artifacts := registered.value.0;
      return Saved(analyses[a].version);
    }

    /** The first transaction of deleting a match: loops over its runs and cancels the active ones. */
    method DeleteMatch(owner: OwnerId, a: AnalysisId, uploading: bool) returns (reply: Reply)
      modifies this
      ensures Outcome(Now(), reply) == DeleteTx(old(Now()), owner, a, uploading)
    {
      if !(a in analyses && analyses[a].owner == owner) {
        return Raised(NotFound);
      }
      var row := analyses[a];
      if !(row.video < |videos| && videos[row.video].owner == owner) {
        return Raised(NotFound);
      }
      if SharesVideo(Now(), a) {
        return Raised(SharedMedia);
      }
      if uploading {
        return Raised(MatchBusy);
      }
      for i := 0 to |runs|
        invariant |runs| == |old(runs)| && analyses == old(analyses) && videos == old(videos)
        invariant events == old(events) && records == old(records) && artifacts == old(artifacts)
        invariant forall j ::
                  0 <= j < |runs| ==> runs[j] == if j < i then CancelActive(old(runs), a)[j] else old(runs)[j]
      {
        if runs[i].analysis == a && Active(runs[i].state) {
          runs := runs[i := runs[i].(state := Cancelled)];
        }
      }
      assert runs == CancelActive(old(runs), a);
      analyses := analyses[a := row.(lifecycle := DeletionPending, version := row.version + 1)];
      videos := videos[row.video := videos[row.video].(state := Deleting)];
      return Accepted;
    }

    /** The intent half of removing the source recording. */
    method RemoveSource(owner: OwnerId, a: AnalysisId, uploading: bool) returns (reply: Reply)
      modifies this`videos
      ensures Outcome(Now(), reply) == RemoveSourceTx(old(Now()), owner, a, uploading)
    {
      if Denied(Now(), a, owner).Some? {
        return Raised(NotFound);
      }
      var row := analyses[a];
      if !(row.video < |videos| && videos[row.video].owner == owner) {
        return Raised(NotFound);
      }
      if videos[row.video].state == Awaited {
        return Raised(SourceMediaUnavailable);
      }
      if SharesVideo(Now(), a) {
        return Raised(SharedMedia);
      }
      var analysed := row.state == Completed && row.payload.analyticsCompleted;
      var inspected := row.sport == Padel && row.payload.inspectionCompleted;
      if (!analysed && !inspected) || uploading {
        return Raised(MatchBusy);
      }
      if !videos[row.video].Stored() {
        return Raised(SourceMediaUnavailable);
      }
      videos := videos[row.video := videos[row.video].(state := Deleting)];
      return Accepted;
    }

    /** Any transaction of the protocol: the service takes exactly the protocol's step, so that whatever
        holds in every reachable state holds of the service after any calls. */
    method Serve(call: Call) returns (reply: Reply)
      requires RunSteps.Reachable(Now())
      modifies this
      ensures Outcome(Now(), reply) == Exec(old(Now()), call)
      ensures RunSteps.Reachable(Now())
    {
      hide ReserveTx, StartRunTx, StartRunAgainTx, TransitionTx, PersistTx;
      hide DeleteTx, RemoveSourceTx, RunSteps.Reachable;
      RunTheorems.NextReachable(Now(), call);
      match call
      case Reserve(req, now) => reply := ReserveAnalysis(req, now);
      case StartRun(req) => reply := StartRun(req);
      case StartRunAgain(req) => reply := StartRunAgain(req);
      case Transition(owner, run, expected, to) => reply := TransitionRun(owner, run, expected, to);
      case Persist(req, now) => reply := PersistJob(req, now);
      case DeleteMatch(owner, a, uploading) => reply := DeleteMatch(owner, a, uploading);
      case RemoveSource(owner, a, uploading) => reply := RemoveSource(owner, a, uploading);
    }
  }
}
