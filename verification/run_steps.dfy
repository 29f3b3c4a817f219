/** Every write keeps the run-store invariant, and so does every transaction made of them. */
module RunSteps {
  import opened Common
  import opened ArtifactRegistry
  import opened RunStore
  import opened RunHistory

  // ---------------------------------------------------------------- single writes

  lemma AppendedLast(runs: seq<Run>, run: Run, a: AnalysisId)
    ensures LastRun(runs + [run], a) == if run.analysis == a then Some(|runs|) else LastRun(runs, a)
  {
    assert (runs + [run])[..|runs|] == runs;
  }

  lemma InsertedRunShape(db: Db, a: AnalysisId, state: State)
    requires Linked(db.runs) && OnlyLastActive(db.runs) && InsertRun(db, a, state).Some?
    ensures Linked(InsertRun(db, a, state).value.0.runs) && OnlyLastActive(InsertRun(db, a, state).value.0.runs)
  {
    LookupsFindTheLast(db.runs, a);
    LastCountsAll(db.runs, a);
    var latest := Newest(db.runs, a);
    var attempt := if latest.Some? then db.runs[latest.value].attempt + 1 else 1;
    var run := Run(a, attempt, state, latest, 1);
    var runs' := db.runs + [run];
    assert InsertRun(db, a, state).value.0.runs == runs' && !HasActive(db.runs, a);
    hide Linked, InsertRun, Newest, LastRun, CountRuns;
    AppendKeepsLinks(db.runs, run);
    forall i | 0 <= i < |runs'| && Active(runs'[i].state) ensures LastRun(runs', runs'[i].analysis) == Some(i) {
      AppendedLast(db.runs, run, runs'[i].analysis);
      if i < |db.runs| { assert runs'[i] == db.runs[i]; }
    }
  }

  lemma LogMentions(db: Db, i: nat)
    requires LogMentionsRows(db) && i < |db.events|
    ensures Exists(db, db.events[i].subject)
  {}

  lemma MentionsKept(db: Db, db': Db)
    requires LogMentionsRows(db) && |db.runs| <= |db'.runs| && db.analyses.Keys <= db'.analyses.Keys
    requires db.events <= db'.events && |db'.events| <= |db.events| + 1
    requires |db'.events| > |db.events| ==> Exists(db', db'.events[|db.events|].subject)
    ensures LogMentionsRows(db')
  {
    forall i | 0 <= i < |db'.events| ensures Exists(db', db'.events[i].subject) {
      if i < |db.events| { LogMentions(db, i); }
    }
  }

  lemma RecordsOkKept(db: Db, db': Db)
    requires RecordsOk(db) && db'.records == db.records && RunsOwned(db')
    requires RunsAdvance(db.runs, db'.runs) && RowsAdvance(db.analyses, db'.analyses)
    ensures RecordsOk(db')
  {
    forall k | k in db'.records ensures RecordOk(db', k) {
      assert RecordOk(db, k);
      var resource := db.records[k].resource.value;
      if resource.OfRun? {
        assert RunAdvance(db.runs[resource.run], db'.runs[resource.run]);
        assert RowAdvance(db.analyses[db.runs[resource.run].analysis], db'.analyses[db.runs[resource.run].analysis]);
      } else {
        assert RowAdvance(db.analyses[resource.analysis], db'.analyses[resource.analysis]);
      }
    }
  }

  lemma UnknownIsFresh(db: Db, subject: Subject)
    requires LogMentionsRows(db) && !Exists(db, subject)
    ensures Replay(db.events, subject) == Fresh
  {
    forall i | 0 <= i < |db.events| ensures db.events[i].subject != subject {
      LogMentions(db, i);
    }
    UnmentionedIsFresh(db.events, subject);
  }

  lemma InsertRunLogged(db: Db, a: AnalysisId, state: State)
    requires Inv(db) && IsLive(db, a) && Active(state) && InsertRun(db, a, state).Some?
    ensures var db' := InsertRun(db, a, state).value.0; RunsLogged(db') && AnalysesLogged(db') && RowsOk(db')
  {
    var db' := InsertRun(db, a, state).value.0;
    var id := |db.runs|;
    var e := Event(OnRun(id), None, state, 1);
    ShapeOfInsert(db, a, state);
    hide Linked, OnlyLastActive, InsertRun, Newest, Replay, Unique, VideosUnshared, RecordsOk;
    forall r | 0 <= r < |db'.runs| ensures RunLogged(db', r) {
      ReplaySnoc(db.events, e, OnRun(r));
      if r < id { assert RunLogged(db, r); } else { UnknownIsFresh(db, OnRun(r)); }
    }
    forall b | b in db'.analyses ensures AnalysisLogged(db', b) && RowOk(db', b) {
      ReplaySnoc(db.events, e, OnAnalysis(b));
      assert AnalysisLogged(db, b) && RowOk(db, b);
    }
  }

  lemma InsertRunInv(db: Db, a: AnalysisId, state: State)
    requires Inv(db) && IsLive(db, a) && Active(state) && InsertRun(db, a, state).Some?
    ensures Inv(InsertRun(db, a, state).value.0)
  {
    var db' := InsertRun(db, a, state).value.0;
    InsertedRunShape(db, a, state);
    InsertRunLogged(db, a, state);
    ShapeOfInsert(db, a, state);
    hide Linked, OnlyLastActive, InsertRun, RunsLogged, AnalysesLogged, RowsOk;
    hide RecordsOk, LogMentionsRows, Unique, HasActive;
    RecordsOkKept(db, db');
    MentionsKept(db, db');
  }

  lemma ShapeOfInsert(db: Db, a: AnalysisId, state: State)
    requires InsertRun(db, a, state).Some?
    ensures !HasActive(db.runs, a) && InsertRun(db, a, state).value.1 == |db.runs|
    ensures var db' := InsertRun(db, a, state).value.0; var id := |db.runs|;
            |db'.runs| == id + 1 && db'.runs == db.runs + [db'.runs[id]] && db'.runs[id].analysis == a
            && db'.runs[id].state == state && db'.runs[id].version == 1
            && db' == db.(runs := db'.runs, events := db.events + [Event(OnRun(id), None, state, 1)])
  {}

  lemma InsertRunStep(db: Db, a: AnalysisId, state: State)
    requires Inv(db) && IsLive(db, a) && Active(state) && InsertRun(db, a, state).Some?
    ensures Goal(db, InsertRun(db, a, state).value.0)
  {
    InsertRunInv(db, a, state);
    ShapeOfInsert(db, a, state);
    hide Inv, InsertRun;
  }

  lemma ActiveRunIsLive(db: Db, r: RunId)
    requires Inv(db) && r < |db.runs| && Active(db.runs[r].state)
    ensures IsLive(db, db.runs[r].analysis)
  {
    assert RowOk(db, db.runs[r].analysis);
  }

  lemma ChangeRunShape(db: Db, r: RunId, state: State)
    requires Inv(db) && r < |db.runs| && Active(db.runs[r].state)
    ensures var runs' := ChangeRun(db, r, state).runs; Linked(runs') && OnlyLastActive(runs')
  {
    var runs' := ChangeRun(db, r, state).runs;
    assert SameShape(db.runs, runs');
    ShapeKeepsLinks(db.runs, runs');
    hide Linked, SameShape;
    forall i | 0 <= i < |runs'| && Active(runs'[i].state) ensures LastRun(runs', runs'[i].analysis) == Some(i) {
      ShapeKeepsCounts(db.runs, runs', db.runs[i].analysis);
    }
  }

  lemma ChangeRunLogged(db: Db, r: RunId, state: State)
    requires Inv(db) && r < |db.runs| && Active(db.runs[r].state)
    ensures RunsLogged(ChangeRun(db, r, state))
  {
    hide Linked, Replay, Unique, VideosUnshared, OnlyLastActive, AnalysesLogged, RecordsOk, RowsOk;
    var db' := ChangeRun(db, r, state);
    forall i | 0 <= i < |db'.runs| ensures RunLogged(db', i) {
      ReplaySnoc(db.events, Event(OnRun(r), Some(db.runs[r].state), state, db.runs[r].version + 1), OnRun(i));
      assert RunLogged(db, i);
    }
  }

  lemma ChangeRunRows(db: Db, r: RunId, state: State)
    requires Inv(db) && r < |db.runs| && Active(db.runs[r].state)
    ensures var db' := ChangeRun(db, r, state); AnalysesLogged(db') && RowsOk(db')
  {
    ActiveRunIsLive(db, r);
    hide Linked, Replay, Unique, VideosUnshared, OnlyLastActive, RecordsOk, RunsLogged;
    var db' := ChangeRun(db, r, state);
    forall b | b in db'.analyses ensures AnalysisLogged(db', b) && RowOk(db', b) {
      ReplaySnoc(db.events, Event(OnRun(r), Some(db.runs[r].state), state, db.runs[r].version + 1), OnAnalysis(b));
      assert AnalysisLogged(db, b) && RowOk(db, b);
    }
  }

  lemma ChangeRunUndoesNothing(db: Db, r: RunId, state: State)
    requires r < |db.runs| && Active(db.runs[r].state) && StateReach(db.runs[r].state, state)
    requires IsLive(db, db.runs[r].analysis)
    ensures Step(db, ChangeRun(db, r, state))
  {
    var db' := ChangeRun(db, r, state);
    assert RunsAdvance(db.runs, db'.runs);
    hide RunsAdvance, RunAdvance;
  }

  lemma ChangeRunStep(db: Db, r: RunId, state: State)
    requires Inv(db) && r < |db.runs| && Active(db.runs[r].state) && StateReach(db.runs[r].state, state)
    ensures Goal(db, ChangeRun(db, r, state))
  {
    ActiveRunIsLive(db, r);
    ChangeRunShape(db, r, state);
    ChangeRunLogged(db, r, state);
    ChangeRunRows(db, r, state);
    ChangeRunUndoesNothing(db, r, state);
    hide Linked, OnlyLastActive, Replay, Unique, RunsLogged, AnalysesLogged;
    hide RowsOk, RecordsOk, VideosUnshared, LogMentionsRows;
    hide Quiet, RowAdvance, RunAdvance, VideoAdvance;
    var db' := ChangeRun(db, r, state);
    assert db'.analyses == db.analyses && db'.artifacts == db.artifacts && db'.videos == db.videos
           && db'.records == db.records;
    RecordsOkKept(db, db');
    MentionsKept(db, db');
  }

  lemma VideosKept(db: Db, db': Db)
    requires VideosUnshared(db) && db'.analyses.Keys == db.analyses.Keys && RowsAdvance(db.analyses, db'.analyses)
    ensures VideosUnshared(db')
  {
    forall b, c | b in db'.analyses && c in db'.analyses && b != c
      ensures db'.analyses[b].video != db'.analyses[c].video
    {
      assert RowAdvance(db.analyses[b], db'.analyses[b]) && RowAdvance(db.analyses[c], db'.analyses[c]);
    }
  }

  lemma LiveRowsRunsLogged(db: Db, db': Db)
    requires RunsLogged(db) && db'.runs == db.runs && db'.events == db.events
    requires forall a :: IsLive(db', a) ==> IsLive(db, a)
    ensures RunsLogged(db')
  {
    hide Replay;
    forall r | 0 <= r < |db'.runs| ensures RunLogged(db', r) { assert RunLogged(db, r); }
  }

  lemma ChangeAnalysisRows(db: Db, a: AnalysisId, state: State, payload: Payload, logged: bool)
    requires Inv(db) && IsLive(db, a) && AnalysisState(state) && (!logged ==> state == db.analyses[a].state)
    ensures var db' := ChangeAnalysis(db, a, state, payload, logged);
            AnalysesLogged(db') && RowsOk(db') && RunsLogged(db')
  {
    var db' := ChangeAnalysis(db, a, state, payload, logged);
    var e := Event(OnAnalysis(a), Some(db.analyses[a].state), state, db.analyses[a].version + 1);
    hide Linked, Replay, Unique, VideosUnshared, OnlyLastActive, RecordsOk;
    forall r | 0 <= r < |db'.runs| ensures RunLogged(db', r) {
      ReplaySnoc(db.events, e, OnRun(r));
      assert RunLogged(db, r);
    }
    forall b | b in db'.analyses ensures AnalysisLogged(db', b) && RowOk(db', b) {
      ReplaySnoc(db.events, e, OnAnalysis(b));
      assert AnalysisLogged(db, b) && RowOk(db, b);
    }
  }

  lemma ChangeAnalysisShape(db: Db, a: AnalysisId, state: State, payload: Payload, logged: bool)
    requires a in db.analyses
    ensures var db' := ChangeAnalysis(db, a, state, payload, logged);
            var events := if logged
              then [Event(OnAnalysis(a), Some(db.analyses[a].state), state, db.analyses[a].version + 1)] else [];
            db' == db.(analyses := db'.analyses, events := db.events + events)
            && db'.analyses == db.analyses[a :=
              db.analyses[a].(state := state, payload := payload, version := db.analyses[a].version + 1)]
  {}

  /** Rewriting one row, perhaps with one event about it, undoes nothing. */
  lemma OneRowStep(db: Db, a: AnalysisId, row: Analysis, events: seq<Event>)
    requires IsLive(db, a) && RowAdvance(db.analyses[a], row) && |events| <= 1
    requires forall e :: e in events ==> e.subject == OnAnalysis(a)
    ensures Step(db, db.(analyses := db.analyses[a := row], events := db.events + events))
  {
    var db' := db.(analyses := db.analyses[a := row], events := db.events + events);
    assert RowsAdvance(db.analyses, db'.analyses);
    hide RowAdvance;
  }

  lemma ChangeAnalysisStep(db: Db, a: AnalysisId, state: State, payload: Payload, logged: bool)
    requires Inv(db) && IsLive(db, a) && AnalysisState(state) && (!logged ==> state == db.analyses[a].state)
    ensures Goal(db, ChangeAnalysis(db, a, state, payload, logged))
            && IsLive(ChangeAnalysis(db, a, state, payload, logged), a)
  {
    ChangeAnalysisRows(db, a, state, payload, logged);
    ChangeAnalysisShape(db, a, state, payload, logged);
    hide Linked, OnlyLastActive, Replay, Unique, RunsLogged, AnalysesLogged;
    hide RowsOk, RecordsOk, VideosUnshared, LogMentionsRows;
    hide ChangeAnalysis, Quiet;
    var db' := ChangeAnalysis(db, a, state, payload, logged);
    var events := if logged then [Event(OnAnalysis(a), Some(db.analyses[a].state), state, db.analyses[a].version + 1)]
      else [];
    OneRowStep(db, a, db'.analyses[a], events);
    assert db'.analyses.Keys == db.analyses.Keys;
    RecordsOkKept(db, db');
    MentionsKept(db, db');
    VideosKept(db, db');
  }

  lemma PromotedRows(db: Db, a: AnalysisId, r: RunId)
    requires AnalysesLogged(db) && RowsOk(db)
    requires a in db.analyses && r < |db.runs| && db.runs[r].analysis == a && db.runs[r].state == Completed
    ensures AnalysesLogged(Promote(db, a, r)) && RowsOk(Promote(db, a, r))
  {
    var db' := Promote(db, a, r);
    hide Replay;
    forall b | b in db'.analyses ensures AnalysisLogged(db', b) && RowOk(db', b) {
      assert AnalysisLogged(db, b) && RowOk(db, b);
    }
  }

  lemma PromoteStep(db: Db, a: AnalysisId, r: RunId)
    requires Inv(db) && IsLive(db, a) && r < |db.runs| && db.runs[r].analysis == a && db.runs[r].state == Completed
    ensures Goal(db, Promote(db, a, r)) && IsLive(Promote(db, a, r), a)
  {
    var db' := Promote(db, a, r);
    assert db' == db.(analyses := db.analyses[a := db'.analyses[a]], events := db.events + []);
    OneRowStep(db, a, db'.analyses[a], []);
    assert db'.analyses.Keys == db.analyses.Keys;
    PromotedRows(db, a, r);
    hide Linked, Replay, OnlyLastActive, Unique, RecordsOk, RunsLogged;
    hide VideosUnshared, LogMentionsRows, AnalysesLogged, RowsOk;
    hide RunAdvance, RowAdvance, VideoAdvance, Quiet;
    LiveRowsRunsLogged(db, db');
    RecordsOkKept(db, db');
    MentionsKept(db, db');
    VideosKept(db, db');
  }

  lemma CreateRows(db: Db, a: AnalysisId, owner: OwnerId, sport: Sport, state: State, payload: Payload, video: Video,
      now: Time)
    requires Inv(db) && a !in db.analyses && video.owner == owner && AnalysisState(state)
    ensures var db' := CreateAnalysis(db, a, owner, sport, state, payload, video, now);
            AnalysesLogged(db') && RowsOk(db') && RunsLogged(db')
  {
    var db' := CreateAnalysis(db, a, owner, sport, state, payload, video, now);
    var e := Event(OnAnalysis(a), None, state, 1);
    UnknownIsFresh(db, OnAnalysis(a));
    hide Linked, Replay, Unique, VideosUnshared, OnlyLastActive, RecordsOk, LogMentionsRows;
    forall r | 0 <= r < |db'.runs| ensures RunLogged(db', r) {
      ReplaySnoc(db.events, e, OnRun(r));
      assert RunLogged(db, r);
    }
    forall b | b in db'.analyses ensures AnalysisLogged(db', b) && RowOk(db', b) {
      ReplaySnoc(db.events, e, OnAnalysis(b));
      assert b != a ==> AnalysisLogged(db, b) && RowOk(db, b);
    }
  }

  lemma CreateVideos(db: Db, a: AnalysisId, owner: OwnerId, sport: Sport, state: State, payload: Payload, video: Video,
      now: Time)
    requires Inv(db) && a !in db.analyses
    ensures VideosUnshared(CreateAnalysis(db, a, owner, sport, state, payload, video, now))
  {
    var db' := CreateAnalysis(db, a, owner, sport, state, payload, video, now);
    forall b, c | b in db'.analyses && c in db'.analyses && b != c
      ensures db'.analyses[b].video != db'.analyses[c].video
    {
      assert b != a ==> RowOk(db, b);
      assert c != a ==> RowOk(db, c);
    }
  }

  lemma CreateUndoesNothing(
      db: Db, a: AnalysisId, owner: OwnerId, sport: Sport, state: State, payload: Payload, video: Video, now: Time)
    requires a !in db.analyses
    ensures Step(db, CreateAnalysis(db, a, owner, sport, state, payload, video, now))
  {
    hide IsLive;
  }

  lemma CreateStep(db: Db, a: AnalysisId, owner: OwnerId, sport: Sport, state: State, payload: Payload, video: Video,
      now: Time)
    requires Inv(db) && a !in db.analyses && video.owner == owner && AnalysisState(state)
    ensures var db' := CreateAnalysis(db, a, owner, sport, state, payload, video, now);
            Goal(db, db') && IsLive(db', a) && !HasActive(db'.runs, a)
  {
    var db' := CreateAnalysis(db, a, owner, sport, state, payload, video, now);
    CreateRows(db, a, owner, sport, state, payload, video, now);
    CreateVideos(db, a, owner, sport, state, payload, video, now);
    CreateUndoesNothing(db, a, owner, sport, state, payload, video, now);
    hide Linked, OnlyLastActive, Replay, Unique, RunsLogged, AnalysesLogged;
    hide RowsOk, RecordsOk, VideosUnshared, LogMentionsRows;
    hide RunsAdvance, RowsAdvance, VideosAdvance, RecordsKept, AppendOnly, Quiet;
    RecordsOkKept(db, db');
    MentionsKept(db, db');
  }

  lemma BindRows(db: Db, key: RecordKey, fingerprint: string, resource: Resource)
    requires AnalysesLogged(db) && RowsOk(db)
    ensures AnalysesLogged(Bind(db, key, fingerprint, resource)) && RowsOk(Bind(db, key, fingerprint, resource))
  {
    var db' := Bind(db, key, fingerprint, resource);
    hide Replay;
    forall b | b in db'.analyses ensures AnalysisLogged(db', b) && RowOk(db', b) {
      assert AnalysisLogged(db, b) && RowOk(db, b);
    }
  }

  lemma BindRecords(db: Db, key: RecordKey, fingerprint: string, resource: Resource)
    requires RecordsOk(db) && key !in db.records && ResourceOk(db, key, resource)
    ensures RecordsOk(Bind(db, key, fingerprint, resource))
  {
    var db' := Bind(db, key, fingerprint, resource);
    forall k | k in db'.records ensures RecordOk(db', k) {
      assert k != key ==> RecordOk(db, k);
    }
  }

  lemma BindStep(db: Db, key: RecordKey, fingerprint: string, resource: Resource)
    requires Inv(db) && key !in db.records && ResourceOk(db, key, resource)
    ensures Goal(db, Bind(db, key, fingerprint, resource))
  {
    var db' := Bind(db, key, fingerprint, resource);
    BindRows(db, key, fingerprint, resource);
    BindRecords(db, key, fingerprint, resource);
    hide Linked, OnlyLastActive, Replay, Unique, VideosUnshared, LogMentionsRows;
    hide RecordsOk, RowsOk, AnalysesLogged, RunsLogged;
    LiveRowsRunsLogged(db, db');
    MentionsKept(db, db');
    VideosKept(db, db');
  }

  lemma VideoStep(db: Db, v: VideoId, video: Video)
    requires Inv(db) && v < |db.videos| && VideoAdvance(db.videos[v], video)
    ensures Goal(db, db.(videos := db.videos[v := video]))
  {
    var db' := db.(videos := db.videos[v := video]);
    hide Linked, OnlyLastActive, Replay, Unique, RecordsOk, LogMentionsRows, VideosUnshared;
    LiveRowsRunsLogged(db, db');
    MentionsKept(db, db');
    RecordsOkKept(db, db');
    VideosKept(db, db');
    forall b | b in db'.analyses ensures AnalysisLogged(db', b) && RowOk(db', b) {
      assert AnalysisLogged(db, b) && RowOk(db, b);
    }
  }

  lemma ArtifactsStep(db: Db, t: Table, a: AnalysisId)
    requires Inv(db) && IsLive(db, a) && Unique(t) && AppendOnly(db.artifacts, t) && OnlyFor(db.artifacts, t, a)
    ensures Goal(db, db.(artifacts := t))
  {
    var db' := db.(artifacts := t);
    hide Linked, OnlyLastActive, Replay, Unique, RecordsOk, LogMentionsRows, VideosUnshared;
    LiveRowsRunsLogged(db, db');
    MentionsKept(db, db');
    RecordsOkKept(db, db');
    VideosKept(db, db');
    forall b | b in db'.analyses ensures AnalysisLogged(db', b) && RowOk(db', b) {
      assert AnalysisLogged(db, b) && RowOk(db, b);
    }
  }

  // ---------------------------------------------------------------- deleting a match

  lemma CancelledShape(runs: seq<Run>, a: AnalysisId)
    ensures SameShape(runs, CancelActive(runs, a)) && RunsAdvance(runs, CancelActive(runs, a))
    ensures !HasActive(CancelActive(runs, a), a)
    ensures forall b :: HasActive(CancelActive(runs, a), b) ==> HasActive(runs, b)
  {
    var runs' := CancelActive(runs, a);
    assert forall i :: 0 <= i < |runs'| && Active(runs'[i].state) ==> runs'[i] == runs[i] && runs[i].analysis != a;
  }

  lemma DeleteRuns(db: Db, owner: OwnerId, a: AnalysisId)
    requires Inv(db) && DeleteTx(db, owner, a, false).reply == Accepted
    ensures var db' := DeleteTx(db, owner, a, false).db;
            Linked(db'.runs) && OnlyLastActive(db'.runs) && RunsLogged(db')
  {
    var db' := DeleteTx(db, owner, a, false).db;
    CancelledShape(db.runs, a);
    ShapeKeepsLinks(db.runs, db'.runs);
    hide Linked, SameShape, Replay, HasActive, Unique, VideosUnshared, RecordsOk, AnalysesLogged, RowsOk;
    forall i | 0 <= i < |db'.runs| && Active(db'.runs[i].state)
      ensures LastRun(db'.runs, db'.runs[i].analysis) == Some(i)
    {
      ShapeKeepsCounts(db.runs, db'.runs, db.runs[i].analysis);
    }
    forall r | 0 <= r < |db'.runs| ensures RunLogged(db', r) { assert RunLogged(db, r); }
  }

  lemma DeleteRows(db: Db, owner: OwnerId, a: AnalysisId)
    requires Inv(db) && DeleteTx(db, owner, a, false).reply == Accepted
    ensures var db' := DeleteTx(db, owner, a, false).db; AnalysesLogged(db') && RowsOk(db')
  {
    var db' := DeleteTx(db, owner, a, false).db;
    CancelledShape(db.runs, a);
    hide Linked, SameShape, Replay, HasActive, Unique, VideosUnshared, RecordsOk, RunsLogged;
    forall b | b in db'.analyses ensures AnalysisLogged(db', b) && RowOk(db', b) {
      assert AnalysisLogged(db, b) && RowOk(db, b);
    }
  }

  lemma DeleteUndoesNothing(db: Db, owner: OwnerId, a: AnalysisId)
    requires Inv(db) && DeleteTx(db, owner, a, false).reply == Accepted
    ensures Step(db, DeleteTx(db, owner, a, false).db)
  {
    var db' := DeleteTx(db, owner, a, false).db;
    CancelledShape(db.runs, a);
    hide Inv, SameShape, HasActive, SharesVideo, CancelActive;
    assert RowsAdvance(db.analyses, db'.analyses) && VideosAdvance(db.videos, db'.videos);
    hide RowsAdvance, RowAdvance, VideoAdvance, RunAdvance;
  }

  lemma DeleteStep(db: Db, owner: OwnerId, a: AnalysisId, uploading: bool)
    requires Inv(db)
    ensures Goal(db, DeleteTx(db, owner, a, uploading).db)
  {
    var out := DeleteTx(db, owner, a, uploading);
    if out.reply == Accepted {
      var db' := out.db;
      DeleteRuns(db, owner, a);
      DeleteRows(db, owner, a);
      DeleteUndoesNothing(db, owner, a);
      assert db'.analyses.Keys == db.analyses.Keys;
      hide Linked, OnlyLastActive, RunsLogged, AnalysesLogged, RowsOk;
      hide VideosUnshared, RecordsOk, LogMentionsRows, Unique;
      hide HasActive, SharesVideo, Quiet, AppendOnly, RunAdvance, VideosAdvance, RowAdvance;
      assert RunsOwned(db') by { CancelledShape(db.runs, a); }
      RecordsOkKept(db, db');
      MentionsKept(db, db');
      VideosKept(db, db');
    } else {
      StepRefl(db);
    }
  }

  lemma RemoveSourceStep(db: Db, owner: OwnerId, a: AnalysisId, uploading: bool)
    requires Inv(db)
    ensures Goal(db, RemoveSourceTx(db, owner, a, uploading).db)
  {
    var out := RemoveSourceTx(db, owner, a, uploading);
    if out.reply == Accepted {
      var v := db.analyses[a].video;
      VideoStep(db, v, db.videos[v].(state := Deleting));
    } else {
      StepRefl(db);
    }
  }

  // ---------------------------------------------------------------- reservations and run starts

  lemma ReserveStep(db: Db, req: ReserveRequest, now: Time)
    requires Inv(db)
    ensures Goal(db, ReserveTx(db, req, now).db)
  {
    var out := ReserveTx(db, req, now);
    if out.db == db {
      StepRefl(db);
    } else if req.analysis !in db.analyses && out.reply == Reserved(req.analysis, true, None) {
      var video := Video(req.owner, Awaited, Some(req.checksum), None);
      var db1 := CreateAnalysis(db, req.analysis, req.owner, req.sport, Processing, req.payload, video, now);
      CreateStep(db, req.analysis, req.owner, req.sport, Processing, req.payload, video, now);
      var started := InsertRun(db1, req.analysis, Processing).value;
      InsertRunStep(db1, req.analysis, Processing);
      ShapeOfInsert(db1, req.analysis, Processing);
      assert db1.records == db.records && db1.analyses[req.analysis].owner == req.owner;
      BindStep(started.0, req.Key(), req.fingerprint, OfAnalysis(req.analysis));
      hide Inv, Step, CreateAnalysis, InsertRun;
      StepTrans(db, db1, started.0);
      StepTrans(db, started.0, out.db);
    } else {
      var duplicate := FindDuplicate(db, req.owner, req.checksum, req.sport);
      BindStep(db, req.Key(), req.fingerprint, OfDuplicate(duplicate.value));
    }
  }

  lemma StartRunStep(db: Db, req: RunRequest)
    requires Inv(db)
    ensures Goal(db, StartRunTx(db, req).db)
  {
    var out := StartRunTx(db, req);
    if out.db == db {
      StepRefl(db);
    } else {
      var a := req.analysis;
      var started := InsertRun(db, a, req.state).value;
      var db1 := started.0;
      InsertRunStep(db, a, req.state);
      ShapeOfInsert(db, a, req.state);
      var row := db.analyses[a];
      if req.state == Processing && row.state != Processing {
        var db2 := ChangeAnalysis(db1, a, Processing, row.payload, true);
        ChangeAnalysisStep(db1, a, Processing, row.payload, true);
        ChangeAnalysisShape(db1, a, Processing, row.payload, true);
        BindStep(db2, req.Key(), req.fingerprint, OfRun(started.1));
        hide Inv, Step, ChangeAnalysis, InsertRun;
        StepTrans(db, db1, db2);
        StepTrans(db, db2, out.db);
      } else {
        BindStep(db1, req.Key(), req.fingerprint, OfRun(started.1));
        hide Inv, Step, InsertRun;
        StepTrans(db, db1, out.db);
      }
    }
  }

  lemma StartRunAgainStep(db: Db, req: RunRequest)
    requires Inv(db)
    ensures Goal(db, StartRunAgainTx(db, req).db)
  {
    var out := StartRunAgainTx(db, req);
    if out.db == db {
      StepRefl(db);
    } else {
      BindStep(db, req.Key(), req.fingerprint, OfRun(ActiveRun(db.runs, req.analysis).value));
    }
  }

  // ---------------------------------------------------------------- transitions

  /** The run's own half of a transition, after the analysis has followed it. */
  lemma RunHalfStep(db: Db, r: RunId, to: State)
    requires Inv(db) && r < |db.runs| && TransitionAllowed(db.runs[r].state, to) && IsLive(db, db.runs[r].analysis)
    ensures var changed := ChangeRun(db, r, to);
            Goal(db, if to == Completed then Promote(changed, db.runs[r].analysis, r) else changed)
  {
    var changed := ChangeRun(db, r, to);
    ChangeRunStep(db, r, to);
    assert changed.runs[r].state == to && changed.runs[r].analysis == db.runs[r].analysis
           && changed.analyses == db.analyses;
    hide ChangeRun, Inv, Step;
    if to == Completed {
      PromoteStep(changed, db.runs[r].analysis, r);
      StepTrans(db, changed, Promote(changed, db.runs[r].analysis, r));
    }
  }

  lemma TransitionStep(db: Db, owner: OwnerId, r: RunId, expected: nat, to: State)
    requires Inv(db)
    ensures Goal(db, TransitionTx(db, owner, r, expected, to).db)
  {
    var out := TransitionTx(db, owner, r, expected, to);
    if out.db == db {
      StepRefl(db);
    } else {
      var a := db.runs[r].analysis;
      ActiveRunIsLive(db, r);
      hide Inv, Step, ChangeAnalysis, ChangeRun;
      if to == Stale {
        RunHalfStep(db, r, to);
      } else {
        var followed := ChangeAnalysis(db, a, to, db.analyses[a].payload, true);
        ChangeAnalysisStep(db, a, to, db.analyses[a].payload, true);
        ChangeAnalysisShape(db, a, to, db.analyses[a].payload, true);
        RunHalfStep(followed, r, to);
        StepTrans(db, followed, out.db);
      }
    }
  }

  // ---------------------------------------------------------------- saves

  /** What the steps of one save hand on to each other. */
  ghost predicate Saving(db: Db, db': Db, a: AnalysisId) {
    Goal(db, db') && IsLive(db', a) && a in db.analyses && db'.analyses[a].video == db.analyses[a].video
  }

  lemma WithdrawalIsLocal(t: Table, a: AnalysisId, prefixes: seq<string>)
    requires Unique(t)
    ensures Unique(Withdraw(t, a, prefixes)) && AppendOnly(t, Withdraw(t, a, prefixes))
            && OnlyFor(t, Withdraw(t, a, prefixes), a)
  {
    WithdrawalHidesPrefixes(t, a, prefixes);
  }

  lemma DependentsAreLocal(t: Table, a: AnalysisId, before: Payload, after: Payload)
    requires Unique(t)
    ensures var t' := WithdrawDependents(t, a, before, after); Unique(t') && AppendOnly(t, t') && OnlyFor(t, t', a)
  {
    var t1 := if CourtCorrected(before, after) then Withdraw(t, a, COURT_PREFIXES) else t;
    WithdrawalIsLocal(t, a, COURT_PREFIXES);
    WithdrawalIsLocal(t1, a, EVIDENCE_PREFIXES);
    hide Withdraw, Unique;
  }

  lemma WithdrawStep(db: Db, a: AnalysisId, after: Payload)
    requires Inv(db) && IsLive(db, a)
    ensures Saving(db, db.(artifacts := WithdrawDependents(db.artifacts, a, db.analyses[a].payload, after)), a)
  {
    DependentsAreLocal(db.artifacts, a, db.analyses[a].payload, after);
    ArtifactsStep(db, WithdrawDependents(db.artifacts, a, db.analyses[a].payload, after), a);
    hide WithdrawDependents, Inv, Step;
  }

  lemma RunForSaveStep(db: Db, a: AnalysisId, status: State)
    requires Inv(db) && IsLive(db, a)
    ensures RunForSave(db, a, status).Some?
    ensures var work := RunForSave(db, a, status).value;
            Saving(db, work.0, a) && work.0.videos == db.videos && work.0.analyses == db.analyses
            && work.0.artifacts == db.artifacts && work.1 == LastRun(work.0.runs, a)
            && (work.1.Some? ==> work.1.value < |work.0.runs| && work.0.runs[work.1.value].analysis == a)
  {
    LookupsFindTheLast(db.runs, a);
    LastCountsAll(db.runs, a);
    var current := ActiveOrLatest(db.runs, a);
    if status == Processing && (current.None? || !Active(db.runs[current.value].state)) {
      var started := InsertRun(db, a, Processing).value;
      InsertRunStep(db, a, Processing);
      ShapeOfInsert(db, a, Processing);
      AppendedLast(db.runs, started.0.runs[started.1], a);
    } else {
      StepRefl(db);
    }
  }

  lemma SaveVideoStep(db: Db, a: AnalysisId, payload: Payload, inputs: seq<ArtifactInput>)
    requires Inv(db) && IsLive(db, a)
    requires var v := db.analyses[a].video; v < |db.videos| && db.videos[v].state != Deleting
    ensures var db' := SaveVideo(db, db.analyses[a].video, payload, inputs);
            Saving(db, db', a) && db' == db.(videos := db'.videos)
  {
    var v := db.analyses[a].video;
    var db' := SaveVideo(db, v, payload, inputs);
    if db' == db {
      StepRefl(db);
    } else {
      VideoStep(db, v, db'.videos[v]);
      hide Inv, Step;
    }
  }

  lemma FinishRunStep(db: Db, a: AnalysisId, run: Option<RunId>, status: State)
    requires Inv(db) && IsLive(db, a) && (run.Some? ==> run.value < |db.runs| && db.runs[run.value].analysis == a)
    ensures Saving(db, FinishRun(db, a, run, status), a) && FinishRun(db, a, run, status).artifacts == db.artifacts
  {
    var db' := FinishRun(db, a, run, status);
    if run.None? || !Active(db.runs[run.value].state) || !(status == Completed || status == Failed) {
      StepRefl(db);
    } else {
      ChangeRunStep(db, run.value, status);
      var db1 := ChangeRun(db, run.value, status);
      assert db1.analyses == db.analyses && db1.runs[run.value].state == status && db1.runs[run.value].analysis == a;
      hide ChangeRun, Inv, Step;
      if status == Completed {
        PromoteStep(db1, a, run.value);
        StepTrans(db, db1, db');
      }
    }
  }

  lemma RegisterStep(db: Db, a: AnalysisId, run: Option<RunId>, inputs: seq<ArtifactInput>)
    requires Inv(db) && IsLive(db, a) && RegisterAll(db.artifacts, a, run, None, inputs).Some?
    ensures Saving(db, db.(artifacts := RegisterAll(db.artifacts, a, run, None, inputs).value.0), a)
  {
    RegistrationRefinesMap(db.artifacts, a, run, None, inputs);
    RegistrationIsLocal(db.artifacts, a, run, None, inputs);
    ArtifactsStep(db, RegisterAll(db.artifacts, a, run, None, inputs).value.0, a);
    hide Inv, Step, RegisterAll;
  }

  lemma SavingTrans(p: Db, q: Db, r: Db, a: AnalysisId)
    requires Saving(p, q, a) && Saving(q, r, a)
    ensures Saving(p, r, a)
  {
    hide Goal;
    StepTrans(p, q, r);
  }

  lemma SaveRowsStep(db: Db, req: SaveRequest)
    requires Inv(db) && IsLive(db, req.analysis) && AnalysisState(req.payload.status) && SaveRows(db, req).Some?
    requires var v := db.analyses[req.analysis].video; v < |db.videos| && db.videos[v].state != Deleting
    ensures var rows := SaveRows(db, req).value;
            Saving(db, rows.0, req.analysis)
            && (rows.1.Some? ==> rows.1.value < |rows.0.runs| && rows.0.runs[rows.1.value].analysis == req.analysis)
  {
    var a := req.analysis;
    var before := db.analyses[a];
    var kept := KeptInputs(req.inputs, before.payload, req.payload);
    var db1 := db.(artifacts := WithdrawDependents(db.artifacts, a, before.payload, req.payload));
    var logged := before.state != req.payload.status;
    hide Inv, Step, KeptInputs, WithdrawDependents, RunForSave, ChangeAnalysis, SaveVideo, LastRun;
    var work := RunForSave(db1, a, req.payload.status).value;
    var db2 := ChangeAnalysis(work.0, a, req.payload.status, req.payload, logged);
    var db3 := SaveVideo(db2, before.video, req.payload, kept);
    WithdrawStep(db, a, req.payload);
    RunForSaveStep(db1, a, req.payload.status);
    SavingTrans(db, db1, work.0, a);
    ChangeAnalysisStep(work.0, a, req.payload.status, req.payload, logged);
    ChangeAnalysisShape(work.0, a, req.payload.status, req.payload, logged);
    SavingTrans(db, work.0, db2, a);
    SaveVideoStep(db2, a, req.payload, kept);
    SavingTrans(db, db2, db3, a);
  }

  lemma SaveOnStep(db: Db, req: SaveRequest)
    requires Inv(db) && IsLive(db, req.analysis) && AnalysisState(req.payload.status) && SaveOn(db, req).Some?
    requires var v := db.analyses[req.analysis].video; v < |db.videos| && db.videos[v].state != Deleting
    ensures Goal(db, SaveOn(db, req).value) && req.analysis in SaveOn(db, req).value.analyses
  {
    var a := req.analysis;
    var kept := KeptInputs(req.inputs, db.analyses[a].payload, req.payload);
    hide Inv, Step, KeptInputs, SaveRows, FinishRun, RegisterAll;
    var rows := SaveRows(db, req).value;
    var ended := FinishRun(rows.0, a, rows.1, req.payload.status);
    SaveRowsStep(db, req);
    FinishRunStep(rows.0, a, rows.1, req.payload.status);
    SavingTrans(db, rows.0, ended, a);
    RegisterStep(ended, a, rows.1, kept);
    SavingTrans(db, ended, SaveOn(db, req).value, a);
  }

  lemma ImportStep(db: Db, req: SaveRequest, now: Time)
    requires Inv(db) && SaveDenied(db, req).None? && AnalysisState(req.payload.status)
    ensures LoadOrImport(db, req, now).Some?
    ensures var loaded := LoadOrImport(db, req, now).value; var v := loaded.analyses[req.analysis].video;
            Goal(db, loaded) && IsLive(loaded, req.analysis) && v < |loaded.videos|
            && loaded.videos[v].state != Deleting
  {
    var a := req.analysis;
    if a in db.analyses {
      StepRefl(db);
      assert RowOk(db, a);
    } else {
      var video := Video(req.owner, Available, None, None);
      var db1 := CreateAnalysis(db, a, req.owner, req.payload.sport, req.payload.status, req.payload, video, now);
      CreateStep(db, a, req.owner, req.payload.sport, req.payload.status, req.payload, video, now);
      InsertRunStep(db1, a, Processing);
      ShapeOfInsert(db1, a, Processing);
      hide Inv, Step, InsertRun;
      StepTrans(db, db1, LoadOrImport(db, req, now).value);
    }
  }

  lemma PersistStep(db: Db, req: SaveRequest, now: Time)
    requires Inv(db)
    ensures Goal(db, PersistTx(db, req, now).db)
  {
    var out := PersistTx(db, req, now);
    hide Inv, Step, LoadOrImport, SaveOn, SaveDenied;
    if out.reply.Saved? {
      ImportStep(db, req, now);
      var loaded := LoadOrImport(db, req, now).value;
      SaveOnStep(loaded, req);
      StepTrans(db, loaded, out.db);
    } else {
      StepRefl(db);
    }
  }

  /** Every transaction, whatever its arguments, keeps the invariant and undoes nothing. */
  lemma TransactionStep(db: Db, call: Call)
    requires Inv(db)
    ensures Goal(db, Exec(db, call).db)
  {
    hide Inv, Step;
    match call
    case Reserve(req, now) => ReserveStep(db, req, now);
    case StartRun(req) => StartRunStep(db, req);
    case StartRunAgain(req) => StartRunAgainStep(db, req);
    case Transition(owner, run, expected, to) => TransitionStep(db, owner, run, expected, to);
    case Persist(req, now) => PersistStep(db, req, now);
    case DeleteMatch(owner, a, uploading) => DeleteStep(db, owner, a, uploading);
    case RemoveSource(owner, a, uploading) => RemoveSourceStep(db, owner, a, uploading);
  }

  lemma {:induction false} RunKeeps(db: Db, calls: seq<Call>)
    requires Inv(db)
    ensures Goal(db, RunAll(db, calls))
    decreases |calls|
  {
    hide Inv, Step, Exec;
    if calls == [] {
      StepRefl(db);
    } else {
      var next := Exec(db, calls[0]).db;
      TransactionStep(db, calls[0]);
      RunKeeps(next, calls[1..]);
      StepTrans(db, next, RunAll(db, calls));
    }
  }

  /** The states any run of the service can reach. */
  ghost predicate Reachable(db: Db) { exists calls :: db == RunAll(EMPTY, calls) }

  lemma ReachableInv(db: Db)
    requires Reachable(db)
    ensures Inv(db)
  {
    var calls :| db == RunAll(EMPTY, calls);
    RunKeeps(EMPTY, calls);
  }
}
