/** What every reachable state of the run store satisfies, and what no transaction can undo: the
    attempt chain of each analysis, the event log, the idempotency records and deleted matches. */
module RunHistory {
  import opened Common
  import opened ArtifactRegistry
  import opened RunStore

  // ---------------------------------------------------------------- the attempt chain

  function CountRuns(runs: seq<Run>, a: AnalysisId): nat {
    if runs == [] then 0
    else CountRuns(runs[..|runs| - 1], a) + if runs[|runs| - 1].analysis == a then 1 else 0
  }

  function LastRun(runs: seq<Run>, a: AnalysisId): (r: Option<RunId>)
    ensures r.None? ==> forall i :: 0 <= i < |runs| ==> runs[i].analysis != a
    ensures r.Some? ==> r.value < |runs| && runs[r.value].analysis == a
    ensures r.Some? ==> forall i :: r.value < i < |runs| ==> runs[i].analysis != a
  {
    if runs == [] then None
    else if runs[|runs| - 1].analysis == a then Some(|runs| - 1)
    else LastRun(runs[..|runs| - 1], a)
  }

  /** Attempt numbers count the runs of an analysis, and each run points at the one before it. */
  ghost predicate LinkedAt(runs: seq<Run>, i: nat)
    requires i < |runs|
  {
    runs[i].attempt == CountRuns(runs[..i], runs[i].analysis) + 1
    && runs[i].previous == LastRun(runs[..i], runs[i].analysis)
  }

  ghost predicate Linked(runs: seq<Run>) {
    forall i :: 0 <= i < |runs| ==> LinkedAt(runs, i)
  }

  ghost predicate OnlyLastActive(runs: seq<Run>) {
    forall i :: 0 <= i < |runs| && Active(runs[i].state) ==> LastRun(runs, runs[i].analysis) == Some(i)
  }

  lemma LinkedPrefix(runs: seq<Run>, n: nat)
    requires Linked(runs) && n <= |runs|
    ensures Linked(runs[..n])
  {
    forall i | 0 <= i < n ensures LinkedAt(runs[..n], i) {
      assert LinkedAt(runs, i);
      assert runs[..n][..i] == runs[..i];
    }
  }

  lemma {:induction false} LastCountsAll(runs: seq<Run>, a: AnalysisId)
    requires Linked(runs)
    ensures LastRun(runs, a).None? <==> CountRuns(runs, a) == 0
    ensures LastRun(runs, a).Some? ==> runs[LastRun(runs, a).value].attempt == CountRuns(runs, a)
    ensures forall i :: 0 <= i < |runs| && runs[i].analysis == a && LastRun(runs, a) != Some(i) ==>
              runs[i].attempt < CountRuns(runs, a)
  {
    if runs != [] {
      var init := runs[..|runs| - 1];
      LinkedPrefix(runs, |runs| - 1);
      assert LinkedAt(runs, |runs| - 1);
      LastCountsAll(init, a);
      assert forall i :: 0 <= i < |init| ==> init[i] == runs[i];
    }
  }

  /** Both ways in which the service looks a run up find attempt n of n. */
  lemma LookupsFindTheLast(runs: seq<Run>, a: AnalysisId)
    requires Linked(runs)
    ensures Newest(runs, a) == LastRun(runs, a)
    ensures OnlyLastActive(runs) ==> ActiveOrLatest(runs, a) == LastRun(runs, a)
    ensures OnlyLastActive(runs) && HasActive(runs, a) ==> ActiveRun(runs, a) == LastRun(runs, a)
  {
    LastCountsAll(runs, a);
    var last := LastRun(runs, a);
    var best := ActiveOrLatest(runs, a);
    if last.Some? {
      assert !RanksBelow(runs[best.value], runs[last.value]);
    }
  }

  ghost predicate SameShape(runs: seq<Run>, runs': seq<Run>) {
    |runs| == |runs'|
    && forall i :: 0 <= i < |runs| ==>
         runs'[i] == runs[i].(state := runs'[i].state, version := runs'[i].version)
  }

  lemma {:induction false} ShapeKeepsCounts(runs: seq<Run>, runs': seq<Run>, a: AnalysisId)
    requires SameShape(runs, runs')
    ensures CountRuns(runs', a) == CountRuns(runs, a) && LastRun(runs', a) == LastRun(runs, a)
  {
    if runs != [] {
      var n := |runs| - 1;
      assert forall i :: 0 <= i < n ==> runs[..n][i] == runs[i] && runs'[..n][i] == runs'[i];
      ShapeKeepsCounts(runs[..n], runs'[..n], a);
    }
  }

  lemma ShapeKeepsLinks(runs: seq<Run>, runs': seq<Run>)
    requires SameShape(runs, runs') && Linked(runs)
    ensures Linked(runs')
  {
    forall i | 0 <= i < |runs'| ensures LinkedAt(runs', i) {
      assert LinkedAt(runs, i);
      assert forall j :: 0 <= j < i ==> runs[..i][j] == runs[j] && runs'[..i][j] == runs'[j];
      ShapeKeepsCounts(runs[..i], runs'[..i], runs[i].analysis);
    }
  }

  lemma AppendKeepsLinks(runs: seq<Run>, run: Run)
    requires Linked(runs)
    requires run.attempt == CountRuns(runs, run.analysis) + 1 && run.previous == LastRun(runs, run.analysis)
    ensures Linked(runs + [run])
  {
    var longer := runs + [run];
    assert longer[..|runs|] == runs;
    forall i | 0 <= i < |longer| ensures LinkedAt(longer, i) {
      if i < |runs| {
        assert LinkedAt(runs, i);
        assert longer[..i] == runs[..i];
      }
    }
  }

  // ---------------------------------------------------------------- the event log

  datatype Replayed = Fresh | At(state: State, version: nat) | Broken

  /** Runs go up one version at a time; analyses have versions without events. */
  predicate Follows(subject: Subject, before: nat, version: nat) {
    if subject.OnRun? then version == before + 1 else version > before
  }

  function Extend(r: Replayed, e: Event): Replayed {
    match r
    case Fresh => if e.previous == None && e.version == 1 then At(e.state, 1) else Broken
    case At(s, v) => if e.previous == Some(s) && Follows(e.subject, v, e.version) then At(e.state, e.version)
      else Broken
    case Broken => Broken
  }

  /** Rebuilding a run or an analysis from the log alone. */
  function Replay(log: seq<Event>, subject: Subject): Replayed {
    if log == [] then Fresh
    else
      var before := Replay(log[..|log| - 1], subject);
      if log[|log| - 1].subject == subject then Extend(before, log[|log| - 1]) else before
  }

  lemma ReplaySnoc(log: seq<Event>, e: Event, subject: Subject)
    ensures Replay(log + [e], subject) == if e.subject == subject then Extend(Replay(log, subject), e)
            else Replay(log, subject)
  {
    assert (log + [e])[..|log|] == log;
  }

  lemma {:induction false} UnmentionedIsFresh(log: seq<Event>, subject: Subject)
    requires forall i :: 0 <= i < |log| ==> log[i].subject != subject
    ensures Replay(log, subject) == Fresh
  {
    if log != [] { UnmentionedIsFresh(log[..|log| - 1], subject); }
  }

  // ---------------------------------------------------------------- the invariant

  predicate IsLive(db: Db, a: AnalysisId) { a in db.analyses && db.analyses[a].lifecycle == Live }

  predicate Exists(db: Db, subject: Subject) {
    match subject
    case OnAnalysis(a) => a in db.analyses
    case OnRun(r) => r < |db.runs|
  }

  ghost predicate RunsOwned(db: Db) { forall i :: 0 <= i < |db.runs| ==> db.runs[i].analysis in db.analyses }

  ghost predicate LogMentionsRows(db: Db) { forall i :: 0 <= i < |db.events| ==> Exists(db, db.events[i].subject) }

  /** The log rebuilds the run; only the cancellation of a deleted match leaves no event. */
  ghost predicate RunLogged(db: Db, r: RunId)
    requires r < |db.runs|
  {
    var run := db.runs[r];
    match Replay(db.events, OnRun(r))
    case At(s, v) => v == run.version
      && (s == run.state || (Active(s) && run.state == Cancelled && !IsLive(db, run.analysis)))
    case _ => false
  }

  ghost predicate AnalysisLogged(db: Db, a: AnalysisId)
    requires a in db.analyses
  {
    match Replay(db.events, OnAnalysis(a))
    case At(s, v) => s == db.analyses[a].state && 1 <= v <= db.analyses[a].version
    case _ => false
  }

  ghost predicate RunsLogged(db: Db) { forall r :: 0 <= r < |db.runs| ==> RunLogged(db, r) }
  ghost predicate AnalysesLogged(db: Db) { forall a :: a in db.analyses ==> AnalysisLogged(db, a) }

  ghost predicate PromotedOk(db: Db, a: AnalysisId)
    requires a in db.analyses
  {
    var p := db.analyses[a].promoted;
    p.Some? ==> p.value < |db.runs| && db.runs[p.value].analysis == a && db.runs[p.value].state == Completed
  }

  ghost predicate RowOk(db: Db, a: AnalysisId)
    requires a in db.analyses
  {
    var row := db.analyses[a];
    PromotedOk(db, a) && AnalysisState(row.state)
    && row.video < |db.videos| && db.videos[row.video].owner == row.owner
    && (row.lifecycle == DeletionPending ==> !HasActive(db.runs, a) && db.videos[row.video].state == Deleting)
  }

  ghost predicate RowsOk(db: Db) { forall a :: a in db.analyses ==> RowOk(db, a) }

  ghost predicate VideosUnshared(db: Db) {
    forall a, b :: a in db.analyses && b in db.analyses && a != b ==> db.analyses[a].video != db.analyses[b].video
  }

  ghost predicate ResourceOk(db: Db, key: RecordKey, resource: Resource) {
    match resource
    case OfRun(r) => key.scope == RunStartScope && r < |db.runs| && db.runs[r].analysis in db.analyses
                     && db.analyses[db.runs[r].analysis].owner == key.owner
    case _ => key.scope == UploadScope && resource.analysis in db.analyses
              && db.analyses[resource.analysis].owner == key.owner
  }

  ghost predicate RecordOk(db: Db, key: RecordKey)
    requires key in db.records
  {
    db.records[key].resource.Some? && ResourceOk(db, key, db.records[key].resource.value)
  }

  ghost predicate RecordsOk(db: Db) { forall k :: k in db.records ==> RecordOk(db, k) }

  ghost predicate Inv(db: Db) {
    Linked(db.runs) && OnlyLastActive(db.runs) && RunsOwned(db) && LogMentionsRows(db) && RunsLogged(db)
    && AnalysesLogged(db) && RowsOk(db) && VideosUnshared(db) && RecordsOk(db) && Unique(db.artifacts)
  }

  // ---------------------------------------------------------------- what never goes back

  /** Where a run can still go; the four ends lead nowhere. */
  predicate StateReach(s: State, t: State) {
    s == t || (s == Queued && t != Pending) || (s == Processing && t != Pending && t != Queued)
  }

  predicate RunAdvance(p: Run, q: Run) {
    q == p.(state := q.state, version := q.version) && p.version <= q.version && StateReach(p.state, q.state)
    && (!Active(p.state) ==> q == p)
  }

  predicate RowAdvance(p: Analysis, q: Analysis) {
    q.owner == p.owner && q.video == p.video && q.sport == p.sport && q.createdAt == p.createdAt
    && p.version <= q.version && (p.promoted.Some? ==> q.promoted.Some?)
    && (q.state != p.state || q.payload != p.payload || q.lifecycle != p.lifecycle ==> p.version < q.version)
    && (p.lifecycle == DeletionPending ==> q == p.(version := q.version))
  }

  predicate VideoAdvance(p: Video, q: Video) { q.owner == p.owner && (p.state == Deleting ==> q == p) }

  ghost predicate RunsAdvance(runs: seq<Run>, runs': seq<Run>) {
    |runs| <= |runs'| && forall i :: 0 <= i < |runs| ==> RunAdvance(runs[i], runs'[i])
  }

  ghost predicate RowsAdvance(rows: map<AnalysisId, Analysis>, rows': map<AnalysisId, Analysis>) {
    forall a :: a in rows ==> a in rows' && RowAdvance(rows[a], rows'[a])
  }

  ghost predicate VideosAdvance(videos: seq<Video>, videos': seq<Video>) {
    |videos| <= |videos'| && forall i :: 0 <= i < |videos| ==> VideoAdvance(videos[i], videos'[i])
  }

  ghost predicate RecordsKept(records: map<RecordKey, Record>, records': map<RecordKey, Record>) {
    forall k :: k in records ==> k in records' && records'[k] == records[k]
  }

  predicate About(runs: seq<Run>, subject: Subject, a: AnalysisId) {
    match subject
    case OnAnalysis(b) => b == a
    case OnRun(r) => r < |runs| && runs[r].analysis == a
  }

  /** Nothing more is written under a deleted match: no run, no event, no artifact. */
  ghost predicate Quiet(db: Db, db': Db, a: AnalysisId)
    requires |db.runs| <= |db'.runs| && |db.events| <= |db'.events| && |db.artifacts| <= |db'.artifacts|
  {
    (forall i :: |db.runs| <= i < |db'.runs| ==> db'.runs[i].analysis != a)
    && (forall i :: |db.events| <= i < |db'.events| ==> !About(db'.runs, db'.events[i].subject, a))
    && (forall i :: 0 <= i < |db.artifacts| && db.artifacts[i].analysis == a ==> db'.artifacts[i] == db.artifacts[i])
    && (forall i :: |db.artifacts| <= i < |db'.artifacts| ==> db'.artifacts[i].analysis != a)
  }

  ghost predicate Step(db: Db, db': Db) {
    RunsAdvance(db.runs, db'.runs) && RowsAdvance(db.analyses, db'.analyses) && VideosAdvance(db.videos, db'.videos)
    && RecordsKept(db.records, db'.records) && db.events <= db'.events && AppendOnly(db.artifacts, db'.artifacts)
    && forall a :: a in db.analyses && !IsLive(db, a) ==> Quiet(db, db', a)
  }

  ghost predicate Goal(db: Db, db': Db) { Inv(db') && Step(db, db') }

  lemma StepRefl(db: Db)
    ensures Step(db, db)
  {}

  lemma QuietTrans(p: Db, q: Db, r: Db, a: AnalysisId)
    requires RunsAdvance(p.runs, q.runs) && RunsAdvance(q.runs, r.runs) && p.events <= q.events && q.events <= r.events
    requires AppendOnly(p.artifacts, q.artifacts) && AppendOnly(q.artifacts, r.artifacts) && LogMentionsRows(q)
    requires Quiet(p, q, a) && Quiet(q, r, a)
    ensures Quiet(p, r, a)
  {
    forall i | |p.events| <= i < |r.events| ensures !About(r.runs, r.events[i].subject, a) {
      if i < |q.events| { assert r.events[i] == q.events[i]; }
    }
  }

  lemma StepTrans(p: Db, q: Db, r: Db)
    requires Goal(p, q) && Goal(q, r)
    ensures Goal(p, r)
  {
    hide Linked, OnlyLastActive, RunsLogged, AnalysesLogged, RowsOk, VideosUnshared;
    hide RecordsOk, Unique, Quiet, LogMentionsRows;
    forall a | a in p.analyses && !IsLive(p, a) ensures |p.artifacts| <= |r.artifacts| && Quiet(p, r, a) {
      assert RowAdvance(p.analyses[a], q.analyses[a]);
      QuietTrans(p, q, r, a);
    }
    AppendOnlyTrans(p.artifacts, q.artifacts, r.artifacts);
    hide AppendOnly;
    forall i | 0 <= i < |p.runs| ensures RunAdvance(p.runs[i], r.runs[i]) {
      assert RunAdvance(p.runs[i], q.runs[i]) && RunAdvance(q.runs[i], r.runs[i]);
    }
    forall a | a in p.analyses ensures a in r.analyses && RowAdvance(p.analyses[a], r.analyses[a]) {
      assert RowAdvance(p.analyses[a], q.analyses[a]) && RowAdvance(q.analyses[a], r.analyses[a]);
    }
    forall i | 0 <= i < |p.videos| ensures VideoAdvance(p.videos[i], r.videos[i]) {
      assert VideoAdvance(p.videos[i], q.videos[i]) && VideoAdvance(q.videos[i], r.videos[i]);
    }
  }
}
