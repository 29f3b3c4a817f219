/** Optional stage attempts and the artifacts they register: completing one attempt withdraws what
    every other attempt of the stage left behind. */
module StageExecutions {
  import opened Common
  import opened ArtifactRegistry
  import opened StageKeys

  type ExecutionId = nat

  datatype StageState = Queued | Processing | Completed | Failed | Cancelled | Stale | Unavailable

  datatype Execution = Execution(analysis: AnalysisId, stage: string, attempt: nat, state: StageState, version: nat)

  /** The analyses of one owner that are live, the attempts and the artifact table. */
  datatype Store = Store(live: set<AnalysisId>, executions: seq<Execution>, artifacts: Table)

  datatype Error = NotFound | InvalidValue | InvalidTransition | ConcurrentChange | IntegrityViolation
  datatype Reply = Attempted(execution: ExecutionId, state: StageState, version: nat, created: bool)
    | Registered(ids: seq<nat>) | Done | Raised(error: Error)
  datatype Outcome = Outcome(store: Store, reply: Reply)

  predicate Active(s: StageState) { s == Queued || s == Processing }

  predicate SameStage(e: Execution, a: AnalysisId, stage: string) { e.analysis == a && e.stage == stage }

  /** The active attempt of a stage. */
  function ActiveAttempt(es: seq<Execution>, a: AnalysisId, stage: string): (r: Option<ExecutionId>)
    ensures r.Some? ==> r.value < |es| && SameStage(es[r.value], a, stage) && Active(es[r.value].state)
    ensures r.None? ==> forall i :: 0 <= i < |es| && SameStage(es[i], a, stage) ==> !Active(es[i].state)
  {
    if es == [] then None
    else if SameStage(es[|es| - 1], a, stage) && Active(es[|es| - 1].state) then Some(|es| - 1)
    else ActiveAttempt(es[..|es| - 1], a, stage)
  }

  /** The greatest attempt number of a stage, zero if it was never tried. */
  function LatestAttempt(es: seq<Execution>, a: AnalysisId, stage: string): (n: nat)
    ensures forall i :: 0 <= i < |es| && SameStage(es[i], a, stage) ==> es[i].attempt <= n
    ensures n == 0 || exists i :: 0 <= i < |es| && SameStage(es[i], a, stage) && es[i].attempt == n
  {
    if es == [] then 0
    else
      var rest := LatestAttempt(es[..|es| - 1], a, stage);
      var last := es[|es| - 1];
      if SameStage(last, a, stage) && last.attempt > rest then last.attempt else rest
  }

  function StartTx(s: Store, a: AnalysisId, stage: string, state: StageState): Outcome {
    if !Active(state) || !ValidStage(stage) then Outcome(s, Raised(InvalidValue))
    else if a !in s.live then Outcome(s, Raised(NotFound))
    else
      match ActiveAttempt(s.executions, a, stage)
      case Some(e) => Outcome(s, Attempted(e, s.executions[e].state, s.executions[e].version, false))
      case None =>
        var row := Execution(a, stage, LatestAttempt(s.executions, a, stage) + 1, state, 1);
        Outcome(s.(executions := s.executions + [row]), Attempted(|s.executions|, state, 1, true))
  }

  predicate TransitionAllowed(from: StageState, to: StageState) {
    match from
    case Queued => to == Processing || to == Cancelled || to == Unavailable
    case Processing => to == Completed || to == Failed || to == Cancelled || to == Stale || to == Unavailable
    case _ => false
  }

  /** Rows registered by the other attempts of a stage stop being current. */
  function RetireOthers(t: Table, es: seq<Execution>, e: ExecutionId): (r: Table)
    requires e < |es|
    ensures |r| == |t|
  {
    seq(|t|, i requires 0 <= i < |t| => if FromOther(t[i], es, e) then t[i].(current := false) else t[i])
  }

  predicate FromOther(row: Artifact, es: seq<Execution>, e: ExecutionId)
    requires e < |es|
  {
    row.stage.Some? && row.stage.value < |es| && row.stage.value != e
    && SameStage(es[row.stage.value], es[e].analysis, es[e].stage)
  }

  function TransitionTx(s: Store, e: ExecutionId, expected: nat, to: StageState, categorized: bool): Outcome {
    if to == Failed && !categorized then Outcome(s, Raised(InvalidValue))
    else if e >= |s.executions| then Outcome(s, Raised(NotFound))
    else
      var row := s.executions[e];
      if row.state == to then Outcome(s, Attempted(e, row.state, row.version, false))
      else if !TransitionAllowed(row.state, to) then Outcome(s, Raised(InvalidTransition))
      else if row.version != expected then Outcome(s, Raised(ConcurrentChange))
      else
        var executions := s.executions[e := row.(state := to, version := expected + 1)];
        Outcome(s.(executions := executions,
                   artifacts := if to == Completed then RetireOthers(s.artifacts, executions, e) else s.artifacts),
                Attempted(e, to, expected + 1, false))
  }

  predicate AllUnder(inputs: seq<ArtifactInput>, prefix: string) {
    forall i :: 0 <= i < |inputs| ==> prefix <= inputs[i].Key()
  }

  function RegisterTx(s: Store, e: ExecutionId, run: Option<nat>, inputs: seq<ArtifactInput>): Outcome {
    if e >= |s.executions| then Outcome(s, Raised(NotFound))
    else
      var row := s.executions[e];
      if !Active(row.state) then Outcome(s, Raised(InvalidTransition))
      else if !AllUnder(inputs, Prefix(row.stage, row.attempt)) then Outcome(s, Raised(InvalidValue))
      else if row.analysis !in s.live then Outcome(s, Raised(NotFound))
      else
        match RegisterAll(s.artifacts, row.analysis, run, Some(e), inputs)
        case None => Outcome(s, Raised(IntegrityViolation))
        case Some(done) => Outcome(s.(artifacts := done.0), Registered(done.1))
  }

  /** What saves of the whole job do to the same table: withdrawals and registrations of no stage. */
  function SaveTx(s: Store, a: AnalysisId, prefixes: seq<string>, run: Option<nat>, inputs: seq<ArtifactInput>)
      : Outcome {
    if a !in s.live then Outcome(s, Raised(NotFound))
    else
      match RegisterAll(Withdraw(s.artifacts, a, prefixes), a, run, None, inputs)
      case None => Outcome(s, Raised(IntegrityViolation))
      case Some(done) => Outcome(s.(artifacts := done.0), Done)
  }

  datatype Call =
    | Admit(analysis: AnalysisId)
    | Start(analysis: AnalysisId, stage: string, state: StageState)
    | Transition(execution: ExecutionId, expected: nat, to: StageState, categorized: bool)
    | Register(execution: ExecutionId, run: Option<nat>, inputs: seq<ArtifactInput>)
    | Save(analysis: AnalysisId, prefixes: seq<string>, run: Option<nat>, inputs: seq<ArtifactInput>)

  function Exec(s: Store, call: Call): Outcome {
    match call
    case Admit(a) => Outcome(s.(live := s.live + {a}), Done)
    case Start(a, stage, state) => StartTx(s, a, stage, state)
    case Transition(e, expected, to, categorized) => TransitionTx(s, e, expected, to, categorized)
    case Register(e, run, inputs) => RegisterTx(s, e, run, inputs)
    case Save(a, prefixes, run, inputs) => SaveTx(s, a, prefixes, run, inputs)
  }

  function RunAll(s: Store, calls: seq<Call>): Store
    decreases |calls|
  {
    if calls == [] then s else RunAll(Exec(s, calls[0]).store, calls[1..])
  }

  const EMPTY := Store({}, [], [])

  // ---------------------------------------------------------------- the invariant

  /** Later attempts of a stage have greater numbers, and only the last can be active. */
  ghost predicate Ordered(p: Execution, q: Execution) {
    SameStage(p, q.analysis, q.stage) ==> p.attempt < q.attempt && !Active(p.state)
  }

  ghost predicate AttemptsOk(es: seq<Execution>) {
    (forall i, j :: 0 <= i < j < |es| ==> Ordered(es[i], es[j]))
    && forall i :: 0 <= i < |es| ==> es[i].attempt >= 1 && ValidStage(es[i].stage)
  }

  /** A current stage artifact belongs to an attempt of its analysis that no later completed attempt
      of the stage has superseded. */
  ghost predicate RowOk(row: Artifact, es: seq<Execution>) {
    row.current && row.stage.Some? ==>
      row.stage.value < |es| && es[row.stage.value].analysis == row.analysis
      && forall e ::
           row.stage.value < e < |es| && SameStage(es[e], es[row.stage.value].analysis, es[row.stage.value].stage) ==>
             es[e].state != Completed
  }

  ghost predicate Inv(s: Store) {
    AttemptsOk(s.executions) && Unique(s.artifacts)
    && forall i :: 0 <= i < |s.artifacts| ==> RowOk(s.artifacts[i], s.executions)
  }

  lemma ActiveIsLast(es: seq<Execution>, e: ExecutionId, f: ExecutionId)
    requires AttemptsOk(es) && e < |es| && Active(es[e].state) && e < f < |es|
    ensures !SameStage(es[f], es[e].analysis, es[e].stage)
  {
    assert Ordered(es[e], es[f]);
  }

  lemma StartKeeps(s: Store, a: AnalysisId, stage: string, state: StageState)
    requires Inv(s)
    ensures Inv(StartTx(s, a, stage, state).store)
  {
    var s' := StartTx(s, a, stage, state).store;
    if s' != s {
      var n := |s.executions|;
      assert s'.executions[..n] == s.executions;
      hide ValidStage;
      forall i, j | 0 <= i < j < |s'.executions| ensures Ordered(s'.executions[i], s'.executions[j]) {
        if j < n { assert Ordered(s.executions[i], s.executions[j]); }
      }
      forall i | 0 <= i < |s'.artifacts| ensures RowOk(s'.artifacts[i], s'.executions) {
        assert RowOk(s.artifacts[i], s.executions);
      }
    }
  }

  lemma RetiringKeepsUnique(t: Table, es: seq<Execution>, e: ExecutionId)
    requires Unique(t) && e < |es|
    ensures Unique(RetireOthers(t, es, e))
  {
    var r := RetireOthers(t, es, e);
    forall i, j | 0 <= i < j < |r| && r[i].current && r[j].current ensures Compatible(r[i], r[j]) {
      assert Compatible(t[i], t[j]);
    }
  }

  lemma TransitionKeeps(s: Store, e: ExecutionId, expected: nat, to: StageState, categorized: bool)
    requires Inv(s)
    ensures Inv(TransitionTx(s, e, expected, to, categorized).store)
  {
    var s' := TransitionTx(s, e, expected, to, categorized).store;
    if s' != s {
      var es := s.executions;
      var es' := s'.executions;
      RetiringKeepsUnique(s.artifacts, es', e);
      hide ValidStage, Unique;
      forall i, j | 0 <= i < j < |es'| ensures Ordered(es'[i], es'[j]) { assert Ordered(es[i], es[j]); }
      forall i | 0 <= i < |s'.artifacts| ensures RowOk(s'.artifacts[i], es') {
        assert RowOk(s.artifacts[i], es);
        assert es'[e].analysis == es[e].analysis && es'[e].stage == es[e].stage;
      }
    }
  }

  /** Rows up to n are kept or retired, and the rows after them belong to an analysis and a stage. */
  ghost predicate Extends(t: Table, r: Table, a: AnalysisId, stage: Option<nat>) {
    AppendOnly(t, r) && forall i :: |t| <= i < |r| ==> r[i].analysis == a && r[i].stage == stage
  }

  lemma OneRegisteredRow(t: Table, a: AnalysisId, run: Option<nat>, stage: Option<nat>, input: ArtifactInput)
    requires RegisterOne(t, a, run, stage, input).Some?
    ensures Extends(t, RegisterOne(t, a, run, stage, input).value.0, a, stage)
  {
    hide StorageTaken;
  }

  lemma ExtendsTrans(t: Table, m: Table, r: Table, a: AnalysisId, stage: Option<nat>)
    requires Extends(t, m, a, stage) && Extends(m, r, a, stage)
    ensures Extends(t, r, a, stage)
  {
    AppendOnlyTrans(t, m, r);
  }

  /** Registered rows carry the stage they were registered for. */
  lemma {:induction false} RegisteredRows(t: Table, a: AnalysisId, run: Option<nat>, stage: Option<nat>,
                                          inputs: seq<ArtifactInput>)
    requires RegisterAll(t, a, run, stage, inputs).Some?
    ensures Extends(t, RegisterAll(t, a, run, stage, inputs).value.0, a, stage)
  {
    if inputs != [] {
      RegisteredRows(t, a, run, stage, inputs[..|inputs| - 1]);
      var done := RegisterAll(t, a, run, stage, inputs[..|inputs| - 1]).value.0;
      var last := inputs[|inputs| - 1];
      OneRegisteredRow(done, a, run, stage, last);
      hide Extends, RegisterOne;
      ExtendsTrans(t, done, RegisterOne(done, a, run, stage, last).value.0, a, stage);
    }
  }

  lemma RegisterKeeps(s: Store, e: ExecutionId, run: Option<nat>, inputs: seq<ArtifactInput>)
    requires Inv(s)
    ensures Inv(RegisterTx(s, e, run, inputs).store)
  {
    hide RegisterAll, AllUnder, Prefix;
    var s' := RegisterTx(s, e, run, inputs).store;
    if s' != s {
      RegisteredRows(s.artifacts, s.executions[e].analysis, run, Some(e), inputs);
      RegistrationRefinesMap(s.artifacts, s.executions[e].analysis, run, Some(e), inputs);
      hide Unique, View;
      forall i | 0 <= i < |s'.artifacts| ensures RowOk(s'.artifacts[i], s'.executions) {
        if i < |s.artifacts| {
          assert RowOk(s.artifacts[i], s.executions);
        } else {
          forall f | e < f < |s.executions|
            ensures !SameStage(s.executions[f], s.executions[e].analysis, s.executions[e].stage)
          {
            ActiveIsLast(s.executions, e, f);
          }
        }
      }
    }
  }

  lemma SaveKeeps(s: Store, a: AnalysisId, prefixes: seq<string>, run: Option<nat>, inputs: seq<ArtifactInput>)
    requires Inv(s)
    ensures Inv(SaveTx(s, a, prefixes, run, inputs).store)
  {
    hide RegisterAll, AttemptsOk, Like;
    var s' := SaveTx(s, a, prefixes, run, inputs).store;
    if s' != s {
      var mid := Withdraw(s.artifacts, a, prefixes);
      WithdrawalHidesPrefixes(s.artifacts, a, prefixes);
      RegisteredRows(mid, a, run, None, inputs);
      RegistrationRefinesMap(mid, a, run, None, inputs);
      hide Unique, View;
      forall i | 0 <= i < |s'.artifacts| ensures RowOk(s'.artifacts[i], s'.executions) {
        if i < |s.artifacts| { assert RowOk(s.artifacts[i], s.executions); }
      }
    }
  }

  lemma CallKeeps(s: Store, call: Call)
    requires Inv(s)
    ensures Inv(Exec(s, call).store)
  {
    hide StartTx, TransitionTx, RegisterTx, SaveTx;
    match call
    case Admit(a) =>
    case Start(a, stage, state) => StartKeeps(s, a, stage, state);
    case Transition(e, expected, to, categorized) => TransitionKeeps(s, e, expected, to, categorized);
    case Register(e, run, inputs) => RegisterKeeps(s, e, run, inputs);
    case Save(a, prefixes, run, inputs) => SaveKeeps(s, a, prefixes, run, inputs);
  }

  lemma {:induction false} RunKeeps(s: Store, calls: seq<Call>)
    requires Inv(s)
    ensures Inv(RunAll(s, calls))
    decreases |calls|
  {
    if calls != [] {
      CallKeeps(s, calls[0]);
      hide Inv, Exec;
      RunKeeps(Exec(s, calls[0]).store, calls[1..]);
    }
  }

  ghost predicate Reachable(s: Store) { exists calls :: s == RunAll(EMPTY, calls) }

  lemma {:induction false} RunAllAppend(s: Store, calls: seq<Call>, call: Call)
    ensures RunAll(s, calls + [call]) == Exec(RunAll(s, calls), call).store
    decreases |calls|
  {
    hide Exec;
    if calls == [] {
      assert ([call])[1..] == [];
      assert calls + [call] == [call];
    } else {
      RunAllAppend(Exec(s, calls[0]).store, calls[1..], call);
      assert (calls + [call])[1..] == calls[1..] + [call];
    }
  }

  lemma NextReachable(s: Store, call: Call)
    requires Reachable(s)
    ensures Reachable(Exec(s, call).store)
  {
    var calls :| s == RunAll(EMPTY, calls);
    RunAllAppend(EMPTY, calls, call);
    hide Exec, RunAll;
  }

  /** In every reachable state no current artifact belongs to an attempt older than a completed
      attempt of the same stage: readers never mix an old attempt with a newer finished one. */
  lemma CompletedAttemptsSupersede(s: Store, e: ExecutionId, d: ExecutionId, i: nat)
    requires Reachable(s) && e < |s.executions| && d < |s.executions| && i < |s.artifacts|
    requires SameStage(s.executions[d], s.executions[e].analysis, s.executions[e].stage)
    requires s.executions[e].state == Completed && s.executions[d].attempt < s.executions[e].attempt
    requires s.artifacts[i].stage == Some(d)
    ensures !s.artifacts[i].current
  {
    var calls :| s == RunAll(EMPTY, calls);
    RunKeeps(EMPTY, calls);
    assert RowOk(s.artifacts[i], s.executions);
    if e < d { assert Ordered(s.executions[e], s.executions[d]); }
  }

  /** Registering for one attempt leaves alone whatever lies under the prefix of any other: no key
      belongs to two attempts. */
  lemma RegistrationKeepsToItsAttempt(s: Store, e: ExecutionId, run: Option<nat>, inputs: seq<ArtifactInput>,
                                      stage: string, attempt: nat, a: AnalysisId, key: string)
    requires Reachable(s) && e < |s.executions| && ValidStage(stage) && Prefix(stage, attempt) <= key
    requires stage != s.executions[e].stage || attempt != s.executions[e].attempt
    ensures View(RegisterTx(s, e, run, inputs).store.artifacts, a, key) == View(s.artifacts, a, key)
  {
    var out := RegisterTx(s, e, run, inputs);
    var row := s.executions[e];
    var calls :| s == RunAll(EMPTY, calls);
    RunKeeps(EMPTY, calls);
    assert ValidStage(row.stage);
    if out.reply.Registered? {
      hide Inv, RegisterAll, ValidStage, Prefix, RunAll;
      RegistrationRefinesMap(s.artifacts, row.analysis, run, Some(e), inputs);
      LastInputOf(inputs, key);
      if LastInput(inputs, key).Some? {
        var i :| 0 <= i < |inputs| && inputs[i].Key() == key;
        PrefixesAreDisjoint(key, row.stage, row.attempt, stage, attempt);
        assert false;
      }
    }
  }
}
