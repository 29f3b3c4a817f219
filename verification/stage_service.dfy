/** The stage half of the persistence service as it runs. */
module StageService {
  import opened Common
  import opened ArtifactRegistry
  import opened StageKeys
  import opened StageExecutions

  class StageExecutionService {
    var live: set<AnalysisId>
    var executions: seq<Execution>
    var artifacts: Table

    constructor ()
      ensures Now() == EMPTY && Reachable(Now())
    {
      live, executions, artifacts := {}, [], [];
      new;
      assert Now() == RunAll(EMPTY, []);
    }

    function Now(): Store
      reads this
    {
      Store(live, executions, artifacts)
    }

    method StartStageExecution(a: AnalysisId, stage: string, state: StageState) returns (reply: Reply)
      modifies this`executions
      ensures Outcome(Now(), reply) == StartTx(old(Now()), a, stage, state)
    {
      if !Active(state) || !ValidStage(stage) {
        return Raised(InvalidValue);
      }
      if a !in live {
        return Raised(NotFound);
      }
      var active := ActiveAttempt(executions, a, stage);
      if active.Some? {
        return Attempted(active.value, executions[active.value].state, executions[active.value].version, false);
      }
      executions := executions + [Execution(a, stage, LatestAttempt(executions, a, stage) + 1, state, 1)];
      return Attempted(|executions| - 1, state, 1, true);
    }

    /** Completion walks the table and retires the rows of the stage's other attempts. */
    method TransitionStageExecution(e: ExecutionId, expected: nat, to: StageState, categorized: bool)
        returns (reply: Reply)
      modifies this`executions, this`artifacts
      ensures Outcome(Now(), reply) == TransitionTx(old(Now()), e, expected, to, categorized)
    {
      if to == Failed && !categorized {
        return Raised(InvalidValue);
      }
      if e >= |executions| {
        return Raised(NotFound);
      }
      var row := executions[e];
      if row.state == to {
        return Attempted(e, row.state, row.version, false);
      }
      if !TransitionAllowed(row.state, to) {
        return Raised(InvalidTransition);
      }
      if row.version != expected {
        return Raised(ConcurrentChange);
      }
      executions := executions[e := row.(state := to, version := expected + 1)];
      if to == Completed {
        RetireOtherAttempts(e);
      }
      return Attempted(e, to, expected + 1, false);
    }

    method RetireOtherAttempts(e: ExecutionId)
      requires e < |executions|
      modifies this`artifacts
      ensures artifacts == RetireOthers(old(artifacts), executions, e)
    {
      hide RetireOthers;
      ghost var goal := RetireOthers(artifacts, executions, e);
      for i := 0 to |artifacts|
        invariant |artifacts| == |goal| == |old(artifacts)|
        invariant forall j :: 0 <= j < i ==> artifacts[j] == goal[j]
        invariant forall j :: i <= j < |artifacts| ==> artifacts[j] == old(artifacts)[j]
      {
        RetiredAt(old(artifacts), executions, e, i);
        if FromOther(artifacts[i], executions, e) {
          artifacts := artifacts[i := artifacts[i].(current := false)];
        }
      }
      assert artifacts == goal;
    }

    method RegisterStageArtifacts(e: ExecutionId, run: Option<nat>, inputs: seq<ArtifactInput>) returns (reply: Reply)
      modifies this`artifacts
      ensures Outcome(Now(), reply) == RegisterTx(old(Now()), e, run, inputs)
    {
      if e >= |executions| {
        return Raised(NotFound);
      }
      var row := executions[e];
      if !Active(row.state) {
        return Raised(InvalidTransition);
      }
      if !AllUnder(inputs, Prefix(row.stage, row.attempt)) {
        return Raised(InvalidValue);
      }
      if row.analysis !in live {
        return Raised(NotFound);
      }
      var registered := RegisterArtifacts(artifacts, row.analysis, run, Some(e), inputs);
      if registered.None? {
        return Raised(IntegrityViolation);
      }
      artifacts := registered.value.0;
      return Registered(registered.value.1);
    }

    /** What saves of the whole job do to the table: withdraw, then register for no stage. */
    method SaveArtifacts(a: AnalysisId, prefixes: seq<string>, run: Option<nat>, inputs: seq<ArtifactInput>)
      returns (reply: Reply)
      modifies this`artifacts
      ensures Outcome(Now(), reply) == SaveTx(old(Now()), a, prefixes, run, inputs)
    {
      if a !in live {
        return Raised(NotFound);
      }
      var registered := RegisterArtifacts(Withdraw(artifacts, a, prefixes), a, run, None, inputs);
      if registered.None? {
        return Raised(IntegrityViolation);
      }
      artifacts := registered.value.0;
      return Done;
    }

    /** Any call of the protocol: the service takes exactly the protocol's step, so that whatever holds
        in every reachable store holds of the service after any calls. */
    method Serve(call: Call) returns (reply: Reply)
      requires Reachable(Now())
      modifies this
      ensures Outcome(Now(), reply) == Exec(old(Now()), call)
      ensures Reachable(Now())
    {
      hide Reachable, StartTx, TransitionTx, RegisterTx, SaveTx;
      NextReachable(Now(), call);
      match call
      case Admit(a) =>
        live := live + {a};
        reply := Done;
      case Start(a, stage, state) => reply := StartStageExecution(a, stage, state);
      case Transition(e, expected, to, categorized) => reply := TransitionStageExecution(e, expected, to, categorized);
      case Register(e, run, inputs) => reply := RegisterStageArtifacts(e, run, inputs);
      case Save(a, prefixes, run, inputs) => reply := SaveArtifacts(a, prefixes, run, inputs);
    }
  }

  lemma RetiredAt(t: Table, es: seq<Execution>, e: ExecutionId, i: nat)
    requires e < |es| && i < |t|
    ensures RetireOthers(t, es, e)[i] == if FromOther(t[i], es, e) then t[i].(current := false) else t[i]
  {}
}
