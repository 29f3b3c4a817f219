/** What each stage transaction answers and leaves behind, in the columns of the attempts and of the
    artifact table: what a completion retires and what it must leave current. */
module StageAnswers {
  import opened Common
  import opened ArtifactRegistry
  import opened ArtifactAnswers
  import opened StageKeys
  import opened StageExecutions

  // ---------------------------------------------------------------- keys

  /** The prefix of an attempt spells its number with at least four digits, zeros in front only up to four. */
  lemma PrefixSpellsTheAttempt(stage: string, attempt: nat) returns (digits: string)
    ensures Prefix(stage, attempt)
         == (if stage == "ball_tracking" then "ball/" else "stages/" + stage + "/") + "attempt-" + digits + "/"
    ensures |digits| >= 4 && Value(digits) == attempt && (|digits| > 4 ==> digits[0] != '0')
    ensures forall i :: 0 <= i < |digits| ==> '0' <= digits[i] <= '9'
  {
    digits := Padded(attempt);
    PaddedDigits(attempt);
    hide Padded, Value;
    var tail := ("attempt-" + digits) + "/" + "";
    assert tail == "attempt-" + digits + "/";
    if stage == "ball_tracking" {
      assert "ball" + "/" + tail == "ball/" + "attempt-" + digits + "/";
    } else {
      assert "stages" + "/" + (stage + "/" + tail) == "stages/" + stage + "/" + "attempt-" + digits + "/";
    }
  }

  lemma PaddedDigits(n: nat)
    ensures var d := Padded(n);
            |d| >= 4 && Value(d) == n && (|d| > 4 ==> d[0] != '0') && forall i :: 0 <= i < |d| ==> '0' <= d[i] <= '9'
  {
    PaddedValue(n);
    DigitsValue(n);
    LeadingDigit(n);
  }

  lemma {:induction false} LeadingDigit(n: nat)
    ensures n > 0 ==> Digits(n)[0] != '0'
    ensures |Digits(n)| >= 1
  {
    if n >= 10 { LeadingDigit(n / 10); }
  }

  // ---------------------------------------------------------------- attempts

  predicate AttemptOf(e: Execution, a: AnalysisId, stage: string) { e.analysis == a && e.stage == stage }

  predicate Open(e: Execution) { e.state == Queued || e.state == Processing }

  /** A lower-case letter, then up to 63 lower-case letters, digits or underscores. */
  predicate StageName(stage: string) {
    1 <= |stage| <= 64 && 'a' <= stage[0] <= 'z'
    && forall i :: 0 <= i < |stage| ==> 'a' <= stage[i] <= 'z' || (i > 0 && ('0' <= stage[i] <= '9' || stage[i] == '_'))
  }

  ghost predicate NumberedAfter(es: seq<Execution>, a: AnalysisId, stage: string, n: nat) {
    (forall i :: 0 <= i < |es| && AttemptOf(es[i], a, stage) ==> es[i].attempt < n)
    && (n == 1 || exists i :: 0 <= i < |es| && AttemptOf(es[i], a, stage) && es[i].attempt + 1 == n)
  }

  /** A start answers with the open attempt of the stage if there is one, and appends the next attempt
      exactly if there is none; a malformed request is refused before the match is looked up. */
  lemma StartAnswersExactly(s: Store, a: AnalysisId, stage: string, state: StageState)
    requires Reachable(s)
    ensures var out := StartTx(s, a, stage, state); var es := s.executions;
            if !((state == Queued || state == Processing) && StageName(stage))
               then out == Outcome(s, Raised(InvalidValue))
            else if a !in s.live then out == Outcome(s, Raised(NotFound))
            else
              (forall i :: 0 <= i < |es| && AttemptOf(es[i], a, stage) && Open(es[i]) ==>
                 out == Outcome(s, Attempted(i, es[i].state, es[i].version, false)))
              && ((forall i :: 0 <= i < |es| && AttemptOf(es[i], a, stage) ==> !Open(es[i])) ==>
                    out.reply == Attempted(|es|, state, 1, true) && |out.store.executions| == |es| + 1
                    && out.store == s.(executions := es + [out.store.executions[|es|]])
                    && NumberedAfter(es, a, stage, out.store.executions[|es|].attempt)
                    && out.store.executions[|es|]
                       == Execution(a, stage, out.store.executions[|es|].attempt, state, 1))
  {
    ReachableInv(s);
    var es := s.executions;
    forall i | 0 <= i < |es| && AttemptOf(es[i], a, stage) && Open(es[i])
      ensures ActiveAttempt(es, a, stage) == Some(i)
    {
      var e := ActiveAttempt(es, a, stage).value;
      assert !(e < i) && !(i < e);
    }
    assert AttemptsOk(es);
    hide Inv;
    assert StageName(stage) <==> ValidStage(stage);
  }

  lemma ReachableInv(s: Store)
    requires Reachable(s)
    ensures Inv(s)
  {
    var calls :| s == RunAll(EMPTY, calls);
    RunKeeps(EMPTY, calls);
    hide RunAll, Inv;
  }

  /** An attempt has number one or follows an earlier attempt of its stage. */
  ghost predicate Follows(es: seq<Execution>, j: nat) {
    j >= |es| || es[j].attempt == 1
    || exists i :: 0 <= i < j && AttemptOf(es[i], es[j].analysis, es[j].stage) && es[i].attempt + 1 == es[j].attempt
  }

  ghost predicate WithoutGaps(es: seq<Execution>) { forall j: nat :: Follows(es, j) }

  lemma GapsStayAway(s: Store, call: Call)
    requires WithoutGaps(s.executions)
    ensures WithoutGaps(Exec(s, call).store.executions)
  {
    var es := s.executions; var es' := Exec(s, call).store.executions;
    hide RegisterAll, Prefix, ValidStage;
    forall j: nat ensures Follows(es', j) {
      assert Follows(es, j);
      if j < |es| && es[j].attempt != 1 {
        var i :| 0 <= i < j && AttemptOf(es[i], es[j].analysis, es[j].stage) && es[i].attempt + 1 == es[j].attempt;
        assert AttemptOf(es'[i], es'[j].analysis, es'[j].stage) && es'[i].attempt + 1 == es'[j].attempt;
      } else if |es| == j < |es'| && LatestAttempt(es, call.analysis, call.stage) > 0 {
        var i :| 0 <= i < |es| && SameStage(es[i], call.analysis, call.stage)
                 && es[i].attempt == LatestAttempt(es, call.analysis, call.stage);
        assert AttemptOf(es'[i], es'[j].analysis, es'[j].stage) && es'[i].attempt + 1 == es'[j].attempt;
      }
    }
  }

  lemma {:induction false} RunStaysWithoutGaps(s: Store, calls: seq<Call>)
    requires WithoutGaps(s.executions)
    ensures WithoutGaps(RunAll(s, calls).executions)
    decreases |calls|
  {
    if calls != [] {
      GapsStayAway(s, calls[0]);
      hide WithoutGaps, Exec;
      RunStaysWithoutGaps(Exec(s, calls[0]).store, calls[1..]);
    }
  }

  /** In every reachable state the attempts of a stage are numbered from one without gaps. */
  lemma {:induction false} AttemptsAreNumbered(s: Store, j: ExecutionId, k: nat) returns (i: ExecutionId)
    requires Reachable(s) && j < |s.executions| && 1 <= k <= s.executions[j].attempt
    ensures i <= j && AttemptOf(s.executions[i], s.executions[j].analysis, s.executions[j].stage)
    ensures s.executions[i].attempt == k
    decreases j
  {
    var calls :| s == RunAll(EMPTY, calls);
    RunStaysWithoutGaps(EMPTY, calls);
    assert Follows(s.executions, j);
    hide RunAll;
    i := j;
    if k < s.executions[j].attempt {
      var p :| 0 <= p < j && AttemptOf(s.executions[p], s.executions[j].analysis, s.executions[j].stage)
               && s.executions[p].attempt + 1 == s.executions[j].attempt;
      i := AttemptsAreNumbered(s, p, k);
    }
  }

  /** The state machine of an attempt. */
  const PERMITTED: set<(StageState, StageState)> :=
    {(Queued, Processing), (Queued, Cancelled), (Queued, Unavailable), (Processing, Completed), (Processing, Failed),
     (Processing, Cancelled), (Processing, Stale), (Processing, Unavailable)}

  /** A transition: an uncategorized failure and an unknown attempt are refused first, the state the attempt
      is in is answered whatever version is named, and any other move needs a permitted pair and the current
      version. It rewrites state and version of the attempt; only a completion touches the artifacts. */
  lemma TransitionAnswersExactly(s: Store, e: ExecutionId, expected: nat, to: StageState, categorized: bool)
    ensures var out := TransitionTx(s, e, expected, to, categorized); var es := s.executions;
            if to == Failed && !categorized then out == Outcome(s, Raised(InvalidValue))
            else if e >= |es| then out == Outcome(s, Raised(NotFound))
            else if es[e].state == to then out == Outcome(s, Attempted(e, to, es[e].version, false))
            else if (es[e].state, to) !in PERMITTED then out == Outcome(s, Raised(InvalidTransition))
            else if es[e].version != expected then out == Outcome(s, Raised(ConcurrentChange))
            else
              out.reply == Attempted(e, to, expected + 1, false) && out.store.live == s.live
              && out.store.executions == es[e := es[e].(state := to, version := es[e].version + 1)]
              && (to != Completed ==> out.store.artifacts == s.artifacts)
  {}

  /** The row was registered by another attempt of the analysis and stage of e. */
  predicate FromAnotherAttempt(row: Artifact, es: seq<Execution>, e: ExecutionId)
    requires e < |es|
  {
    row.stage.Some? && row.stage.value < |es| && row.stage.value != e
    && es[row.stage.value].analysis == es[e].analysis && es[row.stage.value].stage == es[e].stage
  }

  /** The transition completes the attempt, as opposed to answering that it was completed before. */
  predicate Completes(s: Store, e: ExecutionId, expected: nat) {
    e < |s.executions| && s.executions[e].state == Processing && s.executions[e].version == expected
  }

  /** After a completion an artifact is current exactly if it was and does not carry the id of a different
      attempt of the same analysis and stage; nothing else of any row changes. */
  lemma CompletionRetiresExactly(s: Store, e: ExecutionId, expected: nat, categorized: bool, i: nat)
    requires Completes(s, e, expected) && i < |s.artifacts|
    ensures var t := TransitionTx(s, e, expected, Completed, categorized).store;
            |t.artifacts| == |s.artifacts|
            && (t.artifacts[i].current <==>
                  s.artifacts[i].current && !FromAnotherAttempt(s.artifacts[i], s.executions, e))
            && t.artifacts[i] == s.artifacts[i].(current := t.artifacts[i].current)
  {}

  // ---------------------------------------------------------------- what a completion shows

  /** A row with an attempt's id lies under the prefix of that attempt, in its analysis. */
  predicate AtHome(row: Artifact, es: seq<Execution>) {
    row.stage.Some? ==>
      row.stage.value < |es| && es[row.stage.value].analysis == row.analysis
      && Prefix(es[row.stage.value].stage, es[row.stage.value].attempt) <= row.key
  }

  ghost predicate AllAtHome(s: Store) { forall i :: 0 <= i < |s.artifacts| ==> AtHome(s.artifacts[i], s.executions) }

  predicate SameNames(es: seq<Execution>, es': seq<Execution>) {
    |es| <= |es'| && forall i :: 0 <= i < |es| ==>
      es'[i].analysis == es[i].analysis && es'[i].stage == es[i].stage && es'[i].attempt == es[i].attempt
  }

  lemma StaysAtHome(row: Artifact, row': Artifact, es: seq<Execution>, es': seq<Execution>)
    requires AtHome(row, es) && SameNames(es, es')
    requires row' == row.(current := row'.current)
    ensures AtHome(row', es')
  {}

  /** The keys of the rows a registration appends are keys of its inputs. */
  lemma {:induction false} NewRowsAreInputs(t: Table, a: AnalysisId, run: Option<nat>, stage: Option<nat>,
                                            inputs: seq<ArtifactInput>, i: nat)
    requires RegisterAll(t, a, run, stage, inputs).Some?
    requires |t| <= i < |RegisterAll(t, a, run, stage, inputs).value.0|
    ensures exists j :: 0 <= j < |inputs| && inputs[j].Key() == RegisterAll(t, a, run, stage, inputs).value.0[i].key
  {
    var n := |inputs| - 1;
    var init := inputs[..n];
    var done := RegisterAll(t, a, run, stage, init).value.0;
    var r := RegisterAll(t, a, run, stage, inputs).value.0;
    OneRegisteredRow(done, a, run, stage, inputs[n]);
    if i < |done| {
      NewRowsAreInputs(t, a, run, stage, init, i);
      var j :| 0 <= j < |init| && init[j].Key() == done[i].key;
      assert inputs[j].Key() == r[i].key;
    } else {
      assert inputs[n].Key() == r[i].key;
    }
  }

  lemma RegisteredAtHome(s: Store, mid: Table, a: AnalysisId, run: Option<nat>, stage: Option<nat>,
                         inputs: seq<ArtifactInput>)
    requires AllAtHome(s) && RegisterAll(mid, a, run, stage, inputs).Some? && AppendOnly(s.artifacts, mid)
    requires |mid| == |s.artifacts|
    requires stage.Some? ==>
               stage.value < |s.executions| && s.executions[stage.value].analysis == a
               && AllUnder(inputs, Prefix(s.executions[stage.value].stage, s.executions[stage.value].attempt))
    ensures AllAtHome(s.(artifacts := RegisterAll(mid, a, run, stage, inputs).value.0))
  {
    var t := RegisterAll(mid, a, run, stage, inputs).value.0;
    RegisteredRows(mid, a, run, stage, inputs);
    hide RegisterAll, Prefix;
    forall i | 0 <= i < |t| ensures AtHome(t[i], s.executions) {
      if i < |mid| {
        StaysAtHome(s.artifacts[i], t[i], s.executions, s.executions);
      } else {
        NewRowsAreInputs(mid, a, run, stage, inputs, i);
      }
    }
  }

  lemma HomeKept(s: Store, call: Call)
    requires AllAtHome(s)
    ensures AllAtHome(Exec(s, call).store)
  {
    var s' := Exec(s, call).store;
    hide Prefix, RegisterAll, ValidStage;
    match call
    case Register(e, run, inputs) =>
      if s' != s { RegisteredAtHome(s, s.artifacts, s.executions[e].analysis, run, Some(e), inputs); }
    case Save(a, prefixes, run, inputs) =>
      if s' != s { RegisteredAtHome(s, Withdraw(s.artifacts, a, prefixes), a, run, None, inputs); }
    case _ =>
      forall i | 0 <= i < |s'.artifacts| ensures AtHome(s'.artifacts[i], s'.executions) {
        StaysAtHome(s.artifacts[i], s'.artifacts[i], s.executions, s'.executions);
      }
  }

  lemma {:induction false} RunKeepsHome(s: Store, calls: seq<Call>)
    requires AllAtHome(s)
    ensures AllAtHome(RunAll(s, calls))
    decreases |calls|
  {
    if calls != [] {
      HomeKept(s, calls[0]);
      hide AllAtHome, Exec;
      RunKeepsHome(Exec(s, calls[0]).store, calls[1..]);
    }
  }

  lemma DifferentAttempts(es: seq<Execution>, d: ExecutionId, e: ExecutionId)
    requires AttemptsOk(es) && d < |es| && e < |es| && d != e && SameStage(es[d], es[e].analysis, es[e].stage)
    ensures es[d].attempt != es[e].attempt
  {
    if d < e { assert Ordered(es[d], es[e]); } else { assert Ordered(es[e], es[d]); }
  }

  /** A row under the prefix of an attempt is never one of another attempt of the stage. */
  lemma OwnRowsAreNotOthers(s: Store, e: ExecutionId, i: nat)
    requires Inv(s) && AllAtHome(s) && e < |s.executions| && i < |s.artifacts|
    requires Prefix(s.executions[e].stage, s.executions[e].attempt) <= s.artifacts[i].key
    ensures !FromAnotherAttempt(s.artifacts[i], s.executions, e)
  {
    var es := s.executions; var row := s.artifacts[i];
    assert AtHome(row, es);
    hide Prefix, ValidStage;
    if FromAnotherAttempt(row, es, e) {
      var d := row.stage.value;
      PrefixesAreDisjoint(row.key, es[d].stage, es[d].attempt, es[e].stage, es[e].attempt);
      DifferentAttempts(es, d, e);
    }
  }

  lemma ReachableHome(s: Store)
    requires Reachable(s)
    ensures AllAtHome(s)
  {
    var calls :| s == RunAll(EMPTY, calls);
    RunKeepsHome(EMPTY, calls);
    hide RunAll;
  }

  lemma NoneShownFromOthers(s: Store, e: ExecutionId, a: AnalysisId, key: string)
    requires Inv(s) && AllAtHome(s) && e < |s.executions|
    requires Prefix(s.executions[e].stage, s.executions[e].attempt) <= key
    ensures !exists i :: 0 <= i < |s.artifacts| && IsCurrent(s.artifacts[i], a, key)
                         && FromAnotherAttempt(s.artifacts[i], s.executions, e)
  {
    hide Inv, AllAtHome, Prefix, FromAnotherAttempt;
    forall i | 0 <= i < |s.artifacts| && IsCurrent(s.artifacts[i], a, key)
      ensures !FromAnotherAttempt(s.artifacts[i], s.executions, e)
    {
      OwnRowsAreNotOthers(s, e, i);
    }
  }

  /** In every reachable state a completion leaves every key under the attempt's own prefix showing what it
      showed, in every analysis. */
  lemma OwnKeysStay(s: Store, e: ExecutionId, expected: nat, categorized: bool, a: AnalysisId, key: string)
    requires Reachable(s) && Completes(s, e, expected)
    requires Prefix(s.executions[e].stage, s.executions[e].attempt) <= key
    ensures View(TransitionTx(s, e, expected, Completed, categorized).store.artifacts, a, key)
            == View(s.artifacts, a, key)
  {
    assert e < |s.executions|;
    hide *;
    ReachableInv(s);
    ReachableHome(s);
    CompletionShowsExactly(s, e, expected, categorized, a, key);
    NoneShownFromOthers(s, e, a, key);
  }

  /** After a completion a key shows nothing if the row shown under it came from another attempt of the stage,
      and what it showed otherwise. */
  lemma CompletionShowsExactly(s: Store, e: ExecutionId, expected: nat, categorized: bool, a: AnalysisId, key: string)
    requires Reachable(s) && Completes(s, e, expected)
    ensures var t := TransitionTx(s, e, expected, Completed, categorized).store.artifacts;
            var hidden := exists i :: 0 <= i < |s.artifacts| && IsCurrent(s.artifacts[i], a, key)
                            && FromAnotherAttempt(s.artifacts[i], s.executions, e);
            View(t, a, key) == if hidden then None else View(s.artifacts, a, key)
  {
    ReachableInv(s);
    var t := TransitionTx(s, e, expected, Completed, categorized).store.artifacts;
    forall i | 0 <= i < |s.artifacts|
      ensures |t| == |s.artifacts| && t[i] == s.artifacts[i].(current := t[i].current)
      ensures t[i].current <==> s.artifacts[i].current && !FromAnotherAttempt(s.artifacts[i], s.executions, e)
    {
      CompletionRetiresExactly(s, e, expected, categorized, i);
    }
    RetiringKeepsUnique(s.artifacts, TransitionTx(s, e, expected, Completed, categorized).store.executions, e);
    hide TransitionTx, RetireOthers, FromAnotherAttempt;
    var shown := FindCurrent(s.artifacts, a, key);
    forall i: nat | i < |s.artifacts| && IsCurrent(s.artifacts[i], a, key) ensures shown == Some(i) {
      CurrentIsUnique(s.artifacts, a, key, i);
    }
    hide Unique, Inv;
  }

  // ---------------------------------------------------------------- registering and saving

  /** Files are registered for an attempt exactly while it is open, under its prefix, for a live match and if
      no file clashes; then every key shows the last of its files and all other keys what they showed. */
  lemma RegistrationAnswersExactly(s: Store, e: ExecutionId, run: Option<nat>, inputs: seq<ArtifactInput>)
    requires Reachable(s)
    ensures var out := RegisterTx(s, e, run, inputs); var es := s.executions;
            if e >= |es| then out == Outcome(s, Raised(NotFound))
            else if !Open(es[e]) then out == Outcome(s, Raised(InvalidTransition))
            else if exists i :: 0 <= i < |inputs| && !(Prefix(es[e].stage, es[e].attempt) <= inputs[i].Key())
            then out == Outcome(s, Raised(InvalidValue))
            else if es[e].analysis !in s.live then out == Outcome(s, Raised(NotFound))
            else if exists k: nat :: Clashes(s.artifacts, es[e].analysis, run, Some(e), inputs, k)
            then out == Outcome(s, Raised(IntegrityViolation))
            else
              out.reply.Registered? && |out.reply.ids| == |inputs| && out.store == s.(artifacts := out.store.artifacts)
              && AppendOnly(s.artifacts, out.store.artifacts)
              && (forall i :: |s.artifacts| <= i < |out.store.artifacts| ==> out.store.artifacts[i].stage == Some(e))
              && forall b, key :: View(out.store.artifacts, b, key)
                   == if b == es[e].analysis && LastInput(inputs, key).Some? then LastInput(inputs, key)
                      else View(s.artifacts, b, key)
  {
    ReachableInv(s);
    assert Unique(s.artifacts);
    if e < |s.executions| {
      var a := s.executions[e].analysis;
      RefusedExactly(s.artifacts, a, run, Some(e), inputs);
      if RegisterAll(s.artifacts, a, run, Some(e), inputs).Some? {
        RegistrationRefinesMap(s.artifacts, a, run, Some(e), inputs);
        RegisteredRows(s.artifacts, a, run, Some(e), inputs);
      }
      hide RegisterAll, View, Unique, Inv, LastInput, Prefix, Clashes, Reachable;
    }
  }

  /** A save of the job withdraws its prefixes and registers its files for no stage. */
  lemma SaveAnswersExactly(s: Store, a: AnalysisId, prefixes: seq<string>, run: Option<nat>, inputs: seq<ArtifactInput>)
    requires Reachable(s)
    ensures var out := SaveTx(s, a, prefixes, run, inputs);
            if a !in s.live then out == Outcome(s, Raised(NotFound))
            else if exists k: nat :: Clashes(Withdraw(s.artifacts, a, prefixes), a, run, None, inputs, k)
            then out == Outcome(s, Raised(IntegrityViolation))
            else
              out.reply == Done && out.store == s.(artifacts := out.store.artifacts)
              && AppendOnly(s.artifacts, out.store.artifacts)
              && (forall i :: |s.artifacts| <= i < |out.store.artifacts| ==> out.store.artifacts[i].stage == None)
              && forall b, key :: View(out.store.artifacts, b, key)
                   == if b == a && LastInput(inputs, key).Some? then LastInput(inputs, key)
                      else if b == a && Like(key, prefixes) then None else View(s.artifacts, b, key)
  {
    ReachableInv(s);
    var mid := Withdraw(s.artifacts, a, prefixes);
    WithdrawalHidesPrefixes(s.artifacts, a, prefixes);
    RefusedExactly(mid, a, run, None, inputs);
    if RegisterAll(mid, a, run, None, inputs).Some? {
      RegistrationRefinesMap(mid, a, run, None, inputs);
      RegisteredRows(mid, a, run, None, inputs);
      AppendOnlyTrans(s.artifacts, mid, RegisterAll(mid, a, run, None, inputs).value.0);
    }
    hide RegisterAll, View, Unique, Inv, LastInput, Like, Clashes, Reachable, AppendOnly;
  }

  // ---------------------------------------------------------------- a run of the tracker

  const TRACK := ArtifactInput("ball/attempt-0001/track.json", "local", "c1", 7, "track", "application/json", None)

  lemma FirstPrefix()
    ensures Prefix("ball_tracking", 1) == "ball/attempt-0001/" && Prefix("ball_tracking", 1) <= TRACK.Key()
  {
    assert Digits(1) == "1" && Padded(1) == "0001";
    assert "attempt-" + "0001" == "attempt-0001";
    assert ("attempt-0001") + "/" + "" == "attempt-0001/";
    assert "ball" + "/" + "attempt-0001/" == "ball/attempt-0001/";
    assert TRACK.Key() == "ball/attempt-0001/" + "track.json";
  }

  lemma FirstAttemptStarts(s: Store)
    requires s == Exec(EMPTY, Admit(1)).store
    ensures Exec(s, Start(1, "ball_tracking", Processing))
         == Outcome(Store({1}, [Execution(1, "ball_tracking", 1, Processing, 1)], []),
           Attempted(0, Processing, 1, true))
  {
    assert s == Store({1}, [], []);
  }

  lemma TrackRegisters(s: Store)
    requires s == Store({1}, [Execution(1, "ball_tracking", 1, Processing, 1)], [])
    ensures Exec(s, Register(0, None, [TRACK]))
         == Outcome(s.(artifacts := [NewRow(1, None, Some(0), TRACK)]), Registered([0]))
  {
    FirstPrefix();
    assert AllUnder([TRACK], Prefix("ball_tracking", 1));
    var t: Table := [];
    var none: seq<nat> := [];
    assert [TRACK][..0] == [];
    assert RegisterAll(t, 1, None, Some(0), [TRACK][..0]) == Some((t, none));
    assert FindCurrent(t, 1, TRACK.Key()).None? && !StorageTaken(t, 1, TRACK.Bytes());
    assert t + [NewRow(1, None, Some(0), TRACK)] == [NewRow(1, None, Some(0), TRACK)];
    assert none + [0] == [0];
    hide Prefix;
  }

  /** A tracker that starts, registers a file and completes leaves that file shown. */
  lemma CompletedTrackerShowsItsFile(s: Store)
    requires s == RunAll(EMPTY, [Admit(1), Start(1, "ball_tracking", Processing), Register(0, None, [TRACK])])
    ensures Reachable(s) && Completes(s, 0, 1)
    ensures TransitionTx(s, 0, 1, Completed, true).reply == Attempted(0, Completed, 2, false)
    ensures View(TransitionTx(s, 0, 1, Completed, true).store.artifacts, 1, TRACK.Key()) == Some(TRACK.Bytes())
  {
    var s1 := Exec(EMPTY, Admit(1)).store;
    FirstAttemptStarts(s1);
    var s2 := Exec(s1, Start(1, "ball_tracking", Processing)).store;
    TrackRegisters(s2);
    var s3 := Exec(s2, Register(0, None, [TRACK])).store;
    ThreeCalls(EMPTY, Admit(1), Start(1, "ball_tracking", Processing), Register(0, None, [TRACK]));
    assert Reachable(s);
    FirstPrefix();
    assert s.artifacts[0] == NewRow(1, None, Some(0), TRACK) && IsCurrent(s.artifacts[0], 1, TRACK.Key());
    hide RunAll, Exec, Prefix;
    OwnKeysStay(s, 0, 1, true, 1, TRACK.Key());
    ReachableInv(s);
    CurrentIsUnique(s.artifacts, 1, TRACK.Key(), 0);
  }

  lemma ThreeCalls(s: Store, a: Call, b: Call, c: Call)
    ensures RunAll(s, [a, b, c]) == Exec(Exec(Exec(s, a).store, b).store, c).store
  {
    hide Exec;
    assert [a, b, c][1..] == [b, c] && [b, c][1..] == [c] && [c][1..] == [];
    var s1 := Exec(s, a).store; var s2 := Exec(s1, b).store;
    assert RunAll(Exec(s2, c).store, []) == Exec(s2, c).store;
    assert RunAll(s2, [c]) == Exec(s2, c).store;
    assert RunAll(s1, [b, c]) == RunAll(s2, [c]);
  }
}
