/** What registering and withdrawing artifacts does to the rows of the table, column by column. */
module ArtifactAnswers {
  import opened Common
  import opened ArtifactRegistry

  // ---------------------------------------------------------------- inputs

  /** An input is registered under its logical key if it names one, else under its storage key. */
  lemma InputKeyIs(input: ArtifactInput)
    ensures input.logicalKey == None || input.logicalKey == Some("") ==> input.Key() == input.storageKey
    ensures input.logicalKey.Some? && input.logicalKey != Some("") ==> Some(input.Key()) == input.logicalKey
  {}

  /** A row already holds an input if checksum, size, provider and storage key agree; kind and content type
      are not compared. */
  predicate Holds(row: Artifact, input: ArtifactInput) {
    row.bytes.checksum == input.checksum && row.bytes.size == input.size && row.bytes.provider == input.provider
    && row.bytes.storageKey == input.storageKey
  }

  lemma HoldsIsSameBytes(row: Artifact, input: ArtifactInput)
    ensures Holds(row, input) <==> row.bytes == input.Bytes()
  {}

  // ---------------------------------------------------------------- one input

  predicate ShownRow(t: Table, a: AnalysisId, key: string, i: nat) {
    i < |t| && t[i].current && t[i].analysis == a && t[i].key == key
  }

  /** The row shown under the key of the input holds it already. */
  predicate Shown(t: Table, a: AnalysisId, input: ArtifactInput, i: nat) {
    ShownRow(t, a, input.Key(), i) && Holds(t[i], input)
  }

  predicate ElsewhereShown(t: Table, a: AnalysisId, input: ArtifactInput, i: nat) {
    i < |t| && t[i].current && t[i].analysis == a && t[i].key != input.Key()
    && t[i].bytes.provider == input.provider && t[i].bytes.storageKey == input.storageKey
  }

  /** The input is new and another key of the analysis shows its object. */
  ghost predicate Blocked(t: Table, a: AnalysisId, input: ArtifactInput) {
    (forall i: nat :: !Shown(t, a, input, i)) && exists i: nat :: ElsewhereShown(t, a, input, i)
  }

  /** The table after a new row for the input: it supersedes the row shown under its key. */
  ghost predicate Superseded(t: Table, a: AnalysisId, run: Option<nat>, stage: Option<nat>, input: ArtifactInput,
                             t': Table) {
    |t'| == |t| + 1
    && (forall i :: 0 <= i < |t| ==>
          t'[i] == t[i].(current := t[i].current && !(t[i].analysis == a && t[i].key == input.Key())))
    && t'[|t|] == Artifact(a, run, stage, input.Key(),
                           Identity(input.checksum, input.size, input.provider, input.storageKey), input.kind,
                           input.contentType, true)
  }

  /** One input: answered with the shown row if that holds it already, refused exactly if another key of the
      analysis shows its object, and registered as a new row otherwise. */
  lemma RegistersOneExactly(t: Table, a: AnalysisId, run: Option<nat>, stage: Option<nat>, input: ArtifactInput)
    requires Unique(t)
    ensures var r := RegisterOne(t, a, run, stage, input);
            (r.None? <==> Blocked(t, a, input))
            && (forall i: nat :: Shown(t, a, input, i) ==> r == Some((t, i)))
            && ((forall i: nat :: !Shown(t, a, input, i)) && r.Some? ==>
                  r.value.1 == |t| && Superseded(t, a, run, stage, input, r.value.0))
  {
    var found := FindCurrent(t, a, input.Key());
    forall i: nat | ShownRow(t, a, input.Key(), i) ensures found == Some(i) {
      CurrentIsUnique(t, a, input.Key(), i);
    }
    if found.Some? { assert ShownRow(t, a, input.Key(), found.value); }
    var retired := if found.Some? then Retire(t, found.value) else t;
    TakenElsewhere(t, a, input);
    if found.Some? && Holds(t[found.value], input) { assert Shown(t, a, input, found.value); }
    hide StorageTaken, FindCurrent, Unique, ElsewhereShown;
  }

  lemma TakenElsewhere(t: Table, a: AnalysisId, input: ArtifactInput)
    requires Unique(t)
    ensures var found := FindCurrent(t, a, input.Key());
            StorageTaken(if found.Some? then Retire(t, found.value) else t, a, input.Bytes())
            <==> exists i: nat :: ElsewhereShown(t, a, input, i)
  {
    var found := FindCurrent(t, a, input.Key());
    var retired := if found.Some? then Retire(t, found.value) else t;
    if StorageTaken(retired, a, input.Bytes()) {
      var i: nat :| i < |retired| && retired[i].current && retired[i].analysis == a
                    && retired[i].bytes.provider == input.provider && retired[i].bytes.storageKey == input.storageKey;
      if t[i].key == input.Key() { CurrentIsUnique(t, a, input.Key(), i); }
      assert ElsewhereShown(t, a, input, i);
    }
    if i: nat :| ElsewhereShown(t, a, input, i) { assert retired[i] == t[i]; }
  }

  // ---------------------------------------------------------------- a list of inputs

  /** Input k meets an object shown under another key once those before it are registered. */
  ghost predicate Clashes(t: Table, a: AnalysisId, run: Option<nat>, stage: Option<nat>, inputs: seq<ArtifactInput>,
                          k: nat) {
    k < |inputs| && RegisterAll(t, a, run, stage, inputs[..k]).Some?
    && Blocked(RegisterAll(t, a, run, stage, inputs[..k]).value.0, a, inputs[k])
  }

  lemma RegisteredIsUnique(t: Table, a: AnalysisId, run: Option<nat>, stage: Option<nat>, inputs: seq<ArtifactInput>)
    requires Unique(t) && RegisterAll(t, a, run, stage, inputs).Some?
    ensures Unique(RegisterAll(t, a, run, stage, inputs).value.0)
  {
    RegistrationRefinesMap(t, a, run, stage, inputs);
  }

  lemma ClashInFront(t: Table, a: AnalysisId, run: Option<nat>, stage: Option<nat>, inputs: seq<ArtifactInput>, k: nat)
    requires k < |inputs| - 1
    ensures Clashes(t, a, run, stage, inputs[..|inputs| - 1], k) <==> Clashes(t, a, run, stage, inputs, k)
  {
    hide Blocked, RegisterAll;
    assert inputs[..|inputs| - 1][..k] == inputs[..k];
  }

  lemma LastClash(t: Table, a: AnalysisId, run: Option<nat>, stage: Option<nat>, inputs: seq<ArtifactInput>)
    requires Unique(t) && inputs != [] && RegisterAll(t, a, run, stage, inputs[..|inputs| - 1]).Some?
    ensures RegisterAll(t, a, run, stage, inputs).None? <==> Clashes(t, a, run, stage, inputs, |inputs| - 1)
  {
    var before := RegisterAll(t, a, run, stage, inputs[..|inputs| - 1]).value.0;
    RegisteredIsUnique(t, a, run, stage, inputs[..|inputs| - 1]);
    hide Blocked, RegisterOne, Unique, Shown;
    RegistersOneExactly(before, a, run, stage, inputs[|inputs| - 1]);
  }

  /** A list is refused exactly if some input of it clashes. */
  lemma {:induction false} RefusedExactly(t: Table, a: AnalysisId, run: Option<nat>, stage: Option<nat>,
                                          inputs: seq<ArtifactInput>)
    requires Unique(t)
    ensures RegisterAll(t, a, run, stage, inputs).None? <==> exists k: nat :: Clashes(t, a, run, stage, inputs, k)
  {
    hide Blocked, RegisterOne, Unique;
    if inputs == [] {
      assert forall k: nat :: !Clashes(t, a, run, stage, inputs, k);
    } else {
      var n := |inputs| - 1;
      RefusedExactly(t, a, run, stage, inputs[..n]);
      if RegisterAll(t, a, run, stage, inputs[..n]).Some? {
        LastClash(t, a, run, stage, inputs);
        forall k: nat ensures Clashes(t, a, run, stage, inputs, k) ==> k == n {
          if k < n { ClashInFront(t, a, run, stage, inputs, k); }
        }
      } else {
        var k: nat :| Clashes(t, a, run, stage, inputs[..n], k);
        ClashInFront(t, a, run, stage, inputs, k);
      }
    }
  }

  /** Every input is answered with a row of the analysis that holds it under its key. */
  lemma {:induction false} AnsweredRows(t: Table, a: AnalysisId, run: Option<nat>, stage: Option<nat>,
                                        inputs: seq<ArtifactInput>, j: nat)
    requires Unique(t) && RegisterAll(t, a, run, stage, inputs).Some? && j < |inputs|
    ensures var r := RegisterAll(t, a, run, stage, inputs).value;
            |r.1| == |inputs| && r.1[j] < |r.0| && r.0[r.1[j]].analysis == a && r.0[r.1[j]].key == inputs[j].Key()
            && Holds(r.0[r.1[j]], inputs[j])
  {
    var init := inputs[..|inputs| - 1];
    var done := RegisterAll(t, a, run, stage, init).value;
    RegistrationRefinesMap(t, a, run, stage, init);
    RegisterOneKeeps(done.0, a, run, stage, inputs[|inputs| - 1]);
    hide RegisterOne, Unique, View;
    if j < |init| { AnsweredRows(t, a, run, stage, init, j); }
  }

  // ---------------------------------------------------------------- withdrawals and filters

  /** A withdrawal retires exactly the rows of the analysis whose key has one of the prefixes, where an
      underscore of the prefix stands for any character. */
  lemma WithdrawsExactly(t: Table, a: AnalysisId, prefixes: seq<string>, i: nat)
    requires i < |t|
    ensures var r := Withdraw(t, a, prefixes);
            var hit := exists p :: 0 <= p < |prefixes| && |prefixes[p]| <= |t[i].key|
                         && forall k :: 0 <= k < |prefixes[p]| ==> prefixes[p][k] in {'_', t[i].key[k]};
            |r| == |t| && r[i] == t[i].(current := t[i].current && !(t[i].analysis == a && hit))
  {
    if Like(t[i].key, prefixes) {
      var p :| p in prefixes && LikePrefix(t[i].key, p);
      var n :| 0 <= n < |prefixes| && prefixes[n] == p;
    }
    if n :| 0 <= n < |prefixes| && |prefixes[n]| <= |t[i].key|
            && forall k :: 0 <= k < |prefixes[n]| ==> prefixes[n][k] in {'_', t[i].key[k]}
    {
      assert prefixes[n] in prefixes && LikePrefix(t[i].key, prefixes[n]);
    }
  }

  lemma {:induction false} FilterCounts(inputs: seq<ArtifactInput>, prefixes: seq<string>, x: ArtifactInput)
    ensures multiset(NotUnder(inputs, prefixes))[x] == if Under(x.Key(), prefixes) then 0 else multiset(inputs)[x]
  {
    hide Under;
    if inputs != [] {
      FilterCounts(inputs[..|inputs| - 1], prefixes, x);
      assert inputs == inputs[..|inputs| - 1] + [inputs[|inputs| - 1]];
    }
  }

  lemma {:induction false} FilterKeepsLast(inputs: seq<ArtifactInput>, prefixes: seq<string>, key: string)
    ensures LastInput(NotUnder(inputs, prefixes), key) == if Under(key, prefixes) then None else LastInput(inputs, key)
  {
    hide Under;
    if inputs != [] {
      var init := NotUnder(inputs[..|inputs| - 1], prefixes);
      FilterKeepsLast(inputs[..|inputs| - 1], prefixes, key);
      var last := inputs[|inputs| - 1];
      if Under(last.Key(), prefixes) { assert init + [] == init; } else { assert (init + [last])[..|init|] == init; }
    }
  }

  /** The filter drops exactly the inputs whose key starts with one of the prefixes: the others stay as often
      as they were, and the last one under each key is the same. */
  lemma FilterKeepsExactly(inputs: seq<ArtifactInput>, prefixes: seq<string>, x: ArtifactInput)
    ensures var hit := exists n :: 0 <= n < |prefixes| && prefixes[n] <= x.Key();
            multiset(NotUnder(inputs, prefixes))[x] == (if hit then 0 else multiset(inputs)[x])
            && LastInput(NotUnder(inputs, prefixes), x.Key()) == (if hit then None else LastInput(inputs, x.Key()))
  {
    UnderIs(x.Key(), prefixes);
    FilterCounts(inputs, prefixes, x);
    FilterKeepsLast(inputs, prefixes, x.Key());
    hide Under, NotUnder, LastInput;
  }

  lemma UnderIs(key: string, prefixes: seq<string>)
    ensures Under(key, prefixes) <==> exists n :: 0 <= n < |prefixes| && prefixes[n] <= key
  {
    if Under(key, prefixes) {
      var p :| p in prefixes && p <= key;
      var n :| 0 <= n < |prefixes| && prefixes[n] == p;
    }
    if n :| 0 <= n < |prefixes| && prefixes[n] <= key { assert prefixes[n] in prefixes; }
  }
}
