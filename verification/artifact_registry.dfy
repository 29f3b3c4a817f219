/** The artifact table: rows are appended, at most one row per logical key is current, and the
    current rows form a map from logical key to the input registered last. */
module ArtifactRegistry {
  import opened Common

  type AnalysisId = nat

  datatype ArtifactInput = ArtifactInput(
    storageKey: string, provider: string, checksum: string, size: nat, kind: string, contentType: string,
    logicalKey: Option<string>)
  {
    /** `artifact.logical_key or artifact.storage_key`: an empty logical key counts as missing. */
    function Key(): string {
      if logicalKey.Some? && logicalKey.value != "" then logicalKey.value else storageKey
    }

    function Bytes(): Identity { Identity(checksum, size, provider, storageKey) }
  }

  /** What registration compares: content type, kind and schema version are not part of it. */
  datatype Identity = Identity(checksum: string, size: nat, provider: string, storageKey: string)

  datatype Artifact = Artifact(
    analysis: AnalysisId, run: Option<nat>, stage: Option<nat>, key: string, bytes: Identity, kind: string,
    contentType: string, current: bool)

  type Table = seq<Artifact>

  predicate IsCurrent(r: Artifact, a: AnalysisId, key: string) { r.current && r.analysis == a && r.key == key }

  /** The query for the current row of a logical key. */
  function FindCurrent(t: Table, a: AnalysisId, key: string): (r: Option<nat>)
    ensures r.Some? ==> r.value < |t| && IsCurrent(t[r.value], a, key)
    ensures r.None? ==> forall i :: 0 <= i < |t| ==> !IsCurrent(t[i], a, key)
  {
    if t == [] then None
    else if IsCurrent(t[|t| - 1], a, key) then Some(|t| - 1)
    else FindCurrent(t[..|t| - 1], a, key)
  }

  /** The view readers see: the bytes registered under a key, if any are current. */
  function View(t: Table, a: AnalysisId, key: string): Option<Identity> {
    match FindCurrent(t, a, key)
    case None => None
    case Some(i) => Some(t[i].bytes)
  }

  /** Unique index on current (analysis, provider, storage key). */
  predicate StorageTaken(t: Table, a: AnalysisId, bytes: Identity) {
    exists i :: 0 <= i < |t| && t[i].current && t[i].analysis == a && t[i].bytes.provider == bytes.provider
                && t[i].bytes.storageKey == bytes.storageKey
  }

  function Retire(t: Table, i: nat): Table
    requires i < |t|
  {
    t[i := t[i].(current := false)]
  }

  function NewRow(a: AnalysisId, run: Option<nat>, stage: Option<nat>, input: ArtifactInput): Artifact {
    Artifact(a, run, stage, input.Key(), input.Bytes(), input.kind, input.contentType, true)
  }

  /** Registering one input; `None` when a unique index aborts the transaction. */
  function RegisterOne(t: Table, a: AnalysisId, run: Option<nat>, stage: Option<nat>, input: ArtifactInput)
    : Option<(Table, nat)>
  {
    var found := FindCurrent(t, a, input.Key());
    if found.Some? && t[found.value].bytes == input.Bytes() then Some((t, found.value))
    else
      var retired := if found.Some? then Retire(t, found.value) else t;
      if StorageTaken(retired, a, input.Bytes()) then None
      else Some((retired + [NewRow(a, run, stage, input)], |t|))
  }

  function RegisterAll(t: Table, a: AnalysisId, run: Option<nat>, stage: Option<nat>, inputs: seq<ArtifactInput>)
    : Option<(Table, seq<nat>)>
  {
    if inputs == [] then Some((t, []))
    else
      match RegisterAll(t, a, run, stage, inputs[..|inputs| - 1])
      case None => None
      case Some(done) =>
        (match RegisterOne(done.0, a, run, stage, inputs[|inputs| - 1])
         case None => None
         case Some(last) => Some((last.0, done.1 + [last.1])))
  }

  lemma {:induction false} Refused(t: Table, a: AnalysisId, run: Option<nat>, stage: Option<nat>,
      inputs: seq<ArtifactInput>, i: nat)
    requires i < |inputs| && RegisterAll(t, a, run, stage, inputs[..i + 1]).None?
    ensures RegisterAll(t, a, run, stage, inputs).None?
    decreases |inputs|
  {
    if i + 1 < |inputs| {
      assert inputs[..|inputs| - 1][..i + 1] == inputs[..i + 1];
      Refused(t, a, run, stage, inputs[..|inputs| - 1], i);
    } else {
      assert inputs[..i + 1] == inputs;
    }
  }

  /** One turn of the loop of `_register_artifacts`. */
  method RegisterArtifact(t: Table, a: AnalysisId, run: Option<nat>, stage: Option<nat>, input: ArtifactInput)
    returns (registered: Option<(Table, nat)>)
    ensures registered == RegisterOne(t, a, run, stage, input)
  {
    var table := t;
    var current := FindCurrent(table, a, input.Key());
    if current.Some? && table[current.value].bytes == input.Bytes() {
      return Some((table, current.value));
    }
    if current.Some? {
      table := table[current.value := table[current.value].(current := false)];
    }
    if StorageTaken(table, a, input.Bytes()) {
      return None;
    }
    table := table + [NewRow(a, run, stage, input)];
    return Some((table, |table| - 1));
  }

  /** `_register_artifacts`: one input after the other; `None` when a unique index aborts. */
  method RegisterArtifacts(t: Table, a: AnalysisId, run: Option<nat>, stage: Option<nat>, inputs: seq<ArtifactInput>)
    returns (registered: Option<(Table, seq<nat>)>)
    ensures registered == RegisterAll(t, a, run, stage, inputs)
  {
    hide RegisterOne;
    var table := t;
    var ids: seq<nat> := [];
    for i := 0 to |inputs|
      invariant RegisterAll(t, a, run, stage, inputs[..i]) == Some((table, ids))
    {
      assert inputs[..i + 1][..i] == inputs[..i];
      var one := RegisterArtifact(table, a, run, stage, inputs[i]);
      if one.None? {
        Refused(t, a, run, stage, inputs, i);
        return None;
      }
      table, ids := one.value.0, ids + [one.value.1];
    }
    assert inputs[..|inputs|] == inputs;
    return Some((table, ids));
  }

  /** No unique index stands in the way of registering the list. */
  predicate Registrable(t: Table, a: AnalysisId, inputs: seq<ArtifactInput>) {
    RegisterAll(t, a, None, None, inputs).Some?
  }

  predicate Under(key: string, prefixes: seq<string>) { exists p :: p in prefixes && p <= key }

  /** The SQL prefix match: an underscore in the prefix stands for any character. */
  predicate Like(key: string, prefixes: seq<string>) { exists p :: p in prefixes && LikePrefix(key, p) }

  predicate LikePrefix(key: string, p: string) {
    |p| <= |key| && forall i :: 0 <= i < |p| ==> p[i] == '_' || p[i] == key[i]
  }

  lemma UnderIsLike(key: string, prefixes: seq<string>)
    ensures Under(key, prefixes) ==> Like(key, prefixes)
  {
    if p :| p in prefixes && p <= key { assert LikePrefix(key, p); }
  }

  /** `update ... set is_current = false` over the keys of one analysis that match some prefixes. */
  function Withdraw(t: Table, a: AnalysisId, prefixes: seq<string>): (r: Table)
    ensures |r| == |t|
  {
    seq(|t|, i requires 0 <= i < |t| =>
      if t[i].current && t[i].analysis == a && Like(t[i].key, prefixes) then t[i].(current := false) else t[i])
  }

  // ---------------------------------------------------------------- invariant and history

  predicate Compatible(p: Artifact, q: Artifact) {
    p.analysis == q.analysis ==>
      p.key != q.key && (p.bytes.provider != q.bytes.provider || p.bytes.storageKey != q.bytes.storageKey)
  }

  /** The two unique indexes over current rows. */
  ghost predicate Unique(t: Table) {
    forall i, j :: 0 <= i < j < |t| && t[i].current && t[j].current ==> Compatible(t[i], t[j])
  }

  /** Rows are never deleted, never rewritten, and never made current again. */
  ghost predicate AppendOnly(t: Table, t': Table) {
    |t| <= |t'| && forall i :: 0 <= i < |t| ==> t'[i] == t[i] || t'[i] == t[i].(current := false)
  }

  lemma AppendOnlyTrans(a: Table, b: Table, c: Table)
    requires AppendOnly(a, b) && AppendOnly(b, c)
    ensures AppendOnly(a, c)
  {}

  /** Only rows of one analysis were added or retired. */
  ghost predicate OnlyFor(t: Table, t': Table, a: AnalysisId) {
    |t| <= |t'| && (forall i :: 0 <= i < |t| && t[i].analysis != a ==> t'[i] == t[i])
    && (forall i :: |t| <= i < |t'| ==> t'[i].analysis == a)
  }

  lemma {:induction false} RegistrationIsLocal(
      t: Table, a: AnalysisId, run: Option<nat>, stage: Option<nat>, inputs: seq<ArtifactInput>)
    requires RegisterAll(t, a, run, stage, inputs).Some?
    ensures OnlyFor(t, RegisterAll(t, a, run, stage, inputs).value.0, a)
  {
    if inputs != [] { RegistrationIsLocal(t, a, run, stage, inputs[..|inputs| - 1]); }
  }

  lemma CurrentIsUnique(t: Table, a: AnalysisId, key: string, i: nat)
    requires Unique(t) && i < |t| && IsCurrent(t[i], a, key)
    ensures FindCurrent(t, a, key) == Some(i)
  {
    var j := FindCurrent(t, a, key).value;
    assert IsCurrent(t[j], a, key);
    assert j < i ==> Compatible(t[j], t[i]);
    assert i < j ==> Compatible(t[i], t[j]);
  }

  /** Appending a current row under a key that has none. */
  lemma AppendedView(t: Table, row: Artifact, a: AnalysisId, key: string)
    requires row.current
    ensures View(t + [row], a, key)
         == if row.analysis == a && row.key == key then Some(row.bytes) else View(t, a, key)
  {
    assert (t + [row])[..|t|] == t;
  }

  /** Retiring a current row hides its key and nothing else. */
  lemma RetiredView(t: Table, i: nat, a: AnalysisId, key: string)
    requires Unique(t) && i < |t| && t[i].current
    ensures View(Retire(t, i), a, key) == if t[i].analysis == a && t[i].key == key then None else View(t, a, key)
  {
    var t' := Retire(t, i);
    assert Unique(t');
    var found := FindCurrent(t, a, key);
    var again := FindCurrent(t', a, key);
    assert again.Some? ==> IsCurrent(t[again.value], a, key) && again.value != i;
    if t[i].analysis == a && t[i].key == key {
      CurrentIsUnique(t, a, key, i);
      assert forall j :: 0 <= j < |t| && j != i && IsCurrent(t[j], a, key) ==> !Compatible(t[i], t[j]);
    } else if found.Some? {
      CurrentIsUnique(t', a, key, found.value);
    }
  }

  lemma RegisterOneKeeps(t: Table, a: AnalysisId, run: Option<nat>, stage: Option<nat>, input: ArtifactInput)
    requires Unique(t) && RegisterOne(t, a, run, stage, input).Some?
    ensures var r := RegisterOne(t, a, run, stage, input).value;
            Unique(r.0) && AppendOnly(t, r.0) && r.1 < |r.0| && IsCurrent(r.0[r.1], a, input.Key())
            && r.0[r.1].bytes == input.Bytes()
            && forall b, key :: View(r.0, b, key)
                 == if b == a && key == input.Key() then Some(input.Bytes()) else View(t, b, key)
  {
    var r := RegisterOne(t, a, run, stage, input).value;
    var found := FindCurrent(t, a, input.Key());
    var retired := if found.Some? then Retire(t, found.value) else t;
    if r.0 != t {
      assert Unique(retired);
      assert forall i :: 0 <= i < |retired| ==> !IsCurrent(retired[i], a, input.Key()) by {
        if found.Some? {
          RetiredView(t, found.value, a, input.Key());
        }
      }
    }
    forall b, key
      ensures View(r.0, b, key) == if b == a && key == input.Key() then Some(input.Bytes()) else View(t, b, key)
    {
      if r.0 != t {
        AppendedView(retired, NewRow(a, run, stage, input), b, key);
        if found.Some? { RetiredView(t, found.value, b, key); }
      }
    }
  }

  /** The input registered last under a key. */
  function LastInput(inputs: seq<ArtifactInput>, key: string): Option<Identity> {
    if inputs == [] then None
    else if inputs[|inputs| - 1].Key() == key then Some(inputs[|inputs| - 1].Bytes())
    else LastInput(inputs[..|inputs| - 1], key)
  }

  /** Registration refines a map update: every key in the list shows its last input, every other
      key of every analysis is untouched, and the table only grows. */
  lemma {:induction false} RegistrationRefinesMap(
      t: Table, a: AnalysisId, run: Option<nat>, stage: Option<nat>, inputs: seq<ArtifactInput>)
    requires Unique(t) && RegisterAll(t, a, run, stage, inputs).Some?
    ensures var r := RegisterAll(t, a, run, stage, inputs).value;
            Unique(r.0) && AppendOnly(t, r.0) && |r.1| == |inputs|
            && forall b, key :: View(r.0, b, key)
                 == if b == a && LastInput(inputs, key).Some? then LastInput(inputs, key) else View(t, b, key)
  {
    if inputs != [] {
      var init := inputs[..|inputs| - 1];
      var last := inputs[|inputs| - 1];
      RegistrationRefinesMap(t, a, run, stage, init);
      var done := RegisterAll(t, a, run, stage, init).value;
      RegisterOneKeeps(done.0, a, run, stage, last);
      var r := RegisterOne(done.0, a, run, stage, last).value;
      AppendOnlyTrans(t, done.0, r.0);
    }
  }

  /** The same rows, whichever run or stage registered them. */
  ghost predicate SameButOrigin(t: Table, t': Table) {
    |t| == |t'| && forall i :: 0 <= i < |t| ==> t'[i] == t[i].(run := t'[i].run, stage := t'[i].stage)
  }

  lemma {:induction false} LookupIgnoresOrigin(t: Table, t': Table, a: AnalysisId, key: string, bytes: Identity)
    requires SameButOrigin(t, t')
    ensures FindCurrent(t, a, key) == FindCurrent(t', a, key) && StorageTaken(t, a, bytes) == StorageTaken(t', a, bytes)
  {
    if t != [] { LookupIgnoresOrigin(t[..|t| - 1], t'[..|t| - 1], a, key, bytes); }
  }

  lemma OneIgnoresOrigin(t: Table, t': Table, a: AnalysisId, run: Option<nat>, stage: Option<nat>, input: ArtifactInput)
    requires SameButOrigin(t, t')
    ensures RegisterOne(t, a, run, stage, input).Some? <==> RegisterOne(t', a, None, None, input).Some?
    ensures RegisterOne(t, a, run, stage, input).Some? ==>
              SameButOrigin(RegisterOne(t, a, run, stage, input).value.0, RegisterOne(t', a, None, None, input).value.0)
  {
    LookupIgnoresOrigin(t, t', a, input.Key(), input.Bytes());
    var found := FindCurrent(t, a, input.Key());
    if found.Some? {
      assert SameButOrigin(Retire(t, found.value), Retire(t', found.value));
      LookupIgnoresOrigin(Retire(t, found.value), Retire(t', found.value), a, input.Key(), input.Bytes());
    }
    hide FindCurrent, StorageTaken;
  }

  /** Whether a list can be registered does not depend on the run or stage it is registered for. */
  lemma {:induction false} RegistrationIgnoresOrigin(
      t: Table, a: AnalysisId, run: Option<nat>, stage: Option<nat>, inputs: seq<ArtifactInput>)
    ensures RegisterAll(t, a, run, stage, inputs).Some? <==> Registrable(t, a, inputs)
    ensures Registrable(t, a, inputs) ==>
              SameButOrigin(RegisterAll(t, a, run, stage, inputs).value.0,
                RegisterAll(t, a, None, None, inputs).value.0)
  {
    if inputs != [] {
      var init := inputs[..|inputs| - 1];
      RegistrationIgnoresOrigin(t, a, run, stage, init);
      if Registrable(t, a, init) {
        OneIgnoresOrigin(RegisterAll(t, a, run, stage, init).value.0, RegisterAll(t, a, None, None, init).value.0,
                         a, run, stage, inputs[|inputs| - 1]);
      }
      hide RegisterOne, SameButOrigin;
    }
  }

  /** No two inputs of the list give the same key different bytes. */
  ghost predicate Consistent(inputs: seq<ArtifactInput>) {
    forall i, j :: 0 <= i < |inputs| && 0 <= j < |inputs| && inputs[i].Key() == inputs[j].Key()
      ==> inputs[i].Bytes() == inputs[j].Bytes()
  }

  lemma {:induction false} LastInputOf(inputs: seq<ArtifactInput>, key: string)
    ensures LastInput(inputs, key).None? ==> forall i :: 0 <= i < |inputs| ==> inputs[i].Key() != key
    ensures LastInput(inputs, key).Some? ==>
              exists i :: 0 <= i < |inputs| && inputs[i].Key() == key
                && LastInput(inputs, key) == Some(inputs[i].Bytes())
  {
    if inputs != [] && inputs[|inputs| - 1].Key() != key {
      LastInputOf(inputs[..|inputs| - 1], key);
      assert forall i :: 0 <= i < |inputs| - 1 ==> inputs[..|inputs| - 1][i] == inputs[i];
    }
  }

  /** Inputs that all match what is current are accepted without writing. */
  lemma {:induction false} MatchingInputsAddNothing(
      t: Table, a: AnalysisId, run: Option<nat>, stage: Option<nat>, inputs: seq<ArtifactInput>)
    requires forall i :: 0 <= i < |inputs| ==> View(t, a, inputs[i].Key()) == Some(inputs[i].Bytes())
    ensures RegisterAll(t, a, run, stage, inputs).Some? && RegisterAll(t, a, run, stage, inputs).value.0 == t
  {
    if inputs != [] {
      var init := inputs[..|inputs| - 1];
      assert forall i :: 0 <= i < |init| ==> init[i] == inputs[i];
      MatchingInputsAddNothing(t, a, run, stage, init);
    }
  }

  /** If registering a list writes nothing, every input matched. */
  lemma {:induction false} NothingAddedMeansMatching(
      t: Table, a: AnalysisId, run: Option<nat>, stage: Option<nat>, inputs: seq<ArtifactInput>)
    requires RegisterAll(t, a, run, stage, inputs).Some? && |RegisterAll(t, a, run, stage, inputs).value.0| == |t|
    ensures forall i :: 0 <= i < |inputs| ==> View(t, a, inputs[i].Key()) == Some(inputs[i].Bytes())
    ensures RegisterAll(t, a, run, stage, inputs).value.0 == t
  {
    if inputs != [] {
      var init := inputs[..|inputs| - 1];
      GrowsOnly(t, a, run, stage, init);
      var done := RegisterAll(t, a, run, stage, init).value;
      NothingAddedMeansMatching(t, a, run, stage, init);
      assert forall i :: 0 <= i < |init| ==> init[i] == inputs[i];
    }
  }

  lemma {:induction false} GrowsOnly(t: Table, a: AnalysisId, run: Option<nat>, stage: Option<nat>,
      inputs: seq<ArtifactInput>)
    requires RegisterAll(t, a, run, stage, inputs).Some?
    ensures |RegisterAll(t, a, run, stage, inputs).value.0| >= |t|
  {
    if inputs != [] { GrowsOnly(t, a, run, stage, inputs[..|inputs| - 1]); }
  }

  /** Registering the same list a second time writes nothing exactly when no key occurs in it with
      two different contents; in particular whenever its keys are distinct. */
  lemma ReRegistrationIsIdle(t: Table, a: AnalysisId, run: Option<nat>, stage: Option<nat>, inputs: seq<ArtifactInput>,
                             run2: Option<nat>, stage2: Option<nat>)
    requires Unique(t) && RegisterAll(t, a, run, stage, inputs).Some?
    ensures var once := RegisterAll(t, a, run, stage, inputs).value.0;
            var twice := RegisterAll(once, a, run2, stage2, inputs);
            (twice.Some? && twice.value.0 == once) <==> Consistent(inputs)
    ensures (forall i, j :: 0 <= i < j < |inputs| ==> inputs[i].Key() != inputs[j].Key()) ==> Consistent(inputs)
  {
    RegistrationRefinesMap(t, a, run, stage, inputs);
    var once := RegisterAll(t, a, run, stage, inputs).value.0;
    var twice := RegisterAll(once, a, run2, stage2, inputs);
    if Consistent(inputs) {
      forall i | 0 <= i < |inputs| ensures View(once, a, inputs[i].Key()) == Some(inputs[i].Bytes()) {
        LastInputOf(inputs, inputs[i].Key());
      }
      MatchingInputsAddNothing(once, a, run2, stage2, inputs);
    }
    if twice.Some? && twice.value.0 == once {
      NothingAddedMeansMatching(once, a, run2, stage2, inputs);
    }
  }

  /** Withdrawing prefixes leaves no current row that matches them, keeps every other key, and
      deletes nothing. */
  lemma WithdrawalHidesPrefixes(t: Table, a: AnalysisId, prefixes: seq<string>)
    requires Unique(t)
    ensures var r := Withdraw(t, a, prefixes);
            Unique(r) && AppendOnly(t, r)
            && forall b, key :: View(r, b, key) == if b == a && Like(key, prefixes) then None else View(t, b, key)
  {
    var r := Withdraw(t, a, prefixes);
    forall b, key
      ensures View(r, b, key) == if b == a && Like(key, prefixes) then None else View(t, b, key)
    {
      var before := FindCurrent(t, b, key);
      var after := FindCurrent(r, b, key);
      if before.Some? && !(b == a && Like(key, prefixes)) { CurrentIsUnique(r, b, key, before.value); }
      if after.Some? { assert IsCurrent(t[after.value], b, key); CurrentIsUnique(t, b, key, after.value); }
    }
  }

  function NotUnder(inputs: seq<ArtifactInput>, prefixes: seq<string>): seq<ArtifactInput> {
    if inputs == [] then []
    else NotUnder(inputs[..|inputs| - 1], prefixes)
         + if Under(inputs[|inputs| - 1].Key(), prefixes) then [] else [inputs[|inputs| - 1]]
  }

  lemma {:induction false} FilteredHasNone(inputs: seq<ArtifactInput>, prefixes: seq<string>, key: string)
    requires Under(key, prefixes)
    ensures LastInput(NotUnder(inputs, prefixes), key).None?
  {
    if inputs != [] {
      var init := NotUnder(inputs[..|inputs| - 1], prefixes);
      var last := inputs[|inputs| - 1];
      FilteredHasNone(inputs[..|inputs| - 1], prefixes, key);
      if !Under(last.Key(), prefixes) { assert (init + [last])[..|init|] == init; } else { assert init + [] == init; }
    }
  }

  /** A save that withdraws prefixes and drops its own inputs under them leaves those prefixes empty. */
  lemma WithdrawnStayWithdrawn(t: Table, a: AnalysisId, run: Option<nat>, inputs: seq<ArtifactInput>,
                               prefixes: seq<string>, key: string)
    requires Unique(t) && Under(key, prefixes)
    requires RegisterAll(Withdraw(t, a, prefixes), a, run, None, NotUnder(inputs, prefixes)).Some?
    ensures View(RegisterAll(Withdraw(t, a, prefixes), a, run, None, NotUnder(inputs, prefixes)).value.0, a, key).None?
  {
    WithdrawalHidesPrefixes(t, a, prefixes);
    UnderIsLike(key, prefixes);
    RegistrationRefinesMap(Withdraw(t, a, prefixes), a, run, None, NotUnder(inputs, prefixes));
    FilteredHasNone(inputs, prefixes, key);
  }
}
