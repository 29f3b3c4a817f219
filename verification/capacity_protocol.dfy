/** Any number of holders using the ledger at once: charging and recording an extension are separate
    steps, and so are giving capacity back and marking the reservation released. */
module CapacityProtocol {
  import opened Common
  import opened CapacityLedger

  /** Where a holder stands while it has its own lock. */
  datatype Phase = Idle | Charged(bytes: nat) | Discharged

  datatype Holder = Holder(root: Root, kind: Kind, bytes: nat, released: bool, phase: Phase)

  datatype State = State(ledger: Ledger, holders: seq<Holder>)

  const START := State(EMPTY_LEDGER, [])

  datatype Step =
    | Admit(root: Root, kind: Kind, requested: nat, free: int, limits: Limits)
    | ChargeExtension(holder: nat, requested: nat, free: int, hardStop: int)
    | RecordExtension(holder: nat)
    | GiveBack(holder: nat)
    | MarkReleased(holder: nat)

  /** Steps that do not apply leave the state alone: a holder's own lock orders its operations. */
  function Apply(s: State, step: Step): State {
    match step
    case Admit(root, kind, requested, free, limits) =>
      var r := Reserve(s.ledger, root, kind, requested, free, limits);
      if r.1.Some? then s else State(r.0, s.holders + [Holder(root, kind, requested, false, Idle)])
    case ChargeExtension(h, requested, free, hardStop) =>
      if h >= |s.holders| || s.holders[h].released || !s.holders[h].phase.Idle? then s
      else
        var r := Charge(s.ledger, s.holders[h].root, requested, free, hardStop);
        if r.1.Some? then s else State(r.0, s.holders[h := s.holders[h].(phase := Charged(requested))])
    case RecordExtension(h) =>
      if h >= |s.holders| || !s.holders[h].phase.Charged? then s
      else s.(holders := s.holders[h :=
        s.holders[h].(bytes := s.holders[h].bytes + s.holders[h].phase.bytes, phase := Idle)])
    case GiveBack(h) =>
      if h >= |s.holders| || s.holders[h].released || !s.holders[h].phase.Idle? then s
      else State(Discharge(s.ledger, s.holders[h].root, s.holders[h].kind, s.holders[h].bytes),
                 s.holders[h := s.holders[h].(phase := Discharged)])
    case MarkReleased(h) =>
      if h >= |s.holders| || !s.holders[h].phase.Discharged? then s
      else s.(holders := s.holders[h := s.holders[h].(released := true, phase := Idle)])
  }

  function Run(s: State, steps: seq<Step>): State
    decreases |steps|
  {
    if steps == [] then s else Run(Apply(s, steps[0]), steps[1..])
  }

  // ---------------------------------------------------------------- what the ledger should hold

  predicate Live(h: Holder) { !h.released && !h.phase.Discharged? }

  /** Bytes a live reservation accounts for, with an extension that is charged but not yet recorded. */
  function Held(h: Holder, root: Root): nat {
    if !Live(h) || h.root != root then 0 else h.bytes + if h.phase.Charged? then h.phase.bytes else 0
  }

  function Counted(h: Holder, root: Root, kind: Kind): nat {
    if Live(h) && h.root == root && h.kind == kind then 1 else 0
  }

  function SumHeld(hs: seq<Holder>, root: Root): nat {
    if hs == [] then 0 else SumHeld(hs[..|hs| - 1], root) + Held(hs[|hs| - 1], root)
  }

  function SumCounted(hs: seq<Holder>, root: Root, kind: Kind): nat {
    if hs == [] then 0 else SumCounted(hs[..|hs| - 1], root, kind) + Counted(hs[|hs| - 1], root, kind)
  }

  /** The ledger agrees with the holders at one root, and keeps no idle entries. */
  ghost predicate Agrees(s: State, root: Root) {
    Get(s.ledger.reserved, root) == SumHeld(s.holders, root)
    && Get(s.ledger.active, root) == SumCounted(s.holders, root, Processing)
    && Get(s.ledger.reading, root) == SumCounted(s.holders, root, Read)
    && (root in s.ledger.active ==> s.ledger.active[root] > 0)
    && (root in s.ledger.reading ==> s.ledger.reading[root] > 0)
    && (root in s.ledger.reserved ==>
          s.ledger.reserved[root] > 0
            || SumCounted(s.holders, root, Processing) + SumCounted(s.holders, root, Read) > 0)
  }

  ghost predicate Inv(s: State) {
    (forall root :: Agrees(s, root)) && forall h :: 0 <= h < |s.holders| && s.holders[h].released ==>
      s.holders[h].phase.Idle?
  }

  lemma {:induction false} SumUpdate(hs: seq<Holder>, i: nat, h: Holder, root: Root)
    requires i < |hs|
    ensures SumHeld(hs[i := h], root) == SumHeld(hs, root) - Held(hs[i], root) + Held(h, root)
    ensures forall kind ::
            SumCounted(hs[i := h], root, kind)
              == SumCounted(hs, root, kind) - Counted(hs[i], root, kind) + Counted(h, root, kind)
    ensures SumHeld(hs, root) >= Held(hs[i], root)
    ensures forall kind :: SumCounted(hs, root, kind) >= Counted(hs[i], root, kind)
  {
    var n := |hs| - 1;
    if i < n {
      assert hs[i := h][..n] == hs[..n][i := h];
      SumUpdate(hs[..n], i, h, root);
    } else {
      assert hs[i := h][..n] == hs[..n];
    }
  }

  lemma SumAppend(hs: seq<Holder>, h: Holder, root: Root)
    ensures SumHeld(hs + [h], root) == SumHeld(hs, root) + Held(h, root)
    ensures forall kind :: SumCounted(hs + [h], root, kind) == SumCounted(hs, root, kind) + Counted(h, root, kind)
  {
    assert (hs + [h])[..|hs|] == hs;
  }

  lemma AdmitAgrees(s: State, r: Root, kind: Kind, requested: nat, free: int, limits: Limits, root: Root)
    requires Agrees(s, root)
    ensures Agrees(Apply(s, Admit(r, kind, requested, free, limits)), root)
  {
    SumAppend(s.holders, Holder(r, kind, requested, false, Idle), root);
    hide SumHeld, SumCounted;
  }

  lemma ChargeAgrees(s: State, h: nat, requested: nat, free: int, hardStop: int, root: Root)
    requires Agrees(s, root) && h < |s.holders|
    ensures Agrees(Apply(s, ChargeExtension(h, requested, free, hardStop)), root)
  {
    SumUpdate(s.holders, h, s.holders[h].(phase := Charged(requested)), root);
    hide SumHeld, SumCounted;
  }

  lemma RecordAgrees(s: State, h: nat, root: Root)
    requires Agrees(s, root) && h < |s.holders|
    ensures Agrees(Apply(s, RecordExtension(h)), root)
  {
    if s.holders[h].phase.Charged? {
      SumUpdate(s.holders, h, s.holders[h].(bytes := s.holders[h].bytes + s.holders[h].phase.bytes, phase := Idle),
        root);
    }
    hide SumHeld, SumCounted;
  }

  lemma GiveBackAgrees(s: State, h: nat, root: Root)
    requires Agrees(s, root) && h < |s.holders|
    ensures Agrees(Apply(s, GiveBack(h)), root)
  {
    SumUpdate(s.holders, h, s.holders[h].(phase := Discharged), root);
    hide SumHeld, SumCounted;
    var holder := s.holders[h];
    var other := if holder.kind == Processing then Read else Processing;
    assert SumCounted(s.holders, root, holder.kind) >= Counted(holder, root, holder.kind);
  }

  lemma MarkAgrees(s: State, h: nat, root: Root)
    requires Agrees(s, root) && h < |s.holders|
    ensures Agrees(Apply(s, MarkReleased(h)), root)
  {
    SumUpdate(s.holders, h, s.holders[h].(released := true, phase := Idle), root);
    hide SumHeld, SumCounted;
  }

  lemma StepKeeps(s: State, step: Step)
    requires Inv(s)
    ensures Inv(Apply(s, step))
  {
    var s' := Apply(s, step);
    forall root ensures Agrees(s', root) {
      assert Agrees(s, root);
      hide Agrees;
      match step
      case Admit(r, kind, requested, free, limits) => AdmitAgrees(s, r, kind, requested, free, limits, root);
      case ChargeExtension(h, requested, free, hardStop) =>
        if h < |s.holders| { ChargeAgrees(s, h, requested, free, hardStop, root); }
      case RecordExtension(h) => if h < |s.holders| { RecordAgrees(s, h, root); }
      case GiveBack(h) => if h < |s.holders| { GiveBackAgrees(s, h, root); }
      case MarkReleased(h) => if h < |s.holders| { MarkAgrees(s, h, root); }
    }
    hide Agrees;
  }

  lemma {:induction false} RunKeeps(s: State, steps: seq<Step>)
    requires Inv(s)
    ensures Inv(Run(s, steps))
    decreases |steps|
  {
    if steps != [] {
      StepKeeps(s, steps[0]);
      hide Inv, Apply;
      RunKeeps(Apply(s, steps[0]), steps[1..]);
    }
  }

  ghost predicate Reachable(s: State) { exists steps :: s == Run(START, steps) }

  lemma ReachableInv(s: State)
    requires Reachable(s)
    ensures Inv(s)
  {
    var steps :| s == Run(START, steps);
    assert Inv(START);
    RunKeeps(START, steps);
  }

  /** In every interleaving the ledger's total is what live reservations hold, extensions in flight
      included, and its counters are the live reservations of each kind. */
  lemma LedgerMatchesHolders(s: State, root: Root)
    requires Reachable(s)
    ensures Get(s.ledger.reserved, root) == SumHeld(s.holders, root)
    ensures Get(s.ledger.active, root) == SumCounted(s.holders, root, Processing)
    ensures Get(s.ledger.reading, root) == SumCounted(s.holders, root, Read)
  {
    ReachableInv(s);
    assert Agrees(s, root);
  }

  /** The clamps of a release never act: there is always at least that much to give back. */
  lemma ClampsNeverAct(s: State, h: nat)
    requires Reachable(s) && h < |s.holders| && !s.holders[h].released && s.holders[h].phase.Idle?
    ensures var holder := s.holders[h];
            Get(s.ledger.reserved, holder.root) - holder.bytes >= 0
            && Get(Counts(s.ledger, holder.kind), holder.root) - 1 >= 0
  {
    ReachableInv(s);
    var holder := s.holders[h];
    assert Agrees(s, holder.root);
    SumUpdate(s.holders, h, holder, holder.root);
    assert SumCounted(s.holders, holder.root, holder.kind) >= Counted(holder, holder.root, holder.kind);
  }

  lemma {:induction false} NothingLive(hs: seq<Holder>, root: Root)
    requires forall h :: 0 <= h < |hs| && hs[h].root == root ==> !Live(hs[h])
    ensures SumHeld(hs, root) == 0 && forall kind :: SumCounted(hs, root, kind) == 0
  {
    if hs != [] { NothingLive(hs[..|hs| - 1], root); }
  }

  /** Once every reservation of a root has been given back, the ledger forgets the root. */
  lemma ReleasedRootsVanish(s: State, root: Root)
    requires Reachable(s) && forall h :: 0 <= h < |s.holders| && s.holders[h].root == root ==> !Live(s.holders[h])
    ensures root !in s.ledger.reserved && root !in s.ledger.active && root !in s.ledger.reading
  {
    ReachableInv(s);
    assert Agrees(s, root);
    NothingLive(s.holders, root);
    assert SumCounted(s.holders, root, Processing) == 0 && SumCounted(s.holders, root, Read) == 0;
  }

  /** Every admission leaves the hard stop free after all that is held, and respects the limit of
      its kind; every extension leaves the hard stop free too. */
  lemma AdmissionsLeaveTheHardStop(s: State, root: Root, kind: Kind, requested: nat, free: int, limits: Limits, h: nat,
      hardStop: int)
    requires Reachable(s)
    ensures var s' := Apply(s, Admit(root, kind, requested, free, limits));
            s' != s ==> free - SumHeld(s'.holders, root) >= limits.hardStop
                        && SumCounted(s'.holders, root, kind) <= (if kind == Processing then limits.maxUploads
                          else limits.maxReads)
    ensures var s' := Apply(s, ChargeExtension(h, requested, free, hardStop));
            s' != s && requested > 0 ==> h < |s.holders| && free - SumHeld(s'.holders, s.holders[h].root) >= hardStop
  {
    LedgerMatchesHolders(s, root);
    SumAppend(s.holders, Holder(root, kind, requested, false, Idle), root);
    if h < |s.holders| {
      LedgerMatchesHolders(s, s.holders[h].root);
      SumUpdate(s.holders, h, s.holders[h].(phase := Charged(requested)), s.holders[h].root);
    }
    hide SumHeld, SumCounted, Reachable;
  }
}
