/** When the ledger grants, refuses and gives back, told by what the live reservations hold. */
module CapacityAnswers {
  import opened Common
  import opened CapacityLedger
  import opened CapacityProtocol

  /** What the ledger tells about a root: bytes held, uploads processed, readers. */
  predicate Tells(l: Ledger, root: Root, bytes: int, uploads: int, readers: int) {
    Get(l.reserved, root) == bytes && Get(l.active, root) == uploads && Get(l.reading, root) == readers
  }

  ghost predicate TellsHolders(l: Ledger, hs: seq<Holder>) {
    forall root :: Tells(l, root, SumHeld(hs, root), SumCounted(hs, root, Processing), SumCounted(hs, root, Read))
  }

  lemma ReachableTells(s: State)
    requires Reachable(s)
    ensures TellsHolders(s.ledger, s.holders)
  {
    forall root ensures Tells(s.ledger, root, SumHeld(s.holders, root), SumCounted(s.holders, root, Processing),
                              SumCounted(s.holders, root, Read)) {
      LedgerMatchesHolders(s, root);
    }
  }

  lemma GrantTells(l: Ledger, hs: seq<Holder>, root: Root, kind: Kind, requested: nat, free: int, limits: Limits,
                   other: Root)
    requires Reserve(l, root, kind, requested, free, limits).1 == None
    requires Tells(l, other, SumHeld(hs, other), SumCounted(hs, other, Processing), SumCounted(hs, other, Read))
    ensures var r := Reserve(l, root, kind, requested, free, limits);
            var more := hs + [Holder(root, kind, requested, false, Idle)];
            Tells(r.0, other, SumHeld(more, other), SumCounted(more, other, Processing), SumCounted(more, other, Read))
  {
    SumAppend(hs, Holder(root, kind, requested, false, Idle), other);
    hide SumHeld, SumCounted;
  }

  /** A reservation is granted exactly if both limits are positive, fewer reservations of its kind are live than
      its limit, and the hard stop stays free after all that is held; the ledger then counts it too. */
  lemma ReservationsAreGrantedExactly(s: State, root: Root, kind: Kind, requested: nat, free: int, limits: Limits)
    requires Reachable(s)
    ensures var r := Reserve(s.ledger, root, kind, requested, free, limits);
            var limit := if kind == Processing then limits.maxUploads else limits.maxReads;
            if limits.maxUploads <= 0 || limits.maxReads <= 0 then r == (s.ledger, Some(InvalidLimit))
            else if SumCounted(s.holders, root, kind) >= limit then r == (s.ledger, Some(ActiveLimit))
            else if free < limits.hardStop + SumHeld(s.holders, root) + requested then r == (s.ledger, Some(HardStop))
            else r.1 == None && TellsHolders(r.0, s.holders + [Holder(root, kind, requested, false, Idle)])
  {
    ReachableTells(s);
    hide SumHeld, SumCounted, Reachable;
    assert Tells(s.ledger, root, SumHeld(s.holders, root), SumCounted(s.holders, root, Processing),
                 SumCounted(s.holders, root, Read));
    var r := Reserve(s.ledger, root, kind, requested, free, limits);
    var hs := s.holders + [Holder(root, kind, requested, false, Idle)];
    if r.1 == None {
      hide Reserve, Tells;
      forall other ensures Tells(r.0, other, SumHeld(hs, other), SumCounted(hs, other, Processing),
                                 SumCounted(hs, other, Read)) {
        GrantTells(s.ledger, s.holders, root, kind, requested, free, limits, other);
      }
    }
  }

  /** An extension is granted exactly if it is not negative and, unless it asks for nothing, leaves the hard stop
      free after all that is held; it is charged to its root alone. */
  lemma ExtensionsAreGrantedExactly(s: State, root: Root, requested: int, free: int, hardStop: int)
    requires Reachable(s)
    ensures var r := Charge(s.ledger, root, requested, free, hardStop); var held := SumHeld(s.holders, root);
            if requested < 0 then r == (s.ledger, Some(InvalidRequest))
            else if requested > 0 && free < hardStop + held + requested then r == (s.ledger, Some(HardStop))
            else
              r.1 == None && r.0.active == s.ledger.active && r.0.reading == s.ledger.reading
              && forall other :: Get(r.0.reserved, other)
                   == SumHeld(s.holders, other) + if other == root then requested else 0
  {
    ReachableTells(s);
    assert forall other :: Tells(s.ledger, other, SumHeld(s.holders, other), SumCounted(s.holders, other, Processing),
                                 SumCounted(s.holders, other, Read));
    hide SumHeld, SumCounted, Reachable;
  }

  /** The holder may start another operation: it is not released and none is under way. */
  predicate Ready(s: State, h: nat) { h < |s.holders| && !s.holders[h].released && s.holders[h].phase == Idle }

  /** Giving back takes exactly what the holder has from its root and one from the counter of its kind, without
      any clamp; marking it released, and everything about a holder that is not ready, changes no number. */
  lemma ReleasesGiveBackExactly(s: State, h: nat)
    requires Reachable(s) && Ready(s, h)
    ensures var l := Discharge(s.ledger, s.holders[h].root, s.holders[h].kind, s.holders[h].bytes);
            var x := s.holders[h];
            Apply(s, GiveBack(h)) == State(l, s.holders[h := x.(phase := Discharged)])
            && forall root ::
                 Get(l.reserved, root) == Get(s.ledger.reserved, root) - (if root == x.root then x.bytes else 0)
                 && Get(l.active, root)
                    == Get(s.ledger.active, root) - (if root == x.root && x.kind == Processing then 1 else 0)
                 && Get(l.reading, root)
                    == Get(s.ledger.reading, root) - (if root == x.root && x.kind == Read then 1 else 0)
  {
    ClampsNeverAct(s, h);
    hide SumHeld, SumCounted, Reachable;
  }

  /** The steps of the protocol take the ledger exactly as it grants or refuses: a refusal changes nothing, a
      granted reservation adds its holder, and a granted extension is charged before it is recorded. */
  lemma OperationsStart(s: State, root: Root, kind: Kind, requested: nat, free: int, limits: Limits, h: nat,
                        hardStop: int)
    ensures var r := Reserve(s.ledger, root, kind, requested, free, limits);
            Apply(s, Admit(root, kind, requested, free, limits))
            == if r.1 == None then State(r.0, s.holders + [Holder(root, kind, requested, false, Idle)]) else s
    ensures Ready(s, h) ==>
              var x := s.holders[h]; var r := Charge(s.ledger, x.root, requested, free, hardStop);
              Apply(s, ChargeExtension(h, requested, free, hardStop))
              == if r.1 == None then State(r.0, s.holders[h := Holder(x.root, x.kind, x.bytes, x.released,
                                                                     Charged(requested))]) else s
  {}

  /** No holder that was released, or is being charged or given back, starts another operation. */
  lemma OneOperationAtATime(s: State, h: nat, requested: nat, free: int, hardStop: int)
    ensures !Ready(s, h) ==> Apply(s, GiveBack(h)) == s && Apply(s, ChargeExtension(h, requested, free, hardStop)) == s
    ensures Ready(s, h) ==> Apply(s, RecordExtension(h)) == s && Apply(s, MarkReleased(h)) == s
  {}

  /** A charged extension is recorded in the holder and a given-back holder is marked released, with no change
      of the ledger. */
  lemma OperationsEnd(s: State, h: nat)
    requires h < |s.holders|
    ensures s.holders[h].phase.Charged? ==>
              Apply(s, RecordExtension(h))
              == State(s.ledger, s.holders[h := Holder(s.holders[h].root, s.holders[h].kind,
                                                       s.holders[h].bytes + s.holders[h].phase.bytes,
                                                       s.holders[h].released, Idle)])
    ensures s.holders[h].phase == Discharged ==>
              Apply(s, MarkReleased(h))
              == State(s.ledger, s.holders[h := Holder(s.holders[h].root, s.holders[h].kind, s.holders[h].bytes, true,
                                                       Idle)])
  {}
}
