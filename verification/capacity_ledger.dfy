/** The process-wide ledger of reserved storage: bytes and active reservations per storage root. */
module CapacityLedger {
  import opened Common

  type Root = string
  datatype Kind = Processing | Read

  /** Class-level dictionaries shared by every storage object; missing entries count as zero. */
  datatype Ledger = Ledger(reserved: map<Root, int>, active: map<Root, int>, reading: map<Root, int>)

  const EMPTY_LEDGER := Ledger(map[], map[], map[])

  function Get(m: map<Root, int>, root: Root): int { if root in m then m[root] else 0 }

  function Put(m: map<Root, int>, root: Root, value: int): map<Root, int> {
    if value == 0 then m - {root} else m[root := value]
  }

  function Counts(l: Ledger, kind: Kind): map<Root, int> { if kind == Processing then l.active else l.reading }

  function WithCounts(l: Ledger, kind: Kind, counts: map<Root, int>): Ledger {
    if kind == Processing then l.(active := counts) else l.(reading := counts)
  }

  datatype Limits = Limits(maxUploads: int, maxReads: int, hardStop: int)
  datatype Refusal = InvalidLimit | ActiveLimit | HardStop | InvalidRequest

  predicate AtLimit(l: Ledger, root: Root, kind: Kind, limits: Limits) {
    if kind == Processing then Get(l.active, root) >= limits.maxUploads else Get(l.reading, root) >= limits.maxReads
  }

  /** `reserve_capacity` under the capacity lock, given the free bytes it reads. */
  function Reserve(l: Ledger, root: Root, kind: Kind, requested: int, free: int, limits: Limits)
      : (Ledger, Option<Refusal>) {
    if limits.maxUploads < 1 || limits.maxReads < 1 then (l, Some(InvalidLimit))
    else if AtLimit(l, root, kind, limits) then (l, Some(ActiveLimit))
    else if free - Get(l.reserved, root) - requested < limits.hardStop then (l, Some(HardStop))
    else
      var charged := l.(reserved := l.reserved[root := Get(l.reserved, root) + requested]);
      (WithCounts(charged, kind, Counts(l, kind)[root := Get(Counts(l, kind), root) + 1]), None)
  }

  /** `_extend_capacity`. */
  function Charge(l: Ledger, root: Root, requested: int, free: int, hardStop: int): (Ledger, Option<Refusal>) {
    if requested < 0 then (l, Some(InvalidRequest))
    else if requested == 0 then (l, None)
    else if free - Get(l.reserved, root) - requested < hardStop then (l, Some(HardStop))
    else (l.(reserved := l.reserved[root := Get(l.reserved, root) + requested]), None)
  }

  /** `_release_capacity`, clamps included. */
  function Discharge(l: Ledger, root: Root, kind: Kind, bytes: int): Ledger {
    WithCounts(l.(reserved := Put(l.reserved, root, Floor(Get(l.reserved, root) - bytes))),
               kind, Put(Counts(l, kind), root, Floor(Get(Counts(l, kind), root) - 1)))
  }

  class LedgerStore {
    var reserved: map<Root, int>
    var active: map<Root, int>
    var reading: map<Root, int>

    constructor ()
      ensures Now() == EMPTY_LEDGER
    {
      reserved, active, reading := map[], map[], map[];
    }

    function Now(): Ledger
      reads this
    {
      Ledger(reserved, active, reading)
    }

    method ReserveCapacity(root: Root, kind: Kind, requested: int, free: int, limits: Limits)
        returns (refused: Option<Refusal>)
      modifies this
      ensures (Now(), refused) == Reserve(old(Now()), root, kind, requested, free, limits)
    {
      if limits.maxUploads < 1 || limits.maxReads < 1 {
        return Some(InvalidLimit);
      }
      var uploads, readers, held := Get(active, root), Get(reading, root), Get(reserved, root);
      if (kind == Processing && uploads >= limits.maxUploads) || (kind == Read && readers >= limits.maxReads) {
        return Some(ActiveLimit);
      }
      if free - held - requested < limits.hardStop {
        return Some(HardStop);
      }
      reserved := reserved[root := held + requested];
      if kind == Processing {
        active := active[root := uploads + 1];
      } else {
        reading := reading[root := readers + 1];
      }
      return None;
    }

    method ExtendCapacity(root: Root, requested: int, free: int, hardStop: int) returns (refused: Option<Refusal>)
      modifies this`reserved
      ensures (Now(), refused) == Charge(old(Now()), root, requested, free, hardStop)
    {
      if requested < 0 {
        return Some(InvalidRequest);
      }
      if requested == 0 {
        return None;
      }
      var held := Get(reserved, root);
      if free - held - requested < hardStop {
        return Some(HardStop);
      }
      reserved := reserved[root := held + requested];
      return None;
    }

    method ReleaseCapacity(root: Root, kind: Kind, bytes: int)
      modifies this
      ensures Now() == Discharge(old(Now()), root, kind, bytes)
    {
      var remaining := Get(reserved, root) - bytes;
      if remaining > 0 {
        reserved := reserved[root := remaining];
      } else {
        reserved := reserved - {root};
      }
      if kind == Processing {
        var left := Get(active, root) - 1;
        active := if left > 0 then active[root := left] else active - {root};
      } else {
        var left := Get(reading, root) - 1;
        reading := if left > 0 then reading[root := left] else reading - {root};
      }
    }
  }

  /** A holder's handle: what it believes it holds, and whether it gave it back. */
  class StorageReservation {
    const store: LedgerStore
    const root: Root
    const kind: Kind
    var reservedBytes: int
    var released: bool

    constructor (store: LedgerStore, root: Root, kind: Kind, reservedBytes: int)
      ensures this.store == store && this.root == root && this.kind == kind
      ensures this.reservedBytes == reservedBytes && !released
    {
      this.store, this.root, this.kind := store, root, kind;
      this.reservedBytes, released := reservedBytes, false;
    }

    /** Releasing twice gives back once. */
    method Release()
      modifies this`released, store
      ensures released
      ensures store.Now() == if old(released) then old(store.Now())
              else Discharge(old(store.Now()), root, kind, reservedBytes)
    {
      if released {
        return;
      }
      store.ReleaseCapacity(root, kind, reservedBytes);
      released := true;
    }

    method Extend(requested: int, free: int, hardStop: int) returns (ok: bool)
      modifies this`reservedBytes, store
      ensures old(released) ==> !ok && store.Now() == old(store.Now())
      ensures !old(released) ==>
                (store.Now(), if ok then None else Charge(old(store.Now()), root, requested, free, hardStop).1)
                == Charge(old(store.Now()), root, requested, free, hardStop)
      ensures reservedBytes == if ok then old(reservedBytes) + requested else old(reservedBytes)
    {
      if released {
        return false;
      }
      var refused := store.ExtendCapacity(root, requested, free, hardStop);
      if refused.Some? {
        return false;
      }
      reservedBytes := reservedBytes + requested;
      return true;
    }
  }
}
