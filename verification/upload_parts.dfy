/** Part arithmetic of a multipart upload: how many parts, how large each one is, which part lists
    recovery accepts, and which lists completion accepts. */
module UploadParts {
  import opened Common

  /** `math.ceil(byte_size / part_size)`. */
  function PartCountFor(size: nat, partSize: nat): nat
    requires partSize > 0
  {
    (size + partSize - 1) / partSize
  }

  /** Bytes part `number` must hold; meaningful for 1 <= number <= part count. */
  function ExpectedSize(size: nat, partSize: nat, number: int): int {
    var rest := size - (number - 1) * partSize;
    if partSize <= rest then partSize else rest
  }

  /** Sum of the expected sizes of parts 1..k. */
  function TotalExpected(size: nat, partSize: nat, k: nat): int {
    if k == 0 then 0 else TotalExpected(size, partSize, k - 1) + ExpectedSize(size, partSize, k)
  }

  lemma PartCountBounds(size: nat, partSize: nat)
    requires partSize > 0
    ensures (PartCountFor(size, partSize) - 1) * partSize < size <= PartCountFor(size, partSize) * partSize
         || (size == 0 && PartCountFor(size, partSize) == 0)
  {
    var n := PartCountFor(size, partSize);
    assert size + partSize - 1 == n * partSize + (size + partSize - 1) % partSize;
    assert (n - 1) * partSize == n * partSize - partSize;
  }

  lemma {:induction false} FullPartsTotal(size: nat, partSize: nat, k: nat)
    requires partSize > 0 && k * partSize <= size
    ensures TotalExpected(size, partSize, k) == k * partSize
  {
    if k > 0 {
      assert k * partSize == (k - 1) * partSize + partSize;
      FullPartsTotal(size, partSize, k - 1);
    }
  }

  lemma TimesPart(a: nat, b: nat, partSize: nat)
    requires a <= b
    ensures a * partSize <= b * partSize
  {}

  lemma PartStart(k: nat, partSize: nat)
    requires k >= 1
    ensures k * partSize == (k - 1) * partSize + partSize
  {}

  lemma EveryPartHolds(size: nat, partSize: nat, k: nat)
    requires partSize > 0 && 1 <= k <= PartCountFor(size, partSize)
    ensures 0 < ExpectedSize(size, partSize, k) <= partSize
  {
    PartCountBounds(size, partSize);
    TimesPart(k - 1, PartCountFor(size, partSize) - 1, partSize);
    hide PartCountFor;
  }

  /** The last part ends where the upload ends. */
  lemma LastPartEnds(size: nat, partSize: nat)
    requires partSize > 0 && PartCountFor(size, partSize) > 0
    ensures var n := PartCountFor(size, partSize);
            (n - 1) * partSize <= size && ExpectedSize(size, partSize, n) == size - (n - 1) * partSize
  {
    PartCountBounds(size, partSize);
    PartStart(PartCountFor(size, partSize), partSize);
    hide PartCountFor;
  }

  /** Every expected part is non-empty and no larger than the part size, and together they are
      exactly the declared bytes. */
  lemma PartSizesPartitionTheUpload(size: nat, partSize: nat)
    requires partSize > 0
    ensures forall k :: 1 <= k <= PartCountFor(size, partSize) ==> 0 < ExpectedSize(size, partSize, k) <= partSize
    ensures TotalExpected(size, partSize, PartCountFor(size, partSize)) == size
  {
    forall k | 1 <= k <= PartCountFor(size, partSize) ensures 0 < ExpectedSize(size, partSize, k) <= partSize {
      EveryPartHolds(size, partSize, k);
    }
    var n := PartCountFor(size, partSize);
    if n == 0 {
      PartCountBounds(size, partSize);
    } else {
      LastPartEnds(size, partSize);
      FullPartsTotal(size, partSize, n - 1);
      hide PartCountFor, ExpectedSize;
    }
  }

  // ---------------------------------------------------------------- recovery

  datatype Part = Part(number: int, etag: string, size: int)

  /** The white space that `str.strip` removes. */
  predicate Blank(c: char) {
    '\U{9}' <= c <= '\U{d}' || '\U{1c}' <= c <= '\U{20}' || c == '\U{85}' || c == '\U{a0}' || c == '\U{1680}'
    || '\U{2000}' <= c <= '\U{200a}' || c == '\U{2028}' || c == '\U{2029}' || c == '\U{202f}' || c == '\U{205f}'
    || c == '\U{3000}'
  }

  predicate UsableTag(etag: string) {
    (exists i :: 0 <= i < |etag| && !Blank(etag[i])) && |etag| <= 512 && '\r' !in etag && '\n' !in etag
  }

  predicate AcceptablePart(p: Part, size: nat, partSize: nat, count: nat) {
    1 <= p.number <= count && p.size == ExpectedSize(size, partSize, p.number) && UsableTag(p.etag)
  }

  /** All parts acceptable and no part number twice. */
  ghost predicate AcceptableListing(parts: seq<Part>, size: nat, partSize: nat, count: nat) {
    (forall i :: 0 <= i < |parts| ==> AcceptablePart(parts[i], size, partSize, count))
    && (forall i, j :: 0 <= i < j < |parts| ==> parts[i].number != parts[j].number)
  }

  /** The part numbers a listing names. */
  function NumbersOf(parts: seq<Part>): set<int> {
    if parts == [] then {} else NumbersOf(parts[..|parts| - 1]) + {parts[|parts| - 1].number}
  }

  lemma {:induction false} NumberListed(parts: seq<Part>, k: int)
    ensures k in NumbersOf(parts) <==> exists i :: 0 <= i < |parts| && parts[i].number == k
  {
    if parts != [] {
      var rest := parts[..|parts| - 1];
      NumberListed(rest, k);
      if i :| 0 <= i < |parts| && parts[i].number == k {
        if i < |rest| { assert rest[i].number == k; }
      }
      if j :| 0 <= j < |rest| && rest[j].number == k {
        assert parts[j].number == k;
      }
    }
  }

  lemma OneMorePart(parts: seq<Part>, i: nat, size: nat, partSize: nat, count: nat)
    requires i < |parts| && AcceptableListing(parts[..i], size, partSize, count)
    ensures AcceptableListing(parts[..i + 1], size, partSize, count)
            <==> AcceptablePart(parts[i], size, partSize, count) && parts[i].number !in NumbersOf(parts[..i])
    ensures NumbersOf(parts[..i + 1]) == NumbersOf(parts[..i]) + {parts[i].number}
  {
    var before := parts[..i];
    var after := parts[..i + 1];
    assert after[..i] == before && after == before + [parts[i]];
    NumberListed(before, parts[i].number);
    hide AcceptablePart;
    assert parts[i].number !in NumbersOf(before) ==> forall j :: 0 <= j < i ==> after[j].number != after[i].number;
    if AcceptableListing(after, size, partSize, count) {
      assert AcceptablePart(after[i], size, partSize, count);
      assert forall j :: 0 <= j < i ==> before[j].number == after[j].number != after[i].number;
    }
  }

  lemma PrefixAcceptable(parts: seq<Part>, i: nat, size: nat, partSize: nat, count: nat)
    requires i <= |parts| && AcceptableListing(parts, size, partSize, count)
    ensures AcceptableListing(parts[..i], size, partSize, count)
  {
    hide AcceptablePart;
  }

  /** Recovery's check of the provider's listing: accepted in full, or refused. */
  method CheckListing(stored: seq<Part>, size: nat, partSize: nat, count: nat) returns (r: Option<seq<Part>>)
    ensures r.Some? <==> AcceptableListing(stored, size, partSize, count)
    ensures r.Some? ==> r.value == stored
  {
    var seen: set<int> := {};
    var parts: seq<Part> := [];
    assert AcceptableListing(stored[..0], size, partSize, count);
    hide AcceptableListing, UsableTag;
    for i := 0 to |stored|
      invariant parts == stored[..i]
      invariant seen == NumbersOf(stored[..i])
      invariant AcceptableListing(stored[..i], size, partSize, count)
    {
      hide NumbersOf;
      var part := stored[i];
      OneMorePart(stored, i, size, partSize, count);
      var expected := if partSize <= size - (part.number - 1) * partSize then partSize
                      else size - (part.number - 1) * partSize;
      assert expected == ExpectedSize(size, partSize, part.number);
      hide ExpectedSize;
      if part.number in seen || !(1 <= part.number <= count) || part.size != expected || !UsableTag(part.etag) {
        if AcceptableListing(stored, size, partSize, count) { PrefixAcceptable(stored, i + 1, size, partSize, count); }
        return None;
      }
      seen := seen + {part.number};
      parts := parts + [part];
      assert stored[..i + 1] == stored[..i] + [part];
    }
    assert stored[..|stored|] == stored;
    r := Some(parts);
  }

  function TotalSize(parts: seq<Part>): int {
    if parts == [] then 0 else TotalSize(parts[..|parts| - 1]) + parts[|parts| - 1].size
  }

  /** Expected bytes of those part numbers in 1..n that are in the set. */
  ghost function SizeOf(numbers: set<int>, n: nat, size: nat, partSize: nat): int {
    if n == 0 then 0
    else SizeOf(numbers, n - 1, size, partSize) + if n in numbers then ExpectedSize(size, partSize, n) else 0
  }

  lemma {:induction false} SizeOfAdd(numbers: set<int>, x: int, n: nat, size: nat, partSize: nat)
    requires x !in numbers
    ensures SizeOf(numbers + {x}, n, size, partSize)
         == SizeOf(numbers, n, size, partSize) + if 1 <= x <= n then ExpectedSize(size, partSize, x) else 0
  {
    if n > 0 {
      SizeOfAdd(numbers, x, n - 1, size, partSize);
    }
  }

  lemma {:induction false} ListingSizes(parts: seq<Part>, size: nat, partSize: nat, n: nat)
    requires AcceptableListing(parts, size, partSize, n)
    ensures TotalSize(parts) == SizeOf(NumbersOf(parts), n, size, partSize)
    ensures |NumbersOf(parts)| == |parts|
  {
    if parts == [] {
      EmptySize(n, size, partSize);
    } else {
      var rest := parts[..|parts| - 1];
      var last := parts[|parts| - 1];
      ListingSizes(rest, size, partSize, n);
      NumberListed(rest, last.number);
      assert AcceptablePart(last, size, partSize, n);
      SizeOfAdd(NumbersOf(rest), last.number, n, size, partSize);
    }
  }

  lemma ListedInRange(parts: seq<Part>, size: nat, partSize: nat, n: nat)
    requires AcceptableListing(parts, size, partSize, n)
    ensures forall k :: k in NumbersOf(parts) ==> 1 <= k <= n
  {
    forall k | k in NumbersOf(parts) ensures 1 <= k <= n {
      NumberListed(parts, k);
      var i :| 0 <= i < |parts| && parts[i].number == k;
      assert AcceptablePart(parts[i], size, partSize, n);
    }
  }

  lemma {:induction false} EmptySize(n: nat, size: nat, partSize: nat)
    ensures SizeOf({}, n, size, partSize) == 0
  {
    if n > 0 { EmptySize(n - 1, size, partSize); }
  }

  /** Adding up fewer parts than 1..n falls short of the total, adding up all of them reaches it. */
  lemma {:induction false} SizeOfSome(numbers: set<int>, n: nat, size: nat, partSize: nat)
    requires forall k :: 1 <= k <= n ==> ExpectedSize(size, partSize, k) > 0
    requires forall k :: k in numbers ==> 1 <= k <= n
    ensures |numbers| <= n
    ensures SizeOf(numbers, n, size, partSize) <= TotalExpected(size, partSize, n)
    ensures SizeOf(numbers, n, size, partSize) == TotalExpected(size, partSize, n) <==> |numbers| == n
  {
    if n > 0 {
      var rest := numbers - {n};
      SizeOfSome(rest, n - 1, size, partSize);
      if n in numbers {
        assert numbers == rest + {n};
        SizeOfAdd(rest, n, n - 1, size, partSize);
      } else {
        assert rest == numbers;
      }
    } else {
      assert forall k :: k !in numbers;
      assert numbers == {};
    }
  }

  /** An accepted listing never claims more than the declared bytes, and it accounts for all of
      them exactly when it lists `part_count` parts. */
  lemma ListingAccountsForTheUpload(parts: seq<Part>, size: nat, partSize: nat)
    requires partSize > 0
    requires AcceptableListing(parts, size, partSize, PartCountFor(size, partSize))
    ensures TotalSize(parts) <= size
    ensures TotalSize(parts) == size <==> |parts| == PartCountFor(size, partSize)
  {
    var n := PartCountFor(size, partSize);
    PartSizesPartitionTheUpload(size, partSize);
    ListingSizes(parts, size, partSize, n);
    ListedInRange(parts, size, partSize, n);
    hide PartCountFor, ExpectedSize, NumbersOf, SizeOf, TotalExpected, TotalSize;
    SizeOfSome(NumbersOf(parts), n, size, partSize);
  }

  // ---------------------------------------------------------------- completion

  /** `list(range(a, n + 1))`. */
  function Range(a: nat, n: nat): (r: seq<nat>)
    ensures a <= n + 1 ==> |r| == n + 1 - a
    ensures forall i :: 0 <= i < |r| ==> r[i] == a + i
    decreases n + 1 - a
  {
    if a > n then [] else [a] + Range(a + 1, n)
  }

  function OneTo(n: nat): seq<nat> { Range(1, n) }

  function InsertAscending(x: nat, s: seq<nat>): seq<nat> {
    if s == [] || x <= s[0] then [x] + s else [s[0]] + InsertAscending(x, s[1..])
  }

  /** `sorted(...)` on part numbers. */
  function Ascending(s: seq<nat>): seq<nat> {
    if s == [] then [] else InsertAscending(s[0], Ascending(s[1..]))
  }

  predicate InOrder(s: seq<nat>) { |s| <= 1 || (s[0] <= s[1] && InOrder(s[1..])) }

  lemma {:induction false} RangeInOrder(a: nat, n: nat)
    ensures InOrder(Range(a, n))
    decreases n + 1 - a
  {
    if a <= n { RangeInOrder(a + 1, n); }
  }

  lemma {:induction false} HeadIsLeast(s: seq<nat>, x: nat)
    requires InOrder(s) && x in s
    ensures s[0] <= x
  {
    if x != s[0] {
      assert s == [s[0]] + s[1..];
      HeadIsLeast(s[1..], x);
    }
  }

  lemma {:induction false} InsertKeeps(x: nat, s: seq<nat>)
    requires InOrder(s)
    ensures InOrder(InsertAscending(x, s))
    ensures InsertAscending(x, s) != []
    ensures InsertAscending(x, s)[0] == if s == [] || x <= s[0] then x else s[0]
  {
    if s == [] || x <= s[0] {
      assert ([x] + s)[1..] == s;
    } else {
      InsertKeeps(x, s[1..]);
      assert InsertAscending(x, s)[1..] == InsertAscending(x, s[1..]);
    }
  }

  lemma {:induction false} InsertAdds(x: nat, s: seq<nat>)
    ensures multiset(InsertAscending(x, s)) == multiset(s) + multiset{x}
  {
    if s == [] || x <= s[0] {
    } else {
      InsertAdds(x, s[1..]);
      assert s == [s[0]] + s[1..];
    }
  }

  lemma TailCounts(s: seq<nat>)
    requires s != []
    ensures multiset(s) == multiset(s[1..]) + multiset{s[0]}
  {
    assert s == [s[0]] + s[1..];
  }

  lemma {:induction false} AscendingCounts(s: seq<nat>)
    ensures multiset(Ascending(s)) == multiset(s)
  {
    if s != [] {
      hide InsertAscending;
      AscendingCounts(s[1..]);
      InsertAdds(s[0], Ascending(s[1..]));
      TailCounts(s);
    }
  }

  lemma {:induction false} AscendingInOrder(s: seq<nat>)
    ensures InOrder(Ascending(s))
  {
    if s != [] {
      AscendingInOrder(s[1..]);
      hide InsertAscending, InOrder;
      InsertKeeps(s[0], Ascending(s[1..]));
    }
  }

  lemma SameLength(a: seq<nat>, b: seq<nat>)
    requires multiset(a) == multiset(b)
    ensures |a| == |b|
  {
    assert |multiset(a)| == |a| && |multiset(b)| == |b|;
  }

  lemma SameHead(a: seq<nat>, b: seq<nat>)
    requires InOrder(a) && InOrder(b) && multiset(a) == multiset(b) && a != [] && b != []
    ensures a[0] == b[0]
  {
    hide InOrder;
    assert a[0] in multiset(a) && b[0] in multiset(b);
    HeadIsLeast(a, b[0]);
    HeadIsLeast(b, a[0]);
  }

  lemma TailsAlike(a: seq<nat>, b: seq<nat>)
    requires a != [] && b != [] && a[0] == b[0] && multiset(a) == multiset(b)
    ensures multiset(a[1..]) == multiset(b[1..])
  {
    TailCounts(a);
    TailCounts(b);
    assert multiset(a[1..]) == multiset(a) - multiset{a[0]};
    assert multiset(b[1..]) == multiset(b) - multiset{b[0]};
  }

  lemma TailInOrder(s: seq<nat>)
    requires InOrder(s) && s != []
    ensures InOrder(s[1..])
  {}

  lemma {:induction false} SortedIsUnique(a: seq<nat>, b: seq<nat>)
    requires InOrder(a) && InOrder(b) && multiset(a) == multiset(b)
    ensures a == b
  {
    SameLength(a, b);
    if a != [] {
      TailInOrder(a);
      TailInOrder(b);
      SameHead(a, b);
      hide InOrder;
      TailsAlike(a, b);
      SortedIsUnique(a[1..], b[1..]);
      assert a == [a[0]] + a[1..] && b == [b[0]] + b[1..];
    }
  }

  /** Completion accepts exactly the permutations of 1..n. */
  lemma CompletionAcceptsPermutations(numbers: seq<nat>, n: nat)
    ensures Ascending(numbers) == OneTo(n) <==> multiset(numbers) == multiset(OneTo(n))
  {
    AscendingCounts(numbers);
    AscendingInOrder(numbers);
    RangeInOrder(1, n);
    if multiset(numbers) == multiset(OneTo(n)) {
      SortedIsUnique(Ascending(numbers), OneTo(n));
    }
  }
}
