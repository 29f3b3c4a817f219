/** Small shared vocabulary: optional values, a clamp at zero, and the id-ordered listing of a finite table. */
module Common {

  datatype Option<+T> = None | Some(value: T)

  /** `max(0, n)`. */
  function Floor(n: int): nat { if n < 0 then 0 else n }

  lemma SubsetSize<T>(a: set<T>, b: set<T>)
    requires a <= b
    ensures |a| <= |b|
  {
    if a != {} {
      var x :| x in a;
      SubsetSize(a - {x}, b - {x});
    }
  }

  lemma {:induction false} MinWitness(s: set<nat>) returns (m: nat)
    requires s != {}
    ensures m in s && forall x :: x in s ==> m <= x
  {
    m :| m in s;
    var rest := s - {m};
    if rest != {} {
      var k := MinWitness(rest);
      forall x | x in s ensures (if k < m then k else m) <= x {
        if x != m { assert x in rest; }
      }
      m := if k < m then k else m;
    } else {
      assert s == {m};
    }
  }

  lemma MinExists(s: set<nat>)
    requires s != {}
    ensures exists m :: m in s && forall x :: x in s ==> m <= x
  {
    var m := MinWitness(s);
  }

  function MinOf(s: set<nat>): (m: nat)
    requires s != {}
    ensures m in s && forall x :: x in s ==> m <= x
  {
    MinExists(s);
    var m :| m in s && forall x :: x in s ==> m <= x;
    m
  }

  ghost predicate StrictlyIncreasing(ids: seq<nat>) {
    forall i, j :: 0 <= i < j < |ids| ==> ids[i] < ids[j]
  }

  /** `order by id`: every member once, smallest first. */
  function SortedIds(s: set<nat>): (r: seq<nat>)
    ensures forall x :: x in s <==> x in r
    ensures StrictlyIncreasing(r)
  {
    if s == {} then []
    else
      var m := MinOf(s);
      var rest := SortedIds(s - {m});
      assert forall x :: x in rest ==> x in s && m < x;
      [m] + rest
  }
}
