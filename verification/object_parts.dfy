/** Listing the stored parts of a multipart upload, page by page. */
module ObjectParts {
  import opened Common

  datatype Part = Part(number: nat, size: nat)
  datatype Page = Page(parts: seq<Part>, truncated: bool, next: Option<int>)
  datatype ListError = InvalidMetadata | InvalidPagination
  datatype Listing = Listed(parts: seq<Part>) | Failed(error: ListError)

  const PAGE: nat := 1000
  const CALLS: nat := 11
  const MOST: nat := 10_000

  /** Whatever a provider answers to its n-th call, given the marker; `None` is malformed. */
  type Provider = (nat, int) -> Option<Page>

  /** `list_multipart_parts`: follows markers for at most eleven calls. */
  method ListParts(provider: Provider) returns (r: Listing, calls: nat)
    ensures calls <= CALLS
    ensures r == ListFrom(provider, 0, 0, [])
    ensures r.Listed? ==> |r.parts| <= MOST
  {
    var parts: seq<Part> := [];
    var marker := 0;
    calls := 0;
    while calls < CALLS
      invariant calls <= CALLS
      invariant ListFrom(provider, 0, 0, []) == ListFrom(provider, calls, marker, parts)
    {
      var page := provider(calls, marker);
      calls := calls + 1;
      if page.None? {
        return Failed(InvalidMetadata), calls;
      }
      parts := parts + page.value.parts;
      if |parts| > MOST {
        break;
      }
      if !page.value.truncated {
        return Listed(parts), calls;
      }
      if page.value.next.None? {
        return Failed(InvalidMetadata), calls;
      }
      if page.value.next.value <= marker {
        break;
      }
      marker := page.value.next.value;
    }
    return Failed(InvalidPagination), calls;
  }

  function ListFrom(provider: Provider, call: nat, marker: int, parts: seq<Part>): Listing
    decreases CALLS - call
  {
    if call >= CALLS then Failed(InvalidPagination)
    else
      match provider(call, marker)
      case None => Failed(InvalidMetadata)
      case Some(page) =>
        var all := parts + page.parts;
        if |all| > MOST then Failed(InvalidPagination)
        else if !page.truncated then Listed(all)
        else if page.next.None? then Failed(InvalidMetadata)
        else if page.next.value <= marker then Failed(InvalidPagination)
        else ListFrom(provider, call + 1, page.next.value, all)
  }

  // ---------------------------------------------------------------- honest providers

  ghost predicate Ascending(all: seq<Part>) {
    (forall i :: 0 <= i < |all| ==> all[i].number >= 1)
    && forall i, j :: 0 <= i < j < |all| ==> all[i].number < all[j].number
  }

  /** The parts numbered above a marker. */
  function Above(all: seq<Part>, marker: int): (r: seq<Part>)
    ensures |r| <= |all|
  {
    if all == [] then []
    else if all[0].number <= marker then Above(all[1..], marker)
    else all
  }

  /** A page that tells the truth about what lies above the marker it was asked for: a first stretch of
      it, not empty unless nothing is left, with a flag and a marker that say where it ends. */
  predicate Truthful(page: Page, rest: seq<Part>) {
    page.parts <= rest && (rest != [] ==> page.parts != [])
    && (page.truncated <==> page.parts != rest)
    && (page.truncated ==> page.next == Some(page.parts[|page.parts| - 1].number))
  }

  /** A provider all of whose well-formed answers are truthful about one list of parts, whatever the
      length of its pages. */
  ghost predicate Serves(provider: Provider, all: seq<Part>) {
    forall call: nat, marker: int ::
      provider(call, marker).Some? ==> Truthful(provider(call, marker).value, Above(all, marker))
  }

  ghost predicate Answers(provider: Provider) {
    forall call: nat, marker: int :: provider(call, marker).Some?
  }

  lemma {:induction false} AboveAt(all: seq<Part>, n: nat)
    requires Ascending(all) && n <= |all|
    ensures Above(all, if n == 0 then 0 else all[n - 1].number) == all[n..]
  {
    if n > 0 {
      var tail := all[1..];
      assert Ascending(tail);
      AboveAt(tail, n - 1);
      assert tail[n - 1..] == all[n..];
      if n == 1 {
        if tail != [] { assert tail[0].number > all[0].number; }
      }
    }
  }

  /** The marker after the first n parts. */
  function MarkerAfter(all: seq<Part>, n: nat): int
    requires n <= |all|
  {
    if n == 0 then 0 else all[n - 1].number
  }

  /** What a truthful provider answers once n parts are known. */
  lemma NextPage(provider: Provider, all: seq<Part>, call: nat, n: nat)
    requires Serves(provider, all) && Ascending(all) && n <= |all|
    ensures var answer := provider(call, MarkerAfter(all, n));
            answer.Some? ==>
              var k := n + |answer.value.parts|;
              k <= |all| && answer.value.parts == all[n..k] && (answer.value.truncated <==> k < |all|)
              && (k < |all| ==> n < k && answer.value.next == Some(MarkerAfter(all, k))
                                && MarkerAfter(all, k) > MarkerAfter(all, n))
  {
    AboveAt(all, n);
    var answer := provider(call, MarkerAfter(all, n));
    if answer.Some? {
      var page := answer.value;
      assert Truthful(page, all[n..]);
      var k := n + |page.parts|;
      assert page.parts == all[n..][..|page.parts|] == all[n..k];
      if page.truncated {
        assert page.parts[|page.parts| - 1] == all[k - 1];
        assert all[n..k] != all[n..];
      }
    }
  }

  /** One round of the listing against a truthful provider. */
  lemma ListingRound(provider: Provider, all: seq<Part>, call: nat, n: nat)
    requires Serves(provider, all) && Ascending(all) && n <= |all| && call < CALLS
    requires provider(call, MarkerAfter(all, n)).Some?
    ensures var k := n + |provider(call, MarkerAfter(all, n)).value.parts|;
            n <= k <= |all|
            && ListFrom(provider, call, MarkerAfter(all, n), all[..n])
               == if k > MOST then Failed(InvalidPagination)
                  else if k == |all| then Listed(all)
                  else ListFrom(provider, call + 1, MarkerAfter(all, k), all[..k])
  {
    NextPage(provider, all, call, n);
    hide Serves, Ascending, MarkerAfter;
    var k := n + |provider(call, MarkerAfter(all, n)).value.parts|;
    assert all[..n] + all[n..k] == all[..k];
    assert k == |all| ==> all[..k] == all;
  }

  lemma NoCallsLeft(provider: Provider, call: nat, marker: int, parts: seq<Part>)
    requires call >= CALLS
    ensures ListFrom(provider, call, marker, parts) == Failed(InvalidPagination)
  {}

  lemma Malformed(provider: Provider, call: nat, marker: int, parts: seq<Part>)
    requires call < CALLS && provider(call, marker).None?
    ensures ListFrom(provider, call, marker, parts) == Failed(InvalidMetadata)
  {}

  /** A truthful provider is never quoted in part, and a list above the limit is never returned. */
  lemma {:induction false} ListedIsWhole(provider: Provider, all: seq<Part>, call: nat, n: nat)
    requires Serves(provider, all) && Ascending(all) && n <= |all|
    ensures var r := ListFrom(provider, call, MarkerAfter(all, n), all[..n]);
            r.Listed? ==> r.parts == all && |all| <= MOST
    decreases CALLS - call
  {
    hide Serves, Ascending, ListFrom, MarkerAfter;
    if call >= CALLS {
      NoCallsLeft(provider, call, MarkerAfter(all, n), all[..n]);
    } else if provider(call, MarkerAfter(all, n)).None? {
      Malformed(provider, call, MarkerAfter(all, n), all[..n]);
    } else {
      ListingRound(provider, all, call, n);
      var k := n + |provider(call, MarkerAfter(all, n)).value.parts|;
      ListedIsWhole(provider, all, call + 1, k);
    }
  }

  /** How many pages a truthful provider takes for the parts after the first n. */
  ghost function Pages(provider: Provider, all: seq<Part>, call: nat, n: nat): nat
    requires Serves(provider, all) && Answers(provider) && Ascending(all) && n <= |all|
    decreases |all| - n
  {
    NextPage(provider, all, call, n);
    var k := n + |provider(call, MarkerAfter(all, n)).value.parts|;
    if k < |all| then 1 + Pages(provider, all, call + 1, k) else 1
  }

  lemma PagesRound(provider: Provider, all: seq<Part>, call: nat, n: nat)
    requires Serves(provider, all) && Answers(provider) && Ascending(all) && n <= |all|
    ensures var k := n + |provider(call, MarkerAfter(all, n)).value.parts|;
            n <= k <= |all|
            && Pages(provider, all, call, n) == if k < |all| then 1 + Pages(provider, all, call + 1, k) else 1
  {
    NextPage(provider, all, call, n);
    hide Serves, Ascending, Answers, MarkerAfter;
  }

  lemma {:induction false} ListedWhenItFits(provider: Provider, all: seq<Part>, call: nat, n: nat)
    requires Serves(provider, all) && Answers(provider) && Ascending(all) && n <= |all|
    ensures ListFrom(provider, call, MarkerAfter(all, n), all[..n])
         == if |all| <= MOST && call + Pages(provider, all, call, n) <= CALLS then Listed(all)
            else Failed(InvalidPagination)
    decreases CALLS - call
  {
    assert provider(call, MarkerAfter(all, n)).Some?;
    hide Serves, Answers, Ascending, ListFrom, Pages, MarkerAfter;
    PagesRound(provider, all, call, n);
    if call >= CALLS {
      NoCallsLeft(provider, call, MarkerAfter(all, n), all[..n]);
    } else {
      ListingRound(provider, all, call, n);
      var k := n + |provider(call, MarkerAfter(all, n)).value.parts|;
      if k < |all| { ListedWhenItFits(provider, all, call + 1, k); }
    }
  }

  /** Whatever the length of its pages, a truthful provider is listed whole or not at all: whole exactly
      when it stores at most 10,000 parts and serves them in at most eleven pages. A provider that
      sometimes answers nonsense is still never quoted in part. */
  lemma TruthfulListingsAreWholeOrRefused(provider: Provider, all: seq<Part>)
    requires Serves(provider, all) && Ascending(all)
    ensures var r := ListFrom(provider, 0, 0, []); r.Listed? ==> r.parts == all && |all| <= MOST
    ensures Answers(provider) ==>
              ListFrom(provider, 0, 0, []) == if |all| <= MOST && Pages(provider, all, 0, 0) <= CALLS then Listed(all)
                                              else Failed(InvalidPagination)
  {
    hide Serves, Ascending, ListFrom, Pages;
    assert all[..0] == [];
    ListedIsWhole(provider, all, 0, 0);
    if Answers(provider) { ListedWhenItFits(provider, all, 0, 0); }
  }

  // ---------------------------------------------------------------- full pages

  /** A provider that fills every page but the last. */
  function Honest(all: seq<Part>): Provider {
    (call: nat, marker: int) =>
      var rest := Above(all, marker);
      if |rest| <= PAGE then Some(Page(rest, false, None))
      else Some(Page(rest[..PAGE], true, Some(rest[PAGE - 1].number)))
  }

  lemma HonestServes(all: seq<Part>)
    ensures Serves(Honest(all), all) && Answers(Honest(all))
  {
    hide Above;
  }

  lemma {:induction false} HonestPages(all: seq<Part>, call: nat, n: nat)
    requires Ascending(all) && n <= |all|
    requires Serves(Honest(all), all) && Answers(Honest(all))
    ensures PAGE * Pages(Honest(all), all, call, n) <= |all| - n + PAGE
    decreases |all| - n
  {
    AboveAt(all, n);
    NextPage(Honest(all), all, call, n);
    var k := n + |Honest(all)(call, MarkerAfter(all, n)).value.parts|;
    assert k < |all| ==> k == n + PAGE;
    hide Serves, Answers, Ascending, Honest;
    if k < |all| { HonestPages(all, call + 1, k); }
  }

  /** Full pages always suffice: the listing returns exactly the stored parts when there are at most
      10,000, and an error otherwise. */
  lemma HonestListingsAreComplete(all: seq<Part>)
    requires Ascending(all)
    ensures ListFrom(Honest(all), 0, 0, []) == if |all| <= MOST then Listed(all) else Failed(InvalidPagination)
  {
    HonestServes(all);
    hide Honest, Ascending, Serves, Answers, Pages, ListFrom;
    TruthfulListingsAreWholeOrRefused(Honest(all), all);
    HonestPages(all, 0, 0);
  }
}
