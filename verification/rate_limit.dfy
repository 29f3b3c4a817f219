/** The sliding-window limiter: one queue of accepted times per key, pruned from the front. */
module RateLimit {
  import opened Common

  type Key = string
  type Attempts = map<Key, seq<int>>

  function QueueOf(m: Attempts, key: Key): seq<int> { if key in m then m[key] else [] }

  /** Pops from the front while the front is not after the cutoff. */
  function Prune(q: seq<int>, cutoff: int): seq<int> {
    if q != [] && q[0] <= cutoff then Prune(q[1..], cutoff) else q
  }

  /** `check`: the queues afterwards, and whether the attempt was accepted. */
  function CheckTx(m: Attempts, key: Key, limit: int, window: int, now: int): (Attempts, bool) {
    var q := Prune(QueueOf(m, key), now - window);
    if |q| >= limit then (m[key := q], false) else (m[key := q + [now]], true)
  }

  class AuthRateLimiter {
    var attempts: Attempts

    constructor ()
      ensures attempts == map[]
    {
      attempts := map[];
    }

    method Check(key: Key, limit: int, window: int, now: int) returns (accepted: bool)
      modifies this
      ensures (attempts, accepted) == CheckTx(old(attempts), key, limit, window, now)
    {
      var cutoff := now - window;
      if key !in attempts {
        attempts := attempts[key := []];
      }
      ghost var others := attempts;
      while attempts[key] != [] && attempts[key][0] <= cutoff
        invariant key in attempts && attempts == others[key := attempts[key]]
        invariant Prune(attempts[key], cutoff) == Prune(QueueOf(old(attempts), key), cutoff)
        decreases |attempts[key]|
      {
        attempts := attempts[key := attempts[key][1..]];
      }
      assert old(attempts)[key := attempts[key]] == attempts;
      if |attempts[key]| >= limit {
        return false;
      }
      ghost var q := attempts[key];
      attempts := attempts[key := attempts[key] + [now]];
      assert attempts == old(attempts)[key := q + [now]];
      return true;
    }

    method Reset()
      modifies this
      ensures attempts == map[]
    {
      attempts := map[];
    }
  }

  // ---------------------------------------------------------------- runs

  datatype Policy = Policy(limit: int, window: int)
  datatype Call = Check(key: Key, now: int) | Reset(now: int)

  /** The queues, and everything accepted since the last reset, oldest first. */
  datatype State = State(attempts: Attempts, accepted: map<Key, seq<int>>)

  const START := State(map[], map[])

  function Apply(policy: Key -> Policy, s: State, call: Call): State {
    match call
    case Check(key, now) =>
      var r := CheckTx(s.attempts, key, policy(key).limit, policy(key).window, now);
      State(r.0, if r.1 then s.accepted[key := QueueOf(s.accepted, key) + [now]] else s.accepted)
    case Reset(_) => START
  }

  function Run(policy: Key -> Policy, s: State, calls: seq<Call>): State
    decreases |calls|
  {
    if calls == [] then s else Run(policy, Apply(policy, s, calls[0]), calls[1..])
  }

  /** A nondecreasing clock. */
  ghost predicate ClockRuns(calls: seq<Call>, from: int, to: int) {
    (forall i :: 0 <= i < |calls| ==> from <= calls[i].now <= to)
    && forall i, j :: 0 <= i < j < |calls| ==> calls[i].now <= calls[j].now
  }

  /** The times later than a cutoff. */
  function Later(times: seq<int>, cutoff: int): seq<int> {
    if times == [] then []
    else Later(times[..|times| - 1], cutoff) + if times[|times| - 1] > cutoff then [times[|times| - 1]] else []
  }

  ghost predicate Ascending(times: seq<int>) { forall i, j :: 0 <= i < j < |times| ==> times[i] <= times[j] }

  /** The accepted times that fall into the window ending at t. */
  function InWindow(times: seq<int>, t: int, window: int): nat {
    if times == [] then 0
    else InWindow(times[..|times| - 1], t, window) + if t - window < times[|times| - 1] <= t then 1 else 0
  }

  /** When each acceptance was made, the window ending there held no more than the limit. */
  ghost predicate PastOk(policy: Policy, accepted: seq<int>) {
    forall n :: 0 <= n < |accepted| ==> InWindow(accepted[..n + 1], accepted[n], policy.window) <= policy.limit
  }

  /** The queue is what is left of the accepted times after dropping old ones. */
  ghost predicate SuffixOk(queue: seq<int>, accepted: seq<int>, cutoff: int) {
    |queue| <= |accepted| && queue == accepted[|accepted| - |queue|..]
    && forall i :: 0 <= i < |accepted| - |queue| ==> accepted[i] <= cutoff
  }

  ghost predicate NoneAfter(times: seq<int>, now: int) { forall i :: 0 <= i < |times| ==> times[i] <= now }

  /** One key: its queue is a suffix of what was accepted, what was dropped is out of every window
      from now on, and no window of the past holds more than the limit. */
  ghost predicate KeyOk(policy: Policy, queue: seq<int>, accepted: seq<int>, now: int) {
    Ascending(accepted) && NoneAfter(accepted, now) && SuffixOk(queue, accepted, now - policy.window)
    && PastOk(policy, accepted)
  }

  ghost predicate Inv(policy: Key -> Policy, s: State, now: int) {
    forall key: Key :: KeyOk(policy(key), QueueOf(s.attempts, key), QueueOf(s.accepted, key), now)
  }

  lemma {:induction false} LaterAll(times: seq<int>, cutoff: int)
    requires Ascending(times) && (times == [] || times[0] > cutoff)
    ensures Later(times, cutoff) == times
  {
    if times != [] {
      if |times| > 1 { LaterAll(times[..|times| - 1], cutoff); }
      assert times == times[..|times| - 1] + [times[|times| - 1]];
    }
  }

  lemma {:induction false} LaterNone(times: seq<int>, cutoff: int, rest: seq<int>)
    requires forall i :: 0 <= i < |times| ==> times[i] <= cutoff
    ensures Later(times + rest, cutoff) == Later(rest, cutoff)
  {
    if rest == [] {
      assert times + rest == times;
      if times != [] {
        LaterNone(times[..|times| - 1], cutoff, []);
        assert times[..|times| - 1] + [] == times[..|times| - 1];
      }
    } else {
      assert (times + rest)[..|times + rest| - 1] == times + rest[..|rest| - 1];
      LaterNone(times, cutoff, rest[..|rest| - 1]);
    }
  }

  /** How many entries pruning pops. */
  function Popped(q: seq<int>, cutoff: int): (n: nat)
    ensures n <= |q|
  {
    if q != [] && q[0] <= cutoff then 1 + Popped(q[1..], cutoff) else 0
  }

  lemma {:induction false} PruneDrops(q: seq<int>, cutoff: int)
    ensures Prune(q, cutoff) == q[Popped(q, cutoff)..]
    ensures forall i :: 0 <= i < Popped(q, cutoff) ==> q[i] <= cutoff
  {
    if q != [] && q[0] <= cutoff {
      PruneDrops(q[1..], cutoff);
      assert q[1..][Popped(q[1..], cutoff)..] == q[Popped(q, cutoff)..];
      forall i | 0 <= i < Popped(q, cutoff) ensures q[i] <= cutoff { assert i > 0 ==> q[i] == q[1..][i - 1]; }
    }
  }

  lemma {:induction false} PruneIsLater(q: seq<int>, cutoff: int)
    requires Ascending(q)
    ensures Prune(q, cutoff) == Later(q, cutoff)
  {
    if q != [] && q[0] <= cutoff {
      PruneIsLater(q[1..], cutoff);
      LaterNone([q[0]], cutoff, q[1..]);
      assert [q[0]] + q[1..] == q;
    } else {
      LaterAll(q, cutoff);
    }
  }

  lemma {:induction false} WindowCounts(times: seq<int>, t: int, window: int)
    requires NoneAfter(times, t)
    ensures InWindow(times, t, window) == |Later(times, t - window)|
  {
    if times != [] { WindowCounts(times[..|times| - 1], t, window); }
  }

  lemma PrunedSuffix(queue: seq<int>, accepted: seq<int>, cutoff: int)
    requires SuffixOk(queue, accepted, cutoff)
    ensures SuffixOk(Prune(queue, cutoff), accepted, cutoff)
  {
    PruneDrops(queue, cutoff);
    hide Prune, Popped;
    var dropped := |accepted| - |queue|;
    var n := Popped(queue, cutoff);
    assert queue[n..] == accepted[dropped + n..];
    forall i | 0 <= i < dropped + n ensures accepted[i] <= cutoff {
      assert i >= dropped ==> accepted[i] == queue[i - dropped];
    }
  }

  lemma SuffixPrunesAlike(queue: seq<int>, accepted: seq<int>, cutoff: int)
    requires Ascending(accepted) && SuffixOk(queue, accepted, cutoff)
    ensures Prune(queue, cutoff) == Later(accepted, cutoff)
  {
    var dropped := |accepted| - |queue|;
    assert Ascending(queue);
    assert accepted[..dropped] + queue == accepted;
    PruneIsLater(queue, cutoff);
    hide Prune, Later, Ascending;
    LaterNone(accepted[..dropped], cutoff, queue);
  }

  lemma LaterCutoff(queue: seq<int>, accepted: seq<int>, from: int, to: int)
    requires SuffixOk(queue, accepted, from) && from <= to
    ensures SuffixOk(queue, accepted, to)
  {}

  lemma NoneAfterLater(times: seq<int>, from: int, to: int)
    requires NoneAfter(times, from) && from <= to
    ensures NoneAfter(times, to)
  {}

  /** The pruned queue is the accepted times in the current window. */
  lemma PrunedQueue(policy: Policy, queue: seq<int>, accepted: seq<int>, before: int, now: int)
    requires KeyOk(policy, queue, accepted, before) && before <= now
    ensures Prune(queue, now - policy.window) == Later(accepted, now - policy.window)
    ensures KeyOk(policy, Prune(queue, now - policy.window), accepted, now)
    ensures |Prune(queue, now - policy.window)| == InWindow(accepted, now, policy.window)
  {
    hide Ascending, NoneAfter, SuffixOk, Prune, Later, InWindow, PastOk;
    LaterCutoff(queue, accepted, before - policy.window, now - policy.window);
    NoneAfterLater(accepted, before, now);
    WindowCounts(accepted, now, policy.window);
    PrunedSuffix(queue, accepted, now - policy.window);
    SuffixPrunesAlike(queue, accepted, now - policy.window);
  }

  lemma PastGrows(policy: Policy, accepted: seq<int>, now: int)
    requires PastOk(policy, accepted) && InWindow(accepted, now, policy.window) < policy.limit
    ensures PastOk(policy, accepted + [now])
  {
    var longer := accepted + [now];
    assert longer[..|accepted|] == accepted;
    assert InWindow(longer, now, policy.window) <= InWindow(accepted, now, policy.window) + 1;
    hide InWindow;
    forall n | 0 <= n < |longer| ensures InWindow(longer[..n + 1], longer[n], policy.window) <= policy.limit {
      if n < |accepted| {
        assert longer[..n + 1] == accepted[..n + 1];
      } else {
        assert longer[..n + 1] == longer;
      }
    }
  }

  lemma SuffixGrows(queue: seq<int>, accepted: seq<int>, cutoff: int, now: int)
    requires SuffixOk(queue, accepted, cutoff)
    ensures SuffixOk(queue + [now], accepted + [now], cutoff)
  {}

  lemma TimesGrow(accepted: seq<int>, now: int)
    requires Ascending(accepted) && NoneAfter(accepted, now)
    ensures Ascending(accepted + [now]) && NoneAfter(accepted + [now], now)
  {}

  lemma AcceptKeeps(policy: Policy, queue: seq<int>, accepted: seq<int>, now: int)
    requires KeyOk(policy, queue, accepted, now) && InWindow(accepted, now, policy.window) < policy.limit
    ensures KeyOk(policy, queue + [now], accepted + [now], now)
  {
    hide Ascending, NoneAfter, PastOk, SuffixOk, InWindow;
    PastGrows(policy, accepted, now);
    SuffixGrows(queue, accepted, now - policy.window, now);
    TimesGrow(accepted, now);
  }

  lemma LaterKey(policy: Policy, queue: seq<int>, accepted: seq<int>, from: int, to: int)
    requires KeyOk(policy, queue, accepted, from) && from <= to
    ensures KeyOk(policy, queue, accepted, to)
  {}

  lemma CheckKeeps(policy: Key -> Policy, s: State, k: Key, now: int, before: int)
    requires Inv(policy, s, before) && before <= now
    ensures Inv(policy, Apply(policy, s, Check(k, now)), now)
  {
    var s' := Apply(policy, s, Check(k, now));
    hide KeyOk, Prune, InWindow, Later;
    forall key: Key ensures KeyOk(policy(key), QueueOf(s'.attempts, key), QueueOf(s'.accepted, key), now) {
      var queue := QueueOf(s.attempts, key); var accepted := QueueOf(s.accepted, key);
      assert KeyOk(policy(key), queue, accepted, before);
      if key == k {
        PrunedQueue(policy(key), queue, accepted, before, now);
        if InWindow(accepted, now, policy(key).window) < policy(key).limit {
          AcceptKeeps(policy(key), Prune(queue, now - policy(key).window), accepted, now);
        }
      } else {
        LaterKey(policy(key), queue, accepted, before, now);
      }
    }
  }

  lemma StepKeeps(policy: Key -> Policy, s: State, call: Call, before: int)
    requires Inv(policy, s, before) && before <= call.now
    ensures Inv(policy, Apply(policy, s, call), call.now)
  {
    match call
    case Check(key, now) => CheckKeeps(policy, s, key, now, before);
    case Reset(_) =>
  }

  lemma ClockGoesOn(calls: seq<Call>, from: int, to: int)
    requires ClockRuns(calls, from, to) && calls != []
    ensures from <= calls[0].now <= to && ClockRuns(calls[1..], calls[0].now, to)
  {
    assert forall i :: 0 <= i < |calls[1..]| ==> calls[1..][i] == calls[i + 1];
  }

  lemma {:induction false} RunKeeps(policy: Key -> Policy, s: State, calls: seq<Call>, from: int, to: int)
    requires Inv(policy, s, from) && ClockRuns(calls, from, to) && from <= to
    ensures Inv(policy, Run(policy, s, calls), to)
    decreases |calls|
  {
    hide Inv, Apply, ClockRuns;
    if calls == [] {
      LaterInv(policy, s, from, to);
    } else {
      ClockGoesOn(calls, from, to);
      StepKeeps(policy, s, calls[0], from);
      RunKeeps(policy, Apply(policy, s, calls[0]), calls[1..], calls[0].now, to);
    }
  }

  lemma LaterInv(policy: Key -> Policy, s: State, from: int, to: int)
    requires Inv(policy, s, from) && from <= to
    ensures Inv(policy, s, to)
  {
    forall key: Key ensures KeyOk(policy(key), QueueOf(s.attempts, key), QueueOf(s.accepted, key), to) {
      LaterKey(policy(key), QueueOf(s.attempts, key), QueueOf(s.accepted, key), from, to);
    }
  }

  ghost predicate Reachable(policy: Key -> Policy, s: State, now: int) {
    exists calls, from :: from <= now && ClockRuns(calls, from, now) && s == Run(policy, START, calls)
  }

  lemma ReachableInv(policy: Key -> Policy, s: State, now: int)
    requires Reachable(policy, s, now)
    ensures Inv(policy, s, now)
  {
    var calls, from :| from <= now && ClockRuns(calls, from, now) && s == Run(policy, START, calls);
    assert Inv(policy, START, from);
    RunKeeps(policy, START, calls, from, now);
  }

  /** A check accepts exactly when the window ending now holds fewer than `limit` acceptances; the
      queue it leaves is exactly the acceptances in that window; other keys are untouched. */
  lemma AcceptedExactlyBelowTheLimit(policy: Key -> Policy, s: State, before: int, k: Key, now: int)
    requires Reachable(policy, s, before) && before <= now
    ensures var p := policy(k); var accepted := QueueOf(s.accepted, k);
            var r := CheckTx(s.attempts, k, p.limit, p.window, now);
            (r.1 <==> InWindow(accepted, now, p.window) < p.limit)
            && QueueOf(r.0, k) == Later(accepted, now - p.window) + (if r.1 then [now] else [])
            && forall key :: key != k ==> QueueOf(r.0, key) == QueueOf(s.attempts, key)
  {
    hide KeyOk, Prune, InWindow, Later, Reachable;
    ReachableInv(policy, s, before);
    assert KeyOk(policy(k), QueueOf(s.attempts, k), QueueOf(s.accepted, k), before);
    hide Inv;
    PrunedQueue(policy(k), QueueOf(s.attempts, k), QueueOf(s.accepted, k), before, now);
  }

  lemma {:induction false} WindowShrinks(times: seq<int>, n: nat, t: int, window: int)
    requires Ascending(times) && n < |times| && times[n] <= t
    requires forall i :: n < i < |times| ==> times[i] > t
    ensures InWindow(times, t, window) <= InWindow(times[..n + 1], times[n], window)
  {
    if n == |times| - 1 {
      assert times[..n + 1] == times;
      WindowMoves(times, times[n], t, window);
    } else {
      var init := times[..|times| - 1];
      assert init[..n + 1] == times[..n + 1];
      WindowShrinks(init, n, t, window);
    }
  }

  lemma {:induction false} WindowMoves(times: seq<int>, x: int, t: int, window: int)
    requires x <= t && forall i :: 0 <= i < |times| ==> times[i] <= x
    ensures InWindow(times, t, window) <= InWindow(times, x, window)
  {
    if times != [] { WindowMoves(times[..|times| - 1], x, t, window); }
  }

  lemma {:induction false} NoneInWindow(times: seq<int>, t: int, window: int)
    requires forall i :: 0 <= i < |times| ==> times[i] > t
    ensures InWindow(times, t, window) == 0
  {
    if times != [] { NoneInWindow(times[..|times| - 1], t, window); }
  }

  lemma {:induction false} LastUpTo(times: seq<int>, t: int) returns (n: int)
    requires Ascending(times)
    ensures -1 <= n < |times| && (n >= 0 ==> times[n] <= t) && forall i :: n < i < |times| ==> times[i] > t
  {
    n := |times| - 1;
    while n >= 0 && times[n] > t
      invariant -1 <= n < |times| && forall i :: n < i < |times| ==> times[i] > t
    {
      n := n - 1;
    }
  }

  /** No window of the configured length, wherever it ends, ever holds more than the limit. */
  lemma NoWindowOverflows(policy: Key -> Policy, s: State, now: int, key: Key, t: int)
    requires Reachable(policy, s, now)
    ensures InWindow(QueueOf(s.accepted, key), t, policy(key).window) <= Floor(policy(key).limit)
  {
    ReachableInv(policy, s, now);
    var accepted := QueueOf(s.accepted, key);
    assert KeyOk(policy(key), QueueOf(s.attempts, key), accepted, now);
    var n := LastUpTo(accepted, t);
    if n < 0 {
      NoneInWindow(accepted, t, policy(key).window);
    } else {
      WindowShrinks(accepted, n, t, policy(key).window);
    }
  }
}
