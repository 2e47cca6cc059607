/** The per-tenant sliding-window limiter, which forgets timestamps that left the
    window, against a limiter that remembers every accepted call. */
module RateLimits {
  const WINDOW := 60.0

  /** The timestamps still inside the window that ends at `now`. */
  function Recent(times: seq<real>, now: real): (r: seq<real>)
    ensures |r| <= |times|
  {
    if times == [] then []
    else
      var n := |times| - 1;
      Recent(times[..n], now) + if times[n] > now - WINDOW then [times[n]] else []
  }

  /** The program's step: prune, then accept while there is room. */
  function Step(bucket: seq<real>, now: real, limit: int): (seq<real>, bool) {
    var kept := Recent(bucket, now);
    if |kept| >= limit then (kept, false) else (kept + [now], true)
  }

  /** The reference: accept exactly when fewer than `limit` accepted calls lie in the
      window, out of all calls ever accepted. */
  function FullStep(history: seq<real>, now: real, limit: int): (seq<real>, bool) {
    if |Recent(history, now)| >= limit then (history, false) else (history + [now], true)
  }

  function BucketAfter(bucket: seq<real>, calls: seq<real>, limit: int): seq<real> {
    if calls == [] then bucket
    else
      var n := |calls| - 1;
      Step(BucketAfter(bucket, calls[..n], limit), calls[n], limit).0
  }

  function Decisions(bucket: seq<real>, calls: seq<real>, limit: int): (oks: seq<bool>)
    ensures |oks| == |calls|
  {
    if calls == [] then []
    else
      var n := |calls| - 1;
      Decisions(bucket, calls[..n], limit) + [Step(BucketAfter(bucket, calls[..n], limit), calls[n], limit).1]
  }

  function Accepted(history: seq<real>, calls: seq<real>, limit: int): seq<real> {
    if calls == [] then history
    else
      var n := |calls| - 1;
      FullStep(Accepted(history, calls[..n], limit), calls[n], limit).0
  }

  function FullDecisions(history: seq<real>, calls: seq<real>, limit: int): (oks: seq<bool>)
    ensures |oks| == |calls|
  {
    if calls == [] then []
    else
      var n := |calls| - 1;
      FullDecisions(history, calls[..n], limit) + [FullStep(Accepted(history, calls[..n], limit), calls[n], limit).1]
  }

  ghost predicate Nondecreasing(calls: seq<real>) {
    forall i, j :: 0 <= i < j < |calls| ==> calls[i] <= calls[j]
  }

  lemma {:induction false} RecentAppend(times: seq<real>, t: real, now: real)
    ensures Recent(times + [t], now) == Recent(times, now) + if t > now - WINDOW then [t] else []
  {
    assert (times + [t])[..|times|] == times;
  }

  lemma RecentNext(times: seq<real>, t: real, kept: bool, now: real)
    ensures Recent(times + if kept then [t] else [], now)
         == Recent(times, now) + if kept && t > now - WINDOW then [t] else []
  {
    if kept {
      RecentAppend(times, t, now);
    } else {
      assert times + [] == times;
    }
    hide Recent;
  }

  lemma RecentNone(now: real)
    ensures Recent([], now) == []
  {
  }

  /** Pruning for an earlier call forgets nothing a later window contains. */
  lemma {:induction false} PruneTwice(times: seq<real>, now: real, later: real)
    requires now <= later
    ensures Recent(Recent(times, now), later) == Recent(times, later)
  {
    if times == [] {
    } else {
      var n := |times| - 1;
      var head := Recent(times[..n], now);
      PruneTwice(times[..n], now, later);
      if times[n] > now - WINDOW {
        RecentAppend(head, times[n], later);
        assert Recent(times, now) == head + [times[n]];
      } else {
        assert Recent(times, now) == head + [] == head;
        assert Recent(times, later) == Recent(times[..n], later) + [] == Recent(times[..n], later);
      }
    }
  }

  /** `bucket` and `history` agree on every window from `clock` on. */
  ghost predicate Agree(bucket: seq<real>, history: seq<real>, clock: real) {
    forall now :: now >= clock ==> Recent(bucket, now) == Recent(history, now)
  }

  lemma StepAgrees(bucket: seq<real>, history: seq<real>, now: real, limit: int)
    requires Agree(bucket, history, now)
    ensures Step(bucket, now, limit).1 == FullStep(history, now, limit).1
    ensures Agree(Step(bucket, now, limit).0, FullStep(history, now, limit).0, now)
  {
    forall later | later >= now
      ensures Recent(Step(bucket, now, limit).0, later) == Recent(FullStep(history, now, limit).0, later)
    {
      PruneTwice(bucket, now, later);
      RecentAppend(Recent(bucket, now), now, later);
      RecentAppend(history, now, later);
    }
  }

  /** While the clock does not run backwards, the pruning limiter accepts exactly the
      calls the full-history limiter accepts. */
  lemma {:induction false} PruningIsExact(bucket: seq<real>, history: seq<real>, calls: seq<real>, limit: int)
    requires Nondecreasing(calls) && (calls != [] ==> Agree(bucket, history, calls[0]))
    ensures Decisions(bucket, calls, limit) == FullDecisions(history, calls, limit)
    ensures calls != [] ==>
      Agree(BucketAfter(bucket, calls, limit), Accepted(history, calls, limit), calls[|calls| - 1])
    decreases |calls|
  {
    if calls == [] {
    } else {
      var n := |calls| - 1;
      PruningIsExact(bucket, history, calls[..n], limit);
      StepAgrees(BucketAfter(bucket, calls[..n], limit), Accepted(history, calls[..n], limit), calls[n], limit);
    }
  }

  // ---------------------------------------------------------------- any clock

  /** No reading after call `i` pruned it. */
  predicate Lasts(calls: seq<real>, i: nat) {
    i < |calls| && forall j :: i < j < |calls| ==> calls[i] > calls[j] - WINDOW
  }

  /** The accepted calls among the first `n`, in order. */
  function Times(calls: seq<real>, oks: seq<bool>, n: nat): seq<real>
    requires n <= |calls| == |oks|
  {
    if n == 0 then [] else Times(calls, oks, n - 1) + if oks[n - 1] then [calls[n - 1]] else []
  }

  /** Those of them that last. */
  function Unpruned(calls: seq<real>, oks: seq<bool>, n: nat): seq<real>
    requires n <= |calls| == |oks|
  {
    if n == 0 then [] else Unpruned(calls, oks, n - 1) + if oks[n - 1] && Lasts(calls, n - 1) then [calls[n - 1]] else []
  }

  lemma {:induction false} UnprunedNext(head: seq<real>, oks: seq<bool>, c: real, ok: bool, n: nat)
    requires n <= |head| == |oks|
    ensures Unpruned(head + [c], oks + [ok], n) == Recent(Unpruned(head, oks, n), c)
  {
    RecentNone(c);
    hide Recent, Lasts;
    if n == 0 {
    } else {
      UnprunedNext(head, oks, c, ok, n - 1);
      LastsNext(head, c, n - 1);
      assert (head + [c])[n - 1] == head[n - 1] && (oks + [ok])[n - 1] == oks[n - 1];
      RecentNext(Unpruned(head, oks, n - 1), head[n - 1], oks[n - 1] && Lasts(head, n - 1), c);
    }
  }

  lemma LastsNext(head: seq<real>, c: real, i: nat)
    requires i < |head|
    ensures Lasts(head + [c], i) <==> Lasts(head, i) && head[i] > c - WINDOW
  {
    var calls := head + [c];
    assert forall j :: 0 <= j < |head| ==> calls[j] == head[j];
    assert calls[|head|] == c;
  }

  /** Under any clock the bucket holds exactly the accepted calls that every later
      reading left inside its window. */
  lemma {:induction false} BucketIs(calls: seq<real>, limit: int)
    ensures BucketAfter([], calls, limit) == Unpruned(calls, Decisions([], calls, limit), |calls|)
  {
    if calls == [] {
    } else {
      var n := |calls| - 1;
      var head, oks := calls[..n], Decisions([], calls[..n], limit);
      BucketIs(head, limit);
      assert calls == head + [calls[n]];
      UnprunedNext(head, oks, calls[n], Decisions([], calls, limit)[n], n);
    }
  }

  /** An accepted call that was pruned and is inside the window that ends at `now`. */
  predicate Forgotten(calls: seq<real>, oks: seq<bool>, i: nat, now: real) {
    i < |calls| == |oks| && oks[i] && !Lasts(calls, i) && calls[i] > now - WINDOW
  }

  function ForgottenCount(calls: seq<real>, oks: seq<bool>, n: nat, now: real): (count: nat)
    requires n <= |calls| == |oks|
    ensures count == 0 <==> forall i :: 0 <= i < n ==> !Forgotten(calls, oks, i, now)
  {
    if n == 0 then 0 else ForgottenCount(calls, oks, n - 1, now) + if Forgotten(calls, oks, n - 1, now) then 1 else 0
  }

  lemma {:induction false} WindowsDiffer(calls: seq<real>, oks: seq<bool>, n: nat, now: real)
    requires n <= |calls| == |oks|
    ensures |Recent(Times(calls, oks, n), now)|
         == |Recent(Unpruned(calls, oks, n), now)| + ForgottenCount(calls, oks, n, now)
  {
    RecentNone(now);
    hide Recent, Lasts;
    if n == 0 {
    } else {
      WindowsDiffer(calls, oks, n - 1, now);
      RecentNext(Times(calls, oks, n - 1), calls[n - 1], oks[n - 1], now);
      RecentNext(Unpruned(calls, oks, n - 1), calls[n - 1], oks[n - 1] && Lasts(calls, n - 1), now);
    }
  }

  /** After any run the next decision is the full history's, whatever the limit, exactly
      when no accepted call that now counts again was pruned by a reading after it. */
  lemma NextDecisionExact(calls: seq<real>, limit: int, now: real)
    ensures var oks := Decisions([], calls, limit);
      var bucket, history := BucketAfter([], calls, limit), Times(calls, oks, |calls|);
      (forall k: int :: Step(bucket, now, k).1 == FullStep(history, now, k).1)
      <==> !exists i, j :: 0 <= i < j < |calls| && oks[i] && now - WINDOW < calls[i] <= calls[j] - WINDOW
  {
    var oks := Decisions([], calls, limit);
    var bucket, history := BucketAfter([], calls, limit), Times(calls, oks, |calls|);
    BucketIs(calls, limit);
    WindowsDiffer(calls, oks, |calls|, now);
    ForgottenIs(calls, oks, now);
    hide Recent, Decisions, BucketAfter, Times, Unpruned, ForgottenCount, Lasts, Forgotten;
    var all := |Recent(history, now)|;
    if forall k: int :: Step(bucket, now, k).1 == FullStep(history, now, k).1 {
      assert Step(bucket, now, all).1 == FullStep(history, now, all).1;
    }
  }

  lemma ForgottenIs(calls: seq<real>, oks: seq<bool>, now: real)
    requires |calls| == |oks|
    ensures ForgottenCount(calls, oks, |calls|, now) > 0
      <==> exists i, j :: 0 <= i < j < |calls| && oks[i] && now - WINDOW < calls[i] <= calls[j] - WINDOW
  {
    var count := ForgottenCount(calls, oks, |calls|, now);
    hide ForgottenCount;
    if i, j :| 0 <= i < j < |calls| && oks[i] && now - WINDOW < calls[i] <= calls[j] - WINDOW {
      assert Forgotten(calls, oks, i, now);
    }
    if count > 0 {
      var i :| 0 <= i < |calls| && Forgotten(calls, oks, i, now);
      var j :| i < j < |calls| && calls[i] <= calls[j] - WINDOW;
    }
  }

  /** A call is let through because an accepted call in its window was forgotten. */
  predicate OverAdmits(calls: seq<real>, now: real, limit: int) {
    var kept := |Recent(BucketAfter([], calls, limit), now)|;
    kept < limit <= kept + ForgottenCount(calls, Decisions([], calls, limit), |calls|, now)
  }

  lemma {:induction false} AcceptedAre(calls: seq<real>, limit: int, oks: seq<bool>)
    requires oks == FullDecisions([], calls, limit)
    ensures Accepted([], calls, limit) == Times(calls, oks, |calls|)
  {
    if calls == [] {
    } else {
      var n := |calls| - 1;
      AcceptedAre(calls[..n], limit, oks[..n]);
      TimesPrefix(calls, oks, n, n);
    }
  }

  lemma {:induction false} TimesPrefix(calls: seq<real>, oks: seq<bool>, m: nat, n: nat)
    requires n <= m <= |calls| == |oks|
    ensures Times(calls[..m], oks[..m], n) == Times(calls, oks, n)
  {
    if n == 0 {
    } else {
      TimesPrefix(calls, oks, m, n - 1);
    }
  }

  /** Under any clock: the two limiters decide a run alike exactly when none of its calls
      is let through on account of a forgotten one. */
  lemma {:induction false} RunExact(calls: seq<real>, limit: int)
    ensures Decisions([], calls, limit) == FullDecisions([], calls, limit)
      <==> forall n :: 0 <= n < |calls| ==> !OverAdmits(calls[..n], calls[n], limit)
  {
    hide OverAdmits, Decisions, FullDecisions, BucketAfter, Accepted, Step, FullStep;
    if calls == [] {
      NoCalls(limit);
    } else {
      var n := |calls| - 1;
      var head := calls[..n];
      RunExact(head, limit);
      DecisionsLast(calls, limit);
      var a, b := Decisions([], head, limit), FullDecisions([], head, limit);
      if a == b {
        LastExact(head, calls[n], limit);
      }
      OverAdmitsNext(calls, limit);
      AppendEqual(a, Step(BucketAfter([], head, limit), calls[n], limit).1,
                  b, FullStep(Accepted([], head, limit), calls[n], limit).1);
    }
  }

  lemma OverAdmitsNext(calls: seq<real>, limit: int)
    requires calls != []
    ensures var last := |calls| - 1; var head := calls[..last];
      (forall n :: 0 <= n < |calls| ==> !OverAdmits(calls[..n], calls[n], limit))
      <==> (forall n :: 0 <= n < |head| ==> !OverAdmits(head[..n], head[n], limit)) && !OverAdmits(head, calls[last], limit)
  {
    hide OverAdmits;
    var last := |calls| - 1;
    var head := calls[..last];
    forall n | 0 <= n < last ensures head[..n] == calls[..n] && head[n] == calls[n] {}
  }

  lemma LastExact(head: seq<real>, now: real, limit: int)
    requires Decisions([], head, limit) == FullDecisions([], head, limit)
    ensures Step(BucketAfter([], head, limit), now, limit).1 == FullStep(Accepted([], head, limit), now, limit).1
      <==> !OverAdmits(head, now, limit)
  {
    var oks := Decisions([], head, limit);
    AcceptedAre(head, limit, oks);
    BucketIs(head, limit);
    WindowsDiffer(head, oks, |head|, now);
    hide Recent, Decisions, FullDecisions, BucketAfter, Accepted, Times, Unpruned, ForgottenCount;
  }

  lemma AppendEqual<T>(a: seq<T>, x: T, b: seq<T>, y: T)
    requires |a| == |b|
    ensures a + [x] == b + [y] <==> a == b && x == y
  {
    if a + [x] == b + [y] {
      assert a == (a + [x])[..|a|] && b == (b + [y])[..|b|];
      assert x == (a + [x])[|a|] && y == (b + [y])[|b|];
    }
  }

  /** Whatever the clock did before: once it has caught up with its highest reading and
      runs forward, pruning is exact again. */
  lemma Recovers(calls: seq<real>, more: seq<real>, limit: int)
    requires Nondecreasing(more) && forall i :: 0 <= i < |calls| && more != [] ==> calls[i] <= more[0]
    ensures var oks := Decisions([], calls, limit);
      Decisions(BucketAfter([], calls, limit), more, limit) == FullDecisions(Times(calls, oks, |calls|), more, limit)
  {
    var oks := Decisions([], calls, limit);
    BucketIs(calls, limit);
    if more != [] {
      forall now | now >= more[0]
        ensures Recent(Unpruned(calls, oks, |calls|), now) == Recent(Times(calls, oks, |calls|), now)
      {
        NothingMissing(calls, oks, |calls|, now);
      }
    }
    PruningIsExact(BucketAfter([], calls, limit), Times(calls, oks, |calls|), more, limit);
  }

  lemma {:induction false} NothingMissing(calls: seq<real>, oks: seq<bool>, n: nat, now: real)
    requires n <= |calls| == |oks| && forall i :: 0 <= i < |calls| ==> calls[i] <= now
    ensures Recent(Unpruned(calls, oks, n), now) == Recent(Times(calls, oks, n), now)
  {
    RecentNone(now);
    hide Recent;
    if n == 0 {
    } else {
      NothingMissing(calls, oks, n - 1, now);
      RecentNext(Times(calls, oks, n - 1), calls[n - 1], oks[n - 1], now);
      RecentNext(Unpruned(calls, oks, n - 1), calls[n - 1], oks[n - 1] && Lasts(calls, n - 1), now);
    }
  }

  /** Three calls under a limit of two: the third is let through where the full history
      rejects it exactly when the second reading pruned the first call and the third
      steps back to where it still counts. */
  lemma BackwardClockOverAdmits(a: real, b: real, c: real)
    ensures FullDecisions([], [a, b, c], 2) == [true, true, false] && Decisions([], [a, b, c], 2) == [true, true, true]
      <==> a <= b - WINDOW && c < a + WINDOW
    ensures Decisions([], [a, b, c], 2) == FullDecisions([], [a, b, c], 2) <==> !(a <= b - WINDOW && c < a + WINDOW)
  {
    hide Recent, Decisions, FullDecisions, BucketAfter, Accepted;
    FirstTwo(a, b);
    var calls := [a, b, c];
    assert calls[..2] == [a, b];
    PairRecent(a, b, c);
    SingleRecent(b, c);
    DecisionsLast(calls, 2);
    assert [true, true] + [true] == [true, true, true] && [true, true] + [false] == [true, true, false];
  }

  lemma DecisionsLast(calls: seq<real>, limit: int)
    requires calls != []
    ensures var n := |calls| - 1; var head := calls[..n];
      && Decisions([], calls, limit) == Decisions([], head, limit) + [Step(BucketAfter([], head, limit), calls[n], limit).1]
      && FullDecisions([], calls, limit)
         == FullDecisions([], head, limit) + [FullStep(Accepted([], head, limit), calls[n], limit).1]
      && BucketAfter([], calls, limit) == Step(BucketAfter([], head, limit), calls[n], limit).0
      && Accepted([], calls, limit) == FullStep(Accepted([], head, limit), calls[n], limit).0
  {
  }

  lemma FirstTwo(a: real, b: real)
    ensures Decisions([], [a, b], 2) == FullDecisions([], [a, b], 2) == [true, true]
    ensures BucketAfter([], [a, b], 2) == (if a > b - WINDOW then [a, b] else [b])
    ensures Accepted([], [a, b], 2) == [a, b]
  {
    hide Recent, Decisions, FullDecisions, BucketAfter, Accepted;
    NoCalls(2);
    DecisionsLast([a], 2);
    DecisionsLast([a, b], 2);
    SingleRecent(a, a);
    SingleRecent(a, b);
    var empty: seq<real> := [];
    assert [a][..0] == empty && [a, b][..1] == [a];
    assert empty + [a] == [a] && empty + [b] == [b] && [a] + [b] == [a, b];
    var none: seq<bool> := [];
    assert none + [true] == [true] && [true] + [true] == [true, true];
  }

  lemma NoCalls(limit: int)
    ensures Decisions([], [], limit) == FullDecisions([], [], limit) == []
    ensures BucketAfter([], [], limit) == Accepted([], [], limit) == []
  {
  }

  lemma SingleRecent(t: real, now: real)
    ensures Recent([], now) == []
    ensures Recent([t], now) == if t > now - WINDOW then [t] else []
  {
    RecentAppend([], t, now);
    var empty: seq<real> := [];
    assert empty + [t] == [t];
    assert Recent(empty, now) == empty;
  }

  lemma PairRecent(t: real, u: real, now: real)
    ensures Recent([t, u], now) == (if t > now - WINDOW then [t] else []) + if u > now - WINDOW then [u] else []
  {
    SingleRecent(t, now);
    RecentAppend([t], u, now);
    assert [t] + [u] == [t, u];
  }

  // ---------------------------------------------------------------- the bound

  /** How many of the times lie in the minute that ends at `end`. */
  function InWindow(times: seq<real>, end: real): nat {
    if times == [] then 0
    else
      var n := |times| - 1;
      InWindow(times[..n], end) + if end - 60.0 < times[n] <= end then 1 else 0
  }

  lemma {:induction false} WindowWithinRecent(times: seq<real>, end: real, now: real)
    requires forall i :: 0 <= i < |times| ==> times[i] <= now
    requires end <= now
    ensures InWindow(times, end) <= |Recent(times, end)|
    ensures end == now ==> InWindow(times, end) == |Recent(times, now)|
  {
    if times == [] {
    } else {
      WindowWithinRecent(times[..|times| - 1], end, now);
    }
  }

  lemma {:induction false} WindowAppend(times: seq<real>, t: real, end: real)
    ensures InWindow(times + [t], end) == InWindow(times, end) + if end - 60.0 < t <= end then 1 else 0
  {
    assert (times + [t])[..|times|] == times;
  }

  /** The accepted times so far keep every window within the limit. */
  ghost predicate Bounded(history: seq<real>, clock: real, limit: nat) {
    && (forall i :: 0 <= i < |history| ==> history[i] <= clock)
    && (forall end :: InWindow(history, end) <= limit)
  }

  /** The window ending at a later time than all its entries shrinks. */
  lemma {:induction false} WindowShrinks(times: seq<real>, now: real, end: real)
    requires forall i :: 0 <= i < |times| ==> times[i] <= now
    requires now <= end
    ensures InWindow(times, end) <= |Recent(times, now)|
  {
    if times == [] {
    } else {
      WindowShrinks(times[..|times| - 1], now, end);
    }
  }

  lemma StepBounded(history: seq<real>, now: real, limit: nat, clock: real)
    requires Bounded(history, clock, limit) && clock <= now
    ensures Bounded(FullStep(history, now, limit).0, now, limit)
  {
    if |Recent(history, now)| < limit {
      forall end ensures InWindow(history + [now], end) <= limit {
        WindowAppend(history, now, end);
        if end - WINDOW < now <= end {
          WindowShrinks(history, now, end);
        }
      }
    }
  }

  /** Every window of a run holds at most `limit` accepted calls, and a call is
      turned away only when its own window is full. */
  lemma {:induction false} WindowsAreBounded(history: seq<real>, calls: seq<real>, limit: nat, clock: real)
    requires Bounded(history, clock, limit) && Nondecreasing(calls) && (calls != [] ==> clock <= calls[0])
    ensures Bounded(Accepted(history, calls, limit), if calls == [] then clock else calls[|calls| - 1], limit)
    ensures forall end :: InWindow(Accepted(history, calls, limit), end) <= limit
    decreases |calls|
  {
    if calls == [] {
    } else {
      var n := |calls| - 1;
      WindowsAreBounded(history, calls[..n], limit, clock);
      StepBounded(Accepted(history, calls[..n], limit), calls[n], limit, if n == 0 then clock else calls[n - 1]);
    }
  }

  /** A fresh limiter under a clock that does not run backwards: pruning changes no
      decision, and no window (T - 60, T] ever holds more than `limit` accepted calls. */
  lemma FreshRun(calls: seq<real>, limit: nat)
    requires Nondecreasing(calls)
    ensures Decisions([], calls, limit) == FullDecisions([], calls, limit)
    ensures forall end :: InWindow(Accepted([], calls, limit), end) <= limit
  {
    forall n | 0 <= n < |calls| ensures !OverAdmits(calls[..n], calls[n], limit) {
      assert forall i :: 0 <= i < n ==> !Forgotten(calls[..n], Decisions([], calls[..n], limit), i, calls[n]);
    }
    RunExact(calls, limit);
    if calls != [] {
      WindowsAreBounded([], calls, limit, calls[0]);
    }
  }

  lemma RejectedOnlyWhenFull(history: seq<real>, now: real, limit: nat, clock: real)
    requires Bounded(history, clock, limit) && clock <= now
    ensures !FullStep(history, now, limit).1 <==> InWindow(history, now) == limit
  {
    WindowWithinRecent(history, now, now);
  }

  // ---------------------------------------------------------------- the program

  class RateLimiter {
    const limit: int
    var buckets: map<string, seq<real>>

    constructor (limit: int)
      ensures this.limit == limit && buckets == map[]
    {
      this.limit, buckets := limit, map[];
    }

    function Bucket(tenant: string): seq<real>
      reads this
    {
      if tenant in buckets then buckets[tenant] else []
    }

    /** Accepts or rejects one call of a tenant; other tenants are not affected. */
    method Check(tenant: string, now: real) returns (accepted: bool)
      modifies this
      ensures (Bucket(tenant), accepted) == Step(old(Bucket(tenant)), now, limit)
      ensures buckets.Keys == old(buckets.Keys) + {tenant}
      ensures forall other :: other in old(buckets) && other != tenant ==> buckets[other] == old(buckets)[other]
    {
      var window := Bucket(tenant);
      var kept: seq<real> := [];
      for i := 0 to |window|
        invariant kept == Recent(window[..i], now)
      {
        assert window[..i + 1][..i] == window[..i];
        if window[i] > now - WINDOW {
          kept := kept + [window[i]];
        }
      }
      assert window[..|window|] == window;
      if |kept| >= limit {
        buckets := buckets[tenant := kept];
        return false;
      }
      buckets := buckets[tenant := kept + [now]];
      accepted := true;
    }
  }
}
