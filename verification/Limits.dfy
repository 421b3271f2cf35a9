/** The local fallback of the rate limiter: fixed windows per key while Redis is away. */
module Limits {
  import opened Prelude

  datatype Window = Window(started: real, count: nat)
  datatype Policy = Policy(limit: int, window: real)

  /** `max(1, min(limit, 10))`. */
  function ConservativeLimit(limit: int): nat {
    if limit < 1 then 1 else if limit > 10 then 10 else limit
  }

  /** The entry of a key after one more call at clock reading `now`. */
  function Counted(entry: Option<Window>, window: real, now: real): Window {
    var current := if entry.None? then Window(now, 0) else entry.value;
    var open := if now - current.started >= window then Window(now, 0) else current;
    open.(count := open.count + 1)
  }

  class LocalFallback {
    var windows: map<string, Window>

    constructor ()
      ensures windows == map[]
    {
      windows := map[];
    }

    /** `_reserve_local_fallback`. */
    method Reserve(key: string, policy: Policy, now: real) returns (allowed: bool)
      modifies this
      ensures var entry := if key in old(windows) then Some(old(windows)[key]) else None;
              && windows == old(windows)[key := Counted(entry, policy.window, now)]
              && (allowed <==> windows[key].count <= ConservativeLimit(policy.limit))
      ensures windows == old(windows)[key :=
                if key in old(windows) && now - old(windows)[key].started < policy.window
                then Window(old(windows)[key].started, old(windows)[key].count + 1) else Window(now, 1)]
      ensures allowed <==>
              windows[key].count <= if policy.limit < 1 then 1 else if policy.limit > 10 then 10 else policy.limit
    {
      var started, count := now, 0;
      if key in windows {
        started, count := windows[key].started, windows[key].count;
      }
      if now - started >= policy.window {
        started, count := now, 0;
      }
      count := count + 1;
      windows := windows[key := Window(started, count)];
      var conservative := if policy.limit < 10 then policy.limit else 10;
      allowed := count <= if conservative < 1 then 1 else conservative;
    }
  }

  // ---- runs of calls on one key

  /** The key's entry after calls with these clock readings, in the order in which they took the lock. */
  function Entry(window: real, times: seq<real>): Option<Window> {
    if times == [] then None
    else Some(Counted(Entry(window, times[..|times| - 1]), window, times[|times| - 1]))
  }

  /** How many calls with a reading in [from, to) were allowed. */
  function Allowed(policy: Policy, times: seq<real>, from: real, to: real): nat {
    if times == [] then 0
    else
      var now := times[|times| - 1];
      Allowed(policy, times[..|times| - 1], from, to)
      + if from <= now < to && Entry(policy.window, times).value.count <= ConservativeLimit(policy.limit) then 1 else 0
  }

  /** No reading is older than an earlier one by more than the lag. */
  predicate Lagging(times: seq<real>, lag: real) {
    forall i, j :: 0 <= i < j < |times| ==> times[i] - lag <= times[j]
  }

  function Spans(n: nat, window: real): real {
    if n == 0 then 0.0 else Spans(n - 1, window) + window
  }

  lemma {:induction false} SpansAreOrdered(i: nat, j: nat, window: real)
    requires window > 0.0
    ensures i < j <==> Spans(i, window) < Spans(j, window)
    ensures Spans(i, window) >= 0.0
    decreases i + j
  {
    if i > 0 && j > 0 {
      SpansAreOrdered(i - 1, j - 1, window);
    } else if i > 0 {
      SpansAreOrdered(i - 1, j, window);
    } else if j > 0 {
      SpansAreOrdered(i, j - 1, window);
    }
  }

  lemma {:induction false} SpansAdd(i: nat, j: nat, window: real)
    ensures Spans(i + j, window) == Spans(i, window) + Spans(j, window)
  {
    if j > 0 {
      SpansAdd(i, j - 1, window);
    }
  }

  predicate Within(x: real, from: real, to: real) {
    from <= x < to
  }

  /** What a window that began at `started` allows at most inside [from, to): its first call is not
      inside when the window began outside. */
  function Share(started: real, count: nat, limit: nat, from: real, to: real): int {
    (if count < limit then count else limit) - if Within(started, from, to) then 0 else 1
  }

  /** The windows that end after `from` and begin before `to + lag`: w of them, the last one current, no
      two closer than a window apart, and b of them begun inside [from, to). */
  ghost predicate Bounded(policy: Policy, times: seq<real>, from: real, to: real, lag: real, w: nat, b: nat) {
    var entry := Entry(policy.window, times);
    var limit := ConservativeLimit(policy.limit);
    var hits := Allowed(policy, times, from, to);
    if entry.None? || entry.value.started + policy.window <= from then w == 0 && b == 0 && hits == 0
    else if entry.value.started >= to + lag then
      hits <= w * (limit - 1) + b && Reaches(policy, from, to, lag, w) && BeganInside(policy, from, to, b)
    else
      var started := entry.value.started;
      && w > 0 && from + Spans(w - 1, policy.window) < started + policy.window
      && BeganInside(policy, from, to, b) && (b > 0 ==> from + Spans(b - 1, policy.window) <= started)
      && (Within(started, from, to) ==> b > 0) && entry.value.count > 0
      && hits <= (w - 1) * (limit - 1) + b - (if Within(started, from, to) then 1 else 0)
                 + Share(started, entry.value.count, limit, from, to)
  }

  /** All w windows began before to + lag. */
  ghost predicate Reaches(policy: Policy, from: real, to: real, lag: real, w: nat) {
    w == 0 || from + Spans(w - 1, policy.window) < to + lag + policy.window
  }

  ghost predicate BeganInside(policy: Policy, from: real, to: real, b: nat) {
    b == 0 || from + Spans(b - 1, policy.window) < to
  }

  lemma EntryMoves(window: real, times: seq<real>)
    requires window > 0.0 && times != []
    ensures var before, now := Entry(window, times[..|times| - 1]), times[|times| - 1];
            var after := Entry(window, times).value;
            && (before.None? ==> after == Window(now, 1))
            && (before.Some? && now - before.value.started >= window ==> after == Window(now, 1))
            && (before.Some? && now - before.value.started < window ==>
               after == Window(before.value.started, before.value.count + 1))
            && now < after.started + window
  {
  }

  /** The window of the entry was opened by one of the calls. */
  lemma {:induction false} StartedIsAReading(window: real, times: seq<real>) returns (i: nat)
    requires window > 0.0 && times != []
    ensures i < |times| && times[i] == Entry(window, times).value.started
  {
    var n := |times| - 1;
    EntryMoves(window, times);
    if n > 0 && times[n] - Entry(window, times[..n]).value.started < window {
      i := StartedIsAReading(window, times[..n]);
    } else {
      i := n;
    }
  }

  /** Whether the last call began a window. */
  predicate Begins(window: real, times: seq<real>)
    requires times != []
  {
    var before := Entry(window, times[..|times| - 1]);
    before.None? || times[|times| - 1] - before.value.started >= window
  }

  lemma {:induction false} WindowsAreCounted(policy: Policy, times: seq<real>, from: real, to: real, lag: real)
    returns (w: nat, b: nat)
    requires policy.window > 0.0 && lag >= 0.0 && from <= to && Lagging(times, lag)
    ensures Bounded(policy, times, from, to, lag, w, b)
  {
    if times == [] {
      w, b := 0, 0;
    } else {
      var n := |times| - 1;
      var w0, b0 := WindowsAreCounted(policy, times[..n], from, to, lag);
      var i := StartedIsAReading(policy.window, times);
      if Begins(policy.window, times) {
        w := if Counts(policy, times, from, to, lag) then w0 + 1 else w0;
        b := if Within(times[n], from, to) then b0 + 1 else b0;
        FirstCall(policy, times, from, to, lag, w0, b0);
      } else {
        w, b := w0, b0;
        LaterCall(policy, times, from, to, lag, w0, b0);
      }
    }
  }

  /** Whether the current window is one of those counted. */
  predicate Counts(policy: Policy, times: seq<real>, from: real, to: real, lag: real)
    requires times != []
  {
    var started := Entry(policy.window, times).value.started;
    from < started + policy.window && started < to + lag
  }

  lemma FirstCall(policy: Policy, times: seq<real>, from: real, to: real, lag: real, w: nat, b: nat)
    requires policy.window > 0.0 && lag >= 0.0 && from <= to && times != [] && Begins(policy.window, times)
    requires Bounded(policy, times[..|times| - 1], from, to, lag, w, b)
    ensures Bounded(policy, times, from, to, lag, if Counts(policy, times, from, to, lag) then w + 1 else w,
                    if Within(times[|times| - 1], from, to) then b + 1 else b)
  {
    EntryMoves(policy.window, times);
    var limit := ConservativeLimit(policy.limit);
    assert w > 0 ==> (w - 1) * (limit - 1) + (limit - 1) == w * (limit - 1);
    SpansAreOrdered(b, 0, policy.window);
  }

  lemma LaterCall(policy: Policy, times: seq<real>, from: real, to: real, lag: real, w: nat, b: nat)
    requires policy.window > 0.0 && lag >= 0.0 && from <= to && times != [] && !Begins(policy.window, times)
    requires Bounded(policy, times[..|times| - 1], from, to, lag, w, b)
    requires times[|times| - 1] >= Entry(policy.window, times).value.started - lag
    ensures Bounded(policy, times, from, to, lag, w, b)
  {
    EntryMoves(policy.window, times);
  }

  /** The most calls that an interval of k windows can see when readings lag by up to m windows. */
  function SharpBound(limit: nat, k: nat, m: nat): int {
    (k + 1 + m) * (limit - 1) + k
  }

  lemma AtMostThatMany(policy: Policy, times: seq<real>, from: real, k: nat, m: nat, lag: real, w: nat, b: nat)
    requires policy.window > 0.0 && lag <= Spans(m, policy.window)
    requires Bounded(policy, times, from, from + Spans(k, policy.window), lag, w, b)
    ensures Allowed(policy, times, from, from + Spans(k, policy.window)) <=
            SharpBound(ConservativeLimit(policy.limit), k, m)
  {
    var limit := ConservativeLimit(policy.limit);
    SpansAdd(k, m, policy.window);
    if b > 0 {
      SpansAreOrdered(b - 1, k, policy.window);
    }
    if w > 0 {
      SpansAreOrdered(w - 1, k + m + 1, policy.window);
      assert (w - 1) * (limit - 1) + (limit - 1) == w * (limit - 1);
    }
    assert w <= k + 1 + m && b <= k;
    Monotone(w, k + 1 + m, limit - 1);
  }

  lemma Monotone(a: nat, b: nat, limit: nat)
    requires a <= b
    ensures a * limit <= b * limit
  {
  }

  lemma {:induction false} SpansShrink(n: nat, window: real)
    requires window <= 0.0
    ensures Spans(n, window) <= 0.0
  {
    if n > 0 {
      SpansShrink(n - 1, window);
    }
  }

  lemma {:induction false} NothingInAnEmptyInterval(policy: Policy, times: seq<real>, from: real, to: real)
    requires to <= from
    ensures Allowed(policy, times, from, to) == 0
  {
    if times != [] {
      NothingInAnEmptyInterval(policy, times[..|times| - 1], from, to);
    }
  }

  /** Any rate over time: when no reading lags by more than m windows, an interval of k windows sees at
      most (k + 1 + m) limits less one call for each of m + 1 windows. */
  lemma AnyRate(policy: Policy, times: seq<real>, from: real, k: nat, m: nat, lag: real)
    requires Lagging(times, lag) && 0.0 <= lag <= Spans(m, policy.window)
    ensures Allowed(policy, times, from, from + Spans(k, policy.window)) <=
            SharpBound(ConservativeLimit(policy.limit), k, m)
    ensures SharpBound(ConservativeLimit(policy.limit), k, m) == (k + 1 + m) * ConservativeLimit(policy.limit) - (m + 1)
  {
    var to := from + Spans(k, policy.window);
    if policy.window > 0.0 {
      SpansAreOrdered(k, 0, policy.window);
      var w, b := WindowsAreCounted(policy, times, from, to, lag);
      AtMostThatMany(policy, times, from, k, m, lag, w, b);
    } else {
      SpansShrink(k, policy.window);
      NothingInAnEmptyInterval(policy, times, from, to);
      Monotone(0, k + 1 + m, ConservativeLimit(policy.limit) - 1);
    }
    BoundInLimits(ConservativeLimit(policy.limit), k, m);
  }

  lemma BoundInLimits(limit: nat, k: nat, m: nat)
    ensures SharpBound(limit, k, m) == (k + 1 + m) * limit - (m + 1)
  {
  }

  // ---- the bound is attained

  /** A window that begins at `first` and is then called n times at reading `later`. */
  function Calls(first: real, later: real, n: nat): seq<real> {
    if n == 0 then [first] else Calls(first, later, n - 1) + [later]
  }

  /** What one more call adds to a run whose entry is known. */
  lemma CallAfter(policy: Policy, times: seq<real>, now: real, from: real, to: real)
    ensures Entry(policy.window, times + [now]) == Some(Counted(Entry(policy.window, times), policy.window, now))
    ensures Allowed(policy, times + [now], from, to) == Allowed(policy, times, from, to)
      + if from <= now < to && Counted(Entry(policy.window, times), policy.window, now).count <=
        ConservativeLimit(policy.limit)
        then 1 else 0
  {
    assert (times + [now])[..|times|] == times;
  }

  lemma AllowedCall(policy: Policy, times: seq<real>, first: real, count: nat, now: real, from: real, to: real)
    requires Entry(policy.window, times) == Some(Window(first, count)) && now - first < policy.window
    requires count < ConservativeLimit(policy.limit) && Within(now, from, to)
    ensures Entry(policy.window, times + [now]) == Some(Window(first, count + 1))
    ensures Allowed(policy, times + [now], from, to) == Allowed(policy, times, from, to) + 1
  {
    CallAfter(policy, times, now, from, to);
  }

  /** A whole window of allowed calls, of which the later ones lie in the interval. */
  lemma {:induction false} FullWindow(policy: Policy, times: seq<real>, first: real, later: real, n: nat, from: real,
      to: real)
    requires policy.window > 0.0 && n < ConservativeLimit(policy.limit)
    requires var entry := Entry(policy.window, times); entry.Some? ==> first - entry.value.started >= policy.window
    requires later - first < policy.window && Within(later, from, to)
    ensures Entry(policy.window, times + Calls(first, later, n)) == Some(Window(first, n + 1))
    ensures Allowed(policy, times + Calls(first, later, n), from, to) ==
            Allowed(policy, times, from, to) + n + if Within(first, from, to) then 1 else 0
  {
    if n == 0 {
      CallAfter(policy, times, first, from, to);
    } else {
      var before := times + Calls(first, later, n - 1);
      FullWindow(policy, times, first, later, n - 1, from, to);
      AllowedCall(policy, before, first, n, later, from, to);
      assert times + Calls(first, later, n) == before + [later];
    }
  }

  predicate AtMost(times: seq<real>, top: real) {
    forall i :: 0 <= i < |times| ==> times[i] <= top
  }

  lemma {:induction false} StillLagging(times: seq<real>, first: real, later: real, n: nat, top: real, lag: real)
    requires Lagging(times, lag) && lag >= 0.0 && (times == [] || first >= top - lag)
    requires AtMost(times, top) && later >= top - lag && later >= first - lag && lag >= 0.0
    ensures Lagging(times + Calls(first, later, n), lag)
    ensures forall high: real :: high >= top && high >= first && (n == 0 || high >= later) ==>
              AtMost(times + Calls(first, later, n), high)
  {
    if n > 0 {
      StillLagging(times, first, later, n - 1, top, lag);
      assert times + Calls(first, later, n) == times + Calls(first, later, n - 1) + [later];
      var high := if later >= top && later >= first then later else if top >= first then top else first;
      assert AtMost(times + Calls(first, later, n - 1), high);
    }
  }

  /** The j-th window of the densest run begins `eps` after the end of the one that may straddle `from`. */
  function Start(window: real, from: real, eps: real, j: nat): real {
    from - window + eps + Spans(j, window)
  }

  /** Where its later calls are read: inside the interval, as late as the lag allows for the last m windows. */
  function Later(window: real, from: real, k: nat, m: nat, eps: real, lag: real, j: nat): real {
    if j == 0 then from
    else if j <= k then Start(window, from, eps, j)
    else Start(window, from, eps, k + m) - lag
  }

  function Densest(policy: Policy, from: real, k: nat, m: nat, eps: real, lag: real, j: nat): seq<real> {
    if j == 0 then []
    else
      Densest(policy, from, k, m, eps, lag, j - 1)
      + Calls(Start(policy.window, from, eps, j - 1), Later(policy.window, from, k, m, eps, lag, j - 1),
              ConservativeLimit(policy.limit) - 1)
  }

  /** The lag is m windows, rounded up. */
  predicate RoundsUpTo(lag: real, window: real, m: nat) {
    if m == 0 then lag == 0.0 else Spans(m - 1, window) < lag <= Spans(m, window)
  }

  predicate Small(eps: real, lag: real, window: real, m: nat) {
    0.0 < eps < window && (m > 0 ==> Spans(m - 1, window) + eps < lag)
  }

  lemma LaterIsInside(window: real, from: real, k: nat, m: nat, eps: real, lag: real, j: nat)
    requires window > 0.0 && k >= 1 && j <= k + m && RoundsUpTo(lag, window, m) && Small(eps, lag, window, m)
    ensures Within(Later(window, from, k, m, eps, lag, j), from, from + Spans(k, window))
    ensures Later(window, from, k, m, eps, lag, j) - Start(window, from, eps, j) < window
    ensures Within(Start(window, from, eps, j), from, from + Spans(k, window)) <==> 1 <= j <= k
  {
    SpansAreOrdered(1, j, window);
    SpansAreOrdered(j, 1, window);
    SpansAreOrdered(k, 1, window);
    SpansAreOrdered(k, j, window);
    SpansAreOrdered(k + 1, j, window);
    SpansAreOrdered(j, k + 1, window);
    SpansAdd(k, m, window);
    assert Spans(1, window) == Spans(0, window) + window;
    assert Spans(k + 1, window) == Spans(k, window) + window;
  }

  /** No reading so far is later than this. */
  function Top(window: real, from: real, eps: real, j: nat): real {
    if j <= 1 then from else Start(window, from, eps, j - 1)
  }

  function HitsOf(limit: nat, k: nat, j: nat): int {
    j * (limit - 1) + if j == 0 then 0 else if j - 1 <= k then j - 1 else k
  }

  /** After j windows: the last one is full, and the interval has seen its share of all. */
  predicate Hit(policy: Policy, times: seq<real>, from: real, k: nat, eps: real, j: nat) {
    var limit := ConservativeLimit(policy.limit);
    && Entry(policy.window, times) ==
         (if j == 0 then None else Some(Window(Start(policy.window, from, eps, j - 1), limit)))
    && Allowed(policy, times, from, from + Spans(k, policy.window)) == HitsOf(limit, k, j)
  }

  lemma TopGrows(window: real, from: real, k: nat, m: nat, eps: real, lag: real, j: nat)
    requires window > 0.0 && k >= 1 && j <= k + m && RoundsUpTo(lag, window, m) && Small(eps, lag, window, m)
    ensures var first, later := Start(window, from, eps, j), Later(window, from, k, m, eps, lag, j);
            var top := Top(window, from, eps, j);
            && (j == 0 || first >= top) && later >= top - lag && later >= first - lag
            && Top(window, from, eps, j + 1) >= top && Top(window, from, eps, j + 1) >= first
            && Top(window, from, eps, j + 1) >= later
    ensures lag >= 0.0
  {
    LaterIsInside(window, from, k, m, eps, lag, j);
    if m > 0 { SpansAreOrdered(m - 1, 0, window); }
    SpansAreOrdered(j, k + m, window);
    SpansAreOrdered(k + m, j, window);
    if j > 0 {
      assert Spans(j, window) == Spans(j - 1, window) + window;
      SpansAreOrdered(j - 1, 0, window);
      SpansAreOrdered(k, j - 1, window);
      SpansAreOrdered(j - 1, k, window);
    }
  }

  lemma {:induction false} DensestHits(policy: Policy, from: real, k: nat, m: nat, eps: real, lag: real, j: nat)
    requires policy.window > 0.0 && k >= 1 && j <= k + 1 + m
    requires RoundsUpTo(lag, policy.window, m) && Small(eps, lag, policy.window, m)
    ensures Hit(policy, Densest(policy, from, k, m, eps, lag, j), from, k, eps, j)
  {
    if j > 0 {
      DensestHits(policy, from, k, m, eps, lag, j - 1);
      OneMoreHit(policy, Densest(policy, from, k, m, eps, lag, j - 1), from, k, m, eps, lag, j - 1);
    }
  }

  lemma OneMoreHit(policy: Policy, times: seq<real>, from: real, k: nat, m: nat, eps: real, lag: real, i: nat)
    requires policy.window > 0.0 && k >= 1 && i <= k + m
    requires RoundsUpTo(lag, policy.window, m) && Small(eps, lag, policy.window, m)
    requires Hit(policy, times, from, k, eps, i)
    ensures Hit(policy, times + Calls(Start(policy.window, from, eps, i), Later(policy.window, from, k, m, eps, lag, i),
                                      ConservativeLimit(policy.limit) - 1), from, k, eps, i + 1)
  {
    var window, n := policy.window, ConservativeLimit(policy.limit) - 1;
    var first, later := Start(window, from, eps, i), Later(window, from, k, m, eps, lag, i);
    LaterIsInside(window, from, k, m, eps, lag, i);
    if i > 0 { StartsApart(window, from, eps, i); }
    FullWindow(policy, times, first, later, n, from, from + Spans(k, window));
    OneMoreWindow(n, i);
  }

  lemma StartsApart(window: real, from: real, eps: real, i: nat)
    requires i > 0
    ensures Start(window, from, eps, i) - Start(window, from, eps, i - 1) == window
  {
  }

  lemma {:induction false} DensestLags(policy: Policy, from: real, k: nat, m: nat, eps: real, lag: real, j: nat)
    requires policy.window > 0.0 && k >= 1 && j <= k + 1 + m
    requires RoundsUpTo(lag, policy.window, m) && Small(eps, lag, policy.window, m)
    ensures Lagging(Densest(policy, from, k, m, eps, lag, j), lag)
    ensures AtMost(Densest(policy, from, k, m, eps, lag, j), Top(policy.window, from, eps, j))
  {
    if j > 0 {
      var window, n, i := policy.window, ConservativeLimit(policy.limit) - 1, j - 1;
      DensestLags(policy, from, k, m, eps, lag, i);
      TopGrows(window, from, k, m, eps, lag, i);
      StillLagging(Densest(policy, from, k, m, eps, lag, i), Start(window, from, eps, i),
                   Later(window, from, k, m, eps, lag, i), n, Top(window, from, eps, i), lag);
    }
  }

  lemma OneMoreWindow(n: nat, i: nat)
    ensures i * n + n == (i + 1) * n
  {
  }

  /** The bound is attained, for every limit, every number k of windows and every lag. */
  lemma RateIsAttained(policy: Policy, from: real, k: nat, m: nat, lag: real) returns (times: seq<real>)
    requires policy.window > 0.0 && k >= 1 && RoundsUpTo(lag, policy.window, m)
    ensures Lagging(times, lag)
    ensures Allowed(policy, times, from, from + Spans(k, policy.window)) ==
            SharpBound(ConservativeLimit(policy.limit), k, m)
  {
    var eps := SmallFor(lag, policy.window, m);
    times := Densest(policy, from, k, m, eps, lag, k + 1 + m);
    DensestHits(policy, from, k, m, eps, lag, k + 1 + m);
    DensestLags(policy, from, k, m, eps, lag, k + 1 + m);
    AllHits(policy, times, from, k, m, eps);
  }

  lemma SmallFor(lag: real, window: real, m: nat) returns (eps: real)
    requires window > 0.0 && RoundsUpTo(lag, window, m)
    ensures Small(eps, lag, window, m)
  {
    var room := if m == 0 || lag - Spans(m - 1, window) > window then window else lag - Spans(m - 1, window);
    eps := room / 2.0;
  }

  lemma AllHits(policy: Policy, times: seq<real>, from: real, k: nat, m: nat, eps: real)
    requires Hit(policy, times, from, k, eps, k + 1 + m)
    ensures Allowed(policy, times, from, from + Spans(k, policy.window)) ==
            SharpBound(ConservativeLimit(policy.limit), k, m)
  {
  }

  function AllowedIn(policy: Policy, times: seq<real>, from: real, k: nat): nat {
    Allowed(policy, times, from, from + Spans(k, policy.window))
  }

  /** No interval of k windows ever sees more than k + 1 limits, in no run whose readings lag by at most
      `lag`. */
  ghost predicate RateHolds(policy: Policy, k: nat, lag: real) {
    forall times, from :: Lagging(times, lag) ==>
      AllowedIn(policy, times, from, k) <= (k + 1) * ConservativeLimit(policy.limit)
  }

  /** (k + 1) limits hold exactly when the limit is 1, when readings are in order, or when the limit is 2
      and no reading lags by more than a window. */
  lemma RateHoldsExactly(policy: Policy, k: nat, lag: real)
    requires policy.window > 0.0 && k >= 1 && lag >= 0.0
    ensures var limit := ConservativeLimit(policy.limit);
            RateHolds(policy, k, lag) <==> limit == 1 || lag == 0.0 || (limit == 2 && lag <= policy.window)
  {
    var limit := ConservativeLimit(policy.limit);
    var m := LagInWindows(lag, policy.window);
    BoundAgainstRate(limit, k, m);
    assert Spans(1, policy.window) == Spans(0, policy.window) + policy.window;
    SpansAreOrdered(m, 1, policy.window);
    if m > 1 { SpansAreOrdered(m - 1, 1, policy.window); }
    if m > 0 { SpansAreOrdered(m - 1, 0, policy.window); }
    if SharpBound(limit, k, m) <= (k + 1) * limit {
      forall times, from | Lagging(times, lag) ensures AllowedIn(policy, times, from, k) <= (k + 1) * limit {
        AnyRate(policy, times, from, k, m, lag);
      }
    } else {
      var times := RateIsAttained(policy, 0.0, k, m, lag);
      assert AllowedIn(policy, times, 0.0, k) > (k + 1) * limit;
    }
  }

  lemma BoundAgainstRate(limit: nat, k: nat, m: nat)
    requires limit >= 1
    ensures SharpBound(limit, k, m) <= (k + 1) * limit <==> m * (limit - 1) <= 1
    ensures m * (limit - 1) <= 1 <==> limit == 1 || m == 0 || (limit == 2 && m == 1)
  {
    assert (k + 1 + m) * (limit - 1) == (k + 1) * (limit - 1) + m * (limit - 1);
    assert (k + 1) * limit == (k + 1) * (limit - 1) + (k + 1);
    if limit >= 3 && m >= 1 { Monotone(1, m, limit - 1); }
    if limit == 2 { assert m * (limit - 1) == m; }
  }

  lemma {:induction false} SpansIsProduct(n: nat, window: real)
    ensures Spans(n, window) == n as real * window
  {
    if n > 0 {
      SpansIsProduct(n - 1, window);
      assert (n as real) == (n - 1) as real + 1.0;
      assert ((n - 1) as real + 1.0) * window == (n - 1) as real * window + window;
    }
  }

  lemma BelowShare(lag: real, share: real, window: real)
    requires window > 0.0
    ensures lag / window < share ==> lag < share * window
    ensures share <= lag / window ==> share * window <= lag
  {
    assert (share * window) / window == share;
    if lag >= share * window { assert lag / window >= (share * window) / window; }
    if lag < share * window { assert lag / window < (share * window) / window; }
  }

  lemma NextShare(share: real, window: real)
    ensures (share + 1.0) * window == share * window + window
  {
  }

  /** Every lag is some number of windows, rounded up. */
  lemma LagInWindows(lag: real, window: real) returns (m: nat)
    requires window > 0.0 && lag >= 0.0
    ensures RoundsUpTo(lag, window, m)
  {
    var n := (lag / window).Floor;
    var low := Spans(n, window);
    SpansIsProduct(n, window);
    BelowShare(lag, n as real, window);
    BelowShare(lag, n as real + 1.0, window);
    NextShare(n as real, window);
    assert low <= lag < low + window;
    m := if lag == 0.0 then 0 else if low < lag then n + 1 else n;
    if n > 0 { assert low == Spans(n - 1, window) + window; }
    assert Spans(n + 1, window) == low + window;
  }

}
