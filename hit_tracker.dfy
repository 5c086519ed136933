/** `HitTracker`, the fixed-window quota counter the tests run beside the
    limiter to detect an overshoot. Times and durations are integer
    nanoseconds (`time.Duration` is an int64 count); the clock is a parameter. */
module HitTracking {

  function Abs(x: int): nat
  {
    if x < 0 then -x else x
  }

  /** Go's integer division of durations, which truncates toward zero
      (Dafny's `/` is Euclidean). Dividing by zero panics in Go. */
  function TruncDiv(a: int, b: int): (q: int)
    requires b != 0
    ensures Abs(q) * Abs(b) <= Abs(a) < (Abs(q) + 1) * Abs(b)
    ensures q != 0 ==> ((q < 0) <==> ((a < 0) != (b < 0)))
  {
    var m := Abs(a) / Abs(b);
    DivBounds(Abs(a), Abs(b));
    if (a < 0) == (b < 0) then m else -m
  }

  /** Euclidean division of naturals brackets the dividend. */
  lemma DivBounds(n: nat, d: nat)
    requires d > 0
    ensures (n / d) * d <= n < (n / d + 1) * d
  {
  }

  /** Inside the first `b` nanoseconds after it, the window index is 0. */
  lemma TruncDivFirstWindow(a: int, b: int)
    requires 0 <= a < b
    ensures TruncDiv(a, b) == 0
  {
  }

  /** `FirstHit`: the zero `time.Time` (before the first hit) or a time. */
  datatype Stamp = NoHit | HitAt(at: int)

  /** A snapshot of `HitTracker`. */
  datatype Tracker = Tracker(
    firstHit: Stamp,
    windowSize: int,
    currentWindow: int,
    quotaRemaining: int,
    quota: int)

  /** `NewHitTracker(quota, window)`. */
  function NewTracker(quota: int, window: int): (t: Tracker)
    ensures t.quota == quota && t.quotaRemaining == quota
    ensures t.windowSize == window && t.currentWindow == 0 && t.firstHit == NoHit
  {
    Tracker(NoHit, window, 0, quota, quota)
  }

  /** The index of the window that a hit at `now` falls in, counted from the
      first hit: `int(sinceFirstHit / WindowSize)`. */
  function WindowIndex(first: int, now: int, windowSize: int): (k: int)
    requires windowSize != 0
    ensures windowSize > 0 && now >= first ==> k >= 0 && k * windowSize <= now - first < (k + 1) * windowSize
  {
    TruncDiv(now - first, windowSize)
  }

  /** The time of the first hit once a hit at `now` has been recorded. */
  function FirstAfter(t: Tracker, now: int): int
  {
    match t.firstHit
    case NoHit => now
    case HitAt(f) => f
  }

  /** `Hit` at time `now`: record the first hit once, move to the window the
      hit falls in (restoring the full quota when that window is a new one),
      then spend one unit of quota. */
  function HitStep(t: Tracker, now: int): (r: Tracker)
    requires t.windowSize != 0
    ensures r.quota == t.quota && r.windowSize == t.windowSize
    ensures r.firstHit == (if t.firstHit == NoHit then HitAt(now) else t.firstHit)
    ensures r.currentWindow == WindowIndex(FirstAfter(t, now), now, t.windowSize)
    ensures r.currentWindow != t.currentWindow ==> r.quotaRemaining == t.quota - 1
    ensures r.currentWindow == t.currentWindow ==> r.quotaRemaining == t.quotaRemaining - 1
    ensures t.quotaRemaining <= t.quota ==> r.quotaRemaining <= r.quota - 1
  {
    var first := FirstAfter(t, now);
    var k := WindowIndex(first, now, t.windowSize);
    var remaining := if k != t.currentWindow then t.quota else t.quotaRemaining;
    Tracker(HitAt(first), t.windowSize, k, remaining - 1, t.quota)
  }

  /** The condition under which `check` reports too many hits. */
  predicate Overshot(t: Tracker)
  {
    t.quotaRemaining < 0
  }

  /** The tracker after one hit at each of the given times, in order. */
  function Hits(t: Tracker, times: seq<int>): Tracker
    requires t.windowSize != 0
    decreases |times|
  {
    if times == [] then t else Hits(HitStep(t, times[0]), times[1..])
  }

  /** Over any sequence of hits the quota and window size stay fixed, and
      after at least one hit the remaining quota is below the full quota. */
  lemma {:induction false} HitsKeepBound(t: Tracker, times: seq<int>)
    requires t.windowSize != 0 && t.quotaRemaining <= t.quota
    ensures Hits(t, times).quota == t.quota && Hits(t, times).windowSize == t.windowSize
    ensures Hits(t, times).quotaRemaining <= t.quota
    ensures |times| > 0 ==> Hits(t, times).quotaRemaining <= t.quota - 1
    decreases |times|
  {
    if times != [] {
      HitsKeepBound(HitStep(t, times[0]), times[1..]);
    }
  }

  /** Hits that all fall in the current window each spend one unit of quota
      and change nothing else. */
  lemma {:induction false} HitsInCurrentWindow(t: Tracker, times: seq<int>)
    requires t.windowSize != 0 && t.firstHit.HitAt?
    requires forall i :: 0 <= i < |times| ==>
               WindowIndex(t.firstHit.at, times[i], t.windowSize) == t.currentWindow
    ensures Hits(t, times) == t.(quotaRemaining := t.quotaRemaining - |times|)
    decreases |times|
  {
    if times != [] {
      var u := HitStep(t, times[0]);
      assert u == t.(quotaRemaining := t.quotaRemaining - 1);
      HitsInCurrentWindow(u, times[1..]);
    }
  }

  /** A run of hits that opens a window and stays in it: the first hit moves
      to a window other than the current one, and every later hit falls in
      that same window. Then k hits leave `quota - k`, and `check` fails
      exactly when there were more than `quota` of them. */
  lemma NewWindowRun(t: Tracker, times: seq<int>)
    requires t.windowSize != 0 && |times| > 0
    requires WindowIndex(FirstAfter(t, times[0]), times[0], t.windowSize) != t.currentWindow
    requires forall i :: 0 <= i < |times| ==>
               WindowIndex(FirstAfter(t, times[0]), times[i], t.windowSize)
               == WindowIndex(FirstAfter(t, times[0]), times[0], t.windowSize)
    ensures Hits(t, times).quotaRemaining == t.quota - |times|
    ensures Overshot(Hits(t, times)) <==> |times| > t.quota
  {
    var u := HitStep(t, times[0]);
    assert u.quotaRemaining == t.quota - 1;
    forall i | 0 <= i < |times[1..]|
      ensures WindowIndex(u.firstHit.at, times[1..][i], u.windowSize) == u.currentWindow
    {
      assert times[1..][i] == times[i + 1];
    }
    HitsInCurrentWindow(u, times[1..]);
  }

  /** No overshoot from a fresh tracker: k hits within `WindowSize` of the
      first one leave `quota - k`, so `check` fails exactly when k > quota. */
  lemma FreshWindowRun(quota: int, window: int, times: seq<int>)
    requires window > 0 && |times| > 0
    requires forall i :: 0 <= i < |times| ==> times[0] <= times[i] < times[0] + window
    ensures Hits(NewTracker(quota, window), times).quotaRemaining == quota - |times|
    ensures Overshot(Hits(NewTracker(quota, window), times)) <==> |times| > quota
  {
    var t := NewTracker(quota, window);
    var u := HitStep(t, times[0]);
    TruncDivFirstWindow(0, window);
    assert u == Tracker(HitAt(times[0]), window, 0, quota - 1, quota);
    forall i | 0 <= i < |times[1..]|
      ensures WindowIndex(u.firstHit.at, times[1..][i], u.windowSize) == u.currentWindow
    {
      assert times[1..][i] == times[i + 1];
      TruncDivFirstWindow(times[i + 1] - times[0], window);
    }
    HitsInCurrentWindow(u, times[1..]);
  }

  /** The test's tracker, updated in place. */
  class HitTracker {
    var firstHit: Stamp
    const windowSize: int
    var currentWindow: int
    var quotaRemaining: int
    const quota: int

    function Snapshot(): Tracker
      reads this
    {
      Tracker(firstHit, windowSize, currentWindow, quotaRemaining, quota)
    }

    /** `NewHitTracker(quota, window)`. */
    constructor (quota: int, window: int)
      ensures Snapshot() == NewTracker(quota, window)
    {
      firstHit := NoHit;
      windowSize := window;
      currentWindow := 0;
      quotaRemaining := quota;
      this.quota := quota;
    }

    /** `Hit`, with the current time passed in. Dividing by a zero window
        makes Go panic. */
    method Hit(now: int)
      requires windowSize != 0
      modifies this
      ensures Snapshot() == HitStep(old(Snapshot()), now)
    {
      if firstHit == NoHit {
        firstHit := HitAt(now);
      }
      var sinceFirstHit := now - firstHit.at;
      var window := TruncDiv(sinceFirstHit, windowSize);
      if window != currentWindow {
        quotaRemaining := quota;
        currentWindow := window;
      }
      quotaRemaining := quotaRemaining - 1;
    }
  }
}
