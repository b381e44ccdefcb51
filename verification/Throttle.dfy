/** The send-side bandwidth throttle (src/throttle.rs), over exact time. */
module Throttles {
  import opened Wrappers

  /** Seconds after its start at which a pacing window is abandoned. */
  const IDLE_RESET: real := 2.0

  /** One chunk: paced at `now`, let go at `release`; the window it was charged to. */
  datatype Release = Release(len: nat, now: real, release: real, windowStart: real, bytesInWindow: nat)

  /** Bytes earned over a time. */
  type Budget = real -> real

  function AtRate(rate: nat): Budget {
    (d: real) => rate as real * d
  }

  /** A chunk's own account: it is held back until its window has earned it. */
  ghost predicate Charged(rate: Budget, e: Release) {
    && e.len <= e.bytesInWindow
    && e.windowStart <= e.now <= e.release
    && e.now - e.windowStart <= IDLE_RESET
    && e.bytesInWindow as real <= rate(e.release - e.windowStart)
  }

  /** How the next chunk's window follows from the last: kept within two seconds of its
      start, begun afresh later. */
  predicate Follows(e: Release, f: Release) {
    && e.release <= f.now
    && if f.now - e.windowStart > IDLE_RESET
       then f.windowStart == f.now && f.bytesInWindow == f.len
       else f.windowStart == e.windowStart && f.bytesInWindow == e.bytesInWindow + f.len
  }

  ghost predicate Paced(rate: Budget, created: real, log: seq<Release>) {
    && (forall k :: 0 <= k < |log| ==> Charged(rate, log[k]))
    && (log != [] ==> created <= log[0].windowStart && log[0].bytesInWindow == log[0].len)
    && (forall k :: 0 < k < |log| ==> Follows(log[k - 1], log[k]))
  }

  /** Naming a pair of times opens the laws below for it. */
  predicate Compared(a: real, b: real) {
    true
  }

  /** The two laws of a steady rate the bounds rest on. */
  ghost predicate Steady(rate: Budget) {
    && rate(0.0) == 0.0
    && (forall a, b {:trigger Compared(a, b)} :: a <= b ==> rate(a) <= rate(b))
    && (forall a, b {:trigger Compared(a, b)} :: rate(b) == rate(a) + rate(b - a))
  }

  lemma Monotone(rate: Budget, a: real, b: real)
    requires Steady(rate) && a <= b
    ensures rate(a) <= rate(b)
  {
    assert Compared(a, b);
  }

  lemma Splits(rate: Budget, a: real, b: real, c: real)
    requires Steady(rate)
    ensures rate(c - a) == rate(b - a) + rate(c - b)
  {
    assert Compared(b - a, c - a);
    assert (c - a) - (b - a) == c - b;
  }

  lemma MulMonotone(r: real, a: real, b: real)
    requires r >= 0.0 && a <= b
    ensures r * a <= r * b
  {
    assert r * (b - a) >= 0.0;
  }

  lemma RateIsSteady(rate: nat)
    ensures Steady(AtRate(rate))
  {
    var r := rate as real;
    forall a, b | a <= b ensures AtRate(rate)(a) <= AtRate(rate)(b) {
      MulMonotone(r, a, b);
    }
    forall a, b ensures AtRate(rate)(b) == AtRate(rate)(a) + AtRate(rate)(b - a) {
      assert r * b == r * a + r * (b - a);
    }
  }

  /** The wait asked for earns the bytes charged. */
  lemma Earned(rate: nat, bytes: nat, waited: real)
    requires rate > 0 && bytes as real / rate as real <= waited
    ensures bytes as real <= AtRate(rate)(waited)
    ensures waited == bytes as real / rate as real ==> bytes as real == AtRate(rate)(waited)
  {
    var expected := bytes as real / rate as real;
    Quotient(bytes as real, rate as real);
    MulMonotone(rate as real, expected, waited);
  }

  lemma EarnedIff(rate: nat, bytes: nat, waited: real)
    requires rate > 0
    ensures bytes as real <= AtRate(rate)(waited) <==> bytes as real / rate as real <= waited
  {
    var expected := bytes as real / rate as real;
    Quotient(bytes as real, rate as real);
    if waited < expected {
      assert rate as real * (expected - waited) > 0.0;
    } else {
      MulMonotone(rate as real, expected, waited);
    }
  }

  lemma Quotient(x: real, y: real)
    requires y > 0.0
    ensures y * (x / y) == x
  {
  }

  class Throttle {
    const rate: nat
    var windowStart: real
    var bytesInWindow: nat
    ghost var created: real
    ghost var log: seq<Release>

    ghost predicate Valid()
      reads this
    {
      && Paced(AtRate(rate), created, log)
      && if log == [] then windowStart == created && bytesInWindow == 0
         else windowStart == log[|log| - 1].windowStart && bytesInWindow == log[|log| - 1].bytesInWindow
    }

    /** The clock has not gone back. */
    ghost predicate Since(now: real)
      reads this
    {
      created <= now && (log != [] ==> log[|log| - 1].release <= now)
    }

    constructor (rate: nat, now: real)
      ensures Valid() && this.rate == rate && created == now && log == []
    {
      this.rate, windowStart, bytesInWindow := rate, now, 0;
      created, log := now, [];
    }

    /** Returns when the chunk may leave: at once if the window has earned it, otherwise
        after a sleep, which may last `late` longer than asked. */
    method Pace(len: nat, now: real, late: real) returns (release: real)
      requires Valid() && Since(now) && late >= 0.0
      modifies this
      ensures Valid() && created == old(created) && now <= release && Since(release)
      ensures rate == 0 ==>
                && release == now && log == old(log)
                && windowStart == old(windowStart) && bytesInWindow == old(bytesInWindow)
      ensures rate > 0 ==>
                && log == old(log) + [Release(len, now, release, windowStart, bytesInWindow)]
                && (if now - old(windowStart) > 2.0 then windowStart == now && bytesInWindow == len
                    else windowStart == old(windowStart) && bytesInWindow == old(bytesInWindow) + len)
                && (if bytesInWindow as real <= AtRate(rate)(now - windowStart) then release == now
                    else bytesInWindow as real == AtRate(rate)(release - late - windowStart))
    {
      release := now;
      if rate == 0 {
        return;
      }
      if now - windowStart > IDLE_RESET {
        windowStart := now;
        bytesInWindow := 0;
      }
      bytesInWindow := bytesInWindow + len;
      var expected := bytesInWindow as real / rate as real;
      var elapsed := now - windowStart;
      if expected > elapsed {
        release := now + (expected - elapsed) + late;
        Earned(rate, bytesInWindow, expected);
        assert release - late - windowStart == expected;
      }
      EarnedIff(rate, bytesInWindow, elapsed);
      Earned(rate, bytesInWindow, release - windowStart);
      log := log + [Release(len, now, release, windowStart, bytesInWindow)];
    }
  }

  // ---------------------------------------------------------------- the rate bound

  /** Bytes of the chunks i .. j - 1. */
  function Sent(log: seq<Release>, i: nat, j: nat): nat
    requires i <= j <= |log|
    decreases j
  {
    if i == j then 0 else Sent(log, i, j - 1) + log[j - 1].len
  }

  /** Whatever was charged to earlier windows had been earned before they were abandoned. */
  lemma {:induction false} WindowsAddUp(rate: Budget, created: real, log: seq<Release>, i: nat, j: nat)
    requires Steady(rate) && Paced(rate, created, log) && i <= j < |log|
    ensures Sent(log, i, j + 1) as real
            <= rate(log[j].windowStart - log[i].windowStart) + log[j].bytesInWindow as real
    decreases j
  {
    assert Charged(rate, log[j]);
    if i < j {
      WindowsAddUp(rate, created, log, i, j - 1);
      var e, f := log[j - 1], log[j];
      assert Follows(e, f) && Charged(rate, e);
      if f.now - e.windowStart > IDLE_RESET {
        Splits(rate, log[i].windowStart, e.windowStart, f.windowStart);
        Monotone(rate, e.release - e.windowStart, f.windowStart - e.windowStart);
      }
    }
  }

  lemma SentByRelease(rate: Budget, created: real, log: seq<Release>, i: nat, j: nat)
    requires Steady(rate) && Paced(rate, created, log) && i <= j < |log|
    ensures Sent(log, i, j + 1) as real <= rate(log[j].release - log[i].windowStart)
  {
    WindowsAddUp(rate, created, log, i, j);
    assert Charged(rate, log[j]);
    Splits(rate, log[i].windowStart, log[j].windowStart, log[j].release);
  }

  /** Bytes let go after s and no later than t. */
  function Released(log: seq<Release>, s: real, t: real): nat {
    if log == [] then 0
    else
      var e := log[|log| - 1];
      Released(log[..|log| - 1], s, t) + if s < e.release <= t then e.len else 0
  }

  lemma {:induction false} ReleasesInOrder(rate: Budget, created: real, log: seq<Release>, i: nat, j: nat)
    requires Paced(rate, created, log) && i <= j < |log|
    ensures log[i].release <= log[j].release && created <= log[i].windowStart
    decreases j, i
  {
    assert Charged(rate, log[j]);
    if i < j {
      ReleasesInOrder(rate, created, log, i, j - 1);
      assert Follows(log[j - 1], log[j]);
    } else if i > 0 {
      ReleasesInOrder(rate, created, log, i - 1, i - 1);
      assert Follows(log[i - 1], log[i]) && Charged(rate, log[i - 1]);
    }
  }

  lemma {:induction false} SentOfPrefix(log: seq<Release>, n: nat, i: nat, j: nat)
    requires i <= j <= n <= |log|
    ensures Sent(log[..n], i, j) == Sent(log, i, j)
    decreases j
  {
    if i < j {
      SentOfPrefix(log, n, i, j - 1);
    }
  }

  predicate InOrder(log: seq<Release>) {
    forall i, j :: 0 <= i <= j < |log| ==> log[i].release <= log[j].release
  }

  lemma PacedInOrder(rate: Budget, created: real, log: seq<Release>)
    requires Paced(rate, created, log)
    ensures InOrder(log)
  {
    forall i, j | 0 <= i <= j < |log| ensures log[i].release <= log[j].release {
      ReleasesInOrder(rate, created, log, i, j);
    }
  }

  /** The chunks let go in an interval are consecutive. */
  lemma {:induction false} ReleasedIsSlice(log: seq<Release>, s: real, t: real)
    returns (i: nat, j: nat)
    requires InOrder(log)
    ensures i <= j <= |log| && Released(log, s, t) == Sent(log, i, j)
    ensures i < j ==> s < log[i].release && log[j - 1].release <= t
  {
    if log == [] {
      return 0, 0;
    }
    var n := |log| - 1;
    i, j := ReleasedIsSlice(log[..n], s, t);
    SentOfPrefix(log, n, i, j);
    if s < log[n].release <= t {
      if i == j {
        i, j := n, n + 1;
        assert Sent(log, n, n + 1) == Sent(log, n, n) + log[n].len;
      } else {
        SliceReachesEnd(log, s, t, i, j);
        j := n + 1;
      }
    }
  }

  /** Nothing between a released chunk and a later one was let go outside the interval. */
  lemma SliceReachesEnd(log: seq<Release>, s: real, t: real, i: nat, j: nat)
    requires InOrder(log) && i < j <= |log| - 1
    requires s < log[i].release && s < log[|log| - 1].release <= t
    requires Released(log[..|log| - 1], s, t) == Sent(log[..|log| - 1], i, j)
    ensures Sent(log, i, |log| - 1) == Released(log[..|log| - 1], s, t)
  {
    var n := |log| - 1;
    SentOfPrefix(log, n, i, n);
    SentOfPrefix(log, n, i, j);
    ReleasedAtLeast(log, n, s, t, i);
    SentGrows(log, i, j, n);
  }

  lemma {:induction false} SentGrows(log: seq<Release>, i: nat, j: nat, n: nat)
    requires i <= j <= n <= |log|
    ensures Sent(log, i, j) <= Sent(log, i, n)
    decreases n
  {
    if j < n {
      SentGrows(log, i, j, n - 1);
    }
  }

  lemma {:induction false} ReleasedAtLeast(log: seq<Release>, n: nat, s: real, t: real, i: nat)
    requires i <= n <= |log| && forall k :: i <= k < n ==> s < log[k].release <= t
    ensures Released(log[..n], s, t) >= Sent(log, i, n)
    decreases n
  {
    if i < n {
      ReleasedAtLeast(log, n - 1, s, t, i);
      assert log[..n][..n - 1] == log[..n - 1];
    }
  }

  lemma {:induction false} FirstIsSeparate(log: seq<Release>, i: nat, j: nat)
    requires i < j <= |log|
    ensures Sent(log, i, j) == log[i].len + Sent(log, i + 1, j)
    decreases j
  {
    if i + 1 < j {
      FirstIsSeparate(log, i, j - 1);
    } else {
      assert Sent(log, i, i) == 0;
    }
  }

  lemma SinceCreation(rate: Budget, created: real, log: seq<Release>, s: real, t: real)
    requires Steady(rate) && Paced(rate, created, log) && created <= t
    ensures Released(log, s, t) as real <= rate(t - created)
  {
    PacedInOrder(rate, created, log);
    var i, j := ReleasedIsSlice(log, s, t);
    Monotone(rate, 0.0, t - created);
    if i < j {
      SentByRelease(rate, created, log, i, j - 1);
      ReleasesInOrder(rate, created, log, i, i);
      Monotone(rate, log[j - 1].release - log[i].windowStart, t - created);
    }
  }

  predicate ChunksWithin(log: seq<Release>, most: nat) {
    forall k :: 0 <= k < |log| ==> log[k].len <= most
  }

  /** The slice i .. j - 1 seen from s: either its window began at most two seconds before
      s, or all but its first chunk belong to windows that began after s. */
  lemma SliceBound(rate: Budget, created: real, log: seq<Release>, s: real, t: real, i: nat, j: nat)
    requires Steady(rate) && Paced(rate, created, log) && i < j <= |log| && s <= t
    requires s < log[i].release && log[j - 1].release <= t
    ensures Sent(log, i, j) as real <= rate(t - s) + rate(IDLE_RESET)
            || Sent(log, i, j) as real <= rate(t - s) + log[i].len as real
  {
    var ws := log[i].windowStart;
    if s <= ws + IDLE_RESET {
      SentByRelease(rate, created, log, i, j - 1);
      Monotone(rate, log[j - 1].release - ws, (t - s) + IDLE_RESET);
      Splits(rate, 0.0, t - s, (t - s) + IDLE_RESET);
    } else {
      FirstIsSeparate(log, i, j);
      Monotone(rate, 0.0, t - s);
      if i + 1 < j {
        assert Follows(log[i], log[i + 1]);
        SentByRelease(rate, created, log, i + 1, j - 1);
        Monotone(rate, log[j - 1].release - log[i + 1].windowStart, t - s);
      }
    }
  }

  lemma TwoSeconds(rate: nat)
    ensures AtRate(rate)(IDLE_RESET) == (2 * rate) as real
  {
  }

  /** By any time t at most rate x (t - creation) bytes have been let go, whatever windows
      were abandoned on the way. */
  lemma RateSinceCreation(rate: nat, created: real, log: seq<Release>, s: real, t: real)
    requires Paced(AtRate(rate), created, log) && created <= t
    ensures Released(log, s, t) as real <= AtRate(rate)(t - created)
  {
    RateIsSteady(rate);
    SinceCreation(AtRate(rate), created, log, s, t);
  }

  /** Over any interval at most rate x length, plus the larger of two seconds' worth and a
      single chunk: a window is abandoned two seconds after it began, not after idleness,
      so no more credit than that can be saved up. */
  lemma RateOverInterval(rate: nat, created: real, log: seq<Release>, s: real, t: real, most: nat)
    requires Paced(AtRate(rate), created, log) && ChunksWithin(log, most) && s <= t
    ensures Released(log, s, t) as real <= AtRate(rate)(t - s) + Max(2 * rate, most) as real
  {
    RateIsSteady(rate);
    PacedInOrder(AtRate(rate), created, log);
    var i, j := ReleasedIsSlice(log, s, t);
    Monotone(AtRate(rate), 0.0, t - s);
    TwoSeconds(rate);
    if i < j {
      SliceBound(AtRate(rate), created, log, s, t, i, j);
      assert log[i].len <= most;
    }
  }
}
