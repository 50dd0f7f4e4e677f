/** Times logged in order, and how many of them may fall into one window of fixed length. */
module SlidingWindow {

  ghost predicate Sorted(times: seq<int>) {
    forall i, j :: 0 <= i <= j < |times| ==> times[i] <= times[j]
  }

  /** Entries `n` places apart are at least `width` apart in time. */
  ghost predicate Spaced(times: seq<int>, n: nat, width: int) {
    forall i, j :: 0 <= i && j == i + n && j < |times| ==> times[i] + width <= times[j]
  }

  /** How many entries fall into the half-open interval from `lo` up to `hi`. */
  function CountIn(times: seq<int>, lo: int, hi: int): nat {
    if times == [] then 0
    else CountIn(times[..|times| - 1], lo, hi) + (if lo <= times[|times| - 1] < hi then 1 else 0)
  }

  lemma {:induction false} CountInAtMost(times: seq<int>, lo: int, hi: int, from: nat)
    requires from <= |times|
    requires forall i :: 0 <= i < from ==> times[i] < lo
    ensures CountIn(times, lo, hi) <= |times| - from
  {
    if from < |times| {
      CountInAtMost(times[..|times| - 1], lo, hi, from);
    } else if times != [] {
      CountInAtMost(times[..|times| - 1], lo, hi, |times| - 1);
    }
  }

  /** Spaced logs put at most `n` entries into any window: the newest entry inside pushes the one `n` back outside. */
  lemma {:induction false} SpacedBoundsWindow(times: seq<int>, n: nat, width: int, t: int)
    requires Sorted(times) && Spaced(times, n, width)
    ensures CountIn(times, t, t + width) <= n
  {
    if times != [] {
      var last := |times| - 1;
      if times[last] < t + width {
        if n <= last {
          assert times[last - n] + width <= times[last];
          CountInAtMost(times, t, t + width, last - n + 1);
        } else {
          CountInAtMost(times, t, t + width, 0);
        }
      } else {
        SpacedBoundsWindow(times[..last], n, width, t);
      }
    }
  }

  /** `CountIn` of a run of entries that all lie in the interval is at least the length of the run. */
  lemma {:induction false} CountInAtLeast(times: seq<int>, lo: int, hi: int, from: nat, to: nat)
    requires from <= to <= |times|
    requires forall i :: from <= i < to ==> lo <= times[i] < hi
    ensures CountIn(times, lo, hi) >= to - from
  {
    if times != [] {
      if to == |times| && from < to {
        CountInAtLeast(times[..|times| - 1], lo, hi, from, to - 1);
      } else if to < |times| {
        CountInAtLeast(times[..|times| - 1], lo, hi, from, to);
      }
    }
  }

  /** How many entries fall into the half-open window of length `width` that opens at `t`. */
  function InWindow(times: seq<int>, t: int, width: int): nat {
    CountIn(times, t, t + width)
  }

  /** Being spaced is not merely enough but exactly what "at most `n` in every window" means. */
  lemma WindowBoundIsSpacing(times: seq<int>, n: nat, width: int)
    requires Sorted(times)
    ensures Spaced(times, n, width) <==> forall t :: InWindow(times, t, width) <= n
  {
    if Spaced(times, n, width) {
      forall t ensures InWindow(times, t, width) <= n {
        SpacedBoundsWindow(times, n, width, t);
      }
    }
    if forall t :: InWindow(times, t, width) <= n {
      forall i, j | 0 <= i && j == i + n && j < |times| ensures times[i] + width <= times[j] {
        if times[j] < times[i] + width {
          assert InWindow(times, times[i], width) <= n;
          CountInAtLeast(times, times[i], times[i] + width, i, j + 1);
        }
      }
    }
  }

  lemma AppendKeepsSpacing(times: seq<int>, n: nat, width: int, at: int)
    requires Sorted(times) && Spaced(times, n, width)
    requires forall i :: 0 <= i < |times| ==> times[i] <= at
    requires 0 < n
    requires n <= |times| ==> times[|times| - n] + width <= at
    ensures Sorted(times + [at]) && Spaced(times + [at], n, width)
  {
  }
}
