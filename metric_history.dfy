/**
  The bounded metric history kept by PowerAnalyzer.update_data in rssi_868.py:
  each cycle appends one value and, when the list is longer than
  `HistoryCapacity`, drops its first element. The three parallel histories
  (time, RSSI, peak power) each follow this rule; the method that updates them
  is Analyzer.PowerAnalyzer.UpdateData.
 */
module MetricHistory {

  const HistoryCapacity: nat := 1000

  /** One cycle: `append(x)`, then `pop(0)` when the length exceeds the capacity. */
  function Push(s: seq<real>, x: real): seq<real> {
    var appended := s + [x];
    if |appended| > HistoryCapacity then appended[1..] else appended
  }

  /** Many cycles, one value each, in order. */
  function PushAll(s: seq<real>, xs: seq<real>): seq<real>
    decreases |xs|
  {
    if xs == [] then s else PushAll(Push(s, xs[0]), xs[1..])
  }

  function Max(a: int, b: int): int { if a < b then b else a }

  /** The newest value is kept and, once full, the oldest one is the one evicted. */
  lemma PushEvictsOldest(s: seq<real>, x: real)
    requires |s| <= HistoryCapacity
    ensures |Push(s, x)| <= HistoryCapacity
    ensures Push(s, x)[|Push(s, x)| - 1] == x
    ensures Push(s, x) == if |s| == HistoryCapacity then s[1..] + [x] else s + [x]
  {
  }

  /**
    Started from at most `HistoryCapacity` values, the history after any run of
    cycles is exactly the last (at most) `HistoryCapacity` values of everything
    seen, oldest first.
   */
  lemma {:induction false} PushAllKeepsNewest(s: seq<real>, xs: seq<real>)
    requires |s| <= HistoryCapacity
    ensures PushAll(s, xs) == (s + xs)[Max(0, |s| + |xs| - HistoryCapacity)..]
    decreases |xs|
  {
    if xs != [] {
      var s' := Push(s, xs[0]);
      PushAllKeepsNewest(s', xs[1..]);
      var drop := Max(0, |s| + 1 - HistoryCapacity);
      assert s' == (s + [xs[0]])[drop..];
      assert s' + xs[1..] == (s + xs)[drop..] by {
        assert s + xs == (s + [xs[0]]) + xs[1..];
      }
    } else {
      assert s + xs == s;
    }
  }

  /** Parallel histories pushed together keep equal lengths. */
  lemma PushKeepsParallel(a: seq<real>, b: seq<real>, x: real, y: real)
    requires |a| == |b|
    ensures |Push(a, x)| == |Push(b, y)|
  {
  }
}
