/**
  The temporal de-duplication filter that decides whether a detected
  frequency is written to the detailed log (PowerAnalyzer.should_log_frequency
  in rssi_868.py). Its table maps a frequency (Hz) to the time (s) of its last
  report, in the insertion order of a Python dict. This module holds the
  specification of one call; the loop that implements it is
  Analyzer.PowerAnalyzer.ShouldLogFrequency.
 */
module DedupFilter {
  import opened Wrappers
  import opened OrderedDict

  /** Entries whose last report is not newer than `now - RetentionSeconds` are pruned. */
  const RetentionSeconds: real := 3600.0

  /** frequency (Hz) -> time of its last report (s). */
  type History = Dict<real, real>

  function Abs(x: real): (r: real)
    ensures r >= 0.0 && (r == x || r == -x)
  {
    if x < 0.0 then -x else x
  }

  /** `abs(frequency - stored) <= tolerance`: the two are taken for the same channel. */
  predicate SameChannel(frequency: real, stored: real, tolerance: real) {
    Abs(frequency - stored) <= tolerance
  }

  /** Entry `i` is the first one, in insertion order, on the channel of `frequency`. */
  ghost predicate IsFirstMatch(h: History, frequency: real, tolerance: real, i: nat) {
    && i < |h|
    && SameChannel(frequency, h[i].0, tolerance)
    && forall j :: 0 <= j < i ==> !SameChannel(frequency, h[j].0, tolerance)
  }

  /** No entry of `h` is on the channel of `frequency`. */
  ghost predicate NoMatch(h: History, frequency: real, tolerance: real) {
    forall j :: 0 <= j < |h| ==> !SameChannel(frequency, h[j].0, tolerance)
  }

  /** The scan of the table: the first entry within tolerance, if any. */
  function FirstMatch(h: History, frequency: real, tolerance: real): (r: Option<nat>)
    ensures r.Some? ==> IsFirstMatch(h, frequency, tolerance, r.value)
    ensures r.None? <==> NoMatch(h, frequency, tolerance)
  {
    if h == [] then None
    else if SameChannel(frequency, h[0].0, tolerance) then Some(0)
    else
      match FirstMatch(h[1..], frequency, tolerance)
      case None => None
      case Some(i) => Some(i + 1)
  }

  /** There is at most one first match. */
  lemma FirstMatchUnique(h: History, frequency: real, tolerance: real, i: nat, j: nat)
    requires IsFirstMatch(h, frequency, tolerance, i) && IsFirstMatch(h, frequency, tolerance, j)
    ensures i == j
  {
  }

  /** The dict comprehension that keeps the entries reported after `cutoff`, in their order. */
  function Prune(h: History, cutoff: real): (r: History)
  {
    if h == [] then []
    else if h[0].1 > cutoff then [h[0]] + Prune(h[1..], cutoff)
    else Prune(h[1..], cutoff)
  }

  /** The survivors of pruning are exactly the entries reported after `cutoff`. */
  lemma {:induction false} PruneMembers(h: History, cutoff: real)
    ensures forall e :: e in Prune(h, cutoff) <==> e in h && e.1 > cutoff
  {
    if h != [] {
      PruneMembers(h[1..], cutoff);
      assert forall e :: e in h <==> e == h[0] || e in h[1..];
    }
  }

  /** Pruning a table with distinct keys leaves distinct keys. */
  lemma {:induction false} PruneKeepsKeysDistinct(h: History, cutoff: real)
    requires DistinctKeys(h)
    ensures DistinctKeys(Prune(h, cutoff))
  {
    if h != [] {
      assert DistinctKeys(h[1..]);
      PruneKeepsKeysDistinct(h[1..], cutoff);
      PruneMembers(h[1..], cutoff);
      var rest := Prune(h[1..], cutoff);
      forall e | e in rest ensures e.0 != h[0].0 {
        var k :| 0 <= k < |h[1..]| && h[1..][k] == e;
        assert h[k + 1] == e;
      }
    }
  }

  lemma PruneSingle(e: (real, real), cutoff: real)
    ensures Prune([e], cutoff) == if e.1 > cutoff then [e] else []
  {
    assert [e][1..] == [];
  }

  /** Pruning is applied entry by entry, so it keeps the relative order of the survivors. */
  lemma {:induction false} PruneAppend(a: History, b: History, cutoff: real)
    ensures Prune(a + b, cutoff) == Prune(a, cutoff) + Prune(b, cutoff)
  {
    if a != [] {
      assert (a + b)[0] == a[0];
      assert (a + b)[1..] == a[1..] + b;
      PruneAppend(a[1..], b, cutoff);
      assert Prune(a + b, cutoff) == (if a[0].1 > cutoff then [a[0]] else []) + Prune(a[1..] + b, cutoff);
    } else {
      assert a + b == b;
    }
  }

  /** What one call decides: whether to log, and the table afterwards. */
  datatype Verdict = Verdict(log: bool, history: History)

  /**
    One call of the filter at time `now`. A match reported less than `timeout`
    ago rejects and changes nothing; an older match is re-keyed to `frequency`
    and stamped `now`; with no match `frequency` is inserted and the table is
    pruned to the last `RetentionSeconds`.
   */
  function ShouldLog(h: History, frequency: real, now: real, tolerance: real, timeout: real): (v: Verdict)
    requires DistinctKeys(h)
    ensures DistinctKeys(v.history)
  {
    match FirstMatch(h, frequency, tolerance)
    case Some(i) =>
      assert HasKey(h, h[i].0);
      if now - h[i].1 < timeout then Verdict(false, h)
      else Verdict(true, Assign(Delete(h, h[i].0), frequency, now))
    case None =>
      PruneKeepsKeysDistinct(Assign(h, frequency, now), now - RetentionSeconds);
      Verdict(true, Prune(Assign(h, frequency, now), now - RetentionSeconds))
  }

  /** A match reported less than `timeout` ago is rejected and the table is untouched. */
  lemma RecentMatchRejected(h: History, frequency: real, now: real, tolerance: real, timeout: real, i: nat)
    requires DistinctKeys(h) && IsFirstMatch(h, frequency, tolerance, i)
    requires now - h[i].1 < timeout
    ensures ShouldLog(h, frequency, now, tolerance, timeout) == Verdict(false, h)
  {
    FirstMatchUnique(h, frequency, tolerance, FirstMatch(h, frequency, tolerance).value, i);
  }

  /** The filter rejects exactly when the first match was reported less than `timeout` ago. */
  lemma RejectedIffRecentMatch(h: History, frequency: real, now: real, tolerance: real, timeout: real)
    requires DistinctKeys(h)
    ensures !ShouldLog(h, frequency, now, tolerance, timeout).log <==>
      exists i: nat :: IsFirstMatch(h, frequency, tolerance, i) && now - h[i].1 < timeout
    ensures !ShouldLog(h, frequency, now, tolerance, timeout).log ==>
      ShouldLog(h, frequency, now, tolerance, timeout).history == h
  {
    match FirstMatch(h, frequency, tolerance)
    case None =>
    case Some(k) =>
      assert IsFirstMatch(h, frequency, tolerance, k);
      forall i: nat | IsFirstMatch(h, frequency, tolerance, i) ensures i == k {
        FirstMatchUnique(h, frequency, tolerance, i, k);
      }
  }

  /**
    A match at least `timeout` old (an elapsed time equal to `timeout` included)
    is re-keyed: its old key disappears, `frequency` maps to `now`, every other
    key keeps its time, and nothing is pruned. Unless `frequency` is already the
    key of another entry, the re-keyed entry moves to the end.
   */
  lemma StaleMatchReCentred(h: History, frequency: real, now: real, tolerance: real, timeout: real, i: nat)
    requires DistinctKeys(h) && IsFirstMatch(h, frequency, tolerance, i)
    requires now - h[i].1 >= timeout
    ensures ShouldLog(h, frequency, now, tolerance, timeout).log
    ensures forall k ::
              Get(ShouldLog(h, frequency, now, tolerance, timeout).history, k) ==
              if k == frequency then Some(now) else if k == h[i].0 then None else Get(h, k)
    ensures (forall j :: 0 <= j < |h| && j != i ==> h[j].0 != frequency) ==>
      ShouldLog(h, frequency, now, tolerance, timeout).history == h[..i] + h[i + 1..] + [(frequency, now)]
  {
    FirstMatchUnique(h, frequency, tolerance, FirstMatch(h, frequency, tolerance).value, i);
    var old_key := h[i].0;
    assert HasKey(h, old_key);
    var d := Delete(h, old_key);
    assert d == h[..i] + h[i + 1..];
    forall k ensures Get(Assign(d, frequency, now), k) ==
      if k == frequency then Some(now) else if k == old_key then None else Get(h, k)
    {
      AssignGet(d, frequency, now, k);
      DeleteGet(h, old_key, k);
    }
    if forall j :: 0 <= j < |h| && j != i ==> h[j].0 != frequency {
      assert forall j :: 0 <= j < |d| ==> d[j] == if j < i then h[j] else h[j + 1];
      assert !HasKey(d, frequency);
    }
  }

  /**
    With no match the filter reports `frequency` and inserts it stamped `now`;
    the new entry always survives the pruning that follows.
   */
  lemma NewChannelInserted(h: History, frequency: real, now: real, tolerance: real, timeout: real)
    requires DistinctKeys(h) && NoMatch(h, frequency, tolerance)
    ensures ShouldLog(h, frequency, now, tolerance, timeout).log
    ensures Get(ShouldLog(h, frequency, now, tolerance, timeout).history, frequency) == Some(now)
  {
    var a := Assign(h, frequency, now);
    var r := Prune(a, now - RetentionSeconds);
    PruneMembers(a, now - RetentionSeconds);
    PruneKeepsKeysDistinct(a, now - RetentionSeconds);
    AssignGet(h, frequency, now, frequency);
    var i := IndexOf(a, frequency).value;
    assert a[i] == (frequency, now);
    assert (frequency, now) in r;
    var j :| 0 <= j < |r| && r[j] == (frequency, now);
    assert Get(r, frequency) == Some(now);
  }

  /**
    With no match and a tolerance that is not negative, `frequency` cannot
    already be a key: the table becomes the entries reported within the last
    hour, in their old order, followed by the new entry.
   */
  lemma NewChannelAppendedAfterSurvivors(h: History, frequency: real, now: real, tolerance: real, timeout: real)
    requires DistinctKeys(h) && NoMatch(h, frequency, tolerance) && tolerance >= 0.0
    ensures ShouldLog(h, frequency, now, tolerance, timeout) ==
            Verdict(true, Prune(h, now - RetentionSeconds) + [(frequency, now)])
  {
    assert !HasKey(h, frequency) by {
      forall j | 0 <= j < |h| ensures h[j].0 != frequency {
        assert !SameChannel(frequency, h[j].0, tolerance);
      }
    }
    PruneAppend(h, [(frequency, now)], now - RetentionSeconds);
    PruneSingle((frequency, now), now - RetentionSeconds);
  }

  /** No two entries of the table are on the same channel. */
  ghost predicate ChannelsApart(h: History, tolerance: real) {
    forall i, j :: 0 <= i < j < |h| ==> !SameChannel(h[i].0, h[j].0, tolerance)
  }

  /** Inserting a new channel keeps the entries on distinct channels. */
  lemma NewChannelKeepsChannelsApart(h: History, frequency: real, now: real, tolerance: real, timeout: real)
    requires DistinctKeys(h) && NoMatch(h, frequency, tolerance) && tolerance >= 0.0
    requires ChannelsApart(h, tolerance)
    ensures ChannelsApart(ShouldLog(h, frequency, now, tolerance, timeout).history, tolerance)
  {
    NewChannelAppendedAfterSurvivors(h, frequency, now, tolerance, timeout);
    var p := Prune(h, now - RetentionSeconds);
    PruneMembers(h, now - RetentionSeconds);
    PruneKeepsChannelsApart(h, now - RetentionSeconds, tolerance);
    var r := p + [(frequency, now)];
    forall i | 0 <= i < |p| ensures !SameChannel(p[i].0, frequency, tolerance) {
      assert p[i] in h;
      var k :| 0 <= k < |h| && h[k] == p[i];
      assert !SameChannel(frequency, h[k].0, tolerance);
    }
  }

  /** Pruning only removes entries, so entries on distinct channels stay so. */
  lemma {:induction false} PruneKeepsChannelsApart(h: History, cutoff: real, tolerance: real)
    requires ChannelsApart(h, tolerance)
    ensures ChannelsApart(Prune(h, cutoff), tolerance)
  {
    if h != [] {
      assert ChannelsApart(h[1..], tolerance);
      PruneKeepsChannelsApart(h[1..], cutoff, tolerance);
      PruneMembers(h[1..], cutoff);
      var rest := Prune(h[1..], cutoff);
      if h[0].1 > cutoff {
        forall j | 0 <= j < |rest| ensures !SameChannel(h[0].0, rest[j].0, tolerance) {
          assert rest[j] in h[1..];
          var k :| 0 <= k < |h[1..]| && h[1..][k] == rest[j];
          assert h[k + 1] == rest[j];
        }
        assert Prune(h, cutoff) == [h[0]] + rest;
      }
    }
  }

  /**
    One channel watched with a 50 kHz tolerance and a 10 s interval: the first
    report passes, a report 30 kHz away one second later is suppressed, the same
    report eleven seconds later passes and re-centres the entry, and a channel
    52 MHz away passes at once.
   */
  lemma SameChannelScenario()
    ensures ShouldLog([], 868000000.0, 0.0, 50000.0, 10.0) == Verdict(true, [(868000000.0, 0.0)])
    ensures ShouldLog([(868000000.0, 0.0)], 868030000.0, 1.0, 50000.0, 10.0) == Verdict(false, [(868000000.0, 0.0)])
    ensures ShouldLog([(868000000.0, 0.0)], 868030000.0, 11.0, 50000.0, 10.0) == Verdict(true, [(868030000.0, 11.0)])
    ensures ShouldLog([(868000000.0, 0.0)], 920000000.0, 1.0, 50000.0, 10.0) ==
            Verdict(true, [(868000000.0, 0.0), (920000000.0, 1.0)])
  {
    var h: History := [(868000000.0, 0.0)];
    PruneSingle((868000000.0, 0.0), 0.0 - RetentionSeconds);
    assert Assign([], 868000000.0, 0.0) == h;
    assert FirstMatch(h, 868030000.0, 50000.0) == Some(0);
    assert h[1..] == [];
    assert FirstMatch(h, 920000000.0, 50000.0) == None;
    assert Delete(h, 868000000.0) == [];
    PruneAppend([(868000000.0, 0.0)], [(920000000.0, 1.0)], 1.0 - RetentionSeconds);
    PruneSingle((868000000.0, 0.0), 1.0 - RetentionSeconds);
    PruneSingle((920000000.0, 1.0), 1.0 - RetentionSeconds);
  }

  /**
    An entry last reported at time 0 is pruned when a different channel is
    inserted at 3601 s, so the first channel is reported again at 3602 s.
   */
  lemma HourOldEntryPrunedScenario()
    ensures ShouldLog([(868000000.0, 0.0)], 920000000.0, 3601.0, 50000.0, 10.0) == Verdict(true, [(920000000.0, 3601.0)])
    ensures ShouldLog([(920000000.0, 3601.0)], 868000000.0, 3602.0, 50000.0, 10.0).log
  {
    assert [(868000000.0, 0.0)][1..] == [];
    assert FirstMatch([(868000000.0, 0.0)], 920000000.0, 50000.0) == None;
    PruneAppend([(868000000.0, 0.0)], [(920000000.0, 3601.0)], 3601.0 - RetentionSeconds);
    PruneSingle((868000000.0, 0.0), 3601.0 - RetentionSeconds);
    PruneSingle((920000000.0, 3601.0), 3601.0 - RetentionSeconds);
    assert [(920000000.0, 3601.0)][1..] == [];
    assert FirstMatch([(920000000.0, 3601.0)], 868000000.0, 50000.0) == None;
  }

  /**
    Re-centring can move a key to within tolerance of another entry: channels
    100 and 200 are 100 apart, a report at 150 matches 100 first and re-keys it,
    leaving 150 and 200 only 50 apart under a tolerance of 60.
   */
  lemma ReCentringCanCrowdChannels()
    ensures ChannelsApart([(100.0, 0.0), (200.0, 0.0)], 60.0)
    ensures !ChannelsApart(ShouldLog([(100.0, 0.0), (200.0, 0.0)], 150.0, 20.0, 60.0, 10.0).history, 60.0)
  {
    var h: History := [(100.0, 0.0), (200.0, 0.0)];
    assert !SameChannel(h[0].0, h[1].0, 60.0);
    assert ChannelsApart(h, 60.0);
    assert FirstMatch(h, 150.0, 60.0) == Some(0);
    assert IndexOf(h, 100.0) == Some(0);
    assert Delete(h, 100.0) == [(200.0, 0.0)];
    assert [(200.0, 0.0)][1..] == [];
    assert IndexOf([(200.0, 0.0)], 150.0) == None;
    assert Assign([(200.0, 0.0)], 150.0, 20.0) == [(200.0, 0.0), (150.0, 20.0)];
    assert ShouldLog(h, 150.0, 20.0, 60.0, 10.0) == Verdict(true, Assign(Delete(h, 100.0), 150.0, 20.0));
    var r := ShouldLog(h, 150.0, 20.0, 60.0, 10.0).history;
    assert r == [(200.0, 0.0), (150.0, 20.0)];
    assert SameChannel(r[0].0, r[1].0, 60.0);
  }
}
