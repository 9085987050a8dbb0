/** The user-space agent (agent2.py): per-PID smoothing of the probe's
    cumulative byte counter into a throughput reading, RTT and jitter
    averaging, the shared `latest_metrics` snapshot and the send gate. */
module Agent {
  import opened Events
  import opened Stats

  /** The port whose traffic the agent keeps (either end). */
  const DashPort: int := 8000
  const ThroughputWindow: nat := 3
  const RttWindow: nat := 5
  const JitterWindow: nat := 5
  /** Throughput readings above this many kbps are dropped as implausible. */
  const MaxPlausibleKbps: real := 100000.0
  const RttFloorMs: real := 1.0
  const JitterFloorMs: real := 0.1

  /** One entry of `connection_metrics`. */
  datatype ConnState = ConnState(
    throughputHistory: seq<real>,
    rttHistory: seq<real>,
    jitterHistory: seq<real>,
    lastBytes: int,
    lastUpdate: real)

  /** The `defaultdict` factory: empty histories and a zero byte baseline. */
  function NewConn(createdAt: real): ConnState {
    ConnState([], [], [], 0, createdAt)
  }

  predicate AllBetween(h: seq<real>, lo: real, hi: real) {
    forall i :: 0 <= i < |h| ==> lo <= h[i] <= hi
  }

  predicate AllAtLeast(h: seq<real>, lo: real) {
    forall i :: 0 <= i < |h| ==> lo <= h[i]
  }

  /** What every entry of `connection_metrics` satisfies: each deque within
      its `maxlen`, stored throughputs plausible, RTTs and jitters at their
      floors or above. */
  predicate ConnValid(m: ConnState) {
    |m.throughputHistory| <= ThroughputWindow
    && AllBetween(m.throughputHistory, 0.0, MaxPlausibleKbps)
    && |m.rttHistory| <= RttWindow && AllAtLeast(m.rttHistory, RttFloorMs)
    && |m.jitterHistory| <= JitterWindow && AllAtLeast(m.jitterHistory, JitterFloorMs)
  }

  function MaxReal(a: real, b: real): real {
    if a >= b then a else b
  }

  // ---------- Throughput ----------

  /** `bytes_diff * 8 / time_diff / 1000`: bytes over a time span, in kilobits per time unit. */
  function Kbps(bytesDiff: nat, timeDiff: real): real
    requires timeDiff > 0.0
  {
    (bytesDiff as real) * 8.0 / timeDiff / 1000.0
  }

  /** The throughput of a delta; 0 when the delta is anomalous (no time
      elapsed, or the counter went backwards). */
  function Rate(bytesDiff: int, timeDiff: real): real {
    if timeDiff > 0.0 && bytesDiff >= 0 then Kbps(bytesDiff, timeDiff) else 0.0
  }

  /** A rate is never negative, and an anomalous delta has rate 0. */
  lemma RateNonNegative(bytesDiff: int, timeDiff: real)
    ensures Rate(bytesDiff, timeDiff) >= 0.0
    ensures timeDiff <= 0.0 || bytesDiff < 0 ==> Rate(bytesDiff, timeDiff) == 0.0
  {
    if timeDiff > 0.0 && bytesDiff >= 0 {
      var bits := (bytesDiff as real) * 8.0;
      assert bits >= 0.0;
      assert bits / timeDiff >= 0.0;
    }
  }

  /** Whether a sample's delta against the baseline is anomalous. */
  predicate Anomalous(m: ConnState, currentBytes: int, currentTime: real) {
    currentTime - m.lastUpdate <= 0.0 || currentBytes - m.lastBytes < 0
  }

  /** The entry after `calculate_smoothed_metrics` has seen a sample: the
      throughput history with the sample's rate recorded (unless cold or
      implausible) and the baseline moved to the sample. */
  function Advance(m: ConnState, currentBytes: int, currentTime: real): ConnState {
    if m.lastBytes == 0 then
      m.(lastBytes := currentBytes, lastUpdate := currentTime)
    else
      var throughput := Rate(currentBytes - m.lastBytes, currentTime - m.lastUpdate);
      var history :=
        if 0.0 <= throughput <= MaxPlausibleKbps
        then Append(m.throughputHistory, throughput, ThroughputWindow)
        else m.throughputHistory;
      m.(throughputHistory := history, lastBytes := currentBytes, lastUpdate := currentTime)
  }

  /** A sample keeps an entry valid: the throughput window stays within its
      length and every recorded reading stays plausible. */
  lemma AdvanceKeepsValid(m: ConnState, currentBytes: int, currentTime: real)
    requires ConnValid(m)
    ensures ConnValid(Advance(m, currentBytes, currentTime))
  {
    if m.lastBytes != 0 {
      var throughput := Rate(currentBytes - m.lastBytes, currentTime - m.lastUpdate);
      if 0.0 <= throughput <= MaxPlausibleKbps {
        AppendWithin(m.throughputHistory, throughput, ThroughputWindow, 0.0, MaxPlausibleKbps);
      }
    }
  }

  /** What one sample does to an entry. */
  lemma AdvanceCases(m: ConnState, currentBytes: int, currentTime: real)
    ensures var r := Advance(m, currentBytes, currentTime);
      // the baseline always moves to the current sample; RTT and jitter are not touched
      r.lastBytes == currentBytes && r.lastUpdate == currentTime
      && r.rttHistory == m.rttHistory && r.jitterHistory == m.jitterHistory
      // cold start: a zero baseline records nothing
      && (m.lastBytes == 0 ==> r.throughputHistory == m.throughputHistory)
      // an anomalous delta is recorded as a 0 reading, not skipped
      && (m.lastBytes != 0 && Anomalous(m, currentBytes, currentTime) ==>
            r.throughputHistory == Append(m.throughputHistory, 0.0, ThroughputWindow))
      // a valid delta records its rate unless the rate is implausible
      && (m.lastBytes != 0 && !Anomalous(m, currentBytes, currentTime) ==>
            var rate := Kbps(currentBytes - m.lastBytes, currentTime - m.lastUpdate);
            (rate <= MaxPlausibleKbps ==>
               r.throughputHistory == Append(m.throughputHistory, rate, ThroughputWindow))
            && (rate > MaxPlausibleKbps ==> r.throughputHistory == m.throughputHistory))
  {
    if m.lastBytes != 0 {
      RateNonNegative(currentBytes - m.lastBytes, currentTime - m.lastUpdate);
    }
  }

  /** The smoothed reading of a throughput history: `max(0, sorted(h)[len(h)//2])`,
      or 0 for an empty history. */
  function Reading(h: seq<real>): real {
    var smoothed := if h != [] then UpperMedian(h) else 0.0;
    MaxReal(0.0, smoothed)
  }

  /** The reading is never negative, is 0 for an empty history, and for a
      history of plausible throughputs is its upper median, itself plausible. */
  lemma ReadingBounds(h: seq<real>)
    ensures Reading(h) >= 0.0
    ensures h == [] ==> Reading(h) == 0.0
    ensures AllBetween(h, 0.0, MaxPlausibleKbps) && h != [] ==>
      Reading(h) == UpperMedian(h) && Reading(h) in h && Reading(h) <= MaxPlausibleKbps
  {
    if AllBetween(h, 0.0, MaxPlausibleKbps) && h != [] {
      UpperMedianRank(h);
    }
  }

  datatype Smoothed = Smoothed(state: ConnState, kbps: real)

  /** `calculate_smoothed_metrics` on one connection's entry: the new entry
      and the returned reading (0 on cold start). */
  function SmoothStep(m: ConnState, currentBytes: int, currentTime: real): Smoothed {
    var next := Advance(m, currentBytes, currentTime);
    Smoothed(next, if m.lastBytes == 0 then 0.0 else Reading(next.throughputHistory))
  }

  /** The returned reading is never negative, is 0 on cold start, and on a
      valid entry is plausible; the new entry is valid again. */
  lemma SmoothStepBounds(m: ConnState, currentBytes: int, currentTime: real)
    ensures var r := SmoothStep(m, currentBytes, currentTime);
      r.kbps >= 0.0
      && (m.lastBytes == 0 ==> r.kbps == 0.0)
      && (ConnValid(m) ==> ConnValid(r.state) && r.kbps <= MaxPlausibleKbps)
  {
    var next := Advance(m, currentBytes, currentTime);
    ReadingBounds(next.throughputHistory);
    if ConnValid(m) {
      AdvanceKeepsValid(m, currentBytes, currentTime);
    }
  }

  /** After cold start, the reading is the upper median of the recorded
      throughputs: an entry of the history with at most half of the entries
      (rounded down) below it and more than half at or below it. */
  lemma SmoothedIsUpperMedian(m: ConnState, currentBytes: int, currentTime: real)
    requires m.lastBytes != 0 && ConnValid(m)
    ensures var r := SmoothStep(m, currentBytes, currentTime);
      var h := r.state.throughputHistory;
      h != [] ==>
        r.kbps in h && CountBelow(h, r.kbps) <= |h| / 2 && CountAtMost(h, r.kbps) > |h| / 2
  {
    var h := Advance(m, currentBytes, currentTime).throughputHistory;
    AdvanceKeepsValid(m, currentBytes, currentTime);
    if h != [] {
      ReadingBounds(h);
      UpperMedianRank(h);
    }
  }

  /** A full window [10, 20, 30] receiving a 15 kbps sample evicts 10 and
      reads the upper median of [20, 30, 15], which is 20. */
  lemma FullWindowExample()
    ensures var m := ConnState([10.0, 20.0, 30.0], [], [], 1000, 0.0);
      var r := SmoothStep(m, 2875, 1.0);
      r.state.throughputHistory == [20.0, 30.0, 15.0] && r.kbps == 20.0
  {
    var m := ConnState([10.0, 20.0, 30.0], [], [], 1000, 0.0);
    var h := [20.0, 30.0, 15.0];
    FullWindowEvicts(m);
    MedianOfExample(h);
    assert Reading(h) == 20.0;
  }

  lemma FullWindowEvicts(m: ConnState)
    requires m == ConnState([10.0, 20.0, 30.0], [], [], 1000, 0.0)
    ensures Advance(m, 2875, 1.0).throughputHistory == [20.0, 30.0, 15.0]
  {
    assert Rate(1875, 1.0) == 15.0;
    AppendEvictsOldest(m.throughputHistory, 15.0, ThroughputWindow);
    assert m.throughputHistory[1..] == [20.0, 30.0];
  }

  lemma MedianOfExample(h: seq<real>)
    requires h == [20.0, 30.0, 15.0]
    ensures UpperMedian(h) == 20.0
  {
    assert h[1..] == [30.0, 15.0] && h[1..][1..] == [15.0];
    assert Sort([15.0]) == [15.0] by {
      assert [15.0][1..] == [];
    }
    assert Insert(30.0, [15.0]) == [15.0, 30.0] by {
      assert [15.0][1..] == [];
    }
    assert Insert(20.0, [15.0, 30.0]) == [15.0, 20.0, 30.0] by {
      assert [15.0, 30.0][1..] == [30.0];
    }
    assert Sort(h) == [15.0, 20.0, 30.0];
  }

  // ---------- RTT and jitter ----------

  /** `max(1, srtt_us / 1000.0)`. */
  function RttSampleMs(srttUs: nat): (r: real)
    ensures r >= RttFloorMs && (r == RttFloorMs || r == srttUs as real / 1000.0)
    ensures r >= srttUs as real / 1000.0
  {
    MaxReal(RttFloorMs, srttUs as real / 1000.0)
  }

  /** `max(0.1, rtt_var / 1000.0)`. */
  function JitterSampleMs(rttVar: nat): (r: real)
    ensures r >= JitterFloorMs && (r == JitterFloorMs || r == rttVar as real / 1000.0)
    ensures r >= rttVar as real / 1000.0
  {
    MaxReal(JitterFloorMs, rttVar as real / 1000.0)
  }

  /** The RTT and jitter half of `print_event` on one entry: each clamped
      sample is appended to its window. */
  function RecordRtt(m: ConnState, srttUs: nat, rttVar: nat): ConnState {
    m.(rttHistory := Append(m.rttHistory, RttSampleMs(srttUs), RttWindow),
       jitterHistory := Append(m.jitterHistory, JitterSampleMs(rttVar), JitterWindow))
  }

  /** Recording a sample touches only the RTT and jitter windows, puts the
      clamped samples last, keeps the entry valid, and leaves both averages
      at or above their floors. */
  lemma RecordRttFacts(m: ConnState, srttUs: nat, rttVar: nat)
    ensures var r := RecordRtt(m, srttUs, rttVar);
      r.throughputHistory == m.throughputHistory
      && r.lastBytes == m.lastBytes && r.lastUpdate == m.lastUpdate
      && |r.rttHistory| > 0 && r.rttHistory[|r.rttHistory| - 1] == RttSampleMs(srttUs)
      && |r.jitterHistory| > 0 && r.jitterHistory[|r.jitterHistory| - 1] == JitterSampleMs(rttVar)
      && (ConnValid(m) ==>
            ConnValid(r) && Mean(r.rttHistory) >= RttFloorMs && Mean(r.jitterHistory) >= JitterFloorMs)
  {
    var r := RecordRtt(m, srttUs, rttVar);
    if ConnValid(m) {
      AppendAtLeast(m.rttHistory, RttSampleMs(srttUs), RttWindow, RttFloorMs);
      AppendAtLeast(m.jitterHistory, JitterSampleMs(rttVar), JitterWindow, JitterFloorMs);
      MeanAtLeast(r.rttHistory, RttFloorMs);
      MeanAtLeast(r.jitterHistory, JitterFloorMs);
    }
  }

  /** A floor every entry respects is respected by the mean. */
  lemma MeanAtLeast(h: seq<real>, lo: real)
    requires |h| > 0 && AllAtLeast(h, lo)
    ensures Mean(h) >= lo
  {
    MeanWithin(h, lo, Max(h));
  }

  /** RTTs of 5, 7 and 6 ms average to 6 ms. */
  lemma RttAverageExample()
    ensures var m := RecordRtt(RecordRtt(RecordRtt(NewConn(0.0), 5000, 0), 7000, 0), 6000, 0);
      m.rttHistory == [5.0, 7.0, 6.0] && Mean(m.rttHistory) == 6.0
  {
    var m := RecordRtt(RecordRtt(RecordRtt(NewConn(0.0), 5000, 0), 7000, 0), 6000, 0);
    assert m.rttHistory == [5.0, 7.0, 6.0];
    assert Sum([5.0, 7.0, 6.0]) == 18.0 by {
      assert [5.0, 7.0, 6.0][1..] == [7.0, 6.0];
      assert [7.0, 6.0][1..] == [6.0];
      assert [6.0][1..] == [];
    }
  }

  // ---------- Snapshot and send gate ----------

  /** `latest_metrics`. */
  datatype Snapshot = Snapshot(throughputKbps: real, rttMs: real, jitterMs: real, timestamp: real)

  /** Either no reading was ever published (zero throughput), or the
      published reading is plausible and its RTT and jitter respect the floors. */
  predicate SnapshotValid(s: Snapshot) {
    s.throughputKbps >= 0.0
    && (s.throughputKbps > 0.0 ==>
          s.throughputKbps <= MaxPlausibleKbps && s.rttMs >= RttFloorMs && s.jitterMs >= JitterFloorMs)
  }

  /** The fields a websocket message carries (before rounding and JSON). */
  datatype Payload = Payload(throughputKbps: real, rttMs: real, jitterMs: real, timestamp: real)

  /** The agent's filter: either end of the connection is on port 8000. */
  predicate IsDashEvent(ev: TcpEvent) {
    ev.dport == DashPort || ev.sport == DashPort
  }

  /** Every entry of a connection table is valid. */
  predicate AllConnValid(c: map<U32, ConnState>) {
    forall pid :: pid in c ==> ConnValid(c[pid])
  }

  /** Storing a valid entry keeps the whole table valid. */
  lemma AllConnValidUpdate(c: map<U32, ConnState>, k: U32, m: ConnState)
    requires AllConnValid(c) && ConnValid(m)
    ensures AllConnValid(c[k := m])
  {
  }

  lemma UpdateTwice(c: map<U32, ConnState>, k: U32, a: ConnState, b: ConnState)
    ensures c[k := a][k := b] == c[k := b]
  {
  }

  /** The agent's global state: `connection_metrics` and `latest_metrics`. */
  class Estimator {
    var connections: map<U32, ConnState>
    var latest: Snapshot

    ghost predicate Valid()
      reads this
    {
      AllConnValid(connections) && SnapshotValid(latest)
    }

    /** `connection_metrics[pid]`, with the default entry for an unseen PID. */
    function StateOf(pid: U32, now: real): (m: ConnState)
      reads this
      ensures Valid() ==> ConnValid(m)
    {
      if pid in connections then connections[pid] else NewConn(now)
    }

    constructor (startTime: real)
      ensures Valid()
      ensures connections == map[]
      ensures latest == Snapshot(0.0, 0.0, 0.0, startTime)
    {
      connections := map[];
      latest := Snapshot(0.0, 0.0, 0.0, startTime);
    }

    /** `calculate_smoothed_metrics(pid, current_bytes, current_time)`. */
    method CalculateSmoothedMetrics(pid: U32, currentBytes: int, currentTime: real)
      returns (kbps: real)
      requires Valid()
      modifies this
      ensures Valid()
      ensures var step := SmoothStep(old(StateOf(pid, currentTime)), currentBytes, currentTime);
        connections == old(connections)[pid := step.state] && kbps == step.kbps
      ensures latest == old(latest)
    {
      var metrics := StateOf(pid, currentTime);
      SmoothStepBounds(metrics, currentBytes, currentTime);
      AllConnValidUpdate(connections, pid, Advance(metrics, currentBytes, currentTime));
      if metrics.lastBytes == 0 {
        connections := connections[pid := metrics.(lastBytes := currentBytes, lastUpdate := currentTime)];
        return 0.0;
      }
      var bytesDiff := currentBytes - metrics.lastBytes;
      var timeDiff := currentTime - metrics.lastUpdate;
      var throughputKbps := 0.0;
      if timeDiff > 0.0 && bytesDiff >= 0 {
        throughputKbps := Kbps(bytesDiff, timeDiff);
      }
      var history := metrics.throughputHistory;
      if 0.0 <= throughputKbps <= MaxPlausibleKbps {
        history := Append(history, throughputKbps, ThroughputWindow);
      }
      assert history == Advance(metrics, currentBytes, currentTime).throughputHistory;
      var smoothed := 0.0;
      if history != [] {
        smoothed := UpperMedian(history);
      }
      connections := connections[pid := metrics.(throughputHistory := history,
                                                 lastBytes := currentBytes,
                                                 lastUpdate := currentTime)];
      kbps := MaxReal(0.0, smoothed);
    }

    /** The RTT and jitter part of `print_event`: record the clamped samples
        in the PID's windows and return their averages. */
    method RecordRttSample(pid: U32, srttUs: U32, rttVar: U32, currentTime: real)
      returns (smoothedRtt: real, smoothedJitter: real)
      requires Valid()
      modifies this
      ensures Valid()
      ensures var st := RecordRtt(old(StateOf(pid, currentTime)), srttUs, rttVar);
        connections == old(connections)[pid := st]
        && smoothedRtt == Mean(st.rttHistory) && smoothedJitter == Mean(st.jitterHistory)
      ensures smoothedRtt >= RttFloorMs && smoothedJitter >= JitterFloorMs
      ensures latest == old(latest)
    {
      var rttMs := MaxReal(1.0, srttUs as real / 1000.0);
      var jitterMs := MaxReal(0.1, rttVar as real / 1000.0);
      var metrics := StateOf(pid, currentTime);
      RecordRttFacts(metrics, srttUs, rttVar);
      var rttHistory := Append(metrics.rttHistory, rttMs, RttWindow);
      var jitterHistory := Append(metrics.jitterHistory, jitterMs, JitterWindow);
      metrics := metrics.(rttHistory := rttHistory, jitterHistory := jitterHistory);
      AllConnValidUpdate(connections, pid, metrics);
      connections := connections[pid := metrics];
      smoothedRtt := Sum(rttHistory) / (|rttHistory| as real);
      smoothedJitter := Sum(jitterHistory) / (|jitterHistory| as real);
    }

    /** The metric and snapshot part of `print_event`. */
    method HandleEvent(ev: TcpEvent, currentTime: real)
      requires Valid()
      modifies this
      ensures Valid()
      ensures !IsDashEvent(ev) ==> connections == old(connections) && latest == old(latest)
      ensures IsDashEvent(ev) ==>
        var step := SmoothStep(old(StateOf(ev.pid, currentTime)), ev.bytesSent, currentTime);
        var st := RecordRtt(step.state, ev.srttUs, ev.rttVar);
        connections == old(connections)[ev.pid := st]
        && latest == (if step.kbps > 0.0
                      then Snapshot(step.kbps, Mean(st.rttHistory), Mean(st.jitterHistory), currentTime)
                      else old(latest))
    {
      var pid := ev.pid;
      if !(ev.dport == DashPort || ev.sport == DashPort) {
        return;
      }
      ghost var step := SmoothStep(StateOf(pid, currentTime), ev.bytesSent, currentTime);
      SmoothStepBounds(StateOf(pid, currentTime), ev.bytesSent, currentTime);
      var throughputKbps := CalculateSmoothedMetrics(pid, ev.bytesSent, currentTime);
      assert StateOf(pid, currentTime) == step.state;
      var smoothedRtt, smoothedJitter := RecordRttSample(pid, ev.srttUs, ev.rttVar, currentTime);
      UpdateTwice(old(connections), pid, step.state, RecordRtt(step.state, ev.srttUs, ev.rttVar));
      if throughputKbps > 0.0 {
        latest := Snapshot(throughputKbps, smoothedRtt, smoothedJitter, currentTime);
      }
    }

    /** `send_bandwidth`: a message to one client only when the snapshot
        holds a positive throughput; stamped with the time of sending. */
    method SendBandwidth(now: real) returns (msg: Option<Payload>)
      requires Valid()
      ensures msg.Some? <==> latest.throughputKbps > 0.0
      ensures msg.Some? ==>
        msg.value == Payload(latest.throughputKbps, latest.rttMs, latest.jitterMs, now)
      ensures msg.Some? ==>
        0.0 < msg.value.throughputKbps <= MaxPlausibleKbps
        && msg.value.rttMs >= RttFloorMs && msg.value.jitterMs >= JitterFloorMs
    {
      if latest.throughputKbps > 0.0 {
        msg := Some(Payload(latest.throughputKbps, latest.rttMs, latest.jitterMs, now));
      } else {
        msg := None;
      }
    }

    /** One tick of `broadcast_metrics`: a message to all clients only when
        the server is up and the snapshot holds a positive throughput. */
    method BroadcastTick(serverUp: bool, now: real) returns (msg: Option<Payload>)
      requires Valid()
      ensures msg.Some? <==> serverUp && latest.throughputKbps > 0.0
      ensures msg.Some? ==>
        msg.value == Payload(latest.throughputKbps, latest.rttMs, latest.jitterMs, now)
    {
      if serverUp && latest.throughputKbps > 0.0 {
        msg := Some(Payload(latest.throughputKbps, latest.rttMs, latest.jitterMs, now));
      } else {
        msg := None;
      }
    }
  }

  /** Two samples for one PID, 1000 bytes at t = 0 and 2000 bytes at t = 1:
      the first only sets the baseline and reads 0; the second reads 8 kbps
      with the history [8]. */
  method ColdStartScenario() returns (first: real, second: real, history: seq<real>)
    ensures first == 0.0 && second == 8.0 && history == [8.0]
  {
    var e := new Estimator(0.0);
    first := e.CalculateSmoothedMetrics(7, 1000, 0.0);
    second := e.CalculateSmoothedMetrics(7, 2000, 1.0);
    history := e.connections[7].throughputHistory;
  }
}
