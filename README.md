# DASH network-metrics estimator, modelled in Dafny

The repository watches DASH video traffic served from port 8000. It has two
cooperating parts.

- A kernel probe (`tcp_metrics.c`) hooks `tcp_sendmsg`. It drops sockets
  that are not TCP/IPv4 with source port 8000. For each remaining call it
  adds the message size to a running per-PID byte total in the `pid_tracker`
  hash map, and it submits an event carrying that total plus the socket's
  smoothed RTT and RTT variance.
- A user-space agent (`agent2.py`) turns each event into readings. It
  differences the cumulative byte counter against a per-PID baseline to get
  a throughput in kbps. It keeps the last 3 plausible throughputs and reads
  their upper median. It clamps RTT and jitter to floors of 1 ms and 0.1 ms
  and averages the last 5 of each. It publishes the triple to the shared
  `latest_metrics` snapshot only when the throughput is positive. Websocket
  clients are sent the snapshot only while its throughput is positive.

Layout:

- `events.dfy` (module `Events`): the machine integer types `U8`–`U64`, the
  `TcpEvent` record the probe hands to the agent, and `Option`.
- `stats.dfy` (module `Stats`): the pure helpers.
  - A bounded deque append (`deque(maxlen=…)`).
  - Insertion sort standing for `sorted`, proved to be the unique sorted
    permutation.
  - The upper median `sorted(h)[len(h)//2]`, characterised by rank.
  - The mean `sum(h)/len(h)`, bounded by the minimum and maximum.
- `probe.dfy` (module `Probe`): class `Tracer` holds `pid_tracker` as a map.
  Its method `TraceTcpSendmsg` follows the C function's early returns and
  field-by-field event fill. Lemmas cover runs of successive sends.
- `agent.dfy` (module `Agent`): class `Estimator` holds `connection_metrics`
  as a map from PID to `ConnState` and `latest_metrics` as a `Snapshot`.
  - `CalculateSmoothedMetrics`, `RecordRttSample`, `HandleEvent`,
    `SendBandwidth` and `BroadcastTick` mirror the Python code statement by
    statement.
  - Each is proved against the pure functions `Advance`, `SmoothStep` and
    `RecordRtt`, and the lemmas about those functions state what the source
    promises.
- `pipeline.dfy` (module `Pipeline`): the probe's events fed into
  `print_event`.

Conventions:

- Python floats are `real`. Times are parameters: the agent's `time.time()`
  and the probe's `bpf_ktime_get_ns()` / `bpf_get_current_pid_tgid()`.
- The C `u64` addition wraps modulo 2^64 explicitly.
- Throughout, a "valid" entry (`ConnValid`) means:
  - every deque is within its `maxlen`;
  - every stored throughput lies in [0, 100000];
  - every stored RTT is at least 1 and every jitter at least 0.1.

Where the code does something other than what its comments or a natural
reading suggest, the model follows the code.

- Cold start is triggered by a stored `last_bytes` of 0, not by the first
  sample of a PID. A PID whose counter is still 0 stays in cold start.
- An anomalous delta (no time elapsed, or the counter went backwards) is
  not dropped. Its throughput is 0, which passes the range check, and 0 is
  appended to the history.
- The initial `latest_metrics` timestamp is the agent's start time, not 0
  (`agent2.py:47`). The constructor takes it as a parameter.
- The timestamp of a sent message is the time of sending, not the
  snapshot's timestamp (`agent2.py:137`, `agent2.py:152`).

## Model

| member | source | states |
|---|---|---|
| Stats.Insert | DASH_Files/agent2.py:74 | inserting one value into a list, ahead of the first entry not below it; one entry longer (its ordering and contents are `Stats.InsertCorrect`) |
| Stats.Sort | DASH_Files/agent2.py:74 | insertion sort standing for `sorted`; same length as its input (sortedness and permutation are `Stats.SortCorrect`, uniqueness `Stats.SortedPermutationsEqual`) |
| Stats.UpperMedian | DASH_Files/agent2.py:74-75 | `sorted(h)[len(h)//2]` for a non-empty history; its membership and rank are `Stats.UpperMedianRank` |
| Stats.Mean | DASH_Files/agent2.py:102-103 | `sum(h)/len(h)` for a non-empty history; its bounds are `Stats.MeanWithin` and `Stats.MeanBetween` |
| Stats.Append | DASH_Files/agent2.py:35 | appending to a `deque(maxlen=cap)` leaves at most `cap` entries, never empty, with the new value last |
| Stats.AppendEvictsOldest | DASH_Files/agent2.py:69-70 | below capacity the value is simply appended; at capacity the oldest entry is evicted first; every entry afterwards is the new value or an old entry |
| Stats.AppendWithin | DASH_Files/agent2.py:69-70 | appending a value within [lo, hi] to a history within [lo, hi] keeps every entry within [lo, hi] |
| Stats.AppendAtLeast | DASH_Files/agent2.py:99-100 | appending a value at or above a floor to a history at or above it keeps every entry at or above it |
| Stats.InsertCorrect | DASH_Files/agent2.py:74 | inserting into a sorted list gives a sorted permutation of the list plus the value |
| Stats.SortCorrect | DASH_Files/agent2.py:74 | the sort of a history is sorted and a permutation of it |
| Stats.SortedPermutationsEqual | DASH_Files/agent2.py:74 | two sorted permutations of the same multiset are equal, so the sort is exactly what `sorted` returns |
| Stats.UpperMedianRank | DASH_Files/agent2.py:74-75 | `sorted(h)[len(h)//2]` is an entry of `h`; at most `len(h)//2` entries lie below it and more than `len(h)//2` lie at or below it |
| Stats.MeanWithin | DASH_Files/agent2.py:102-103 | bounds that every entry of a non-empty history respects are respected by `sum/len` |
| Stats.MeanBetween | DASH_Files/agent2.py:102-103 | the mean lies between the minimum and the maximum of the history |
| Agent.Kbps | DASH_Files/agent2.py:67 | `bytes_diff*8/time_diff/1000` for a positive time span; its use is stated by `Agent.AdvanceCases` |
| Agent.Rate | DASH_Files/agent2.py:65-67 | the throughput of a delta, 0 on the anomalous branch; its sign and zero case are `Agent.RateNonNegative` |
| Agent.Advance | DASH_Files/agent2.py:57-78 | the entry after a sample: cold start only moves the baseline, otherwise the rate is appended when within [0, 100000] and the baseline moves; its cases are `Agent.AdvanceCases`, its invariant `Agent.AdvanceKeepsValid` |
| Agent.Reading | DASH_Files/agent2.py:72-79 | `max(0, sorted(h)[len(h)//2])`, or 0 for an empty history; its bounds are `Agent.ReadingBounds` |
| Agent.SmoothStep | DASH_Files/agent2.py:57-79 | the new entry and the returned value of one call, 0 on cold start; its bounds are `Agent.SmoothStepBounds`, its median property `Agent.SmoothedIsUpperMedian` |
| Agent.RateNonNegative | DASH_Files/agent2.py:65-67 | the computed throughput is never negative, and is 0 when `time_diff <= 0` or `bytes_diff < 0` |
| Agent.AdvanceKeepsValid | DASH_Files/agent2.py:69-70 | after a sample, the throughput history still holds at most 3 entries, all within [0, 100000] |
| Agent.AdvanceCases | DASH_Files/agent2.py:57-78 | the baseline always moves to the sample; RTT and jitter are untouched; cold start records nothing; an anomalous delta records 0; a valid delta records `bytes_diff*8/time_diff/1000` unless it exceeds 100000, in which case nothing is recorded |
| Agent.ReadingBounds | DASH_Files/agent2.py:72-79 | the reading is never negative, is 0 for an empty history, and for a plausible non-empty history is its upper median, an entry of it, at most 100000 |
| Agent.SmoothStepBounds | DASH_Files/agent2.py:57-79 | the returned value is never negative, is 0 on cold start, and on a valid entry is at most 100000 and leaves the entry valid |
| Agent.SmoothedIsUpperMedian | DASH_Files/agent2.py:72-75 | after cold start the returned value is an entry of the new history with the upper-median rank bounds |
| Agent.FullWindowExample | DASH_Files/agent2.py:69-75 | history [10, 20, 30] with a 15 kbps sample becomes [20, 30, 15] and returns 20 |
| Agent.FullWindowEvicts | DASH_Files/agent2.py:62-70 | a 1875-byte delta over 1 time unit appended to the full window [10, 20, 30] gives [20, 30, 15] |
| Agent.MedianOfExample | DASH_Files/agent2.py:74-75 | the upper median of [20, 30, 15] is 20 |
| Agent.RttSampleMs | DASH_Files/agent2.py:95 | the stored RTT is `srtt_us/1000`, raised to 1 when below it |
| Agent.JitterSampleMs | DASH_Files/agent2.py:96 | the stored jitter is `rtt_var/1000`, raised to 0.1 when below it |
| Agent.RecordRtt | DASH_Files/agent2.py:98-100 | the entry with the clamped RTT and jitter samples appended to their 5-entry deques; its properties are `Agent.RecordRttFacts` |
| Agent.RecordRttFacts | DASH_Files/agent2.py:95-103 | recording a sample touches only the RTT and jitter deques, puts the clamped samples last, keeps both within 5 entries and their floors, and leaves the RTT mean at least 1 and the jitter mean at least 0.1 |
| Agent.MeanAtLeast | DASH_Files/agent2.py:102-103 | a floor every entry respects is respected by the average |
| Agent.RttAverageExample | DASH_Files/agent2.py:99-102 | RTT samples of 5000, 7000 and 6000 µs give the history [5, 7, 6] with average 6 |
| Agent.IsDashEvent | DASH_Files/agent2.py:88 | an event is kept iff its destination or source port is 8000; `Agent.Estimator.HandleEvent` states that other events change nothing |
| Agent.Estimator.StateOf | DASH_Files/agent2.py:32-40 | the `defaultdict` lookup: the stored entry, or a fresh one with empty deques and `last_bytes` 0; valid whenever the table is |
| Agent.Estimator.constructor | DASH_Files/agent2.py:43-48 | the table starts empty and the snapshot starts with zero readings stamped with the start time |
| Agent.Estimator.CalculateSmoothedMetrics | DASH_Files/agent2.py:54-79 | the PID's entry becomes `SmoothStep(old entry).state` and nothing else in the table changes; the result is `SmoothStep(old entry).kbps`; the snapshot is untouched; validity is preserved |
| Agent.Estimator.RecordRttSample | DASH_Files/agent2.py:95-103 | the PID's entry becomes `RecordRtt(old entry)`; the results are the means of its RTT and jitter deques, at least 1 and 0.1; the snapshot is untouched |
| Agent.Estimator.HandleEvent | DASH_Files/agent2.py:82-111 | an event with neither port 8000 changes nothing; otherwise the PID's entry takes the throughput step then the RTT step, and the snapshot is replaced by all four new fields exactly when the throughput is positive, else kept |
| Agent.Estimator.SendBandwidth | DASH_Files/agent2.py:130-139 | a message is produced iff the snapshot throughput is positive; it carries the snapshot's readings stamped with the send time, and those readings are plausible |
| Agent.Estimator.BroadcastTick | DASH_Files/agent2.py:147-154 | a message is produced iff the server is up and the snapshot throughput is positive; it carries the snapshot's readings stamped with the send time |
| Agent.ColdStartScenario | DASH_Files/agent2.py:57-67 | samples (1000 bytes, t=0) then (2000 bytes, t=1) for one PID return 0 and then 8, with history [8] |
| Probe.Traced | DASH_Files/tcp_metrics.c:30-65 | the four filters together: non-null socket, TCP, IPv4, source port 8000; `Probe.Tracer.TraceTcpSendmsg` emits an event iff it holds |
| Probe.PidOf | DASH_Files/tcp_metrics.c:46-47 | the PID is the upper 32 bits of `pid_tgid` |
| Probe.AddWrap | DASH_Files/tcp_metrics.c:82 | `u64 += size` is the exact sum unless it reaches 2^64, in which case 2^64 is subtracted |
| Probe.Tracked | DASH_Files/tcp_metrics.c:76-83 | the map gains the PID's key; the PID's total becomes its previous total (0 if absent) plus `size`, wrapping; every other PID's total is unchanged |
| Probe.EventFor | DASH_Files/tcp_metrics.c:43-86 | the filled event carries the PID, the socket's source port and the new total |
| Probe.Tracer.constructor | DASH_Files/tcp_metrics.c:21 | `pid_tracker` starts empty |
| Probe.Tracer.TraceTcpSendmsg | DASH_Files/tcp_metrics.c:28-92 | an event is emitted iff the socket is non-null, TCP, IPv4 and from port 8000; a rejected call leaves `pid_tracker` unchanged; an accepted one applies `Tracked` and emits an event whose `bytes_sent` is the total just stored |
| Probe.Tracer.TraceSends | DASH_Files/tcp_metrics.c:76-86 | running the probe over a sequence of sends on a traced socket leaves `pid_tracker` as `Replay` gives it, and the totals of the events emitted for every PID are exactly `EmittedFor` |
| Probe.ReplaySnoc | DASH_Files/tcp_metrics.c:83 | one more send applies the map update once more to the replayed tracker |
| Probe.EmittedForSnoc | DASH_Files/tcp_metrics.c:86 | one more send emits one more total for its own PID, the total it stores, and nothing for other PIDs |
| Probe.EmittedTotalsNonDecreasing | DASH_Files/tcp_metrics.c:76-86 | over a run of sends without wrap-around, the totals emitted for a PID never decrease, each lies between the starting and final total, and the final total is the start plus all bytes sent by that PID |
| Probe.OtherPidsUntouched | DASH_Files/tcp_metrics.c:83 | sends charged to other PIDs neither change a PID's total nor emit events for it |
| Pipeline.ProbeEventsPassAgentFilter | DASH_Files/tcp_metrics.c:63-65 | every event the probe emits passes the agent's port-8000 filter |
| Pipeline.OnSend | DASH_Files/agent2.py:120 | a rejected call changes neither side; an accepted one updates `pid_tracker`, feeds the new total and the socket's RTT statistics into the PID's entry, and replaces the snapshot with the new readings exactly when the throughput is positive, else keeps it |

## Left out

- BPF loading, the kprobe attachment, the perf buffer and the `ctypes` cast (`agent2.py` lines 14-29, 120, 174-181) are foreign calls. The agent takes a `TcpEvent` value, and the probe's output is its returned event.
- Kernel reads (`bpf_probe_read_kernel`, `bpf_ktime_get_ns`, `bpf_get_current_pid_tgid`) become the fields of `Probe.Sock` and method parameters. `perf_submit` becomes the method's result.
- Probe.TraceTcpSendmsg: `ntohs` on the destination port is not modelled. `Sock.dport` is the port already in host order; the probe never filters on it.
- The websocket server, the client connect/disconnect handlers, the threads and the one-second `time.sleep` loop are I/O and concurrency. Each send is modelled as one gated call, `SendBandwidth` or `BroadcastTick`.
- JSON serialisation and `round(…, 2)` are a serialisation boundary. Payloads carry the unrounded readings.
- `inet_ntoa` and the `print` logging in `print_event` are output only.
- IEEE-754 floating point is not modelled. Throughput, RTT and jitter are real numbers, with no rounding, overflow or NaN.
- The `time.time()` default for a new entry's `last_update` is the caller's current time. Cold start overwrites it before it is ever read.
- The `bytes_history` and `time_history` deques are never read or written, so they are not modelled.
- Probe.EmittedTotalsNonDecreasing: the monotonicity is proved only while a PID's total stays below 2^64. Wrap-around is one way the total can go down (`Probe.AddWrap`); the sequential model below leaves out the others.
- Probe.Tracer.TraceTcpSendmsg, Probe.Tracer.TraceSends, Probe.EmittedTotalsNonDecreasing and Pipeline.OnSend assume that probe calls never overlap, that events reach the agent in the order they were emitted, and that `pid_tracker` is unbounded. The kprobe runs on several CPUs at once, and its lookup (line 77) and update (line 83) are separate map operations. Two threads of one process share a PID, so they can lose an increment and emit a smaller total after a larger one. Perf buffers are per CPU, so the agent can receive events out of order. The BCC hash map has a fixed capacity: once it is full, the update for a new PID fails and its events carry only the message size. None of this is captured.
- `DASH_Files/agent.py`, `DASH_Files/tcp_bytes.c`, `DASH_Files/agent.js`, `DASH_Files/indexBack.js`, `DASH_Files/save_json.py`, `DASH_Files/cors_server.py` and `mininet_topo.py` are not part of this model. They are plumbing, servers and testbed set-up around the estimator.
