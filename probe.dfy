/** The kprobe on `tcp_sendmsg` (tcp_metrics.c): it filters the socket, keeps a
    running per-PID byte total in the `pid_tracker` hash map, and emits one
    event carrying the new total. Kernel reads are the fields of `Sock`. */
module Probe {
  import opened Events

  const IPPROTO_TCP: U8 := 6
  const AF_INET: U16 := 2
  /** The source port whose traffic is traced. */
  const TracedPort: U16 := 8000

  /** The socket fields the probe reads (`sk_protocol`, `skc_family`,
      `skc_rcv_saddr`, `skc_daddr`, `skc_num`, the host-order destination
      port, `srtt_us` and `mdev_us`). */
  datatype Sock = Sock(
    protocol: U8,
    family: U16,
    rcvSaddr: U32,
    daddr: U32,
    num: U16,
    dport: U16,
    srttUs: U32,
    mdevUs: U32)

  /** The probe's four early returns, as one filter: a null socket, a
      non-TCP socket, a non-IPv4 socket or a source port other than 8000 is
      ignored. */
  predicate Traced(sk: Option<Sock>) {
    sk.Some? && sk.value.protocol == IPPROTO_TCP && sk.value.family == AF_INET
    && sk.value.num == TracedPort
  }

  /** `pid_tgid >> 32`: the upper half of the 64-bit id. */
  function PidOf(pidTgid: U64): (pid: U32)
    ensures pid * TWO_32 <= pidTgid < (pid + 1) * TWO_32
  {
    pidTgid / TWO_32
  }

  /** `u64 += size_t`, wrapping modulo 2^64. */
  function AddWrap(a: U64, b: U64): (r: U64)
    ensures a + b < TWO_64 ==> r == a + b
    ensures a + b >= TWO_64 ==> r == a + b - TWO_64
  {
    (a + b) % TWO_64
  }

  /** The previous total for `pid`, 0 when the map has no entry for it. */
  function TotalOf(tracker: map<U32, U64>, pid: U32): U64 {
    if pid in tracker then tracker[pid] else 0
  }

  /** The map after accounting `size` more bytes to `pid`. */
  function Tracked(tracker: map<U32, U64>, pid: U32, size: U64): (r: map<U32, U64>)
    ensures r.Keys == tracker.Keys + {pid}
    ensures TotalOf(r, pid) == AddWrap(TotalOf(tracker, pid), size)
    ensures forall q :: q != pid ==> TotalOf(r, q) == TotalOf(tracker, q)
  {
    tracker[pid := AddWrap(TotalOf(tracker, pid), size)]
  }

  /** The event filled in for an accepted socket, carrying `total` bytes. */
  function EventFor(sk: Sock, pidTgid: U64, nowNs: U64, total: U64): (ev: TcpEvent)
    ensures ev.pid == PidOf(pidTgid) && ev.sport == sk.num
    ensures ev.bytesSent == total
  {
    TcpEvent(PidOf(pidTgid), sk.rcvSaddr, sk.daddr, sk.num, sk.dport,
             sk.srttUs, sk.mdevUs, total, nowNs)
  }

  class Tracer {
    /** `BPF_HASH(pid_tracker, u32, u64)`. */
    var pidTracker: map<U32, U64>

    constructor ()
      ensures pidTracker == map[]
    {
      pidTracker := map[];
    }

    /** `trace_tcp_sendmsg`, with the socket, `bpf_get_current_pid_tgid()`,
        `bpf_ktime_get_ns()` and `size` as inputs and the submitted event as
        the result (None when the probe returns early). */
    method TraceTcpSendmsg(sk: Option<Sock>, pidTgid: U64, nowNs: U64, size: U64)
      returns (ev: Option<TcpEvent>)
      modifies this
      ensures ev.None? <==> !Traced(sk)
      ensures !Traced(sk) ==> pidTracker == old(pidTracker)
      ensures Traced(sk) ==>
        pidTracker == Tracked(old(pidTracker), PidOf(pidTgid), size)
        && ev == Some(EventFor(sk.value, pidTgid, nowNs, pidTracker[PidOf(pidTgid)]))
    {
      if sk.None? { return None; }
      var s := sk.value;
      if s.protocol != IPPROTO_TCP { return None; }
      if s.family != AF_INET { return None; }
      var event := TcpEvent(0, 0, 0, 0, 0, 0, 0, 0, 0);
      event := event.(pid := pidTgid / TWO_32);
      event := event.(timestampNs := nowNs);
      event := event.(saddr := s.rcvSaddr, daddr := s.daddr, sport := s.num);
      event := event.(dport := s.dport);
      if event.sport != TracedPort { return None; }
      event := event.(srttUs := s.srttUs, rttVar := s.mdevUs);
      var pid := event.pid;
      var currentTotal: U64 := 0;
      if pid in pidTracker {
        currentTotal := pidTracker[pid];
      }
      currentTotal := (currentTotal + size) % TWO_64;
      pidTracker := pidTracker[pid := currentTotal];
      event := event.(bytesSent := currentTotal);
      ev := Some(event);
    }

    /** A run of `tcp_sendmsg` calls on one traced socket, each charged to
        the PID of its `Send`: the tracker ends as `Replay` says, and the
        totals emitted for each PID are exactly `EmittedFor`. */
    method TraceSends(sk: Sock, sends: seq<Send>, nowNs: U64) returns (events: seq<TcpEvent>)
      requires Traced(Some(sk))
      modifies this
      ensures pidTracker == Replay(old(pidTracker), sends)
      ensures forall p :: TotalsFor(events, p) == EmittedFor(old(pidTracker), sends, p)
    {
      ghost var init := pidTracker;
      events := [];
      var i := 0;
      while i < |sends|
        invariant 0 <= i <= |sends|
        invariant pidTracker == Replay(init, sends[..i])
        invariant forall p :: TotalsFor(events, p) == EmittedFor(init, sends[..i], p)
      {
        var send := sends[i];
        PidOfShift(send.pid);
        var ev := TraceTcpSendmsg(Some(sk), send.pid * TWO_32, nowNs, send.size);
        ReplaySnoc(init, sends[..i], send);
        forall p ensures EmittedFor(init, sends[..i] + [send], p)
                         == EmittedFor(init, sends[..i], p)
                            + (if send.pid == p then [TotalOf(pidTracker, p)] else []) {
          EmittedForSnoc(init, sends[..i], send, p);
        }
        assert sends[..i + 1] == sends[..i] + [send];
        events := events + [ev.value];
        i := i + 1;
      }
      assert sends[..i] == sends;
    }
  }

  /** The upper half of `pid * 2^32` is `pid`. */
  lemma PidOfShift(pid: U32)
    ensures pid * TWO_32 < TWO_64 && PidOf(pid * TWO_32) == pid
  {
  }

  /** The `bytes_sent` values of the events for PID `p`, in order. */
  function TotalsFor(events: seq<TcpEvent>, p: U32): seq<U64>
    decreases |events|
  {
    if events == [] then []
    else
      var last := events[|events| - 1];
      TotalsFor(events[..|events| - 1], p) + (if last.pid == p then [last.bytesSent] else [])
  }

  /** Replaying one more send applies `Tracked` once more. */
  lemma {:induction false} ReplaySnoc(tracker: map<U32, U64>, sends: seq<Send>, x: Send)
    ensures Replay(tracker, sends + [x]) == Tracked(Replay(tracker, sends), x.pid, x.size)
    decreases |sends|
  {
    if sends != [] {
      assert (sends + [x])[1..] == sends[1..] + [x];
      ReplaySnoc(Tracked(tracker, sends[0].pid, sends[0].size), sends[1..], x);
    }
  }

  /** One more send emits one more total for its own PID, the one it stores. */
  lemma {:induction false} EmittedForSnoc(tracker: map<U32, U64>, sends: seq<Send>, x: Send, p: U32)
    ensures EmittedFor(tracker, sends + [x], p)
      == EmittedFor(tracker, sends, p)
         + (if x.pid == p then [TotalOf(Replay(tracker, sends + [x]), p)] else [])
    decreases |sends|
  {
    if sends == [] {
      assert Replay(Tracked(tracker, x.pid, x.size), []) == Tracked(tracker, x.pid, x.size);
    } else {
      var next := Tracked(tracker, sends[0].pid, sends[0].size);
      var rest := sends[1..] + [x];
      assert (sends + [x])[0] == sends[0] && (sends + [x])[1..] == rest;
      assert Replay(tracker, sends + [x]) == Replay(next, rest);
      EmittedForSnoc(next, sends[1..], x, p);
      var head := if sends[0].pid == p then [TotalOf(next, p)] else [];
      assert EmittedFor(tracker, sends + [x], p) == head + EmittedFor(next, rest, p);
      assert EmittedFor(tracker, sends, p) == head + EmittedFor(next, sends[1..], p);
    }
  }

  // ---------- Successive events ----------

  /** One accepted `tcp_sendmsg` call: the PID it is charged to and its size. */
  datatype Send = Send(pid: U32, size: U64)

  /** The tracker after a run of accepted sends. */
  function Replay(tracker: map<U32, U64>, sends: seq<Send>): map<U32, U64>
    decreases |sends|
  {
    if sends == [] then tracker
    else Replay(Tracked(tracker, sends[0].pid, sends[0].size), sends[1..])
  }

  /** The `bytes_sent` values of the events emitted for `p`, in order. */
  function EmittedFor(tracker: map<U32, U64>, sends: seq<Send>, p: U32): seq<U64>
    decreases |sends|
  {
    if sends == [] then []
    else
      var next := Tracked(tracker, sends[0].pid, sends[0].size);
      (if sends[0].pid == p then [TotalOf(next, p)] else []) + EmittedFor(next, sends[1..], p)
  }

  /** The bytes that the run charges to `p`. */
  function SentBy(sends: seq<Send>, p: U32): nat
    decreases |sends|
  {
    if sends == [] then 0
    else (if sends[0].pid == p then sends[0].size else 0) + SentBy(sends[1..], p)
  }

  predicate NonDecreasing(s: seq<U64>) {
    forall i, j :: 0 <= i < j < |s| ==> s[i] <= s[j]
  }

  /** Unless `p`'s counter wraps, the totals emitted for `p` never go down,
      each lies between the starting total and the final one, and the final
      total is the starting total plus every byte sent by `p`. */
  lemma {:induction false} EmittedTotalsNonDecreasing(tracker: map<U32, U64>, sends: seq<Send>, p: U32)
    requires TotalOf(tracker, p) + SentBy(sends, p) < TWO_64
    ensures TotalOf(Replay(tracker, sends), p) == TotalOf(tracker, p) + SentBy(sends, p)
    ensures NonDecreasing(EmittedFor(tracker, sends, p))
    ensures forall i :: 0 <= i < |EmittedFor(tracker, sends, p)| ==>
      TotalOf(tracker, p) <= EmittedFor(tracker, sends, p)[i] <= TotalOf(Replay(tracker, sends), p)
    decreases |sends|
  {
    if sends != [] {
      var next := Tracked(tracker, sends[0].pid, sends[0].size);
      assert TotalOf(next, p) == TotalOf(tracker, p) + (if sends[0].pid == p then sends[0].size else 0);
      EmittedTotalsNonDecreasing(next, sends[1..], p);
    }
  }

  /** Sends charged to other PIDs leave `p`'s total where it was. */
  lemma {:induction false} OtherPidsUntouched(tracker: map<U32, U64>, sends: seq<Send>, p: U32)
    requires forall i :: 0 <= i < |sends| ==> sends[i].pid != p
    ensures TotalOf(Replay(tracker, sends), p) == TotalOf(tracker, p)
    ensures EmittedFor(tracker, sends, p) == []
    decreases |sends|
  {
    if sends != [] {
      OtherPidsUntouched(Tracked(tracker, sends[0].pid, sends[0].size), sends[1..], p);
    }
  }
}
