/** The probe feeding the agent: each event that `trace_tcp_sendmsg`
    submits to the perf buffer is handed to `print_event`. */
module Pipeline {
  import opened Events
  import opened Stats
  import Probe
  import Agent

  /** Every event the probe submits passes the agent's port filter: the
      probe only keeps sockets whose source port is 8000, and the agent
      keeps events with 8000 at either end. */
  lemma ProbeEventsPassAgentFilter(sk: Probe.Sock, pidTgid: U64, nowNs: U64, total: U64)
    requires Probe.Traced(Some(sk))
    ensures Agent.IsDashEvent(Probe.EventFor(sk, pidTgid, nowNs, total))
  {
  }

  /** One traced `tcp_sendmsg` call going through the perf buffer into
      `print_event` at `currentTime` on the agent's clock: the probe's total
      for the PID drives the throughput step, the socket's RTT statistics the
      RTT step, and the snapshot is replaced exactly when the throughput is
      positive. */
  method OnSend(t: Probe.Tracer, e: Agent.Estimator, sk: Option<Probe.Sock>,
                pidTgid: U64, nowNs: U64, size: U64, currentTime: real)
    requires e.Valid()
    modifies t, e
    ensures e.Valid()
    ensures !Probe.Traced(sk) ==>
      t.pidTracker == old(t.pidTracker)
      && e.connections == old(e.connections) && e.latest == old(e.latest)
    ensures Probe.Traced(sk) ==>
      var pid := Probe.PidOf(pidTgid);
      t.pidTracker == Probe.Tracked(old(t.pidTracker), pid, size)
      && var step := Agent.SmoothStep(old(e.StateOf(pid, currentTime)), t.pidTracker[pid], currentTime);
         var st := Agent.RecordRtt(step.state, sk.value.srttUs, sk.value.mdevUs);
         e.connections == old(e.connections)[pid := st]
         && e.latest == (if step.kbps > 0.0
                         then Agent.Snapshot(step.kbps, Mean(st.rttHistory), Mean(st.jitterHistory), currentTime)
                         else old(e.latest))
  {
    var ev := t.TraceTcpSendmsg(sk, pidTgid, nowNs, size);
    if ev.Some? {
      ProbeEventsPassAgentFilter(sk.value, pidTgid, nowNs, t.pidTracker[Probe.PidOf(pidTgid)]);
      e.HandleEvent(ev.value, currentTime);
    }
  }
}
