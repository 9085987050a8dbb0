/** Machine integer widths and the record that the kernel probe hands to the agent. */
module Events {

  const TWO_32: int := 0x1_0000_0000
  const TWO_64: int := 0x1_0000_0000_0000_0000

  type U8 = x: int | 0 <= x < 0x100
  type U16 = x: int | 0 <= x < 0x1_0000
  type U32 = x: int | 0 <= x < 0x1_0000_0000
  type U64 = x: int | 0 <= x < 0x1_0000_0000_0000_0000

  datatype Option<T> = None | Some(value: T)

  /** One perf-buffer record: `struct tcp_event_t` on the kernel side and the
      `TcpEvent` ctypes structure on the agent side (same fields, same widths). */
  datatype TcpEvent = TcpEvent(
    pid: U32,
    saddr: U32,
    daddr: U32,
    sport: U16,
    dport: U16,
    srttUs: U32,
    rttVar: U32,
    bytesSent: U64,
    timestampNs: U64)
}
