/** The event vocabulary of the tracing facility. */
module Trace {

  datatype EventType =
    | Create | Ready | Run | Yield | Preempt | Block | Unblock
    | IoBlock | IoUnblock | Sleep | Wakeup | Exit | Steal

  datatype Mark = Begin | End | Instant

  /** trace_event_phase: the Chrome trace phase letter "B", "E" or "i". */
  function Phase(e: EventType): (m: Mark)
    ensures m == Begin <==> e == Run
    ensures m == End <==> e in {Yield, Preempt, Block, IoBlock, Sleep, Exit}
  {
    match e
    case Run => Begin
    case Yield | Preempt | Block | IoBlock | Sleep | Exit => End
    case _ => Instant
  }
}
