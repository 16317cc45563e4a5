/** The value types shared by all stages (perf_event.hpp). */
module PerfEvent {
  import opened Texts

  datatype BranchKind =
    | Call
    | Return
    | Jump
    | Syscall
    | Sysret
    | HardwareInterrupt
    | Interrupt
    | Iret
    | Async
    | TxAbort

  datatype TraceState = Unchanged | Start | End

  datatype SampleEventName = BranchMisses | CacheMisses

  /** A signed 32-bit offset. */
  type Int32 = x: int | -0x8000_0000 <= x < 0x8000_0000

  datatype Location = Location(ip: Word64, symbol: Text, symbolOffset: Int32)

  datatype BranchData = BranchData(
    kind: Option<BranchKind>,
    traceState: TraceState,
    inTransaction: bool,
    src: Location,
    dst: Location)

  datatype EventData =
    | Branch(branch: BranchData)
    | Power(freqMhz: Word32)
    | StacktraceSample(callstack: seq<Location>)
    | EventSample(location: Location, count: int, name: SampleEventName)

  datatype Event =
    | Ok(pid: Word32, tid: Word32, timeNs: Word64, data: EventData)
    | DecodeError(pid: Word32, tid: Word32, errorTimeNs: Option<Word64>, ip: Option<Word64>, message: Text)
  {
    function Key(): ThreadKey {
      ThreadKey(pid, tid)
    }

    /** Whether the reconstructor looks at the event at all: power and counter samples leave it
        untouched, and so does a decode error without a time. */
    predicate Relevant() {
      match this
      case Ok(_, _, _, data) => data.Branch? || data.StacktraceSample?
      case DecodeError(_, _, time, _, _) => time.Some?
    }

    function Time(): Word64
      requires Relevant()
    {
      match this
      case Ok(_, _, time, _) => time
      case DecodeError(_, _, time, _, _) => time.value
    }
  }
}
