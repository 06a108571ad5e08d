/** The log entry record and the values it carries. */
module Entries {
  import opened Priorities

  datatype Option<T> = None | Some(value: T)

  newtype byte = x: int | 0 <= x < 256

  /** Outcome code of an operation; an integer enumeration whose zero value a new logger holds. */
  type Status = int

  const ZeroStatus: Status := 0

  /** The emission time, already normalised to UTC. */
  type Instant = int

  /** Payload of a data-change event; its fields are declared outside logharbour.go. */
  type ChangeInfo(==)

  /** A structured activity payload; its shape is declared outside logharbour.go. */
  type StructuredActivity(==)

  /** Fields of a debug payload other than the six the logger fills in itself. */
  type DebugExtras(==)

  /** Payload of an activity event: a bare message (as `Log` passes it) or a structured value. */
  datatype ActivityInfo = Text(text: string) | Structured(value: StructuredActivity)

  /** Payload of a debug event. */
  datatype DebugInfo = DebugInfo(
    pid: int,
    runtime: string,
    fileName: string,
    lineNumber: int,
    functionName: string,
    stackTrace: string,
    extras: DebugExtras)

  /** What the call-site collaborator reports about the logger's caller. */
  datatype CallSite = CallSite(fileName: string, lineNumber: int, functionName: string, stackTrace: string)

  /** The dynamic payload of an entry, one shape per emission method. */
  datatype Data = ChangeData(change: ChangeInfo) | ActivityData(activity: ActivityInfo) | DebugData(debug: DebugInfo)

  /** The entry's type tag; `Unset` is the zero value that the entry constructor leaves in place. */
  datatype LogType = Unset | Change | Activity | Debug

  /** One structured log record. */
  datatype LogEntry = LogEntry(
    appName: string,
    system: string,
    moduleName: string,
    priority: Priority,
    who: string,
    op: string,
    when: Instant,
    whatClass: string,
    whatInstanceId: string,
    status: Status,
    remoteIP: string,
    logType: LogType,
    message: string,
    data: Data)

  /** The type tag names the payload shape the entry carries. */
  predicate TagMatchesData(e: LogEntry)
  {
    match e.logType
    case Unset => false
    case Change => e.data.ChangeData?
    case Activity => e.data.ActivityData?
    case Debug => e.data.DebugData?
  }

  /** Identity of a shared validator instance. */
  datatype Validator = Validator(id: nat)

  /** A destination for serialised entries; a fallback writer exposes its secondary writer. */
  datatype Writer = Stream(id: nat) | FallbackWriter(primary: Writer, fallback: Writer)
}
