/** The message vocabulary exchanged between the host page and the sandboxed
    frame, and the host's log entries. */
module Bridge {

  datatype Option<+T> = None | Some(value: T) {
    function GetOr(default: T): T {
      match this
      case Some(v) => v
      case None => default
    }
  }

  /** Severity of a line written to the host's log box. */
  datatype Level = Info | Warn | Error

  /** One log line; the time stamp the source prefixes is not modelled. */
  datatype LogEntry = LogEntry(msg: string, level: Level)

  /** A bridge message, as seen by either side. `Other` stands for any
      payload whose `type` is none of the four known tags (including a
      missing payload, which the host reads as an empty record). */
  datatype Message =
    | Ready
    | Log(msg: string, level: Option<Level>)
    | RunCode(code: string)
    | VKey(key: string, down: bool)
    | Other(tag: string)
}
