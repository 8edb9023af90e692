/** What the agent puts on the wire to Central, and the two delivery lanes. */
module Wire {

  datatype Option<+T> = None | Some(value: T)

  /** Identity of a monitored container: its name and its image. */
  datatype ContainerKey = ContainerKey(name: string, image: string)

  /** The part of a container's log-collection state that Central is told about. */
  datatype Report = Report(available: bool, issue: string)

  /** What an absent entry means: logs are collected and there is no issue. */
  const NO_ISSUE := Report(true, "")

  datatype Body =
    | LogCollectionChanged(key: ContainerKey, report: Report)
    | TelemetryHealth(healthy: bool)
    | Other(content: string)

  datatype Lane = Critical | Telemetry | UnknownLane(name: string)

  datatype Message = Message(msgType: string, lane: Lane, body: Body)

  const TELEMETRY_TYPES := {"stats", "metrics", "exec_output", "logs_output", "fast_logs_frame", "fast_logs_error"}

  function LaneForMessageType(messageType: string): Lane {
    if messageType in TELEMETRY_TYPES then Telemetry else Critical
  }

  /** Six types of message are telemetry; every other one, known or not, is critical. */
  lemma LaneIff(messageType: string)
    ensures LaneForMessageType(messageType) == Telemetry <==>
      || messageType == "stats" || messageType == "metrics" || messageType == "exec_output"
      || messageType == "logs_output" || messageType == "fast_logs_frame" || messageType == "fast_logs_error"
    ensures LaneForMessageType(messageType) != Telemetry ==> LaneForMessageType(messageType) == Critical
  {
  }
}
