/** The records shared by the call hook and the view components. */
module RetellTypes {

  /** An optional value; `error?: string` in the call state is an `Option<string>`. */
  datatype Option<+T> = None | Some(value: T)

  /** The five connection states of a call. */
  datatype Status = Idle | Connecting | Connected | Disconnected | Error

  /** Everything the UI shows about the call. `duration` is in whole seconds. */
  datatype CallState = CallState(
    status: Status,
    duration: int,
    isMuted: bool,
    volume: real,
    error: Option<string>)

  /** One synthetic audio sample of the visualiser; `timestamp` is in milliseconds. */
  datatype AudioLevel = AudioLevel(level: real, timestamp: int)

  /** What the session-token endpoint answers. */
  datatype CreateWebCallResponse = CreateWebCallResponse(accessToken: string, callId: string, agentId: string)
}
