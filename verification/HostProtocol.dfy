/** The frames exchanged between the server and a Browser Host. */
module HostProtocol {
  import opened Wrappers

  datatype HostCommand =
    | CreateSession | CloseSession | Checkpoint
    | Navigate | Observe | Screenshot | WaitForNavigation
    | Click | Fill | Select | SetChecked | Upload | Download | Evaluate
    | OpenTab | CloseTab | ActivateTab | ListTabs
    | RequestHandoff | ReclaimControl | ControlState
    | Health | Cancel

  /** Commands whose repetition is not free. */
  predicate Consequential(c: HostCommand) {
    c.Click? || c.Upload? || c.Download? || c.CreateSession?
  }

  datatype ErrorCode =
    | Malformed | UnknownCommand | UnknownSession | Expired | CapabilityUnavailable
    | BackendUnavailable | TimedOut | Cancelled | UserHasControl | Internal

  /** Deadlines are seconds; the host compares them with its own clock. */
  datatype CommandMessage = CommandMessage(
    id: string,
    command: HostCommand,
    session: Option<string>,
    params: map<string, string>,
    key: Option<string>,
    expiresAt: Option<int>)
  {
    predicate IsExpired(now: int) {
      expiresAt.Some? && now >= expiresAt.value
    }
  }

  /** The reply body: the two fields a session reads out of it, and everything else. */
  datatype Payload = Payload(ok: Option<bool>, owner: Option<string>, body: string)

  const BARE: Payload := Payload(None, None, "")

  datatype ResultMessage = ResultMessage(
    commandId: string,
    ok: bool,
    payload: Payload,
    error: Option<ErrorCode>,
    deduplicated: bool)
}
