/** Result messages and the one-slot channels that carry them (types.go, registry.go). */
module Messages {
  import opened Runs

  /** Which answer a pending request waits for. */
  datatype Phase = Confirm | Execute

  datatype ErrorInfo = ErrorInfo(code: string, message: string)

  datatype ResultMessage = ResultMessage(requestID: string, success: bool, data: string, error: Option<ErrorInfo>)

  const CONNECTION_LOST := "CONNECTION_LOST"
  const APP_REPLACED := "APP_REPLACED"

  function Failure(requestID: string, code: string, message: string): ResultMessage {
    ResultMessage(requestID, false, "", Some(ErrorInfo(code, message)))
  }

  /** A send on a one-slot channel that gives up when the slot is taken. */
  function Offer<T>(slot: Option<T>, v: T): Option<T> {
    if slot.None? then Some(v) else slot
  }

  /** What failing all requests of `appID` puts in one request's response slot. */
  function Failed(slot: Option<ResultMessage>, requestID: string, mine: bool, code: string, message: string)
    : (r: Option<ResultMessage>)
    ensures mine ==> r.Some?
    ensures slot.Some? || !mine ==> r == slot
  {
    if mine then Offer(slot, Failure(requestID, code, message)) else slot
  }
}
