/** The enumerations that the runtime and the recovery coordinator exchange. */
module MarketTypes {
  import opened Prelude

  datatype RuntimeState =
    Constructed | Buffering | AwaitingBridge | Live | NeedsResync | Faulted | Stopping | Stopped

  datatype FaultReason =
    | IngressOverflow
    | BootstrapBufferOverflow
    | AdapterError
    | TransportFailure
    | SnapshotFailure
    | ProjectionRejected
    | ClockError
    | InternalError

  datatype ProjectionStatus = AwaitingBaseline | BridgePending | Synchronized | ResyncRequired

  /** The part of a runtime observation that steers recovery. */
  datatype RuntimeView = RuntimeView(state: RuntimeState, status: ProjectionStatus, fault: Option<FaultReason>)
}
