/** The records of the device lab: queue entries, devices and sessions. */
module Domain {
  datatype Option<+T> = None | Some(value: T)

  // All that matters about an id or a token hash is whether it equals another, and for request ids
  // which of two comes first in the bytewise order by which Redis breaks ties.
  type ClientId = int
  type DeviceId = int
  type SessionId = int
  type RequestId = int
  type TokenHash = int

  datatype EndReason = ByUser | ClaimTimeout | SessionTimeout | Abandoned | DeviceError | StreamError

  datatype DeviceState = Available | Reserved | InUse | Cleaning | Offline

  datatype Device = Device(
    id: DeviceId,
    state: DeviceState,
    currentSessionId: Option<SessionId>,
    leaseFence: Option<nat>,
    lastHealthAt: int,
    failureCount: nat)

  datatype EntryState = Waiting | Claimed | Cancelled | TimedOut

  datatype QueueEntry = QueueEntry(
    requestId: RequestId,
    clientId: ClientId,
    clientTokenHash: TokenHash,
    enqueuedAt: int,
    state: EntryState)

  // CleaningUp is declared by the source but written by none of its scripts.
  datatype SessionState = Reserved | Active | Disconnected | Ending | CleaningUp | Ended | Expired

  datatype Session = Session(
    id: SessionId,
    clientId: ClientId,
    deviceId: DeviceId,
    state: SessionState,
    leaseFence: nat,
    claimTokenHash: TokenHash,
    createdAt: int,
    activatedAt: Option<int>,
    expiresAt: int,
    claimDeadline: Option<int>,
    reconnectDeadline: Option<int>,
    lastHeartbeatAt: int,
    lastAcceptedInputSeq: nat,
    endReason: Option<EndReason>)

  /** The scripts' own test for a session that still counts; it leaves out Expired. */
  predicate Nonterminal(st: SessionState) {
    st.Reserved? || st.Active? || st.Disconnected? || st.Ending? || st.CleaningUp?
  }

  /** A session that still holds its device for a client: the states `beginTermination` accepts. */
  predicate Live(st: SessionState) {
    st.Reserved? || st.Active? || st.Disconnected?
  }

  /** Where a session is on its one-way path to the end. */
  function Stage(st: SessionState): nat {
    match st
    case Reserved => 0
    case Active => 1
    case Disconnected => 1
    case Ending => 2
    case Expired => 2
    case CleaningUp => 2
    case Ended => 3
  }

  /** The state of the device that a session in state `st` is bound to, while it is bound. */
  function DeviceStateFor(st: SessionState): DeviceState {
    match st
    case Reserved => DeviceState.Reserved
    case Active => InUse
    case Disconnected => InUse
    case _ => Cleaning
  }

  datatype Config = Config(
    claimMs: nat,
    sessionMaxMs: nat,
    graceMs: nat,
    heartbeatTimeoutMs: nat,
    maxFailures: int)
}
