/** Transaction lifecycle: pkg/reqmgr/transaction.go. */
module Transactions {
  import opened Common
  import opened CanonicalKeys

  datatype TxState = Created | PreparingDispatch | PendingPublish | InFlight | Completed | Failed | TimedOut

  datatype Error =
    | InvalidStateTransition
    | AlreadyTerminal
    | TransactionNotFound
    | DuplicateRequest
    | StateLockBusy
    | OperationNotActive
    | OperationReleaseInProgress
    | CapacityExceeded
    | HandoffInProgress
    | CachedResponse(payload: Bytes)
    | PersistFailed
    | Rejected

  predicate Terminal(s: TxState) {
    s.Completed? || s.Failed? || s.TimedOut?
  }

  predicate PreFlight(s: TxState) {
    s.Created? || s.PreparingDispatch? || s.PendingPublish?
  }

  /** validateTransition: None when the move is legal. */
  function ValidateTransition(from: TxState, to: TxState): (e: Option<Error>)
    ensures e.None? ==> Rank(from) < Rank(to) && !Terminal(from)
    ensures e.None? && to.TimedOut? ==> from.InFlight?
  {
    match from
    case Created =>
      if to.PreparingDispatch? || to.Failed? then None else Some(InvalidStateTransition)
    case PreparingDispatch =>
      if to.PendingPublish? || to.Failed? then None else Some(InvalidStateTransition)
    case PendingPublish =>
      if to.InFlight? || to.Failed? || to.Completed? then None else Some(InvalidStateTransition)
    case InFlight =>
      if to.Completed? || to.Failed? || to.TimedOut? then None else Some(InvalidStateTransition)
    case Completed => Some(AlreadyTerminal)
    case Failed => Some(AlreadyTerminal)
    case TimedOut => Some(AlreadyTerminal)
  }

  /** The legal moves, one by one. */
  lemma LegalMoves(from: TxState, to: TxState)
    ensures ValidateTransition(from, to) == None <==>
            (from, to) in {
              (Created, PreparingDispatch), (Created, Failed),
              (PreparingDispatch, PendingPublish), (PreparingDispatch, Failed),
              (PendingPublish, InFlight), (PendingPublish, Failed), (PendingPublish, Completed),
              (InFlight, Completed), (InFlight, Failed), (InFlight, TimedOut)}
    ensures ValidateTransition(from, to) == Some(AlreadyTerminal) <==> from in {Completed, Failed, TimedOut}
  {
  }

  /** Progress along the lifecycle. */
  function Rank(s: TxState): nat {
    match s
    case Created => 0
    case PreparingDispatch => 1
    case PendingPublish => 2
    case InFlight => 3
    case _ => 4
  }

  /** A RequestKey; NoKey is the empty key of a notification. */
  datatype Key = NoKey | Key(text: string)

  function RequestKey(session: string, raw: RawId): (key: Option<Key>)
    ensures key.Some? ==> (key.value.NoKey? <==> IsNotification(raw))
  {
    match CanonicalKey(session, raw)
    case None => None
    case Some(text) => Some(if text == "" then NoKey else Key(text))
  }

  /**
   * One transaction. `timer` says that the current response timer is armed; `timedOnce` that some
   * response timer was armed, whose callback may already be waiting although it was stopped since.
   */
  datatype Tx = Tx(
    session: string,
    cloudId: RawId,
    key: Key,
    respond: bool,
    command: string,
    state: TxState,
    payload: Option<Bytes>,
    handoff: bool,
    timeout: Time,
    deadline: Option<Time>,
    timer: bool,
    timedOnce: bool)
}
