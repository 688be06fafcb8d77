/** The life cycle states of a GameServer and the table of transitions the
    controller is meant to follow (api/v1alpha1/gameserver_lifecycle.go). */
module Lifecycle {

  /** `Unset` is the empty string a GameServer is created with. The CRD's enum
      admits no value outside this list. */
  datatype State = Unset | Creating | Starting | Ready | Allocated | Shutdown | Error

  function ValidTransitions(from: State): seq<State> {
    match from
    case Unset => []
    case Creating => [Starting, Error]
    case Starting => [Ready, Creating, Error, Shutdown]
    case Ready => [Allocated, Creating, Error, Shutdown]
    case Allocated => [Ready, Creating, Error, Shutdown]
    case Shutdown => [Creating]
    case Error => [Shutdown, Creating]
  }

  predicate IsValidTransition(from: State, to: State) {
    to in ValidTransitions(from)
  }

  /** Ready or Allocated: the game is up, so it may be backed up and routed to. */
  predicate IsServing(s: State) {
    s == Ready || s == Allocated
  }

  /** The states that hold one of the places counted by the admission limits. */
  predicate IsRunning(s: State) {
    s == Starting || IsServing(s)
  }
}

/** The life cycle of a Backup (api/v1alpha1/backup_lifecycle.go). */
module BackupLifecycle {

  datatype State = Unset | Pending | InProgress | Completed | Failed

  function ValidTransitions(from: State): seq<State> {
    match from
    case Pending => [InProgress, Failed]
    case InProgress => [Completed, Failed]
    case _ => []
  }

  predicate IsValidTransition(from: State, to: State) {
    to in ValidTransitions(from)
  }

  predicate IsTerminal(s: State) {
    s == Completed || s == Failed
  }
}
