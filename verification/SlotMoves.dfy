/** Which state changes each event may make, and how a stop can be lost. */
module SlotMoves {
  import opened Lifecycle
  import opened VersionedStore
  import opened GameServerSlot
  import opened SlotInvariant

  /** A request landed after the worker's read, and the move that overwrites it is
      no edge from the state it left: any but Creating over a stop, Ready or
      Allocated over a start or restart. */
  predicate IsOffTable(w: Worker, from: State, to: State) {
    w.touched && ((from == Shutdown && to != Creating) || (from == Creating && to in {Ready, Allocated}))
  }

  /** The moves from one state to another that each kind of event may make. A
      controller write leaves the table exactly when IsOffTable says, and what it
      then overwrites is a requested Creating or Shutdown. */
  ghost predicate LegalMove(s: Slot, e: Event, from: State, to: State) {
    && to != Unset
    && match e
       case Lifecycle(Start, _) => from in {Unset, Shutdown, Error} && to == Creating
       case Lifecycle(Stop, _) => from !in {Shutdown, Error} && to == Shutdown
       case Lifecycle(Restart, _) => to == Creating
       case Step(_, _) =>
         && s.worker.Some?
         && var w := s.worker.value;
            || (w.task == Initialize && from == Unset && to == Creating)
            || (&& w.task == MoveTo(to)
                && IsValidTransition(w.snap.body.status.state, to)
                && (from == w.snap.body.status.state || (w.touched && from in {Creating, Shutdown}))
                && (IsValidTransition(from, to) <==> !IsOffTable(w, from, to)))
       case _ => false
  }

  lemma StateMovesAreLegal(s: Slot, e: Event)
    requires SlotOk(s) && s.cell.current.Some? && Apply(s, e).cell.current.Some?
    ensures var from, to := s.cell.current.value, Apply(s, e).cell.current.value;
      from.body.status.state != to.body.status.state ==>
        LegalMove(s, e, from.body.status.state, to.body.status.state)
  {
    match e {
      case Lifecycle(_, read) => if read in s.cell.past { AcceptedReadIsCurrent(s.cell, read); }
      case Connect(read, _) => if read in s.cell.past { AcceptedReadIsCurrent(s.cell, read); }
      case Disconnect(read) => if read in s.cell.past { AcceptedReadIsCurrent(s.cell, read); }
      case Step(input, read) => if s.worker.Some? && read in s.cell.past { StepMovesAreLegal(s, input, read); }
      case _ =>
    }
  }

  lemma StepMovesAreLegal(s: Slot, i: Input, read: Server)
    requires SlotOk(s) && s.worker.Some? && read in s.cell.past && s.cell.current.Some?
    requires WorkerStep(s, s.worker.value, i, read).cell.current.Some?
    ensures var from, to := s.cell.current.value, WorkerStep(s, s.worker.value, i, read).cell.current.value;
      from.body.status.state != to.body.status.state ==>
        LegalMove(s, Step(i, read), from.body.status.state, to.body.status.state)
  {
    var w := s.worker.value;
    AcceptedReadIsCurrent(s.cell, read);
    AcceptedReadIsCurrent(s.cell, w.snap);
    var from := s.cell.current.value.body.status.state;
    if w.task.MoveTo? && from != w.task.to {
      MoveLeavesTableExactly(w, from, w.task.to);
    }
  }

  lemma MoveLeavesTableExactly(w: Worker, from: State, to: State)
    requires TaskFits(w.snap.body, MoveTo(to)) && from != to
    requires from == w.snap.body.status.state || (w.touched && from in {Creating, Shutdown})
    ensures IsValidTransition(from, to) <==> !IsOffTable(w, from, to)
  {}

  // ---------------------------------------------------------- a lost stop

  /** Every stop that lands while a worker is about to write a state is
      overwritten, and the write leaves the table unless it is to Creating. */
  lemma PendingMoveOverwritesStop(s: Slot, i: Input, stop: Server, read: Server)
    requires SlotOk(s) && s.worker.Some? && s.worker.value.task.MoveTo?
    requires s.cell.current == Some(stop) && Requested(Stop, stop.body.status.state).Some?
    requires Apply(s, Lifecycle(Stop, stop)).cell.current == Some(read)
    ensures var written, to := Apply(Apply(s, Lifecycle(Stop, stop)), Step(i, read)).cell.current, s.worker.value.task.to;
      && read.body.status.state == Shutdown != to
      && written.Some? && written.value.uid == stop.uid && written.value.body.status.state == to
      && (IsValidTransition(Shutdown, to) <==> to == Creating)
  {}

  // ------------------------------------------------ writes under interference

  predicate WritesFromSnapshot(task: Task) {
    task in {Initialize, AddFinalizer, DropFinalizer}
  }

  predicate WritesFromRefetch(task: Task) {
    task.MoveTo? || task.Publish? || task.Mark?
  }

  /** Whatever was written since the worker's first read: a write from a current
      re-fetch lands, on that object and its fields, and a write from the snapshot
      lands exactly when nothing was written. */
  lemma WritesLandExactly(s: Slot, i: Input, read: Server)
    requires SlotOk(s) && s.worker.Some? && s.cell.current == Some(read)
    ensures var w, c' := s.worker.value, WorkerStep(s, s.worker.value, i, read).cell;
      && (c' != s.cell <==> WritesFromRefetch(w.task) || (WritesFromSnapshot(w.task) && w.snap == read))
      && (WritesFromRefetch(w.task) ==>
            && c'.current.Some? && c'.current.value.uid == read.uid
            && c'.current.value.body == read.body.(status := c'.current.value.body.status)
            && c'.current.value.body.status.state == (if w.task.MoveTo? then w.task.to else read.body.status.state)
            && (!w.task.Publish? ==>
                  && c'.current.value.body.status.address == read.body.status.address
                  && c'.current.value.body.status.ports == read.body.status.ports))
  {
    AcceptedReadIsCurrent(s.cell, s.worker.value.snap);
  }
}
