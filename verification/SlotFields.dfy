/** Connection data and field ownership, for reads of any age. */
module SlotFields {
  import opened Lifecycle
  import opened VersionedStore
  import opened GameServers
  import opened GameServerSlot
  import opened SlotInvariant

  /** What holds however stale any read is, a worker's first read included. */
  ghost predicate WellStored(s: Slot) {
    && CellOk(s.cell)
    && (s.worker.Some? ==> s.worker.value.snap in s.cell.past)
    && (s.cell.current.Some? ==> Untorn(s.cell.current.value.body))
  }

  lemma StatusWriteKeepsWellStored(s: Slot, read: Server, st: Status)
    requires WellStored(s) && read in s.cell.past
    requires (st.address == read.body.status.address && st.ports == read.body.status.ports)
      || (st.ports == PortImage(read.body.spec.ports)) || (st.address == "" && st.ports == [])
    ensures WellStored(s.(cell := PutStatus(s.cell, WithStatus(read, st))))
  {
    StatusWrite(s.cell, read, st);
  }

  lemma StatusStepKeepsWellStored(s: Slot, i: Input, read: Server)
    requires WellStored(s) && s.worker.Some? && read in s.cell.past
    requires var t := s.worker.value.task; t.MoveTo? || t.Publish? || t.Mark? || t.Initialize?
    ensures WellStored(WorkerStep(s, s.worker.value, i, read))
  {
    var w, st := s.worker.value, read.body.status;
    match w.task {
      case Initialize => StatusWriteKeepsWellStored(s, w.snap, Entered(w.snap.body.status, Creating, i.now));
      case MoveTo(to) => StatusWriteKeepsWellStored(s, read, Entered(st, to, i.now));
      case Publish(ip) => StatusWriteKeepsWellStored(s, read, Published(st, ip, read.body.spec.ports, i.now));
      case Mark(t, b) =>
        StatusWriteKeepsWellStored(s, read, st.(conditions := SetCondition(st.conditions, t, b, i.now)));
    }
  }

  lemma StepKeepsWellStored(s: Slot, i: Input, read: Server)
    requires WellStored(s) && s.worker.Some? && read in s.cell.past
    ensures WellStored(WorkerStep(s, s.worker.value, i, read))
  {
    var w := s.worker.value;
    match w.task {
      case AddFinalizer => MetaWrite(s.cell, w.snap, w.snap.body.(finalizer := true));
      case DropFinalizer => MetaWrite(s.cell, w.snap, w.snap.body.(finalizer := false));
      case Initialize => StatusStepKeepsWellStored(s, i, read);
      case MoveTo(_) => StatusStepKeepsWellStored(s, i, read);
      case Publish(_) => StatusStepKeepsWellStored(s, i, read);
      case Mark(_, _) => StatusStepKeepsWellStored(s, i, read);
      case _ => assert WorkerStep(s, w, i, read).cell == s.cell;
    }
  }

  lemma ForeignEventKeepsWellStored(s: Slot, e: Event)
    requires WellStored(s) && (e.Connect? || e.Disconnect? || e.Lifecycle?) && e.read in s.cell.past
    ensures WellStored(Apply(s, e))
  {
    var st := e.read.body.status;
    match e {
      case Connect(read, hostname) => StatusWriteKeepsWellStored(s, read, Connected(st, hostname, read.body.spec.ports));
      case Disconnect(read) => StatusWriteKeepsWellStored(s, read, Disconnected(st));
      case Lifecycle(verb, read) =>
        var to := Requested(verb, st.state);
        if to.Some? {
          StatusWriteKeepsWellStored(s, read, st.(state := to.value));
        }
    }
  }

  lemma EditKeepsWellStored(s: Slot, e: Event)
    requires WellStored(s) && e.Edit? && e.read in s.cell.past
    ensures WellStored(Apply(s, e))
  {
    AcceptedReadIsCurrent(s.cell, e.read);
  }

  lemma ApplyKeepsWellStored(s: Slot, e: Event)
    requires WellStored(s)
    ensures WellStored(Apply(s, e))
  {
    match e {
      case Step(i, read) => if s.worker.Some? && read in s.cell.past { StepKeepsWellStored(s, i, read); }
      case Connect(read, _) => if read in s.cell.past { ForeignEventKeepsWellStored(s, e); }
      case Disconnect(read) => if read in s.cell.past { ForeignEventKeepsWellStored(s, e); }
      case Lifecycle(_, read) => if read in s.cell.past { ForeignEventKeepsWellStored(s, e); }
      case Edit(read, _, _) => if read in s.cell.past { EditKeepsWellStored(s, e); }
      case _ =>
    }
  }

  /** The DNS controller changes nothing but address and ports; the API's
      lifecycle requests nothing but the state; of the worker's writes only the
      one made for a Ready server touches address and ports. */
  ghost predicate OwnFieldsOnly(s: Slot, e: Event, was: GameServer, now: GameServer) {
    match e
    case Connect(_, _) => now == was.(status := was.status.(address := now.status.address, ports := now.status.ports))
    case Disconnect(_) => now == was.(status := was.status.(address := now.status.address, ports := now.status.ports))
    case Lifecycle(_, _) => now == was.(status := was.status.(state := now.status.state))
    case Edit(_, _, _) => now.status == was.status
    case Step(_, _) =>
      s.worker.Some? && !s.worker.value.task.Publish? ==>
        now.status.address == was.status.address && now.status.ports == was.status.ports
    case _ => true
  }

  lemma StepKeepsToItsFields(s: Slot, i: Input, read: Server)
    requires WellStored(s) && s.worker.Some? && !s.worker.value.task.Publish? && read in s.cell.past
    requires s.cell.current.Some? && WorkerStep(s, s.worker.value, i, read).cell.current.Some?
    ensures var was, now := s.cell.current.value.body.status, WorkerStep(s, s.worker.value, i, read).cell.current.value.body.status;
      now.address == was.address && now.ports == was.ports
  {
    AcceptedReadIsCurrent(s.cell, read);
    AcceptedReadIsCurrent(s.cell, s.worker.value.snap);
  }

  lemma WritersKeepToTheirFields(s: Slot, e: Event)
    requires WellStored(s) && s.cell.current.Some? && Apply(s, e).cell.current.Some?
    ensures OwnFieldsOnly(s, e, s.cell.current.value.body, Apply(s, e).cell.current.value.body)
  {
    match e {
      case Connect(read, _) => if read in s.cell.past { AcceptedReadIsCurrent(s.cell, read); }
      case Disconnect(read) => if read in s.cell.past { AcceptedReadIsCurrent(s.cell, read); }
      case Lifecycle(_, read) => if read in s.cell.past { AcceptedReadIsCurrent(s.cell, read); }
      case Step(i, read) =>
        if s.worker.Some? && !s.worker.value.task.Publish? && read in s.cell.past {
          StepKeepsToItsFields(s, i, read);
        }
      case _ =>
    }
  }
}
