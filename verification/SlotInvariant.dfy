/** What every event keeps true under one key, when reconciles start from
    current reads: identity and finalizer of the object a worker holds, honest
    conditions, and no live Pod without its server. */
module SlotInvariant {
  import opened Lifecycle
  import opened VersionedStore
  import opened GameServers
  import opened GameServerSlot

  /** A worker's task is one its snapshot calls for. */
  predicate TaskFits(g: GameServer, task: Task) {
    var st := g.status.state;
    match task
    case AddFinalizer => !g.finalizer && !g.deleting
    case DropPod => g.finalizer && g.deleting
    case DropFinalizer => g.finalizer && g.deleting
    case Initialize => g.finalizer && st == Unset
    case CountAll => g.finalizer && st == Creating
    case CountOwn => g.finalizer && st == Creating
    case SetUpNamespace => g.finalizer && st == Creating
    case EnsurePod => g.finalizer && st == Creating
    case Observe => g.finalizer && IsRunning(st)
    case MoveTo(to) => g.finalizer && IsValidTransition(st, to) && to != Shutdown
    case Publish(_) => g.finalizer && st == Ready
    case StopPod => g.finalizer && st == Shutdown
    case Mark(t, b) => g.finalizer && ((st == Shutdown && t == ReadyCondition && !b) || (st == Error && t == Degraded && b))
  }

  /** While a worker holds the key, the object it read is still there, still
      carries its finalizer, and its state is the one read unless the API wrote
      Creating or Shutdown since; the conditions still agree with what was read. */
  ghost predicate WorkerOk(s: Slot) {
    s.worker.Some? ==>
      var w := s.worker.value;
      && w.snap in s.cell.past
      && TaskFits(w.snap.body, w.task)
      && (w.task != AddFinalizer ==>
            && s.cell.current.Some?
            && var now, was := s.cell.current.value, w.snap;
               && now.uid == was.uid
               && now.body.finalizer
               && now.body.spec.owner == was.body.spec.owner
               && (was.body.deleting ==> now.body.deleting)
               && (now.body.status.state == was.body.status.state
                   || (w.touched && now.body.status.state in {Creating, Shutdown}))
               && Agrees(was.body.status.state, now.body.status.conditions))
  }

  /** No live Pod outlives its server's finalizer. */
  ghost predicate PodOk(s: Slot) {
    && (s.pod.Some? && s.pod.value.live ==>
          && s.cell.current.Some?
          && s.cell.current.value.body.finalizer
          && s.cell.current.value.uid == s.pod.value.owner)
    && (s.worker.Some? && s.worker.value.task == DropFinalizer ==> s.pod.None? || !s.pod.value.live)
  }

  ghost predicate ObjectOk(s: Slot) {
    s.cell.current.Some? ==>
      var g := s.cell.current.value.body;
      && IsKept(g)
      && Agrees(g.status.state, g.status.conditions)
      && Untorn(g)
  }

  ghost predicate SlotOk(s: Slot) {
    CellOk(s.cell) && ObjectOk(s) && WorkerOk(s) && PodOk(s)
  }

  /** A status write either bounces or replaces the status of the current object. */
  lemma StatusWrite(c: Cell<GameServer>, read: Server, st: Status)
    requires CellOk(c) && read in c.past
    ensures var c' := PutStatus(c, WithStatus(read, st));
      if c.current == Some(read)
      then CellOk(c') && c.past <= c'.past && c'.current == Some(Stored(read.uid, c.next, read.body.(status := st)))
      else c' == c
  {
    AcceptedReadIsCurrent(c, read);
  }

  /** The conditions written on a valid edge agree with the state written, when
      the conditions found there agreed with the state left. */
  lemma EnteredAgrees(st: Status, from: State, to: State, now: Time)
    requires IsValidTransition(from, to) && Agrees(from, st.conditions)
    ensures Agrees(to, Entered(st, to, now).conditions)
  {}

  /** The worker's last act: a status write from a re-fetched object. */
  lemma OwnWriteKeepsOk(s: Slot, read: Server, st: Status)
    requires SlotOk(s) && read in s.cell.past
    requires s.cell.current == Some(read) ==> Agrees(st.state, st.conditions) && Untorn(read.body.(status := st))
    ensures SlotOk(Done(s.(cell := PutStatus(s.cell, WithStatus(read, st)))))
  {
    StatusWrite(s.cell, read, st);
  }

  lemma StatusTaskKeepsOk(s: Slot, i: Input, read: Server)
    requires SlotOk(s) && s.worker.Some? && read in s.cell.past
    requires var t := s.worker.value.task; t.MoveTo? || t.Publish? || t.Mark? || t.Initialize?
    ensures SlotOk(WorkerStep(s, s.worker.value, i, read))
  {
    var w := s.worker.value;
    var st := read.body.status;
    match w.task {
      case MoveTo(to) =>
        if s.cell.current == Some(read) {
          EnteredAgrees(st, w.snap.body.status.state, to, i.now);
        }
        OwnWriteKeepsOk(s, read, Entered(st, to, i.now));
      case Publish(ip) =>
        OwnWriteKeepsOk(s, read, Published(st, ip, read.body.spec.ports, i.now));
      case Mark(t, b) =>
        OwnWriteKeepsOk(s, read, st.(conditions := SetCondition(st.conditions, t, b, i.now)));
      case Initialize =>
        OwnWriteKeepsOk(s, w.snap, Entered(w.snap.body.status, Creating, i.now));
    }
  }

  /** An accepted Update from a read acts on the current object. */
  lemma MetaWrite(c: Cell<GameServer>, read: Server, body: GameServer)
    requires CellOk(c) && read in c.past && body.deleting == read.body.deleting && body.status == read.body.status
    ensures var c' := PutMeta(c, read.(body := body));
      if c.current != Some(read) then c' == c
      else if body.deleting && !body.finalizer then c' == Remove(c)
      else CellOk(c') && c.past <= c'.past && c'.current == Some(Stored(read.uid, c.next, body))
  {
    AcceptedReadIsCurrent(c, read);
  }

  lemma FinalizerTaskKeepsOk(s: Slot, i: Input, read: Server)
    requires SlotOk(s) && s.worker.Some?
    requires var t := s.worker.value.task; t.AddFinalizer? || t.DropFinalizer?
    ensures SlotOk(WorkerStep(s, s.worker.value, i, read))
  {
    var snap := s.worker.value.snap;
    if s.worker.value.task.AddFinalizer? {
      MetaWrite(s.cell, snap, snap.body.(finalizer := true));
    } else {
      MetaWrite(s.cell, snap, snap.body.(finalizer := false));
    }
  }

  /** Moving on to a fitting task without writing the object. */
  lemma ThenKeepsOk(s: Slot, pod: Option<Pod>, task: Task)
    requires SlotOk(s) && s.worker.Some?
    requires var w := s.worker.value; w.task != AddFinalizer && TaskFits(w.snap.body, task) && task != AddFinalizer
    requires pod == s.pod || pod == Doom(s.pod) || pod == Some(NewPod(s.worker.value.snap.uid))
    requires task == DropFinalizer ==> pod == Doom(s.pod)
    ensures SlotOk(Then(s.(pod := pod), s.worker.value, task))
  {}

  lemma LocalTaskKeepsOk(s: Slot, i: Input, read: Server)
    requires SlotOk(s) && s.worker.Some?
    requires var t := s.worker.value.task;
      !(t.MoveTo? || t.Publish? || t.Mark? || t.Initialize? || t.AddFinalizer? || t.DropFinalizer?)
    ensures SlotOk(WorkerStep(s, s.worker.value, i, read))
  {
    var w := s.worker.value;
    var s' := WorkerStep(s, w, i, read);
    if s'.worker.Some? {
      assert s' == Then(s.(pod := s'.pod), w, s'.worker.value.task);
      ThenKeepsOk(s, s'.pod, s'.worker.value.task);
    }
  }

  lemma WorkerStepKeepsOk(s: Slot, i: Input, read: Server)
    requires SlotOk(s) && s.worker.Some? && read in s.cell.past
    ensures SlotOk(WorkerStep(s, s.worker.value, i, read))
  {
    match s.worker.value.task {
      case MoveTo(_) => StatusTaskKeepsOk(s, i, read);
      case Publish(_) => StatusTaskKeepsOk(s, i, read);
      case Mark(_, _) => StatusTaskKeepsOk(s, i, read);
      case Initialize => StatusTaskKeepsOk(s, i, read);
      case AddFinalizer => FinalizerTaskKeepsOk(s, i, read);
      case DropFinalizer => FinalizerTaskKeepsOk(s, i, read);
      case _ => LocalTaskKeepsOk(s, i, read);
    }
  }

  /** A write by anyone but the worker: the object keeps its identity, its
      finalizer, its owner and its deletion mark, and its state changes only by
      a lifecycle request, which leaves a trace. */
  lemma ForeignWriteKeepsOk(s: Slot, body: GameServer, touched: bool)
    requires SlotOk(s) && s.cell.current.Some?
    requires var g := s.cell.current.value.body;
      && body.finalizer == g.finalizer
      && body.spec.owner == g.spec.owner
      && (g.deleting ==> body.deleting) && (body.deleting ==> body.finalizer)
      && body.status.conditions == g.status.conditions
      && (body.status.state == g.status.state || (touched && body.status.state in {Creating, Shutdown}))
      && Untorn(body)
    ensures var s' := s.(cell := Replace(s.cell, body),
        worker := if s.worker.Some? then Some(s.worker.value.(touched := s.worker.value.touched || touched)) else None);
      SlotOk(s')
  {}

  lemma ForeignEventKeepsOk(s: Slot, e: Event)
    requires SlotOk(s)
    requires e.Lifecycle? || e.Edit? || e.Connect? || e.Disconnect?
    ensures SlotOk(Apply(s, e))
  {
    var s' := Apply(s, e);
    if s' != s {
      AcceptedReadIsCurrent(s.cell, e.read);
      ForeignWriteKeepsOk(s, s'.cell.current.value.body, e.Lifecycle?);
    }
  }

  lemma DeleteKeepsOk(s: Slot)
    requires SlotOk(s)
    ensures SlotOk(Apply(s, DeleteServer))
  {
    var s' := Apply(s, DeleteServer);
    if s' != s && s'.cell.current.Some? {
      ForeignWriteKeepsOk(s, s'.cell.current.value.body, false);
    }
  }

  lemma ApplyKeepsOk(s: Slot, e: Event)
    requires SlotOk(s) && !e.BeginStale?
    ensures SlotOk(Apply(s, e))
  {
    match e {
      case Step(input, read) =>
        if s.worker.Some? && read in s.cell.past {
          WorkerStepKeepsOk(s, input, read);
        }
      case Lifecycle(_, _) => ForeignEventKeepsOk(s, e);
      case Edit(_, _, _) => ForeignEventKeepsOk(s, e);
      case Connect(_, _) => ForeignEventKeepsOk(s, e);
      case Disconnect(_) => ForeignEventKeepsOk(s, e);
      case DeleteServer => DeleteKeepsOk(s);
      case _ =>
    }
  }
}
