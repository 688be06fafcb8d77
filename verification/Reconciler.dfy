/** The reconcile loop as the controller runs it, from its first read to its
    last write, and the proof that the worker of the interleaved machine, left
    alone, does exactly this. */
module Reconciler {
  import opened Lifecycle
  import opened VersionedStore
  import opened GameServers
  import opened GameServerSlot
  import opened ReconcileOutcome

  function Rank(task: Task): nat {
    match task
    case CountAll => 5
    case CountOwn => 4
    case SetUpNamespace => 3
    case EnsurePod => 2
    case Observe => 2
    case StopPod => 2
    case DropPod => 2
    case _ => 1
  }

  /** The machine's worker steps until it is done, nobody else moving. */
  function Drain(s: Slot, i: Input): (r: Slot)
    decreases if s.worker.Some? then Rank(s.worker.value.task) else 0
  {
    if s.worker.None? then s
    else if s.cell.current.None? then Done(s)
    else Drain(WorkerStep(s, s.worker.value, i, s.cell.current.value), i)
  }

  function Pass(s: Slot, i: Input): Slot {
    Drain(Apply(s, Begin), i)
  }

  class GameServerReconciler {
    var cell: Cell<GameServer>
    var pod: Option<Pod>

    /** The key with a worker at `task` holding the snapshot `gs`. */
    ghost function At(gs: Server, task: Task): Slot
      reads this
    {
      Slot(cell, pod, Some(Worker(gs, task, false)))
    }

    ghost function View(): Slot
      reads this
    {
      Slot(cell, pod, None)
    }

    method UpdateStatus(sent: Server)
      modifies this`cell
      ensures cell == PutStatus(old(cell), sent)
    {
      if cell.current.Some? && cell.current.value.version == sent.version {
        cell := Replace(cell, cell.current.value.body.(status := sent.body.status));
      }
    }

    method Update(sent: Server)
      modifies this`cell
      ensures cell == PutMeta(old(cell), sent)
    {
      if cell.current.Some? && cell.current.value.version == sent.version {
        var stored := cell.current.value.body;
        var body := sent.body.(status := stored.status, deleting := stored.deleting);
        if body.deleting && !body.finalizer {
          cell := Remove(cell);
        } else {
          cell := Replace(cell, body);
        }
      }
    }

    method DeletePod()
      modifies this`pod
      ensures pod == Doom(old(pod))
    {
      if pod.Some? {
        pod := Some(pod.value.(live := false));
      }
    }

    method TransitionState(gs: Server, to: State, i: Input)
      modifies this
      ensures View() == Drain(old(At(gs, MoveTo(to))), i)
    {
      if !IsValidTransition(gs.body.status.state, to) || cell.current.None? {
        return;
      }
      var latest := cell.current.value;
      var st := latest.body.status.(state := to);
      var cs := st.conditions;
      match to {
        case Creating =>
          cs := SetCondition(cs, Progressing, true, i.now);
          cs := SetCondition(cs, ReadyCondition, false, i.now);
        case Starting =>
          cs := SetCondition(cs, Progressing, true, i.now);
          cs := SetCondition(cs, ReadyCondition, false, i.now);
        case Ready =>
          cs := SetCondition(cs, ReadyCondition, true, i.now);
          cs := SetCondition(cs, Progressing, false, i.now);
        case Allocated =>
          cs := SetCondition(cs, ReadyCondition, true, i.now);
        case Shutdown =>
          cs := SetCondition(cs, ReadyCondition, false, i.now);
          cs := SetCondition(cs, Progressing, false, i.now);
        case Error =>
          cs := SetCondition(cs, Degraded, true, i.now);
          cs := SetCondition(cs, ReadyCondition, false, i.now);
          cs := SetCondition(cs, Progressing, false, i.now);
        case Unset =>
      }
      st := st.(conditions := cs);
      assert st == Entered(latest.body.status, to, i.now);
      UpdateStatus(WithStatus(latest, st));
    }

    method RefreshAndUpdateCondition(gs: Server, t: ConditionType, status: bool, i: Input)
      modifies this
      ensures View() == Drain(old(At(gs, Mark(t, status))), i)
    {
      if cell.current.None? {
        return;
      }
      var latest := cell.current.value;
      var st := latest.body.status;
      st := st.(conditions := SetCondition(st.conditions, t, status, i.now));
      UpdateStatus(WithStatus(latest, st));
    }

    method UpdateReadyStatus(gs: Server, ip: string, i: Input)
      modifies this
      ensures View() == Drain(old(At(gs, Publish(ip))), i)
    {
      if cell.current.None? {
        return;
      }
      var latest := cell.current.value;
      var st := latest.body.status.(address := ip);
      var statusPorts := MapPorts(latest.body.spec.ports);
      st := st.(ports := statusPorts);
      var cs := SetCondition(st.conditions, ReadyCondition, true, i.now);
      cs := SetCondition(cs, Progressing, false, i.now);
      UpdateStatus(WithStatus(latest, st.(conditions := cs)));
    }

    method InitializeState(gs: Server, i: Input)
      requires cell.current.Some?
      modifies this
      ensures View() == Drain(old(At(gs, Initialize)), i)
    {
      var st := gs.body.status.(state := Creating);
      var cs := SetCondition(st.conditions, Progressing, true, i.now);
      cs := SetCondition(cs, ReadyCondition, false, i.now);
      UpdateStatus(WithStatus(gs, st.(conditions := cs)));
    }

    method ReconcilePod(gs: Server) returns (ok: bool)
      modifies this`pod
      ensures ok <==> old(pod).None? || old(pod).value.owner == gs.uid
      ensures pod == if old(pod).None? then Some(NewPod(gs.uid)) else old(pod)
    {
      if pod.None? {
        pod := Some(NewPod(gs.uid));
      }
      ok := pod.value.owner == gs.uid;
    }

    method ReconcileCreating(gs: Server, i: Input)
      requires cell.current.Some?
      modifies this
      ensures View() == Drain(old(At(gs, if gs.body.spec.owner == "" then MoveTo(Error) else CountAll)), i)
    {
      if gs.body.spec.owner == "" {
        TransitionState(gs, Error, i);
        return;
      }
      DrainStep(At(gs, CountAll), i);
      if i.total > i.maxGlobal {
        TransitionState(gs, Error, i);
        return;
      }
      DrainStep(At(gs, CountOwn), i);
      if i.own > i.maxPerUser {
        TransitionState(gs, Error, i);
        return;
      }
      DrainStep(At(gs, SetUpNamespace), i);
      if !i.namespaceOk {
        TransitionState(gs, Error, i);
        return;
      }
      DrainStep(At(gs, EnsurePod), i);
      var ok := ReconcilePod(gs);
      if ok {
        TransitionState(gs, Starting, i);
      }
    }

    method ReconcileStarting(gs: Server, i: Input)
      requires cell.current.Some? && gs.body.status.state == Starting
      modifies this
      ensures View() == Drain(old(At(gs, Observe)), i)
    {
      DrainStep(At(gs, Observe), i);
      if pod.None? {
        TransitionState(gs, Creating, i);
        return;
      }
      var up := IsPodReady(pod.value.containers);
      if pod.value.phase == PodRunning && up {
        TransitionState(gs, Ready, i);
        return;
      }
      if pod.value.phase == PodFailed {
        TransitionState(gs, Error, i);
        return;
      }
      var cs := gs.body.status.conditions;
      if Progressing in cs && cs[Progressing].status && i.now - cs[Progressing].since > STARTING_TIMEOUT {
        TransitionState(gs, Error, i);
      }
    }

    method ReconcileReady(gs: Server, i: Input)
      requires cell.current.Some? && gs.body.status.state == Ready
      modifies this
      ensures View() == Drain(old(At(gs, Observe)), i)
    {
      DrainStep(At(gs, Observe), i);
      if pod.None? {
        TransitionState(gs, Error, i);
        return;
      }
      var up := IsPodReady(pod.value.containers);
      if pod.value.phase != PodRunning || !up {
        TransitionState(gs, Error, i);
        return;
      }
      if Lookup(gs.body.annotations, ALLOCATED_ANNOTATION) == "true" {
        TransitionState(gs, Allocated, i);
        return;
      }
      UpdateReadyStatus(gs, pod.value.ip, i);
    }

    method ReconcileAllocated(gs: Server, i: Input)
      requires cell.current.Some? && gs.body.status.state == Allocated
      modifies this
      ensures View() == Drain(old(At(gs, Observe)), i)
    {
      DrainStep(At(gs, Observe), i);
      if pod.None? {
        TransitionState(gs, Error, i);
        return;
      }
      var up := IsPodReady(pod.value.containers);
      if pod.value.phase != PodRunning || !up {
        TransitionState(gs, Error, i);
        return;
      }
      if Lookup(gs.body.annotations, ALLOCATED_ANNOTATION) != "true" {
        TransitionState(gs, Ready, i);
      }
    }

    method ReconcileShutdown(gs: Server, i: Input)
      requires cell.current.Some?
      modifies this
      ensures View() == Drain(old(At(gs, StopPod)), i)
    {
      DrainStep(At(gs, StopPod), i);
      DeletePod();
      RefreshAndUpdateCondition(gs, ReadyCondition, false, i);
    }

    method HandleDeletion(gs: Server, i: Input)
      requires cell.current.Some? && gs.body.finalizer
      modifies this
      ensures View() == Drain(old(At(gs, DropPod)), i)
    {
      DrainStep(At(gs, DropPod), i);
      DeletePod();
      DrainStep(At(gs, DropFinalizer), i);
      Update(gs.(body := gs.body.(finalizer := false)));
    }

    /** One undisturbed reconcile is one pass of the machine's worker. */
    method Reconcile(i: Input)
      modifies this
      ensures View() == Pass(old(View()), i)
      ensures IsOutcome(old(View()), i, View())
    {
      PassOutcome(View(), i);
      if cell.current.None? {
        return;
      }
      var gs := cell.current.value;
      if gs.body.deleting {
        if gs.body.finalizer {
          HandleDeletion(gs, i);
        }
        return;
      }
      if !gs.body.finalizer {
        DrainStep(At(gs, AddFinalizer), i);
        Update(gs.(body := gs.body.(finalizer := true)));
        return;
      }
      match gs.body.status.state {
        case Unset => InitializeState(gs, i);
        case Creating => ReconcileCreating(gs, i);
        case Starting => ReconcileStarting(gs, i);
        case Ready => ReconcileReady(gs, i);
        case Allocated => ReconcileAllocated(gs, i);
        case Shutdown => ReconcileShutdown(gs, i);
        case Error => RefreshAndUpdateCondition(gs, Degraded, true, i);
      }
    }
  }

  lemma DrainStep(s: Slot, i: Input)
    requires s.worker.Some? && s.cell.current.Some?
    ensures Drain(s, i) == Drain(WorkerStep(s, s.worker.value, i, s.cell.current.value), i)
  {}

  // ---------------------------------------------------------------- outcomes

  /** A live server with its finalizer, and no worker at its key. */
  predicate IsAtRest(s: Slot, state: State) {
    && s.worker.None? && s.cell.current.Some?
    && var g := s.cell.current.value.body;
       !g.deleting && g.finalizer && g.status.state == state
  }

  /** The key after a status write to an object at rest. */
  predicate IsWritten(s: Slot, st: Status, pod: Option<Pod>, s': Slot)
    requires s.cell.current.Some?
  {
    && s'.worker.None? && s'.pod == pod && s'.cell.current.Some?
    && s'.cell.current.value.uid == s.cell.current.value.uid
    && s'.cell.current.value.body == s.cell.current.value.body.(status := st)
  }

  /** The worker at `task` with the current object for its snapshot. */
  function Holding(s: Slot, task: Task): Slot
    requires s.cell.current.Some?
  {
    s.(worker := Some(Worker(s.cell.current.value, task, false)))
  }

  lemma MoveIsWritten(s: Slot, to: State, i: Input)
    requires s.cell.current.Some? && IsValidTransition(s.cell.current.value.body.status.state, to)
    ensures IsWritten(s, Entered(s.cell.current.value.body.status, to, i.now), s.pod, Drain(Holding(s, MoveTo(to)), i))
  {
    DrainStep(Holding(s, MoveTo(to)), i);
  }

  lemma EnteredFollows(g: GameServer, pod: Option<Pod>, to: State, i: Input)
    requires IsValidTransition(g.status.state, to) && to != Shutdown
    ensures StatusFollows(g, pod, i, Entered(g.status, to, i.now))
  {
    EnteredKeepsClocks(g.status, to, i.now);
  }

  lemma EnteredKeepsClocks(st: Status, to: State, now: Time)
    ensures ClocksKept(st.conditions, Entered(st, to, now).conditions, now)
  {}

  lemma MoveOutcome(s: Slot, s1: Slot, to: State, i: Input)
    requires s.cell.current.Some? && IsAtRest(s, s.cell.current.value.body.status.state) && s1 == s.(pod := s1.pod)
    requires var v := s.cell.current.value;
      && to != Shutdown && IsValidTransition(v.body.status.state, to)
      && LeadsTo(v.uid, v.body, s.pod, i, to) && PodFollows(v.uid, v.body, s.pod, i, s1.pod)
    ensures IsOutcome(s, i, Drain(Holding(s1, MoveTo(to)), i))
  {
    MoveIsWritten(s1, to, i);
    EnteredFollows(s.cell.current.value.body, s.pod, to, i);
  }

  lemma UnchangedFollows(g: GameServer, pod: Option<Pod>, i: Input)
    requires g.status.state in {Creating, Starting, Allocated}
    ensures StatusFollows(g, pod, i, g.status)
  {}

  // ------------------------------------------------------------- Creating

  /** What the checks of a Creating server come to. */
  lemma CreatingDrains(s: Slot, i: Input)
    requires IsAtRest(s, Creating)
    ensures var v := s.cell.current.value;
      Pass(s, i) ==
        if !IsAdmitted(v.body, i) then Drain(Holding(s, MoveTo(Error)), i)
        else if s.pod.None? then Drain(Holding(s.(pod := Some(NewPod(v.uid))), MoveTo(Starting)), i)
        else if s.pod.value.owner != v.uid then s
        else Drain(Holding(s, MoveTo(Starting)), i)
  {
    if s.cell.current.value.body.spec.owner != "" {
      DrainStep(Holding(s, CountAll), i);
      DrainStep(Holding(s, CountOwn), i);
      DrainStep(Holding(s, SetUpNamespace), i);
      DrainStep(Holding(s, EnsurePod), i);
    }
  }

  lemma CreatingOutcome(s: Slot, i: Input)
    requires IsAtRest(s, Creating)
    ensures IsOutcome(s, i, Pass(s, i))
  {
    var v := s.cell.current.value;
    CreatingDrains(s, i);
    if !IsAdmitted(v.body, i) {
      MoveOutcome(s, s, Error, i);
    } else if s.pod.None? {
      MoveOutcome(s, s.(pod := Some(NewPod(v.uid))), Starting, i);
    } else if s.pod.value.owner == v.uid {
      MoveOutcome(s, s, Starting, i);
    } else {
      UnchangedFollows(v.body, s.pod, i);
    }
  }

  // -------------------------------------------- Starting, Ready, Allocated

  lemma ReadinessIsRunning(pod: Option<Pod>)
    ensures pod.Some? && IsPodUp(pod.value) <==> Runs(pod)
  {}

  lemma ObservedDrains(s: Slot, i: Input)
    requires s.cell.current.Some? && IsAtRest(s, s.cell.current.value.body.status.state)
    requires IsRunning(s.cell.current.value.body.status.state)
    ensures var task := Observed(s.cell.current.value.body, s.pod, i.now);
      Pass(s, i) == if task.None? then s else Drain(Holding(s, task.value), i)
  {
    DrainStep(Holding(s, Observe), i);
  }

  lemma StartingOutcome(s: Slot, i: Input)
    requires IsAtRest(s, Starting)
    ensures IsOutcome(s, i, Pass(s, i))
  {
    var g := s.cell.current.value.body;
    var task := Observed(g, s.pod, i.now);
    ObservedDrains(s, i);
    ReadinessIsRunning(s.pod);
    if task.Some? {
      MoveOutcome(s, s, task.value.to, i);
    } else {
      UnchangedFollows(g, s.pod, i);
    }
  }

  lemma PublishOutcome(s: Slot, i: Input)
    requires IsAtRest(s, Ready) && Runs(s.pod) && !Wanted(s.cell.current.value.body)
    ensures IsOutcome(s, i, Drain(Holding(s, Publish(s.pod.value.ip)), i))
  {
    var g := s.cell.current.value.body;
    DrainStep(Holding(s, Publish(s.pod.value.ip)), i);
    assert IsWritten(s, Published(g.status, s.pod.value.ip, g.spec.ports, i.now), s.pod,
                     Drain(Holding(s, Publish(s.pod.value.ip)), i));
    PublishedFollows(g, s.pod, i);
  }

  lemma PublishedFollows(g: GameServer, pod: Option<Pod>, i: Input)
    requires g.status.state == Ready && pod.Some?
    ensures StatusFollows(g, pod, i, Published(g.status, pod.value.ip, g.spec.ports, i.now))
  {}

  lemma ReadyOutcome(s: Slot, i: Input)
    requires IsAtRest(s, Ready)
    ensures IsOutcome(s, i, Pass(s, i))
  {
    var g := s.cell.current.value.body;
    var task := Observed(g, s.pod, i.now);
    ObservedDrains(s, i);
    ReadinessIsRunning(s.pod);
    if task.value.MoveTo? {
      MoveOutcome(s, s, task.value.to, i);
    } else {
      PublishOutcome(s, i);
    }
  }

  lemma AllocatedOutcome(s: Slot, i: Input)
    requires IsAtRest(s, Allocated)
    ensures IsOutcome(s, i, Pass(s, i))
  {
    var g := s.cell.current.value.body;
    var task := Observed(g, s.pod, i.now);
    ObservedDrains(s, i);
    ReadinessIsRunning(s.pod);
    if task.Some? {
      MoveOutcome(s, s, task.value.to, i);
    } else {
      UnchangedFollows(g, s.pod, i);
    }
  }

  // ------------------------------------------------- Shutdown, Error and the rest

  lemma MarkIsWritten(s: Slot, t: ConditionType, status: bool, i: Input)
    requires s.cell.current.Some?
    ensures var st := s.cell.current.value.body.status;
      IsWritten(s, st.(conditions := SetCondition(st.conditions, t, status, i.now)), s.pod, Drain(Holding(s, Mark(t, status)), i))
  {
    DrainStep(Holding(s, Mark(t, status)), i);
  }

  lemma ShutdownOutcome(s: Slot, i: Input)
    requires IsAtRest(s, Shutdown)
    ensures IsOutcome(s, i, Pass(s, i))
  {
    DrainStep(Holding(s, StopPod), i);
    MarkIsWritten(s.(pod := Doom(s.pod)), ReadyCondition, false, i);
  }

  lemma ErrorOutcome(s: Slot, i: Input)
    requires IsAtRest(s, Error)
    ensures IsOutcome(s, i, Pass(s, i))
  {
    MarkIsWritten(s, Degraded, true, i);
  }

  lemma InitialOutcome(s: Slot, i: Input)
    requires IsAtRest(s, Unset)
    ensures IsOutcome(s, i, Pass(s, i))
  {
    DrainStep(Holding(s, Initialize), i);
  }

  lemma DeletionOutcome(s: Slot, i: Input)
    requires s.worker.None? && s.cell.current.Some? && s.cell.current.value.body.deleting
    ensures IsOutcome(s, i, Pass(s, i))
  {
    if s.cell.current.value.body.finalizer {
      DrainStep(Holding(s, DropPod), i);
      DrainStep(Holding(s.(pod := Doom(s.pod)), DropFinalizer), i);
    }
  }

  /** One undisturbed reconcile leads where its surroundings say, from any object
      and Pod. */
  lemma PassOutcome(s: Slot, i: Input)
    requires s.worker.None?
    ensures IsOutcome(s, i, Pass(s, i))
  {
    if s.cell.current.Some? {
      var g := s.cell.current.value.body;
      if g.deleting {
        DeletionOutcome(s, i);
      } else if !g.finalizer {
        DrainStep(Holding(s, AddFinalizer), i);
      } else {
        match g.status.state {
          case Unset => InitialOutcome(s, i);
          case Creating => CreatingOutcome(s, i);
          case Starting => StartingOutcome(s, i);
          case Ready => ReadyOutcome(s, i);
          case Allocated => AllocatedOutcome(s, i);
          case Shutdown => ShutdownOutcome(s, i);
          case Error => ErrorOutcome(s, i);
        }
      }
    }
  }
}
