/** When an accepted stop holds: exactly when no worker was on its way to writing
    a state of its own. */
module StopHolds {
  import opened Lifecycle
  import opened VersionedStore
  import opened GameServers
  import opened GameServerSlot
  import opened SlotInvariant
  import opened Cluster

  /** Tasks that end, or may end, in a move. */
  predicate IsMoving(task: Task) {
    task in {CountAll, CountOwn, SetUpNamespace, EnsurePod, Observe} || task.MoveTo?
  }

  predicate WillMove(s: Slot) {
    s.worker.Some? && IsMoving(s.worker.value.task)
  }

  /** Anything but a start or restart of this server or a reconcile from a stale
      read; other servers may do what they like. */
  predicate IsCalm(a: Action, k: Key) {
    a.key == k ==> !a.event.BeginStale? && (a.event.Lifecycle? ==> a.event.verb == Stop)
  }

  /** The object of this uid is stopped, if it is still there. */
  predicate IsStopped(s: Slot, uid: nat) {
    s.cell.current.Some? && s.cell.current.value.uid == uid ==> s.cell.current.value.body.status.state == Shutdown
  }

  // ---------------------------------------------------------- stops that hold

  /** Stopped, and nobody about to change that; no later object gets this uid. */
  ghost predicate IsSettled(s: Slot, uid: nat) {
    && SlotOk(s) && uid < s.cell.next && IsStopped(s, uid)
    && (s.cell.current.Some? && s.cell.current.value.uid == uid ==> !WillMove(s))
  }

  lemma StepKeepsSettled(s: Slot, i: Input, read: Server, uid: nat)
    requires IsSettled(s, uid) && s.worker.Some? && read in s.cell.past
    ensures var s' := WorkerStep(s, s.worker.value, i, read); SlotOk(s') ==> IsSettled(s', uid)
  {
    AcceptedReadIsCurrent(s.cell, read);
    AcceptedReadIsCurrent(s.cell, s.worker.value.snap);
  }

  lemma WriteKeepsSettled(s: Slot, e: Event, uid: nat)
    requires IsSettled(s, uid) && (e.Connect? || e.Disconnect? || e.Edit? || (e.Lifecycle? && e.verb == Stop))
    requires e.read in s.cell.past
    ensures SlotOk(Apply(s, e)) ==> IsSettled(Apply(s, e), uid)
  {
    AcceptedReadIsCurrent(s.cell, e.read);
  }

  lemma EventKeepsSettled(s: Slot, e: Event, uid: nat)
    requires IsSettled(s, uid) && !e.BeginStale? && (e.Lifecycle? ==> e.verb == Stop)
    ensures IsSettled(Apply(s, e), uid)
  {
    ApplyKeepsOk(s, e);
    match e {
      case Lifecycle(_, read) => if read in s.cell.past { WriteKeepsSettled(s, e, uid); }
      case Edit(read, _, _) => if read in s.cell.past { WriteKeepsSettled(s, e, uid); }
      case Connect(read, _) => if read in s.cell.past { WriteKeepsSettled(s, e, uid); }
      case Disconnect(read) => if read in s.cell.past { WriteKeepsSettled(s, e, uid); }
      case Step(i, read) => if s.worker.Some? && read in s.cell.past { StepKeepsSettled(s, i, read, uid); }
      case _ =>
    }
  }

  lemma {:induction false} CalmRunKeepsSettled(c: Cluster, k: Key, uid: nat, actions: seq<Action>)
    requires IsSettled(SlotAt(c, k), uid) && forall a <- actions :: IsCalm(a, k)
    ensures IsSettled(SlotAt(Run(c, actions), k), uid)
  {
    if actions != [] {
      var before, last := actions[..|actions| - 1], actions[|actions| - 1];
      CalmRunKeepsSettled(c, k, uid, before);
      var c' := Run(c, before);
      assert IsCalm(last, k);
      if last.key == k {
        EventKeepsSettled(SlotAt(c', k), Informed(c', k, last.event), uid);
      }
    }
  }

  // ------------------------------------------------------ stops that are lost

  lemma {:induction false} RunFirst(c: Cluster, a: Action, actions: seq<Action>)
    ensures Run(c, [a] + actions) == Run(Do(c, a), actions)
  {
    var all := [a] + actions;
    if actions == [] {
      assert all[..0] == [];
    } else {
      RunFirst(c, a, actions[..|actions| - 1]);
      assert all[..|all| - 1] == [a] + actions[..|actions| - 1];
    }
  }

  /** A calm run with current reads after which the object is there and runs on. */
  ghost predicate LosesStop(c: Cluster, k: Key, uid: nat, actions: seq<Action>) {
    (forall a <- actions :: IsCalm(a, k) && ReadsCurrent(a)) && !IsStopped(SlotAt(Run(c, actions), k), uid)
  }

  lemma LosesStopLater(c: Cluster, k: Key, uid: nat, a: Action, actions: seq<Action>)
    requires IsCalm(a, k) && ReadsCurrent(a) && LosesStop(Do(c, a), k, uid, actions)
    ensures LosesStop(c, k, uid, [a] + actions)
  {
    RunFirst(c, a, actions);
  }

  /** The server is stopped and its worker is on its way to a move, with no Pod to
      hold it up. */
  predicate IsDoomed(s: Slot, uid: nat) {
    && WillMove(s) && s.cell.current.Some? && s.cell.current.value.uid == uid
    && (s.worker.value.task.MoveTo? || s.pod.None?)
  }

  function Distance(task: Task): nat {
    match task
    case CountAll => 5
    case CountOwn => 4
    case SetUpNamespace => 3
    case EnsurePod => 2
    case Observe => 2
    case _ => 1
  }

  /** The move is made, or has come nearer. */
  predicate IsNearer(s: Slot, s': Slot, uid: nat)
    requires s.worker.Some?
  {
    if s.worker.value.task.MoveTo? then !IsStopped(s', uid)
    else IsDoomed(s', uid) && Distance(s'.worker.value.task) < Distance(s.worker.value.task)
  }

  /** One step, whatever it is told, brings the move nearer or makes it. */
  lemma DoomedEvent(s: Slot, i: Input, uid: nat)
    requires SlotOk(s) && IsDoomed(s, uid)
    ensures IsNearer(s, Apply(s, Step(i, s.cell.current.value)), uid)
  {}

  /** What a key is after a step at it. */
  lemma StepAt(c: Cluster, k: Key, i: Input, read: Server) returns (i': Input)
    ensures SlotAt(Do(c, Action(k, Step(i, read))), k) == Apply(SlotAt(c, k), Step(i', read))
  {
    i' := Informed(c, k, Step(i, read)).input;
  }

  lemma DoomedAction(c: Cluster, k: Key, uid: nat, i: Input) returns (a: Action)
    requires SlotsOk(c) && IsDoomed(SlotAt(c, k), uid)
    ensures IsCalm(a, k) && ReadsCurrent(a) && SlotsOk(Do(c, a))
    ensures IsNearer(SlotAt(c, k), SlotAt(Do(c, a), k), uid)
  {
    var read := SlotAt(c, k).cell.current.value;
    a := Action(k, Step(i, read));
    DoKeepsSlots(c, a);
    var i' := StepAt(c, k, i, read);
    DoomedEvent(SlotAt(c, k), i', uid);
  }

  /** Left to itself the worker makes its move, whatever it is told on the way. */
  lemma {:induction false} DoomedRun(c: Cluster, k: Key, uid: nat, i: Input) returns (actions: seq<Action>)
    requires SlotsOk(c) && IsDoomed(SlotAt(c, k), uid)
    ensures LosesStop(c, k, uid, actions)
    decreases Distance(SlotAt(c, k).worker.value.task)
  {
    var a := DoomedAction(c, k, uid, i);
    actions := [];
    if !SlotAt(c, k).worker.value.task.MoveTo? {
      actions := DoomedRun(Do(c, a), k, uid, i);
    }
    LosesStopLater(c, k, uid, a, actions);
    actions := [a] + actions;
  }

  // ----------------------------------------------------------- at the stop

  lemma StopSettles(s: Slot, v: Server)
    requires SlotOk(s) && s.cell.current == Some(v) && Requested(Stop, v.body.status.state).Some? && !WillMove(s)
    ensures IsSettled(Apply(s, Lifecycle(Stop, v)), v.uid)
  {
    ApplyKeepsOk(s, Lifecycle(Stop, v));
  }

  lemma StopDooms(s: Slot, v: Server)
    requires SlotOk(s) && s.cell.current == Some(v) && Requested(Stop, v.body.status.state).Some? && WillMove(s)
    ensures IsDoomed(Apply(Apply(s, Lifecycle(Stop, v)), PodGone), v.uid)
  {}

  // ------------------------------------------------------------------ theorem

  function Stopped(c: Cluster, k: Key, v: Server): Cluster {
    Do(c, Action(k, Lifecycle(Stop, v)))
  }

  ghost predicate HoldsForGood(c: Cluster, k: Key, uid: nat) {
    forall actions: seq<Action> :: (forall a <- actions :: IsCalm(a, k)) ==> IsStopped(SlotAt(Run(c, actions), k), uid)
  }

  lemma HoldsWhenNobodyMoves(c: Cluster, k: Key, v: Server)
    requires SlotsOk(c) && SlotAt(c, k).cell.current == Some(v) && Requested(Stop, v.body.status.state).Some?
    requires !WillMove(SlotAt(c, k))
    ensures HoldsForGood(Stopped(c, k, v), k, v.uid)
  {
    var c' := Stopped(c, k, v);
    DoKeepsSlots(c, Action(k, Lifecycle(Stop, v)));
    StopSettles(SlotAt(c, k), v);
    forall actions: seq<Action> | forall a <- actions :: IsCalm(a, k) ensures IsStopped(SlotAt(Run(c', actions), k), v.uid) {
      CalmRunKeepsSettled(c', k, v.uid, actions);
    }
  }

  lemma LostWhenSomebodyMoves(c: Cluster, k: Key, v: Server, i: Input) returns (actions: seq<Action>)
    requires SlotsOk(c) && SlotAt(c, k).cell.current == Some(v) && Requested(Stop, v.body.status.state).Some?
    requires WillMove(SlotAt(c, k))
    ensures LosesStop(Stopped(c, k, v), k, v.uid, actions)
  {
    var stopped, gone := Stopped(c, k, v), Action(k, PodGone);
    DoKeepsSlots(c, Action(k, Lifecycle(Stop, v)));
    DoKeepsSlots(stopped, gone);
    StopDooms(SlotAt(c, k), v);
    actions := DoomedRun(Do(stopped, gone), k, v.uid, i);
    LosesStopLater(stopped, k, v.uid, gone, actions);
    actions := [gone] + actions;
  }

  /** After every run with current reads: an accepted stop holds through every
      continuation without a start or restart of the server if and only if no
      worker holding its key was on its way to a move. */
  lemma StopHoldsExactly(maxGlobal: int, maxPerUser: int, before: seq<Action>, k: Key, v: Server)
    requires forall a <- before :: ReadsCurrent(a)
    requires SlotAt(Run(EmptyCluster(maxGlobal, maxPerUser), before), k).cell.current == Some(v)
    requires Requested(Stop, v.body.status.state).Some?
    ensures var c := Run(EmptyCluster(maxGlobal, maxPerUser), before);
      HoldsForGood(Stopped(c, k, v), k, v.uid) <==> !WillMove(SlotAt(c, k))
  {
    RunKeepsGlobal(maxGlobal, maxPerUser, before);
    var c := Run(EmptyCluster(maxGlobal, maxPerUser), before);
    if WillMove(SlotAt(c, k)) {
      var actions := LostWhenSomebodyMoves(c, k, v, Input(0, 0, 0, 0, 0, true));
      assert !IsStopped(SlotAt(Run(Stopped(c, k, v), actions), k), v.uid);
    } else {
      HoldsWhenNobodyMoves(c, k, v);
    }
  }
}
