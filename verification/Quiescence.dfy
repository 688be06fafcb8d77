/** With nothing else moving (Pod status, annotations, limits, API), repeated
    reconciles come to rest: a server's state changes at most four more times. */
module Quiescence {
  import opened Lifecycle
  import opened VersionedStore
  import opened GameServers
  import opened GameServerSlot
  import opened Reconciler

  /** Same limits and counts; only the clock may differ. */
  predicate SameSurroundings(i: Input, j: Input) {
    i.(now := j.now) == j
  }

  predicate IsRefused(g: GameServer, i: Input) {
    g.spec.owner == "" || i.total > i.maxGlobal || i.own > i.maxPerUser || !i.namespaceOk
  }

  /** Changes still possible for a Starting server that has a Pod. */
  function PotentialWithPod(g: GameServer, pod: Pod): nat {
    if IsPodUp(pod) && IsAllocated(g) then 2 else 1
  }

  function PotentialOfCreating(g: GameServer, uid: nat, pod: Option<Pod>, i: Input): nat {
    if IsRefused(g, i) then 1
    else if pod.None? then 1 + PotentialWithPod(g, NewPod(uid))
    else if pod.value.owner != uid then 0
    else 1 + PotentialWithPod(g, pod.value)
  }

  /** A bound on the state changes that quiet reconciles can still make. It
      leaves no room for a Ready/Allocated or a Creating/Starting cycle. */
  function Potential(s: Slot, i: Input): (p: nat)
    ensures p <= 4
  {
    if s.cell.current.None? || s.cell.current.value.body.deleting then 0
    else
      var uid, g := s.cell.current.value.uid, s.cell.current.value.body;
      match g.status.state
      case Unset => 1 + PotentialOfCreating(g, uid, s.pod, i)
      case Creating => PotentialOfCreating(g, uid, s.pod, i)
      case Starting => if s.pod.None? then 1 + PotentialOfCreating(g, uid, None, i) else PotentialWithPod(g, s.pod.value)
      case Ready => if s.pod.None? || !IsPodUp(s.pod.value) || IsAllocated(g) then 1 else 0
      case Allocated => if s.pod.None? || !IsPodUp(s.pod.value) || !IsAllocated(g) then 1 else 0
      case Shutdown => 0
      case Error => 0
  }

  predicate StateChanged(s: Slot, s': Slot) {
    && s.cell.current.Some? && s'.cell.current.Some?
    && s.cell.current.value.body.status.state != s'.cell.current.value.body.status.state
  }

  function Cost(s: Slot, s': Slot): nat {
    if StateChanged(s, s') then 1 else 0
  }

  /** The shape of every pass: the object keeps everything but its status (and
      finalizer), and the worker is gone. */
  lemma MoveOutcome(s: Slot, to: State, i: Input)
    requires s.worker.Some? && s.worker.value.task == MoveTo(to) && s.cell.current.Some?
    requires IsValidTransition(s.worker.value.snap.body.status.state, to)
    ensures var v, r := s.cell.current.value, Drain(s, i);
      && r.pod == s.pod && r.worker.None? && r.cell.current.Some?
      && r.cell.current.value.uid == v.uid
      && r.cell.current.value.body == v.body.(status := Entered(v.body.status, to, i.now))
  {
    DrainStep(s, i);
  }

  lemma CreatingLowers(s: Slot, i: Input)
    requires s.worker.None? && s.cell.current.Some?
    requires var g := s.cell.current.value.body; !g.deleting && g.finalizer && g.status.state == Creating
    ensures Cost(s, Pass(s, i)) + Potential(Pass(s, i), i) <= Potential(s, i) && Pass(s, i).worker.None?
  {
    var v := s.cell.current.value;
    var s0 := Apply(s, Begin);
    var w := s0.worker.value;
    if v.body.spec.owner == "" {
      MoveOutcome(s0, Error, i);
    } else {
      DrainStep(s0, i);
      if i.total > i.maxGlobal {
        MoveOutcome(Then(s, w, MoveTo(Error)), Error, i);
      } else {
        DrainStep(Then(s, w, CountOwn), i);
        if i.own > i.maxPerUser {
          MoveOutcome(Then(s, w, MoveTo(Error)), Error, i);
        } else {
          DrainStep(Then(s, w, SetUpNamespace), i);
          if !i.namespaceOk {
            MoveOutcome(Then(s, w, MoveTo(Error)), Error, i);
          } else {
            PodLowers(s, w, i);
          }
        }
      }
    }
  }

  lemma PodLowers(s: Slot, w: Worker, i: Input)
    requires s.worker.None? && s.cell.current == Some(w.snap)
    requires var g := w.snap.body; !g.deleting && g.status.state == Creating && !IsRefused(g, i)
    ensures var s' := Drain(Then(s, w, EnsurePod), i);
      Cost(s, s') + Potential(s', i) <= Potential(s, i) && s'.worker.None?
  {
    DrainStep(Then(s, w, EnsurePod), i);
    if s.pod.None? {
      MoveOutcome(Then(s.(pod := Some(NewPod(w.snap.uid))), w, MoveTo(Starting)), Starting, i);
    } else if s.pod.value.owner == w.snap.uid {
      MoveOutcome(Then(s, w, MoveTo(Starting)), Starting, i);
    }
  }

  lemma RunningLowers(s: Slot, i: Input)
    requires s.worker.None? && s.cell.current.Some?
    requires var g := s.cell.current.value.body; !g.deleting && g.finalizer && IsRunning(g.status.state)
    ensures Cost(s, Pass(s, i)) + Potential(Pass(s, i), i) <= Potential(s, i) && Pass(s, i).worker.None?
  {
    var s0 := Apply(s, Begin);
    DrainStep(s0, i);
    var task := Observed(s.cell.current.value.body, s.pod, i.now);
    if task.Some? {
      var s1 := Then(s, s0.worker.value, task.value);
      if task.value.MoveTo? {
        MoveOutcome(s1, task.value.to, i);
      } else {
        DrainStep(s1, i);
      }
    }
  }

  lemma OtherLowers(s: Slot, i: Input)
    requires s.worker.None? && s.cell.current.Some?
    requires var g := s.cell.current.value.body;
      g.deleting || !g.finalizer || !(g.status.state == Creating || IsRunning(g.status.state))
    ensures Cost(s, Pass(s, i)) + Potential(Pass(s, i), i) <= Potential(s, i) && Pass(s, i).worker.None?
  {
    var s0 := Apply(s, Begin);
    if s0.worker.Some? {
      DrainStep(s0, i);
      if s0.worker.value.task.DropPod? || s0.worker.value.task.StopPod? {
        DrainStep(WorkerStep(s0, s0.worker.value, i, s.cell.current.value), i);
      }
    }
  }

  lemma PassLowers(s: Slot, i: Input)
    requires s.worker.None?
    ensures Cost(s, Pass(s, i)) + Potential(Pass(s, i), i) <= Potential(s, i) && Pass(s, i).worker.None?
  {
    if s.cell.current.Some? {
      var g := s.cell.current.value.body;
      if !g.deleting && g.finalizer && g.status.state == Creating {
        CreatingLowers(s, i);
      } else if !g.deleting && g.finalizer && IsRunning(g.status.state) {
        RunningLowers(s, i);
      } else {
        OtherLowers(s, i);
      }
    }
  }

  function Passes(s: Slot, inputs: seq<Input>): Slot
    decreases |inputs|
  {
    if inputs == [] then s else Passes(Pass(s, inputs[0]), inputs[1..])
  }

  /** How often the state changes over a series of reconciles. */
  function Changes(s: Slot, inputs: seq<Input>): nat
    decreases |inputs|
  {
    if inputs == [] then 0
    else Cost(s, Pass(s, inputs[0])) + Changes(Pass(s, inputs[0]), inputs[1..])
  }

  lemma PotentialIgnoresClock(s: Slot, i: Input, j: Input)
    requires SameSurroundings(i, j)
    ensures Potential(s, i) == Potential(s, j)
  {}

  /** However many quiet reconciles follow, and however long they take, the
      state changes no more often than the potential allows: at most four times. */
  lemma {:induction false} QuietReconcilesSettle(s: Slot, i: Input, inputs: seq<Input>)
    requires s.worker.None? && forall j <- inputs :: SameSurroundings(i, j)
    ensures Changes(s, inputs) + Potential(Passes(s, inputs), i) <= Potential(s, i) <= 4
    decreases |inputs|
  {
    if inputs != [] {
      PassLowers(s, inputs[0]);
      PotentialIgnoresClock(s, i, inputs[0]);
      PotentialIgnoresClock(Pass(s, inputs[0]), i, inputs[0]);
      QuietReconcilesSettle(Pass(s, inputs[0]), i, inputs[1..]);
    }
  }
}
