/** A run of the whole cluster in which a stop is accepted and then overwritten. */
module LostStop {
  import opened Lifecycle
  import opened VersionedStore
  import opened GameServers
  import opened GameServerSlot
  import opened Cluster
  import Labels

  /** The run so far has touched only this key and left it like this. */
  ghost predicate Reaches(limits: (int, int), actions: seq<Action>, k: Key, s: Slot) {
    && (forall a <- actions :: IsOrderly(a))
    && Run(EmptyCluster(limits.0, limits.1), actions) == Cluster(map[k := s], limits.0, limits.1)
  }

  lemma Extend(limits: (int, int), actions: seq<Action>, k: Key, s: Slot, e: Event)
    returns (longer: seq<Action>, s': Slot)
    requires Reaches(limits, actions, k, s) && IsOrderly(Action(k, e))
    ensures longer == actions + [Action(k, e)]
    ensures s' == Apply(s, Informed(Cluster(map[k := s], limits.0, limits.1), k, e)) && Reaches(limits, longer, k, s')
  {
    longer := actions + [Action(k, e)];
    assert longer[..|actions|] == actions;
    s' := Apply(s, Informed(Cluster(map[k := s], limits.0, limits.1), k, e));
    assert map[k := s][k := s'] == map[k := s'];
  }

  /** The only server there is counts one. */
  lemma OneServer(limits: (int, int), k: Key, s: Slot)
    requires s.cell.current.Some?
    ensures var c := Cluster(map[k := s], limits.0, limits.1); |Servers(c)| == 1 && |ServersIn(c, k.namespace)| == 1
  {
    var c := Cluster(map[k := s], limits.0, limits.1);
    assert Servers(c) == {k} && ServersIn(c, k.namespace) == {k};
  }

  predicate IsHeld(k: Key, s: Slot, task: Task) {
    && s.cell.current.Some? && s.cell.current.value in s.cell.past
    && s.worker.Some? && s.worker.value.task == task
    && k.namespace == Labels.UserNamespace(s.worker.value.snap.body.spec.owner)
  }

  function Alone(i: Input, limits: (int, int)): Input {
    i.(total := 1, own := 1, maxGlobal := limits.0, maxPerUser := limits.1)
  }

  /** The worker of the only server makes a step from a current re-fetch. */
  lemma Advance(limits: (int, int), actions: seq<Action>, k: Key, s: Slot, i: Input) returns (longer: seq<Action>, s': Slot)
    requires Reaches(limits, actions, k, s) && s.worker.Some? && IsHeld(k, s, s.worker.value.task)
    ensures longer == actions + [Action(k, Step(i, s.cell.current.value))]
    ensures s' == WorkerStep(s, s.worker.value, Alone(i, limits), s.cell.current.value) && Reaches(limits, longer, k, s')
  {
    OneServer(limits, k, s);
    longer, s' := Extend(limits, actions, k, s, Step(i, s.cell.current.value));
  }

  predicate IsIdle(s: Slot, g: GameServer) {
    && s.worker.None? && s.pod.None? && s.cell.current.Some? && s.cell.current.value in s.cell.past
    && s.cell.current.value.body == g
  }

  lemma CreatedIsReached(limits: (int, int), k: Key, spec: Spec) returns (actions: seq<Action>, s: Slot)
    requires k.namespace == Labels.UserNamespace(spec.owner)
    ensures Reaches(limits, actions, k, s) && IsIdle(s, GameServer(false, false, spec, map[], NO_STATUS))
  {
    var a := Action(k, CreateServer(spec, map[]));
    actions := [a];
    s := Apply(EmptySlot(), a.event);
    assert actions[..0] == [];
    assert Run(EmptyCluster(limits.0, limits.1), actions) == Do(EmptyCluster(limits.0, limits.1), a);
    assert map[][k := s] == map[k := s];
  }

  lemma FinalizerIsReached(limits: (int, int), k: Key, spec: Spec, i: Input) returns (actions: seq<Action>, s: Slot)
    requires k.namespace == Labels.UserNamespace(spec.owner)
    ensures Reaches(limits, actions, k, s) && IsIdle(s, GameServer(false, true, spec, map[], NO_STATUS))
  {
    actions, s := CreatedIsReached(limits, k, spec);
    actions, s := Extend(limits, actions, k, s, Begin);
    actions, s := Advance(limits, actions, k, s, i);
  }

  lemma CreatingIsReached(limits: (int, int), k: Key, spec: Spec, i: Input) returns (actions: seq<Action>, s: Slot)
    requires k.namespace == Labels.UserNamespace(spec.owner)
    ensures Reaches(limits, actions, k, s)
    ensures IsIdle(s, GameServer(false, true, spec, map[], Entered(NO_STATUS, Creating, i.now)))
  {
    actions, s := FinalizerIsReached(limits, k, spec, i);
    actions, s := Extend(limits, actions, k, s, Begin);
    actions, s := Advance(limits, actions, k, s, i);
  }

  /** A worker has counted, made the Pod and is about to write Starting. */
  lemma PendingMoveIsReached(limits: (int, int), k: Key, spec: Spec, i: Input) returns (actions: seq<Action>, s: Slot)
    requires k.namespace == Labels.UserNamespace(spec.owner) && spec.owner != ""
    requires limits.0 >= 1 && limits.1 >= 1 && i.namespaceOk
    ensures Reaches(limits, actions, k, s) && IsHeld(k, s, MoveTo(Starting))
    ensures s.worker.value.snap == s.cell.current.value && s.cell.current.value.body.status.state == Creating
  {
    actions, s := CreatingIsReached(limits, k, spec, i);
    actions, s := Extend(limits, actions, k, s, Begin);
    actions, s := Advance(limits, actions, k, s, i);
    actions, s := Advance(limits, actions, k, s, i);
    actions, s := Advance(limits, actions, k, s, i);
    actions, s := Advance(limits, actions, k, s, i);
  }

  function StateOf(c: Cluster, k: Key): Option<State> {
    var v := SlotAt(c, k).cell.current;
    if v.Some? then Some(v.value.body.status.state) else None
  }

  /** For every server, limits that admit it and inputs, a run from the empty
      cluster, with current reads and creation at home, whose last but one action
      is a stop that is accepted and whose last is a controller write that turns
      the Shutdown back into Starting, which is no edge of the table. */
  lemma StopCanBeOverwritten(maxGlobal: int, maxPerUser: int, k: Key, spec: Spec, i: Input) returns (actions: seq<Action>)
    requires k.namespace == Labels.UserNamespace(spec.owner) && spec.owner != ""
    requires maxGlobal >= 1 && maxPerUser >= 1 && i.namespaceOk
    ensures |actions| >= 2 && forall a <- actions :: IsOrderly(a)
    ensures var n, c := |actions|, EmptyCluster(maxGlobal, maxPerUser);
      && actions[n - 2].key == actions[n - 1].key == k
      && actions[n - 2].event.Lifecycle? && actions[n - 2].event.verb == Stop && actions[n - 1].event.Step?
      && StateOf(Run(c, actions[..n - 2]), k) == Some(Creating)
      && StateOf(Run(c, actions[..n - 1]), k) == Some(Shutdown)
      && StateOf(Run(c, actions), k) == Some(Starting)
      && !IsValidTransition(Shutdown, Starting)
  {
    var limits := (maxGlobal, maxPerUser);
    var before, s := PendingMoveIsReached(limits, k, spec, i);
    var stop := Lifecycle(Stop, s.cell.current.value);
    var stopped, s' := Extend(limits, before, k, s, stop);
    var s'';
    actions, s'' := Advance(limits, stopped, k, s', i);
    assert actions[..|actions| - 1] == stopped && actions[..|actions| - 2] == before;
  }
}
