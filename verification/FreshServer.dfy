/** Undisturbed reconciles inside a cluster of any size, where the counts are the
    true ones: who is admitted, and how a fresh server comes up. */
module FreshServer {
  import opened Lifecycle
  import opened VersionedStore
  import opened GameServers
  import opened GameServerSlot
  import opened SlotInvariant
  import opened Cluster
  import opened Reconciler
  import opened ReconcileOutcome
  import Labels

  /** What a reconcile of this server is told about the cluster. */
  function Told(c: Cluster, k: Key, i: Input): Input
    requires SlotAt(c, k).cell.current.Some?
  {
    var owner := SlotAt(c, k).cell.current.value.body.spec.owner;
    i.(total := |Servers(c)|, own := |ServersIn(c, Labels.UserNamespace(owner))|,
       maxGlobal := c.maxGlobal, maxPerUser := c.maxPerUser)
  }

  predicate IsOurs(a: Action, k: Key) {
    a.key == k && IsOrderly(a)
  }

  ghost predicate Leads(c: Cluster, k: Key, actions: seq<Action>, s: Slot) {
    (forall a <- actions :: IsOurs(a, k)) && Run(c, actions) == With(c, k, s)
  }

  lemma LeadsOn(c: Cluster, k: Key, actions: seq<Action>, s: Slot, e: Event) returns (longer: seq<Action>)
    requires Leads(c, k, actions, s) && IsOurs(Action(k, e), k)
    ensures Leads(c, k, longer, Apply(s, Informed(With(c, k, s), k, e)))
  {
    longer := actions + [Action(k, e)];
    assert longer[..|actions|] == actions;
    var s' := Apply(s, Informed(With(c, k, s), k, e));
    assert c.slots[k := s][k := s'] == c.slots[k := s'];
  }

  /** While its object is there, what a key holds otherwise does not change the
      counts. */
  lemma CountsStay(c: Cluster, k: Key, s: Slot, s': Slot, namespace: string)
    requires s.cell.current.Some? && s'.cell.current.Some?
    ensures Servers(With(c, k, s')) == Servers(With(c, k, s))
    ensures ServersIn(With(c, k, s'), namespace) == ServersIn(With(c, k, s), namespace)
  {}

  /** A worker that is not done yet has changed nothing of its object. */
  lemma StepHolds(s: Slot, i: Input)
    requires IsHeld(s)
    ensures var s' := WorkerStep(s, s.worker.value, i, s.cell.current.value);
      s'.worker.Some? ==>
        && s'.cell == s.cell && s'.worker.value.snap == s.worker.value.snap
        && Rank(s'.worker.value.task) < Rank(s.worker.value.task)
  {}

  predicate IsHeld(s: Slot) {
    s.worker.Some? && s.cell.current.Some? && s.cell.current.value in s.cell.past
  }

  /** A step is told the same as the whole reconcile. */
  lemma StepIsTold(c: Cluster, k: Key, start: Slot, s: Slot, i: Input, before: seq<Action>) returns (longer: seq<Action>)
    requires Leads(c, k, before, s) && start.cell.current.Some? && IsHeld(s)
    requires s.worker.value.snap == start.cell.current.value
    ensures Leads(c, k, longer, WorkerStep(s, s.worker.value, Told(With(c, k, start), k, i), s.cell.current.value))
  {
    var read := s.cell.current.value;
    CountsStay(c, k, start, s, Labels.UserNamespace(start.cell.current.value.body.spec.owner));
    assert Informed(With(c, k, s), k, Step(i, read)) == Step(Told(With(c, k, start), k, i), read);
    longer := LeadsOn(c, k, before, s, Step(i, read));
  }

  /** The worker of a key runs to its end with nobody else moving. */
  lemma {:induction false} DrainLeads(c: Cluster, k: Key, start: Slot, s: Slot, i: Input, before: seq<Action>)
    returns (actions: seq<Action>)
    requires Leads(c, k, before, s) && start.cell.current.Some?
    requires s.worker.Some? ==> IsHeld(s) && s.worker.value.snap == start.cell.current.value
    ensures Leads(c, k, actions, Drain(s, Told(With(c, k, start), k, i)))
    decreases if s.worker.Some? then Rank(s.worker.value.task) else 0
  {
    actions := before;
    if s.worker.Some? {
      var told := Told(With(c, k, start), k, i);
      StepHolds(s, told);
      DrainStep(s, told);
      actions := StepIsTold(c, k, start, s, i, before);
      actions := DrainLeads(c, k, start, WorkerStep(s, s.worker.value, told, s.cell.current.value), i, actions);
    }
  }

  /** One undisturbed reconcile inside the cluster. */
  lemma PassLeads(c: Cluster, k: Key, s: Slot, i: Input, before: seq<Action>) returns (actions: seq<Action>)
    requires Leads(c, k, before, s) && s.worker.None? && s.cell.current.Some? && s.cell.current.value in s.cell.past
    ensures Leads(c, k, actions, Pass(s, Told(With(c, k, s), k, i)))
    ensures IsOutcome(s, Told(With(c, k, s), k, i), Pass(s, Told(With(c, k, s), k, i)))
  {
    var told := Told(With(c, k, s), k, i);
    actions := LeadsOn(c, k, before, s, Begin);
    actions := DrainLeads(c, k, s, Apply(s, Begin), i, actions);
    PassOutcome(s, told);
  }

  predicate Rests(s: Slot) {
    s.worker.None? && s.cell.current.Some? && s.cell.current.value in s.cell.past
  }

  lemma {:induction false} DrainKeepsPast(s: Slot, i: Input)
    requires s.cell.current.Some? ==> s.cell.current.value in s.cell.past
    ensures var s' := Drain(s, i); s'.cell.current.Some? ==> s'.cell.current.value in s'.cell.past
    decreases if s.worker.Some? then Rank(s.worker.value.task) else 0
  {
    if s.worker.Some? && s.cell.current.Some? {
      DrainStep(s, i);
      DrainKeepsPast(WorkerStep(s, s.worker.value, i, s.cell.current.value), i);
    }
  }

  function BodyOf(s: Slot): GameServer
    requires s.cell.current.Some?
  {
    s.cell.current.value.body
  }

  /** One more reconcile of a server that nobody deletes. */
  lemma NextPass(c: Cluster, k: Key, s: Slot, i: Input, before: seq<Action>) returns (actions: seq<Action>, s': Slot)
    requires Leads(c, k, before, s) && Rests(s) && !BodyOf(s).deleting
    ensures Leads(c, k, actions, s') && Rests(s') && IsOutcome(s, Told(With(c, k, s), k, i), s')
  {
    var told := Told(With(c, k, s), k, i);
    actions := PassLeads(c, k, s, i, before);
    s' := Pass(s, told);
    DrainKeepsPast(Apply(s, Begin), told);
  }

  // ------------------------------------------------------------- admission

  /** Undisturbed, a Creating server without a Pod is started if and only if it
      has an owner whose namespace can be set up and the servers there are, itself
      included, are within both limits; otherwise it ends in Error. */
  lemma AdmissionIsExact(c: Cluster, k: Key, i: Input) returns (actions: seq<Action>, s': Slot)
    requires k in c.slots && Rests(c.slots[k]) && c.slots[k].pod.None?
    requires var g := BodyOf(c.slots[k]); !g.deleting && g.finalizer && g.status.state == Creating
    ensures Leads(c, k, actions, s') && s'.cell.current.Some?
    ensures var owner := BodyOf(c.slots[k]).spec.owner;
      BodyOf(s').status.state ==
        if owner != "" && |Servers(c)| <= c.maxGlobal && |ServersIn(c, Labels.UserNamespace(owner))| <= c.maxPerUser
           && i.namespaceOk
        then Starting else Error
  {
    assert With(c, k, c.slots[k]) == c by {
      assert c.slots[k := c.slots[k]] == c.slots;
    }
    assert Run(c, []) == c;
    actions, s' := NextPass(c, k, c.slots[k], i, []);
  }

  // ------------------------------------------------------- a server comes up

  /** A free key, with room for one more server. */
  predicate HasRoom(c: Cluster, k: Key) {
    && SlotAt(c, k).cell.current.None? && SlotAt(c, k).worker.None? && SlotAt(c, k).pod.None?
    && |Servers(c)| < c.maxGlobal && |ServersIn(c, k.namespace)| < c.maxPerUser
  }

  lemma OneMore(c: Cluster, k: Key, s: Slot)
    requires HasRoom(c, k) && s.cell.current.Some?
    ensures |Servers(With(c, k, s))| <= c.maxGlobal && |ServersIn(With(c, k, s), k.namespace)| <= c.maxPerUser
  {
    assert Servers(With(c, k, s)) == Servers(c) + {k};
    assert ServersIn(With(c, k, s), k.namespace) == ServersIn(c, k.namespace) + {k};
  }

  lemma CreateLeads(c: Cluster, k: Key, spec: Spec, annotations: map<string, string>) returns (actions: seq<Action>, s: Slot)
    requires HasRoom(c, k) && k.namespace == Labels.UserNamespace(spec.owner)
    ensures Leads(c, k, actions, s) && Rests(s) && s.pod.None?
    ensures BodyOf(s) == GameServer(false, false, spec, annotations, NO_STATUS)
  {
    var a := Action(k, CreateServer(spec, annotations));
    s := Apply(SlotAt(c, k), a.event);
    actions := [a];
    assert actions[..0] == [];
    assert Run(c, actions) == Do(c, a);
  }

  /** From creation to a Pod that is being started: three reconciles. */
  lemma StartingIsReached(c: Cluster, k: Key, spec: Spec, annotations: map<string, string>, i: Input)
    returns (actions: seq<Action>, s: Slot)
    requires HasRoom(c, k) && k.namespace == Labels.UserNamespace(spec.owner) && spec.owner != "" && i.namespaceOk
    ensures Leads(c, k, actions, s) && Rests(s) && s.pod.Some?
    ensures var g := BodyOf(s);
      !g.deleting && g.finalizer && g.spec == spec && g.annotations == annotations && g.status.state == Starting
  {
    actions, s := CreateLeads(c, k, spec, annotations);
    actions, s := NextPass(c, k, s, i, actions);
    actions, s := NextPass(c, k, s, i, actions);
    OneMore(c, k, s);
    actions, s := NextPass(c, k, s, i, actions);
  }

  /** In any cluster with room for it, a fresh server whose Pod comes up reaches
      Ready and has its Pod's address published, and no other key is touched. */
  lemma FreshServerComesUp(
    c: Cluster, k: Key, spec: Spec, annotations: map<string, string>, i: Input, containers: seq<bool>, ip: string)
    returns (actions: seq<Action>, s: Slot)
    requires HasRoom(c, k) && k.namespace == Labels.UserNamespace(spec.owner) && spec.owner != "" && i.namespaceOk
    requires |containers| > 0 && false !in containers
    requires "kterodactyl.io/allocated" !in annotations
    ensures Leads(c, k, actions, s) && s.cell.current.Some? && Runs(s.pod)
    ensures BodyOf(s).spec == spec && BodyOf(s).status.state == Ready && BodyOf(s).status.address == ip
  {
    actions, s := StartingIsReached(c, k, spec, annotations, i);
    var report := PodReport(PodRunning, containers, ip);
    actions := LeadsOn(c, k, actions, s, report);
    s := Apply(s, report);
    actions, s := NextPass(c, k, s, i, actions);
    actions, s := NextPass(c, k, s, i, actions);
  }
}
