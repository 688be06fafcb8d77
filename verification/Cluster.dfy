/** All keys together: any number of reconcile workers (one per key at most),
    the HTTP API, the DNS controller and the kubelet, interleaved in any order. */
module Cluster {
  import opened Lifecycle
  import opened VersionedStore
  import opened GameServers
  import opened GameServerSlot
  import opened SlotInvariant
  import opened SlotMoves
  import opened SlotFields
  import opened Sets
  import Labels

  datatype Cluster = Cluster(slots: map<Key, Slot>, maxGlobal: int, maxPerUser: int)

  datatype Action = Action(key: Key, event: Event)

  function SlotAt(c: Cluster, k: Key): Slot {
    if k in c.slots then c.slots[k] else EmptySlot()
  }

  /** The keys a cluster-wide List returns. */
  function Servers(c: Cluster): set<Key> {
    set k | k in c.slots && c.slots[k].cell.current.Some?
  }

  function ServersIn(c: Cluster, namespace: string): set<Key> {
    set k | k in Servers(c) && k.namespace == namespace
  }

  /** A worker's step sees the counts and limits of the moment it is taken. */
  function Informed(c: Cluster, k: Key, e: Event): Event {
    if e.Step? && SlotAt(c, k).worker.Some? then
      var owner := SlotAt(c, k).worker.value.snap.body.spec.owner;
      e.(input := e.input.(total := |Servers(c)|, own := |ServersIn(c, Labels.UserNamespace(owner))|,
                           maxGlobal := c.maxGlobal, maxPerUser := c.maxPerUser))
    else e
  }

  function Do(c: Cluster, a: Action): Cluster {
    With(c, a.key, Apply(SlotAt(c, a.key), Informed(c, a.key, a.event)))
  }

  function With(c: Cluster, k: Key, s: Slot): Cluster {
    c.(slots := c.slots[k := s])
  }

  function EmptyCluster(maxGlobal: int, maxPerUser: int): Cluster {
    Cluster(map[], maxGlobal, maxPerUser)
  }

  function Run(c: Cluster, actions: seq<Action>): Cluster {
    if actions == [] then c
    else Do(Run(c, actions[..|actions| - 1]), actions[|actions| - 1])
  }

  /** A reconcile that starts from the current object. */
  predicate ReadsCurrent(a: Action) {
    !a.event.BeginStale?
  }

  // ------------------------------------------------------ per-key invariant

  ghost predicate SlotsOk(c: Cluster) {
    forall k <- c.slots :: SlotOk(c.slots[k])
  }

  lemma DoKeepsSlots(c: Cluster, a: Action)
    requires SlotsOk(c) && ReadsCurrent(a)
    ensures SlotsOk(Do(c, a)) && SlotOk(SlotAt(c, a.key))
  {
    ApplyKeepsOk(SlotAt(c, a.key), Informed(c, a.key, a.event));
  }

  // ------------------------------------------------------------- admission

  /** A key holds a place when its server runs, or when its worker may yet make
      it run: it read a running state, or it passed the count of `all` servers
      (with `own`: of the owner's servers). */
  predicate HoldsPlace(s: Slot, own: bool) {
    ServerRuns(s) || WorkerMayRun(s, own)
  }

  predicate ServerRuns(s: Slot) {
    s.cell.current.Some? && IsRunning(s.cell.current.value.body.status.state)
  }

  predicate WorkerMayRun(s: Slot, own: bool) {
    s.worker.Some? && s.worker.value.task != AddFinalizer &&
    var w := s.worker.value;
    || IsRunning(w.snap.body.status.state)
    || w.task in {SetUpNamespace, EnsurePod, MoveTo(Starting)}
    || (!own && w.task == CountOwn)
  }

  predicate PassesCount(s: Slot, e: Event, own: bool) {
    && e.Step? && s.worker.Some?
    && if own then s.worker.value.task == CountOwn && e.input.own <= e.input.maxPerUser
       else s.worker.value.task == CountAll && e.input.total <= e.input.maxGlobal
  }

  lemma ServersRunByWorkers(s: Slot, e: Event, own: bool)
    requires SlotOk(s) && !e.BeginStale? && ServerRuns(Apply(s, e))
    ensures HoldsPlace(s, own)
  {
    if s.cell.current.Some? {
      StateMovesAreLegal(s, e);
    }
  }

  lemma WorkersRunByCounting(s: Slot, e: Event, own: bool)
    requires SlotOk(s) && !e.BeginStale? && WorkerMayRun(Apply(s, e), own)
    ensures HoldsPlace(s, own) || (PassesCount(s, e, own) && Apply(s, e).cell == s.cell)
  {}

  /** Places are taken only by passing a count, and only existing servers hold one. */
  lemma PlacesNeedACount(s: Slot, e: Event, own: bool)
    requires SlotOk(s) && !e.BeginStale?
    ensures HoldsPlace(s, own) ==> s.cell.current.Some?
    ensures HoldsPlace(Apply(s, e), own) ==>
      HoldsPlace(s, own) || (PassesCount(s, e, own) && Apply(s, e).cell == s.cell)
  {
    var s' := Apply(s, e);
    if ServerRuns(s') {
      ServersRunByWorkers(s, e, own);
    } else if WorkerMayRun(s', own) {
      WorkersRunByCounting(s, e, own);
    }
  }

  function Bound(limit: int): nat {
    if limit < 0 then 0 else limit
  }

  function Places(c: Cluster): set<Key> {
    set k | k in c.slots && HoldsPlace(c.slots[k], false)
  }

  function PlacesIn(c: Cluster, namespace: string): set<Key> {
    set k | k in c.slots && k.namespace == namespace && HoldsPlace(c.slots[k], true)
  }

  ghost predicate GlobalOk(c: Cluster) {
    SlotsOk(c) && |Places(c)| <= Bound(c.maxGlobal)
  }

  ghost predicate PlacesBacked(c: Cluster, own: bool) {
    forall k <- c.slots :: HoldsPlace(c.slots[k], own) ==> c.slots[k].cell.current.Some?
  }

  /** A key that takes a place takes it under the limit: the count it passed
      covered every place there was. */
  lemma PlaceTakenUnderLimit(c: Cluster, k: Key, s': Slot)
    requires PlacesBacked(With(c, k, s'), false) && |Places(c)| <= Bound(c.maxGlobal)
    requires HoldsPlace(s', false) ==>
      HoldsPlace(SlotAt(c, k), false) || (s'.cell == SlotAt(c, k).cell && |Servers(c)| <= c.maxGlobal)
    ensures |Places(With(c, k, s'))| <= Bound(c.maxGlobal)
  {
    var c' := With(c, k, s');
    if HoldsPlace(s', false) && !HoldsPlace(SlotAt(c, k), false) {
      assert Servers(c') == Servers(c);
      SubsetSize(Places(c'), Servers(c'));
    } else {
      SubsetSize(Places(c'), Places(c));
    }
  }

  lemma SlotsBackPlaces(c: Cluster, own: bool)
    requires SlotsOk(c)
    ensures PlacesBacked(c, own)
  {
    forall k | k in c.slots ensures HoldsPlace(c.slots[k], own) ==> c.slots[k].cell.current.Some? {
      PlacesNeedACount(c.slots[k], Abort, own);
    }
  }

  lemma DoKeepsGlobal(c: Cluster, a: Action)
    requires GlobalOk(c) && ReadsCurrent(a)
    ensures GlobalOk(Do(c, a))
  {
    DoKeepsSlots(c, a);
    SlotsBackPlaces(Do(c, a), false);
    PlacesNeedACount(SlotAt(c, a.key), Informed(c, a.key, a.event), false);
    PlaceTakenUnderLimit(c, a.key, Apply(SlotAt(c, a.key), Informed(c, a.key, a.event)));
  }

  /** Servers created through the API live in their owner's namespace. */
  predicate AtHome(k: Key, s: Slot) {
    s.cell.current.Some? ==> k.namespace == Labels.UserNamespace(s.cell.current.value.body.spec.owner)
  }

  predicate CreatesAtHome(a: Action) {
    a.event.CreateServer? ==> a.key.namespace == Labels.UserNamespace(a.event.spec.owner)
  }

  /** What the API and the controllers do when their caches are current. */
  predicate IsOrderly(a: Action) {
    ReadsCurrent(a) && CreatesAtHome(a)
  }

  lemma ApplyKeepsHome(k: Key, s: Slot, e: Event)
    requires SlotOk(s) && AtHome(k, s) && CreatesAtHome(Action(k, e))
    ensures AtHome(k, Apply(s, e))
  {
    if e.Edit? && e.read in s.cell.past {
      AcceptedReadIsCurrent(s.cell, e.read);
    } else if e.Step? && s.worker.Some? {
      AcceptedReadIsCurrent(s.cell, s.worker.value.snap);
    }
  }

  ghost predicate PerUserOk(c: Cluster) {
    && SlotsOk(c)
    && (forall k <- c.slots :: AtHome(k, c.slots[k]))
    && (forall namespace :: |PlacesIn(c, namespace)| <= Bound(c.maxPerUser))
  }

  lemma OwnPlaceTakenUnderLimit(c: Cluster, k: Key, s': Slot, namespace: string)
    requires PlacesBacked(With(c, k, s'), true) && |PlacesIn(c, namespace)| <= Bound(c.maxPerUser)
    requires HoldsPlace(s', true) ==>
      HoldsPlace(SlotAt(c, k), true) || (s'.cell == SlotAt(c, k).cell && |ServersIn(c, k.namespace)| <= c.maxPerUser)
    ensures |PlacesIn(With(c, k, s'), namespace)| <= Bound(c.maxPerUser)
  {
    var c' := With(c, k, s');
    if k.namespace == namespace && HoldsPlace(s', true) && !HoldsPlace(SlotAt(c, k), true) {
      assert ServersIn(c', namespace) == ServersIn(c, namespace);
      SubsetSize(PlacesIn(c', namespace), ServersIn(c', namespace));
    } else {
      SubsetSize(PlacesIn(c', namespace), PlacesIn(c, namespace));
    }
  }

  lemma DoKeepsPerUser(c: Cluster, a: Action)
    requires PerUserOk(c) && IsOrderly(a)
    ensures PerUserOk(Do(c, a))
  {
    var s, e := SlotAt(c, a.key), Informed(c, a.key, a.event);
    DoKeepsSlots(c, a);
    PlacesNeedACount(s, e, true);
    ApplyKeepsHome(a.key, s, e);
    SlotsBackPlaces(Do(c, a), true);
    forall namespace ensures |PlacesIn(Do(c, a), namespace)| <= Bound(c.maxPerUser) {
      assert |PlacesIn(c, namespace)| <= Bound(c.maxPerUser);
      OwnPlaceTakenUnderLimit(c, a.key, Apply(s, e), namespace);
    }
  }

  // -------------------------------------------------- theorems about runs

  function RunningServers(c: Cluster): set<Key> {
    set k | k in c.slots && ServerRuns(c.slots[k])
  }

  function RunningServersIn(c: Cluster, namespace: string): set<Key> {
    set k | k in RunningServers(c) && k.namespace == namespace
  }

  lemma {:induction false} RunKeepsGlobal(maxGlobal: int, maxPerUser: int, actions: seq<Action>)
    requires forall a <- actions :: ReadsCurrent(a)
    ensures var c := Run(EmptyCluster(maxGlobal, maxPerUser), actions);
      GlobalOk(c) && c.maxGlobal == maxGlobal && c.maxPerUser == maxPerUser
  {
    if actions != [] {
      var before := actions[..|actions| - 1];
      RunKeepsGlobal(maxGlobal, maxPerUser, before);
      DoKeepsGlobal(Run(EmptyCluster(maxGlobal, maxPerUser), before), actions[|actions| - 1]);
    }
  }

  /** In every interleaving the servers that run never exceed the global limit. */
  lemma AdmissionBoundGlobal(maxGlobal: int, maxPerUser: int, actions: seq<Action>)
    requires forall a <- actions :: ReadsCurrent(a)
    ensures |RunningServers(Run(EmptyCluster(maxGlobal, maxPerUser), actions))| <= Bound(maxGlobal)
  {
    RunKeepsGlobal(maxGlobal, maxPerUser, actions);
    var c := Run(EmptyCluster(maxGlobal, maxPerUser), actions);
    SubsetSize(RunningServers(c), Places(c));
  }

  lemma {:induction false} RunKeepsPerUser(maxGlobal: int, maxPerUser: int, actions: seq<Action>)
    requires forall a <- actions :: IsOrderly(a)
    ensures var c := Run(EmptyCluster(maxGlobal, maxPerUser), actions); PerUserOk(c) && c.maxPerUser == maxPerUser
  {
    if actions != [] {
      var before := actions[..|actions| - 1];
      RunKeepsPerUser(maxGlobal, maxPerUser, before);
      DoKeepsPerUser(Run(EmptyCluster(maxGlobal, maxPerUser), before), actions[|actions| - 1]);
    }
  }

  /** When servers are created through the API, no user ever runs more than the
      limit per user. */
  lemma AdmissionBoundPerUser(maxGlobal: int, maxPerUser: int, actions: seq<Action>, user: string)
    requires forall a <- actions :: IsOrderly(a)
    ensures |RunningServersIn(Run(EmptyCluster(maxGlobal, maxPerUser), actions), Labels.UserNamespace(user))| <= Bound(maxPerUser)
  {
    RunKeepsPerUser(maxGlobal, maxPerUser, actions);
    var c := Run(EmptyCluster(maxGlobal, maxPerUser), actions);
    SubsetSize(RunningServersIn(c, Labels.UserNamespace(user)), PlacesIn(c, Labels.UserNamespace(user)));
  }

  /** In every interleaving each stored server's conditions agree with its
      state, although the API writes states and never conditions. */
  lemma ConditionsAgree(maxGlobal: int, maxPerUser: int, actions: seq<Action>, k: Key)
    requires forall a <- actions :: ReadsCurrent(a)
    requires k in Servers(Run(EmptyCluster(maxGlobal, maxPerUser), actions))
    ensures var g := Run(EmptyCluster(maxGlobal, maxPerUser), actions).slots[k].cell.current.value.body;
      Agrees(g.status.state, g.status.conditions)
  {
    RunKeepsGlobal(maxGlobal, maxPerUser, actions);
  }

  /** In every interleaving a live Pod has its server, under its own uid and
      still carrying the finalizer. */
  lemma NoOrphanPod(maxGlobal: int, maxPerUser: int, actions: seq<Action>, k: Key)
    requires forall a <- actions :: ReadsCurrent(a)
    requires var s := SlotAt(Run(EmptyCluster(maxGlobal, maxPerUser), actions), k); s.pod.Some? && s.pod.value.live
    ensures var s := SlotAt(Run(EmptyCluster(maxGlobal, maxPerUser), actions), k);
      && s.cell.current.Some?
      && s.cell.current.value.uid == s.pod.value.owner
      && s.cell.current.value.body.finalizer
  {
    RunKeepsGlobal(maxGlobal, maxPerUser, actions);
  }

  /** After every run, whatever happens next moves a server's state only as
      LegalMove allows, and never back to the empty state. */
  lemma LifecycleEdges(maxGlobal: int, maxPerUser: int, actions: seq<Action>, next: Action)
    requires ReadsCurrent(next) && forall a <- actions :: ReadsCurrent(a)
    ensures var c := Run(EmptyCluster(maxGlobal, maxPerUser), actions);
      var s, s' := SlotAt(c, next.key), SlotAt(Do(c, next), next.key);
      s.cell.current.Some? && s'.cell.current.Some? ==>
        var from, to := s.cell.current.value.body.status.state, s'.cell.current.value.body.status.state;
        from == to || LegalMove(s, Informed(c, next.key, next.event), from, to)
  {
    RunKeepsGlobal(maxGlobal, maxPerUser, actions);
    var c := Run(EmptyCluster(maxGlobal, maxPerUser), actions);
    DoKeepsSlots(c, next);
    var s, e := SlotAt(c, next.key), Informed(c, next.key, next.event);
    if s.cell.current.Some? && Apply(s, e).cell.current.Some? {
      StateMovesAreLegal(s, e);
    }
  }

  lemma {:induction false} RunKeepsWellStored(maxGlobal: int, maxPerUser: int, actions: seq<Action>)
    ensures forall k <- Run(EmptyCluster(maxGlobal, maxPerUser), actions).slots ::
      WellStored(Run(EmptyCluster(maxGlobal, maxPerUser), actions).slots[k])
  {
    if actions != [] {
      var before, last := actions[..|actions| - 1], actions[|actions| - 1];
      RunKeepsWellStored(maxGlobal, maxPerUser, before);
      var c := Run(EmptyCluster(maxGlobal, maxPerUser), before);
      ApplyKeepsWellStored(SlotAt(c, last.key), Informed(c, last.key, last.event));
    }
  }

  /** In every interleaving, and however stale any read is, published ports are
      none or the exact image of the specified ones, an address comes only with
      that image, and the next write touches only its writer's fields. */
  lemma ConnectionInfoIsNeverTorn(maxGlobal: int, maxPerUser: int, actions: seq<Action>, next: Action)
    ensures var c := Run(EmptyCluster(maxGlobal, maxPerUser), actions);
      var s, s' := SlotAt(c, next.key), SlotAt(Do(c, next), next.key);
      s.cell.current.Some? ==>
        && Untorn(s.cell.current.value.body)
        && (s'.cell.current.Some? ==>
              OwnFieldsOnly(s, Informed(c, next.key, next.event), s.cell.current.value.body, s'.cell.current.value.body))
  {
    RunKeepsWellStored(maxGlobal, maxPerUser, actions);
    var c := Run(EmptyCluster(maxGlobal, maxPerUser), actions);
    var s, e := SlotAt(c, next.key), Informed(c, next.key, next.event);
    if s.cell.current.Some? && Apply(s, e).cell.current.Some? {
      WritersKeepToTheirFields(s, e);
    }
  }
}
