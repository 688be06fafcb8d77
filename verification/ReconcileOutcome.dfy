/** Where one undisturbed reconcile leads, said over what can be observed: the
    Pod's phase and containers, the annotation, the clock, the counts. */
module ReconcileOutcome {
  import opened Lifecycle
  import opened VersionedStore
  import opened GameServers
  import opened GameServerSlot

  /** The Pod runs and every one of its containers, of which there are some, is
      ready. */
  predicate Runs(pod: Option<Pod>) {
    pod.Some? && pod.value.phase == PodRunning && |pod.value.containers| > 0 && false !in pod.value.containers
  }

  predicate Wanted(g: GameServer) {
    "kterodactyl.io/allocated" in g.annotations && g.annotations["kterodactyl.io/allocated"] == "true"
  }

  /** Progressing has been true for more than five minutes. */
  predicate IsLate(cs: Conditions, now: Time) {
    Progressing in cs && cs[Progressing].status && cs[Progressing].since + 300 < now
  }

  predicate IsAdmitted(g: GameServer, i: Input) {
    g.spec.owner != "" && i.total <= i.maxGlobal && i.own <= i.maxPerUser && i.namespaceOk
  }

  /** The state a reconcile of an object with its finalizer and no deletion mark
      ends in. */
  predicate LeadsTo(uid: nat, g: GameServer, pod: Option<Pod>, i: Input, to: State) {
    match g.status.state
    case Unset => to == Creating
    case Creating =>
      && (to == Error <==> !IsAdmitted(g, i))
      && (to == Starting <==> IsAdmitted(g, i) && (pod.Some? ==> pod.value.owner == uid))
      && to in {Error, Starting, Creating}
    case Starting =>
      && (to == Ready <==> Runs(pod))
      && (to == Creating <==> pod.None?)
      && (to == Error <==> pod.Some? && !Runs(pod) && (pod.value.phase == PodFailed || IsLate(g.status.conditions, i.now)))
      && to in {Ready, Creating, Error, Starting}
    case Ready =>
      && (to == Error <==> !Runs(pod))
      && (to == Allocated <==> Runs(pod) && Wanted(g))
      && to in {Error, Allocated, Ready}
    case Allocated =>
      && (to == Error <==> !Runs(pod))
      && (to == Ready <==> Runs(pod) && !Wanted(g))
      && to in {Error, Ready, Allocated}
    case Shutdown => to == Shutdown
    case Error => to == Error
  }

  predicate Is(cs: Conditions, t: ConditionType, status: bool) {
    t in cs && cs[t].status == status
  }

  predicate Same(cs: Conditions, cs': Conditions, t: ConditionType) {
    (t in cs <==> t in cs') && (t in cs ==> cs'[t] == cs[t])
  }

  /** What the conditions say after a reconcile from one state to another. */
  predicate TellsOf(cs: Conditions, cs': Conditions, from: State, to: State) {
    match to
    case Unset => false
    case Creating =>
      if from == to then cs' == cs
      else Is(cs', Progressing, true) && Is(cs', ReadyCondition, false) && Same(cs, cs', Degraded)
    case Starting =>
      if from == to then cs' == cs
      else Is(cs', Progressing, true) && Is(cs', ReadyCondition, false) && Same(cs, cs', Degraded)
    case Ready => Is(cs', ReadyCondition, true) && Is(cs', Progressing, false) && Same(cs, cs', Degraded)
    case Allocated =>
      if from == to then cs' == cs
      else Is(cs', ReadyCondition, true) && Same(cs, cs', Progressing) && Same(cs, cs', Degraded)
    case Shutdown => Is(cs', ReadyCondition, false) && Same(cs, cs', Progressing) && Same(cs, cs', Degraded)
    case Error =>
      if from == to then Is(cs', Degraded, true) && Same(cs, cs', ReadyCondition) && Same(cs, cs', Progressing)
      else Is(cs', Degraded, true) && Is(cs', ReadyCondition, false) && Is(cs', Progressing, false)
  }

  /** A condition's clock starts when its status changes, and only then. */
  predicate ClocksKept(cs: Conditions, cs': Conditions, now: Time) {
    forall t <- cs' :: if t in cs && cs[t].status == cs'[t].status then cs'[t] == cs[t] else cs'[t].since == now
  }

  /** The status written, address and ports included. */
  predicate StatusFollows(g: GameServer, pod: Option<Pod>, i: Input, st: Status) {
    var was := g.status;
    && TellsOf(was.conditions, st.conditions, was.state, st.state)
    && ClocksKept(was.conditions, st.conditions, i.now)
    && if was.state == Ready == st.state then
         pod.Some? && st.address == pod.value.ip && |st.ports| == |g.spec.ports|
         && forall j :: 0 <= j < |st.ports| ==>
              && st.ports[j].name == g.spec.ports[j].name
              && st.ports[j].port == g.spec.ports[j].containerPort
              && st.ports[j].protocol == g.spec.ports[j].protocol
       else st.address == was.address && st.ports == was.ports
  }

  /** A reconcile makes a Pod for an admitted server that has none, dooms the Pod
      of a stopped one, and leaves every other Pod alone. */
  predicate PodFollows(uid: nat, g: GameServer, pod: Option<Pod>, i: Input, pod': Option<Pod>) {
    if g.status.state == Shutdown then
      (pod'.Some? <==> pod.Some?) && (pod.Some? ==> pod' == Some(pod.value.(live := false)))
    else if g.status.state == Creating && IsAdmitted(g, i) && pod.None? then
      pod'.Some? && pod'.value.owner == uid && pod'.value.live && pod'.value.phase == PodPending && pod'.value.containers == []
    else pod' == pod
  }

  /** The same object with another status. */
  predicate IsStillThere(s: Slot, s': Slot) {
    && s.cell.current.Some? && s'.cell.current.Some?
    && s'.cell.current.value.uid == s.cell.current.value.uid
    && var g, g' := s.cell.current.value.body, s'.cell.current.value.body;
       g'.deleting == g.deleting && g'.spec == g.spec && g'.annotations == g.annotations
  }

  /** The outcome of one undisturbed reconcile, whatever state it finds. */
  predicate IsOutcome(s: Slot, i: Input, s': Slot) {
    if s.cell.current.None? then s' == s
    else
      var uid, g := s.cell.current.value.uid, s.cell.current.value.body;
      && s'.worker.None?
      && if g.deleting then
           if !g.finalizer then s' == s
           else s'.cell.current.None? && (s'.pod.Some? ==> !s'.pod.value.live)
         else
           && IsStillThere(s, s')
           && var g' := s'.cell.current.value.body;
              && g'.finalizer
              && if !g.finalizer then g'.status == g.status && s'.pod == s.pod
                 else
                   && LeadsTo(uid, g, s.pod, i, g'.status.state)
                   && StatusFollows(g, s.pod, i, g'.status)
                   && PodFollows(uid, g, s.pod, i, s'.pod)
  }
}
