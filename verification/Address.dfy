/** The reconciler publishes a Pod's IP where the DNS controller publishes a
    hostname. */
module Address {
  import opened Lifecycle
  import opened VersionedStore
  import opened GameServers
  import opened GameServerSlot
  import opened Dns
  import Reconciler

  /** A Ready server that nobody has allocated, at rest next to its running Pod. */
  predicate IsUp(w: World, pod: Pod) {
    && w.cell.current.Some? && IsPodUp(pod)
    && var g := w.cell.current.value.body;
       !g.deleting && g.finalizer && g.status.state == Ready && !IsAllocated(g)
  }

  function Reconciled(w: World, pod: Pod, i: Input): World {
    w.(cell := Reconciler.Pass(Slot(w.cell, Some(pod), None), i).cell)
  }

  /** One reconcile writes the Pod's IP over whatever address was there. */
  lemma ReconcilePublishesIp(w: World, pod: Pod, i: Input)
    requires IsUp(w, pod)
    ensures var v, w' := w.cell.current.value, Reconciled(w, pod, i);
      && w'.cell.current.Some? && w'.cell.current.value.uid == v.uid
      && w'.cell.current.value.body == v.body.(status := Published(v.body.status, pod.ip, v.body.spec.ports, i.now))
  {
    var s := Apply(Slot(w.cell, Some(pod), None), Begin);
    Reconciler.DrainStep(s, i);
    Reconciler.DrainStep(WorkerStep(s, s.worker.value, i, s.cell.current.value), i);
  }

  /** An exposed server stays exposed through its next reconcile if and only if
      its Pod's IP is its hostname, the address being that IP either way; and the
      next DNS pass exposes it again. */
  lemma ControllersContestTheAddress(w: World, cfg: Config, pod: Pod, i: Input)
    requires IsUp(w, pod) && IsExposed(w, cfg) && cfg.baseDomain != "" && w.cell.current.value.body.spec.owner != ""
    ensures var w', hostname := Reconciled(w, pod, i), Hostname(w.cell.current.value.body, cfg);
      && (IsExposed(w', cfg) <==> pod.ip == hostname)
      && w'.cell.current.Some? && w'.cell.current.value.body.status.address == pod.ip
      && IsExposed(Pass(w', cfg), cfg)
  {
    ReconcilePublishesIp(w, pod, i);
    var w' := Reconciled(w, pod, i);
    PublishedIsImage(w.cell.current.value.body, cfg);
    PublishedIsImage(w'.cell.current.value.body, cfg);
    OnePassConverges(w', cfg);
  }
}
