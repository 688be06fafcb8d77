/** The DNS controller: one Service and one HTTPRoute per serving GameServer, and
    the connection data in its status. */
module Dns {
  import opened Lifecycle
  import opened VersionedStore
  import opened GameServers
  import opened GameServerSlot
  import opened Text

  datatype Config = Config(baseDomain: string, gatewayName: string, gatewayNamespace: string)

  datatype ServicePort = ServicePort(name: string, port: int, targetPort: int, protocol: string)

  /** `owner` is the uid in the controller reference, if there is one. */
  datatype Service = Service(
    owner: Option<nat>,
    labels: map<string, string>,
    selector: map<string, string>,
    ports: seq<ServicePort>)

  datatype Parent = Parent(name: string, namespace: string, section: string)

  datatype Route = Route(
    owner: Option<nat>,
    annotations: map<string, string>,
    parents: seq<Parent>,
    hostnames: seq<string>,
    backend: string,
    backendPort: int)

  /** Everything under one server's name. */
  datatype World = World(name: string, cell: Cell<GameServer>, service: Option<Service>, route: Option<Route>)

  const MANAGED_BY_LABEL := "app.kubernetes.io/managed-by"
  const NAME_LABEL := "app.kubernetes.io/name"
  const OWNER_LABEL := "kterodactyl.io/owner"
  const GAME_LABEL := "kterodactyl.io/game"
  const SERVER_LABEL := "kterodactyl.io/gameserver"
  const TTL_ANNOTATION := "external-dns.alpha.kubernetes.io/ttl"
  const DEFAULT_BACKEND_PORT := 8080

  function DnsName(gameType: string, owner: string, baseDomain: string): string {
    gameType + "." + owner + "." + baseDomain
  }

  predicate IsDotFree(s: string) {
    '.' !in s
  }

  /** Under one base domain two servers share a hostname exactly when game type
      and owner match, both being single DNS labels (section 2.1 of RFC 1123). */
  lemma HostnamesTellServersApart(game: string, owner: string, game': string, owner': string, base: string)
    requires IsDotFree(game) && IsDotFree(owner) && IsDotFree(game') && IsDotFree(owner')
    ensures DnsName(game, owner, base) == DnsName(game', owner', base) <==> game == game' && owner == owner'
  {
    var tail, tail' := owner + ['.'] + base, owner' + ['.'] + base;
    assert DnsName(game, owner, base) == game + ['.'] + tail;
    assert DnsName(game', owner', base) == game' + ['.'] + tail';
    if game + ['.'] + tail == game' + ['.'] + tail' {
      FirstSeparator('.', game, tail, game', tail');
      FirstSeparator('.', owner, base, owner', base);
    }
  }

  // ------------------------------------------------------------ the resources

  /** The labels of a server's Pod. */
  function PodLabels(g: GameServer): map<string, string> {
    map[MANAGED_BY_LABEL := "kterodactyl", NAME_LABEL := "gameserver",
        OWNER_LABEL := g.spec.owner, GAME_LABEL := g.spec.gameType]
  }

  /** A label selector. */
  predicate Selects(selector: map<string, string>, labels: map<string, string>) {
    forall k <- selector :: k in labels && labels[k] == selector[k]
  }

  /** A Service sends traffic to any server's Pod in its namespace that has the
      owner and the game type of its own server, whatever its name. */
  lemma ServicesTellServersApart(name: string, v: Server, was: Option<Service>, other: GameServer)
    ensures Selects(ServiceFor(name, v, was).selector, PodLabels(other)) <==>
      v.body.spec.owner == other.spec.owner && v.body.spec.gameType == other.spec.gameType
  {
    var selector := ServiceFor(name, v, was).selector;
    assert selector[OWNER_LABEL] == v.body.spec.owner && selector[GAME_LABEL] == v.body.spec.gameType;
    assert OWNER_LABEL in selector && GAME_LABEL in selector;
  }

  function ServicePorts(ports: seq<Port>): seq<ServicePort> {
    seq(|ports|, i requires 0 <= i < |ports| =>
      ServicePort(ports[i].name, ports[i].containerPort, ports[i].containerPort, ports[i].protocol))
  }

  /** Labels already on a Service stay; everything else is overwritten. */
  function ServiceFor(name: string, v: Server, was: Option<Service>): Service {
    var labels := if was.Some? then was.value.labels else map[];
    Service(
      Some(v.uid),
      labels[MANAGED_BY_LABEL := "kterodactyl"][SERVER_LABEL := name],
      map[OWNER_LABEL := v.body.spec.owner, GAME_LABEL := v.body.spec.gameType, NAME_LABEL := "gameserver"],
      ServicePorts(v.body.spec.ports))
  }

  function RouteFor(name: string, v: Server, was: Option<Route>, hostname: string, cfg: Config): Route {
    var annotations := if was.Some? then was.value.annotations else map[];
    Route(
      Some(v.uid),
      annotations[TTL_ANNOTATION := "60"],
      [Parent(cfg.gatewayName, cfg.gatewayNamespace, "http")],
      [hostname],
      name,
      if v.body.spec.ports == [] then DEFAULT_BACKEND_PORT else v.body.spec.ports[0].containerPort)
  }

  function Hostname(g: GameServer, cfg: Config): string {
    DnsName(g.spec.gameType, g.spec.owner, cfg.baseDomain)
  }

  predicate IsForeign(owner: Option<nat>, uid: nat) {
    owner.Some? && owner.value != uid
  }

  predicate HasForeignService(w: World, uid: nat) {
    w.service.Some? && IsForeign(w.service.value.owner, uid)
  }

  predicate HasForeignRoute(w: World, uid: nat) {
    w.route.Some? && IsForeign(w.route.value.owner, uid)
  }

  // --------------------------------------------------------------- one pass

  function Cleaned(w: World, v: Server): World {
    var cell := if IsConnected(v.body.status) then PutStatus(w.cell, WithStatus(v, Disconnected(v.body.status))) else w.cell;
    w.(cell := cell, service := None, route := None)
  }

  /** A resource controlled by another object stops the pass with an error. */
  function Routed(w: World, v: Server, cfg: Config): World {
    var hostname := Hostname(v.body, cfg);
    if HasForeignService(w, v.uid) then w
    else
      var w1 := w.(service := Some(ServiceFor(w.name, v, w.service)));
      if HasForeignRoute(w, v.uid) then w1
      else
        var w2 := w1.(route := Some(RouteFor(w.name, v, w.route, hostname, cfg)));
        if v.body.status.address == hostname then w2
        else w2.(cell := PutStatus(w.cell, WithStatus(v, Connected(v.body.status, hostname, v.body.spec.ports))))
  }

  function Pass(w: World, cfg: Config): World {
    if w.cell.current.None? || cfg.baseDomain == "" || w.cell.current.value.body.deleting then w
    else
      var v := w.cell.current.value;
      if !IsServing(v.body.status.state) then Cleaned(w, v)
      else if v.body.spec.owner == "" then w
      else Routed(w, v, cfg)
  }

  class DnsReconciler {
    const name: string
    var cell: Cell<GameServer>
    var service: Option<Service>
    var route: Option<Route>

    ghost function View(): World
      reads this
    {
      World(name, cell, service, route)
    }

    method UpdateStatus(sent: Server)
      modifies this`cell
      ensures cell == PutStatus(old(cell), sent)
    {
      if cell.current.Some? && cell.current.value.version == sent.version {
        cell := Replace(cell, cell.current.value.body.(status := sent.body.status));
      }
    }

    method MapServicePorts(ports: seq<Port>) returns (servicePorts: seq<ServicePort>)
      ensures servicePorts == ServicePorts(ports)
    {
      servicePorts := [];
      for i := 0 to |ports|
        invariant servicePorts == ServicePorts(ports)[..i]
      {
        var p := ports[i];
        servicePorts := servicePorts + [ServicePort(p.name, p.containerPort, p.containerPort, p.protocol)];
      }
    }

    method EnsureService(gs: Server) returns (ok: bool)
      modifies this`service
      ensures ok <==> !HasForeignService(old(View()), gs.uid)
      ensures service == if ok then Some(ServiceFor(name, gs, old(service))) else old(service)
      ensures ok ==> IsServiceOf(service.value, name, gs)
    {
      if service.Some? && service.value.owner.Some? && service.value.owner.value != gs.uid {
        return false;
      }
      var labels := if service.Some? then service.value.labels else map[];
      labels := labels[MANAGED_BY_LABEL := "kterodactyl"];
      labels := labels[SERVER_LABEL := name];
      var selector := map[OWNER_LABEL := gs.body.spec.owner, GAME_LABEL := gs.body.spec.gameType, NAME_LABEL := "gameserver"];
      var ports := MapServicePorts(gs.body.spec.ports);
      service := Some(Service(Some(gs.uid), labels, selector, ports));
      ok := true;
    }

    method EnsureRoute(gs: Server, hostname: string, cfg: Config) returns (ok: bool)
      modifies this`route
      ensures ok <==> !HasForeignRoute(old(View()), gs.uid)
      ensures route == if ok then Some(RouteFor(name, gs, old(route), hostname, cfg)) else old(route)
      ensures ok && hostname == Hostname(gs.body, cfg) ==> IsRouteOf(route.value, name, gs, cfg)
    {
      if route.Some? && route.value.owner.Some? && route.value.owner.value != gs.uid {
        return false;
      }
      var annotations := if route.Some? then route.value.annotations else map[];
      annotations := annotations[TTL_ANNOTATION := "60"];
      var backendPort := DEFAULT_BACKEND_PORT;
      if |gs.body.spec.ports| > 0 {
        backendPort := gs.body.spec.ports[0].containerPort;
      }
      var parents := [Parent(cfg.gatewayName, cfg.gatewayNamespace, "http")];
      route := Some(Route(Some(gs.uid), annotations, parents, [hostname], name, backendPort));
      ok := true;
    }

    method Reconcile(cfg: Config)
      modifies this
      ensures View() == Pass(old(View()), cfg)
    {
      if cell.current.None? || cfg.baseDomain == "" {
        return;
      }
      var gs := cell.current.value;
      if gs.body.deleting {
        return;
      }
      if gs.body.status.state != Ready && gs.body.status.state != Allocated {
        service := None;
        route := None;
        if gs.body.status.address != "" || |gs.body.status.ports| > 0 {
          UpdateStatus(WithStatus(gs, gs.body.status.(address := "", ports := [])));
        }
        return;
      }
      if gs.body.spec.owner == "" {
        return;
      }
      var hostname := DnsName(gs.body.spec.gameType, gs.body.spec.owner, cfg.baseDomain);
      var ok := EnsureService(gs);
      if !ok {
        return;
      }
      ok := EnsureRoute(gs, hostname, cfg);
      if !ok || gs.body.status.address == hostname {
        return;
      }
      var statusPorts := MapPorts(gs.body.spec.ports);
      UpdateStatus(WithStatus(gs, gs.body.status.(address := hostname, ports := statusPorts)));
    }
  }

  // ------------------------------------------------------------- convergence

  /** The Service that sends a server's traffic to its Pod, field by field. */
  predicate IsServiceOf(s: Service, name: string, v: Server) {
    var g := v.body;
    && s.owner == Some(v.uid)
    && s.selector.Keys == {OWNER_LABEL, GAME_LABEL, NAME_LABEL}
    && s.selector[OWNER_LABEL] == g.spec.owner && s.selector[GAME_LABEL] == g.spec.gameType
    && s.selector[NAME_LABEL] == "gameserver"
    && MANAGED_BY_LABEL in s.labels && s.labels[MANAGED_BY_LABEL] == "kterodactyl"
    && SERVER_LABEL in s.labels && s.labels[SERVER_LABEL] == name
    && |s.ports| == |g.spec.ports|
    && forall i :: 0 <= i < |s.ports| ==>
         && s.ports[i].name == g.spec.ports[i].name
         && s.ports[i].port == s.ports[i].targetPort == g.spec.ports[i].containerPort
         && s.ports[i].protocol == g.spec.ports[i].protocol
  }

  /** The route from the configured gateway to that Service, field by field. */
  predicate IsRouteOf(r: Route, name: string, v: Server, cfg: Config) {
    var g := v.body;
    && r.owner == Some(v.uid)
    && TTL_ANNOTATION in r.annotations && r.annotations[TTL_ANNOTATION] == "60"
    && |r.parents| == 1
    && r.parents[0].name == cfg.gatewayName && r.parents[0].namespace == cfg.gatewayNamespace
    && r.parents[0].section == "http"
    && r.hostnames == [g.spec.gameType + "." + g.spec.owner + "." + cfg.baseDomain]
    && r.backend == name
    && r.backendPort == (if |g.spec.ports| > 0 then g.spec.ports[0].containerPort else 8080)
  }

  /** The connection data of a server that can be reached, field by field. */
  predicate IsPublished(g: GameServer, cfg: Config) {
    && g.status.address == g.spec.gameType + "." + g.spec.owner + "." + cfg.baseDomain
    && |g.status.ports| == |g.spec.ports|
    && forall i :: 0 <= i < |g.status.ports| ==>
         && g.status.ports[i].name == g.spec.ports[i].name
         && g.status.ports[i].port == g.spec.ports[i].containerPort
         && g.status.ports[i].protocol == g.spec.ports[i].protocol
  }

  predicate IsExposed(w: World, cfg: Config) {
    && w.cell.current.Some? && w.service.Some? && w.route.Some?
    && var v := w.cell.current.value;
       && IsServiceOf(w.service.value, w.name, v)
       && IsRouteOf(w.route.value, w.name, v, cfg)
       && IsPublished(v.body, cfg)
  }

  /** Both have `k`, with the same value, or neither has. */
  predicate SameAt(m: map<string, string>, m': map<string, string>, k: string) {
    (k in m <==> k in m') && (k in m ==> m[k] == m'[k])
  }

  /** Labels and annotations that others put there are still there, and a new
      Service or Route has none but its own. */
  ghost predicate ForeignMarksKept(w: World, w': World) {
    && (w.service.Some? && w'.service.Some? ==>
          forall k :: k != MANAGED_BY_LABEL && k != SERVER_LABEL ==>
            SameAt(w.service.value.labels, w'.service.value.labels, k))
    && (w.route.Some? && w'.route.Some? ==>
          forall k :: k != TTL_ANNOTATION ==> SameAt(w.route.value.annotations, w'.route.value.annotations, k))
    && (w.service.None? && w'.service.Some? ==> w'.service.value.labels.Keys == {MANAGED_BY_LABEL, SERVER_LABEL})
    && (w.route.None? && w'.route.Some? ==> w'.route.value.annotations.Keys == {TTL_ANNOTATION})
  }

  predicate IsHidden(w: World) {
    w.service.None? && w.route.None? && w.cell.current.Some? && !IsConnected(w.cell.current.value.body.status)
  }

  lemma PublishedIsImage(g: GameServer, cfg: Config)
    ensures IsPublished(g, cfg) <==> g.status.address == Hostname(g, cfg) && g.status.ports == PortImage(g.spec.ports)
  {
    if IsPublished(g, cfg) {
      assert g.status.ports == PortImage(g.spec.ports);
    }
  }

  lemma WrittenServiceIsOwn(name: string, v: Server, was: Option<Service>)
    ensures IsServiceOf(ServiceFor(name, v, was), name, v)
  {}

  lemma WrittenRouteIsOwn(name: string, v: Server, was: Option<Route>, cfg: Config)
    ensures IsRouteOf(RouteFor(name, v, was, Hostname(v.body, cfg), cfg), name, v, cfg)
  {}

  lemma RoutedIsExposed(w: World, v: Server, cfg: Config)
    requires w.cell.current == Some(v) && Untorn(v.body) && !HasForeignService(w, v.uid) && !HasForeignRoute(w, v.uid)
    requires Hostname(v.body, cfg) != ""
    ensures var w' := Routed(w, v, cfg);
      && IsExposed(w', cfg)
      && w'.cell.current.value.body == v.body.(status := v.body.status.(address := w'.cell.current.value.body.status.address,
                                                                          ports := w'.cell.current.value.body.status.ports))
  {
    var v' := Routed(w, v, cfg).cell.current.value;
    WrittenServiceIsOwn(w.name, v, w.service);
    WrittenRouteIsOwn(w.name, v, w.route, cfg);
    PublishedIsImage(v.body, cfg);
    PublishedIsImage(v'.body, cfg);
  }

  /** A pass does not look at a server marked for deletion, and turns back from
      a serving one that has no owner. */
  predicate IsLeftAlone(g: GameServer) {
    g.deleting || (IsServing(g.status.state) && g.spec.owner == "")
  }

  /** A serving server whose Service or Route another object controls: the pass
      ends in an error. */
  predicate IsBlocked(w: World, v: Server) {
    IsServing(v.body.status.state) && (HasForeignService(w, v.uid) || HasForeignRoute(w, v.uid))
  }

  /** What the controller is for: a serving owned server is exposed, and any
      other is hidden. */
  predicate IsConverged(w: World, cfg: Config) {
    && w.cell.current.Some?
    && var g := w.cell.current.value.body;
       if IsServing(g.status.state) && g.spec.owner != "" then IsExposed(w, cfg) else IsHidden(w)
  }

  lemma PassKeepsForeignMarks(w: World, cfg: Config)
    ensures ForeignMarksKept(w, Pass(w, cfg))
  {
    if w.cell.current.Some? {
      var v := w.cell.current.value;
      assert Routed(w, v, cfg).service.Some? && Routed(w, v, cfg).service != w.service ==>
        Routed(w, v, cfg).service == Some(ServiceFor(w.name, v, w.service));
    }
  }

  /** From any earlier Service and Route, whoever controls them, and any status
      whose connection data is whole, one pass converges, changing nothing but
      address and ports of the server, exactly when the server is neither left
      alone nor blocked, or had converged before. */
  lemma OnePassConverges(w: World, cfg: Config)
    requires cfg.baseDomain != "" && w.cell.current.Some? && Untorn(w.cell.current.value.body)
    ensures var v, w' := w.cell.current.value, Pass(w, cfg);
      && (IsConverged(w', cfg) <==> (!IsLeftAlone(v.body) && !IsBlocked(w, v)) || IsConverged(w, cfg))
      && w'.cell.current.Some?
      && w'.cell.current.value.body
         == v.body.(status := v.body.status.(address := w'.cell.current.value.body.status.address,
                                             ports := w'.cell.current.value.body.status.ports))
      && ForeignMarksKept(w, w')
  {
    var v := w.cell.current.value;
    PassKeepsForeignMarks(w, cfg);
    if IsServing(v.body.status.state) && v.body.spec.owner != "" && !v.body.deleting && !IsBlocked(w, v) {
      RoutedIsExposed(w, v, cfg);
    }
  }

  /** A server that loses its owner while serving keeps what it was given, and
      so does one that is being deleted. */
  lemma LeftAloneKeepsItsService(w: World, cfg: Config)
    requires w.cell.current.Some? && IsLeftAlone(w.cell.current.value.body) && w.service.Some?
    ensures Pass(w, cfg) == w && !IsHidden(Pass(w, cfg))
  {}

  /** A blocked pass stops where it is refused: at a foreign Service with nothing
      done, at a foreign route with the Service alone written. */
  lemma BlockedPassStops(w: World, cfg: Config)
    requires cfg.baseDomain != "" && w.cell.current.Some? && !IsLeftAlone(w.cell.current.value.body)
    requires IsBlocked(w, w.cell.current.value)
    ensures var v, w' := w.cell.current.value, Pass(w, cfg);
      if HasForeignService(w, v.uid) then w' == w
      else w' == w.(service := w'.service) && w'.service.Some? && IsServiceOf(w'.service.value, w.name, v)
  {
    WrittenServiceIsOwn(w.name, w.cell.current.value, w.service);
  }

  /** Without a base domain, or without the server, nothing is done. */
  lemma NothingToDo(w: World, cfg: Config)
    requires cfg.baseDomain == "" || w.cell.current.None?
    ensures Pass(w, cfg) == w
  {}

  lemma ServiceIsStable(name: string, v: Server, v': Server, was: Option<Service>)
    requires v'.uid == v.uid && v'.body.spec == v.body.spec
    ensures ServiceFor(name, v', Some(ServiceFor(name, v, was))) == ServiceFor(name, v, was)
  {
    var labels := ServiceFor(name, v, was).labels;
    assert labels[MANAGED_BY_LABEL := "kterodactyl"][SERVER_LABEL := name] == labels;
  }

  lemma RouteIsStable(name: string, v: Server, v': Server, was: Option<Route>, hostname: string, cfg: Config)
    requires v'.uid == v.uid && v'.body.spec == v.body.spec
    ensures RouteFor(name, v', Some(RouteFor(name, v, was, hostname, cfg)), hostname, cfg)
         == RouteFor(name, v, was, hostname, cfg)
  {
    var annotations := RouteFor(name, v, was, hostname, cfg).annotations;
    assert annotations[TTL_ANNOTATION := "60"] == annotations;
  }

  lemma RoutedIsStable(w: World, v: Server, cfg: Config)
    requires w.cell.current == Some(v)
    ensures var w' := Routed(w, v, cfg);
      && w'.cell.current.Some?
      && w'.cell.current.value.body == v.body.(status := w'.cell.current.value.body.status)
      && w'.cell.current.value.body.status.state == v.body.status.state
      && Routed(w', w'.cell.current.value, cfg) == w'
  {
    var w' := Routed(w, v, cfg);
    var v' := w'.cell.current.value;
    assert v'.uid == v.uid && v'.body.spec == v.body.spec;
    ServiceIsStable(w.name, v, v', w.service);
    RouteIsStable(w.name, v, v', w.route, Hostname(v.body, cfg), cfg);
  }

  /** A second pass changes nothing, from any state whatever. */
  lemma SecondPassChangesNothing(w: World, cfg: Config)
    ensures Pass(Pass(w, cfg), cfg) == Pass(w, cfg)
  {
    if w.cell.current.Some? && IsServing(w.cell.current.value.body.status.state) {
      RoutedIsStable(w, w.cell.current.value, cfg);
    }
  }
}
