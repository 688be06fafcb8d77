/** GameServer objects, the status values the controllers write, and the small
    loops that build them. */
module GameServers {
  import opened Lifecycle

  type Time = int

  const STARTING_TIMEOUT: Time := 300

  const ALLOCATED_ANNOTATION := "kterodactyl.io/allocated"

  datatype ConditionType = ReadyCondition | Progressing | Degraded

  /** `since` is LastTransitionTime. */
  datatype Condition = Condition(status: bool, since: Time)

  /** Conditions are a list keyed by type, hence a map. */
  type Conditions = map<ConditionType, Condition>

  /** meta.SetStatusCondition: the transition time moves only with the status. */
  function SetCondition(cs: Conditions, t: ConditionType, status: bool, now: Time): Conditions {
    if t in cs && cs[t].status == status then cs else cs[t := Condition(status, now)]
  }

  predicate Holds(cs: Conditions, t: ConditionType, status: bool) {
    t in cs && cs[t].status == status
  }

  datatype Port = Port(name: string, containerPort: int, protocol: string)
  datatype StatusPort = StatusPort(name: string, port: int, protocol: string)

  datatype Status = Status(state: State, conditions: Conditions, address: string, ports: seq<StatusPort>)

  const NO_STATUS := Status(Unset, map[], "", [])

  datatype Spec = Spec(owner: string, gameType: string, ports: seq<Port>, parameters: map<string, string>)

  datatype GameServer = GameServer(
    deleting: bool,
    finalizer: bool,
    spec: Spec,
    annotations: map<string, string>,
    status: Status)

  /** A server marked for deletion without a finalizer is gone at the next update. */
  predicate IsKept(g: GameServer) {
    g.deleting ==> g.finalizer
  }

  datatype Phase = PodPending | PodRunning | PodSucceeded | PodFailed | PodUnknown

  /** `live` is false once the Pod carries a deletion mark. */
  datatype Pod = Pod(owner: nat, live: bool, phase: Phase, containers: seq<bool>, ip: string)

  function Lookup(m: map<string, string>, k: string): string {
    if k in m then m[k] else ""
  }

  predicate IsAllocated(g: GameServer) {
    Lookup(g.annotations, ALLOCATED_ANNOTATION) == "true"
  }

  /** A Pod is ready when it reports at least one container and every one it
      reports is ready. */
  predicate AllContainersReady(containers: seq<bool>) {
    containers != [] && forall i :: 0 <= i < |containers| ==> containers[i]
  }

  predicate IsPodUp(pod: Pod) {
    pod.phase == PodRunning && AllContainersReady(pod.containers)
  }

  method IsPodReady(containers: seq<bool>) returns (ready: bool)
    ensures ready <==> AllContainersReady(containers)
  {
    for i := 0 to |containers|
      invariant forall j :: 0 <= j < i ==> containers[j]
    {
      if !containers[i] {
        return false;
      }
    }
    ready := |containers| > 0;
  }

  /** The image of spec.Ports that may be published in status.Ports. */
  function PortImage(ports: seq<Port>): (image: seq<StatusPort>)
    ensures |image| == |ports|
  {
    seq(|ports|, i requires 0 <= i < |ports| => StatusPort(ports[i].name, ports[i].containerPort, ports[i].protocol))
  }

  method MapPorts(ports: seq<Port>) returns (statusPorts: seq<StatusPort>)
    ensures statusPorts == PortImage(ports)
  {
    statusPorts := [];
    for i := 0 to |ports|
      invariant statusPorts == PortImage(ports)[..i]
    {
      statusPorts := statusPorts + [StatusPort(ports[i].name, ports[i].containerPort, ports[i].protocol)];
    }
  }

  /** What transitionState leaves in the status it writes. */
  function Entered(st: Status, to: State, now: Time): Status {
    var cs := st.conditions;
    var cs' :=
      match to
      case Unset => cs
      case Creating => SetCondition(SetCondition(cs, Progressing, true, now), ReadyCondition, false, now)
      case Starting => SetCondition(SetCondition(cs, Progressing, true, now), ReadyCondition, false, now)
      case Ready => SetCondition(SetCondition(cs, ReadyCondition, true, now), Progressing, false, now)
      case Allocated => SetCondition(cs, ReadyCondition, true, now)
      case Shutdown => SetCondition(SetCondition(cs, ReadyCondition, false, now), Progressing, false, now)
      case Error =>
        SetCondition(SetCondition(SetCondition(cs, Degraded, true, now), ReadyCondition, false, now), Progressing, false, now);
    st.(state := to, conditions := cs')
  }

  /** What updateReadyStatus leaves in the status it writes. */
  function Published(st: Status, ip: string, ports: seq<Port>, now: Time): Status {
    st.(address := ip, ports := PortImage(ports),
        conditions := SetCondition(SetCondition(st.conditions, ReadyCondition, true, now), Progressing, false, now))
  }

  /** Conditions tell the truth about the states only the controller writes. */
  predicate Agrees(s: State, cs: Conditions) {
    match s
    case Starting => Holds(cs, Progressing, true) && Holds(cs, ReadyCondition, false)
    case Ready => Holds(cs, ReadyCondition, true) && Holds(cs, Progressing, false)
    case Allocated => Holds(cs, ReadyCondition, true) && Holds(cs, Progressing, false)
    case Error => Holds(cs, Degraded, true) && Holds(cs, ReadyCondition, false) && Holds(cs, Progressing, false)
    case _ => true
  }

  /** Published connection data is all there or not there. */
  predicate Untorn(g: GameServer) {
    && (g.status.ports == [] || g.status.ports == PortImage(g.spec.ports))
    && (g.status.address != "" ==> g.status.ports == PortImage(g.spec.ports))
  }
}
