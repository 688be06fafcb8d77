/** Everything that happens under one GameServer key: the stored object, its
    Pod, and the reconcile worker that holds the key (at most one per key),
    cut at every point where another writer may step in. */
module GameServerSlot {
  import opened Lifecycle
  import opened VersionedStore
  import opened GameServers

  type Server = Stored<GameServer>

  /** What a worker is about to do next. */
  datatype Task =
    | AddFinalizer
    | Initialize
    | CountAll
    | CountOwn
    | SetUpNamespace
    | EnsurePod
    | Observe
    | MoveTo(to: State)
    | Publish(ip: string)
    | StopPod
    | Mark(condition: ConditionType, status: bool)
    | DropPod
    | DropFinalizer

  /** `snap` is the object as first read. `touched` records whether a start,
      stop or restart was written to this key since. */
  datatype Worker = Worker(snap: Server, task: Task, touched: bool)

  datatype Slot = Slot(cell: Cell<GameServer>, pod: Option<Pod>, worker: Option<Worker>)

  function EmptySlot(): Slot {
    Slot(NewCell(), None, None)
  }

  /** What a worker learns from outside its key: the clock, the two list counts
      with their limits, and whether the user namespace could be set up. */
  datatype Input = Input(now: Time, total: int, own: int, maxGlobal: int, maxPerUser: int, namespaceOk: bool)

  /** Restart stands for the restart endpoint and for the writes at the end of
      a mod upload and of a restore: all three set Creating unconditionally. */
  datatype Verb = Start | Stop | Restart

  /** Every event that writes carries the version it read, which may be any
      version the cell ever held. A worker's first read is current in `Begin`
      and of any age in `BeginStale`. */
  datatype Event =
    | CreateServer(spec: Spec, annotations: map<string, string>)
    | DeleteServer
    | Lifecycle(verb: Verb, read: Server)
    | Edit(read: Server, parameters: map<string, string>, annotations: map<string, string>)
    | Connect(read: Server, hostname: string)
    | Disconnect(read: Server)
    | PodReport(phase: Phase, containers: seq<bool>, ip: string)
    | PodDoomed
    | PodGone
    | Begin
    | BeginStale(read: Server)
    | Step(input: Input, read: Server)
    | Abort

  // ---------------------------------------------------------------- writes

  /** Status().Update: only the status of what was sent is taken. */
  function PutStatus(c: Cell<GameServer>, sent: Server): Cell<GameServer> {
    if Accepts(c, sent) then Replace(c, c.current.value.body.(status := sent.body.status)) else c
  }

  /** Update: everything but the status and the deletion mark is taken, and an
      object marked for deletion goes away with its finalizer. */
  function PutMeta(c: Cell<GameServer>, sent: Server): Cell<GameServer> {
    if !Accepts(c, sent) then c
    else
      var stored := c.current.value.body;
      var body := sent.body.(status := stored.status, deleting := stored.deleting);
      if body.deleting && !body.finalizer then Remove(c) else Replace(c, body)
  }

  function WithStatus(v: Server, st: Status): Server {
    v.(body := v.body.(status := st))
  }

  /** Delete: a finalizer turns it into a deletion mark. */
  function MarkDeleted(c: Cell<GameServer>): Cell<GameServer> {
    if c.current.None? then c
    else if !c.current.value.body.finalizer then Remove(c)
    else if c.current.value.body.deleting then c
    else Replace(c, c.current.value.body.(deleting := true))
  }

  // ------------------------------------------------------------------- API

  /** The state a lifecycle handler writes, or None when it answers Conflict. */
  function Requested(verb: Verb, s: State): Option<State> {
    match verb
    case Start => if s == Creating || IsRunning(s) then None else Some(Creating)
    case Stop => if s == Shutdown || s == Error then None else Some(Shutdown)
    case Restart => Some(Creating)
  }

  function ApplyLifecycle(s: Slot, verb: Verb, read: Server): Slot {
    var to := Requested(verb, read.body.status.state);
    if to.None? || !Accepts(s.cell, read) then s
    else
      s.(cell := PutStatus(s.cell, WithStatus(read, read.body.status.(state := to.value))),
         worker := if s.worker.Some? then Some(s.worker.value.(touched := true)) else None)
  }

  // -------------------------------------------------------- DNS controller

  function Connected(st: Status, hostname: string, ports: seq<Port>): Status {
    st.(address := hostname, ports := PortImage(ports))
  }

  predicate IsConnected(st: Status) {
    st.address != "" || st.ports != []
  }

  function Disconnected(st: Status): Status {
    st.(address := "", ports := [])
  }

  // ----------------------------------------------------- reconcile worker

  /** Reconcile up to the first decision. */
  function FirstTask(g: GameServer): Option<Task> {
    if g.deleting then (if g.finalizer then Some(DropPod) else None)
    else if !g.finalizer then Some(AddFinalizer)
    else
      match g.status.state
      case Unset => Some(Initialize)
      case Creating => Some(if g.spec.owner == "" then MoveTo(Error) else CountAll)
      case Starting => Some(Observe)
      case Ready => Some(Observe)
      case Allocated => Some(Observe)
      case Shutdown => Some(StopPod)
      case Error => Some(Mark(Degraded, true))
  }

  function BeginFrom(s: Slot, read: Server): Slot {
    var task := FirstTask(read.body);
    if task.None? then s else s.(worker := Some(Worker(read, task.value, false)))
  }

  predicate StartTimedOut(cs: Conditions, now: Time) {
    Progressing in cs && cs[Progressing].status && now - cs[Progressing].since > STARTING_TIMEOUT
  }

  /** What reconcileStarting, reconcileReady and reconcileAllocated do next after
      reading the Pod; None when there is nothing to write. */
  function Observed(g: GameServer, pod: Option<Pod>, now: Time): Option<Task> {
    if g.status.state == Starting then
      if pod.None? then Some(MoveTo(Creating))
      else if IsPodUp(pod.value) then Some(MoveTo(Ready))
      else if pod.value.phase == PodFailed then Some(MoveTo(Error))
      else if StartTimedOut(g.status.conditions, now) then Some(MoveTo(Error))
      else None
    else if pod.None? || !IsPodUp(pod.value) then Some(MoveTo(Error))
    else if g.status.state == Ready then
      Some(if IsAllocated(g) then MoveTo(Allocated) else Publish(pod.value.ip))
    else if !IsAllocated(g) then Some(MoveTo(Ready))
    else None
  }

  function Done(s: Slot): Slot {
    s.(worker := None)
  }

  function Then(s: Slot, w: Worker, task: Task): Slot {
    s.(worker := Some(w.(task := task)))
  }

  function Doom(pod: Option<Pod>): Option<Pod> {
    if pod.Some? then Some(pod.value.(live := false)) else None
  }

  function NewPod(owner: nat): Pod {
    Pod(owner, true, PodPending, [], "")
  }

  /** One uninterrupted piece of the worker's program. `read` is the object as
      re-fetched just before a write. */
  function WorkerStep(s: Slot, w: Worker, i: Input, read: Server): Slot {
    var g := read.body;
    match w.task
    case AddFinalizer => Done(s.(cell := PutMeta(s.cell, w.snap.(body := w.snap.body.(finalizer := true)))))
    case Initialize => Done(s.(cell := PutStatus(s.cell, WithStatus(w.snap, Entered(w.snap.body.status, Creating, i.now)))))
    case CountAll => Then(s, w, if i.total > i.maxGlobal then MoveTo(Error) else CountOwn)
    case CountOwn => Then(s, w, if i.own > i.maxPerUser then MoveTo(Error) else SetUpNamespace)
    case SetUpNamespace => Then(s, w, if i.namespaceOk then EnsurePod else MoveTo(Error))
    case EnsurePod =>
      if s.pod.None? then Then(s.(pod := Some(NewPod(w.snap.uid))), w, MoveTo(Starting))
      else if s.pod.value.owner != w.snap.uid then Done(s)
      else Then(s, w, MoveTo(Starting))
    case Observe =>
      var task := Observed(w.snap.body, s.pod, i.now);
      if task.None? then Done(s) else Then(s, w, task.value)
    case MoveTo(to) =>
      if !IsValidTransition(w.snap.body.status.state, to) then Done(s)
      else Done(s.(cell := PutStatus(s.cell, WithStatus(read, Entered(g.status, to, i.now)))))
    case Publish(ip) => Done(s.(cell := PutStatus(s.cell, WithStatus(read, Published(g.status, ip, g.spec.ports, i.now)))))
    case StopPod => Then(s.(pod := Doom(s.pod)), w, Mark(ReadyCondition, false))
    case Mark(t, b) =>
      Done(s.(cell := PutStatus(s.cell, WithStatus(read, g.status.(conditions := SetCondition(g.status.conditions, t, b, i.now))))))
    case DropPod => Then(s.(pod := Doom(s.pod)), w, DropFinalizer)
    case DropFinalizer => Done(s.(cell := PutMeta(s.cell, w.snap.(body := w.snap.body.(finalizer := false)))))
  }

  // --------------------------------------------------------------- machine

  /** Events that do not apply in a state leave it as it is. */
  function Apply(s: Slot, e: Event): Slot {
    match e
    case CreateServer(spec, annotations) =>
      s.(cell := Create(s.cell, GameServer(false, false, spec, annotations, NO_STATUS)))
    case DeleteServer => s.(cell := MarkDeleted(s.cell))
    case Lifecycle(verb, read) =>
      if read in s.cell.past then ApplyLifecycle(s, verb, read) else s
    case Edit(read, parameters, annotations) =>
      if read !in s.cell.past then s
      else
        var body := read.body.(spec := read.body.spec.(parameters := parameters), annotations := annotations);
        s.(cell := PutMeta(s.cell, read.(body := body)))
    case Connect(read, hostname) =>
      if read !in s.cell.past || read.body.status.address == hostname then s
      else s.(cell := PutStatus(s.cell, WithStatus(read, Connected(read.body.status, hostname, read.body.spec.ports))))
    case Disconnect(read) =>
      if read !in s.cell.past || !IsConnected(read.body.status) then s
      else s.(cell := PutStatus(s.cell, WithStatus(read, Disconnected(read.body.status))))
    case PodReport(phase, containers, ip) =>
      if s.pod.None? then s
      else s.(pod := Some(s.pod.value.(phase := phase, containers := containers, ip := ip)))
    case PodDoomed => s.(pod := Doom(s.pod))
    case PodGone => s.(pod := None)
    case Begin =>
      if s.worker.Some? || s.cell.current.None? then s else BeginFrom(s, s.cell.current.value)
    case BeginStale(read) =>
      if s.worker.Some? || read !in s.cell.past then s else BeginFrom(s, read)
    case Step(input, read) =>
      if s.worker.None? || read !in s.cell.past then s
      else WorkerStep(s, s.worker.value, input, read)
    case Abort => Done(s)
  }
}
