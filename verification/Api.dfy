/** The authenticated HTTP handlers for game servers and backups. A handler is
    cut after every call to the API server, so that other writers may step in
    between its reads and its writes. */
module Api {
  import opened Lifecycle
  import opened VersionedStore
  import opened GameServers
  import opened GameServerSlot
  import opened BackupNames
  import opened Labels
  import BackupLifecycle
  import BackupProtocol
  import Text

  type Backup = BackupProtocol.Backup

  /** Who sent a request, as the token's claims say. */
  datatype Caller = Caller(user: string, admin: bool)

  datatype Manifest = Manifest(
    ports: seq<Port>,
    parameters: map<string, string>,
    modPath: string,
    backupPath: string,
    accepts: map<string, string> -> bool)

  /** The game catalogue and the cron parser's verdict on an expression. */
  datatype Config = Config(games: map<string, Manifest>, isCron: string -> bool)

  datatype Store = Store(servers: map<Key, Cell<GameServer>>, backups: map<Key, Cell<Backup>>)

  datatype Request =
    | ListServers
    | CreateServer(name: string, gameType: string, parameters: map<string, string>)
    | GetServer(name: string)
    | UpdateServer(name: string, parameters: map<string, string>)
    | DeleteServer(name: string)
    | ChangeState(name: string, verb: Verb)
    | SetSchedule(name: string, schedule: string, retention: Text.GoInt)
    | CreateBackup(name: string)
    | ListBackups(name: string)
    | DeleteBackup(name: string, backup: string)
    | RestoreBackup(name: string, backup: string)

  datatype ServerView = ServerView(
    name: string,
    gameType: string,
    state: State,
    address: string,
    ports: seq<StatusPort>,
    parameters: map<string, string>)

  datatype BackupView = BackupView(name: string, server: string, created: Time, status: BackupProtocol.Status)

  datatype Code = BadRequest | Unauthorized | Forbidden | NotFound | Conflict | Internal | Unavailable

  datatype Response =
    | ShowServer(server: ServerView)
    | ShowServers(servers: map<string, ServerView>)
    | ShowSchedule(schedule: string, retention: Text.GoInt)
    | ShowBackup(backup: BackupView)
    | ShowBackups(backups: map<string, BackupView>)
    | Restored(restarting: bool)
    | NoContent
    | Refused(code: Code)

  /** What a handler does next. `read` is the object it fetched; `Transfer` is
      about to download the S3 object the fetched backup points at. */
  datatype Task =
    | Serve(request: Request)
    | SendParameters(name: string, read: Server, parameters: map<string, string>)
    | SendDelete(name: string)
    | SendState(name: string, read: Server, to: State)
    | SendSchedule(name: string, read: Server, schedule: string, retention: Text.GoInt)
    | CheckBackups(name: string)
    | MakeBackup(name: string)
    | MarkPending(backup: string, made: Stored<Backup>)
    | GatherBackups(name: string)
    | SendDeleteBackup(backup: string)
    | FetchBackup(name: string, server: Server, backup: string)
    | Transfer(name: string, bucket: string, objectKey: string)
    | Refetch(name: string)
    | SendRestart(name: string, read: Server)

  /** The clock and the outcome of S3 and of the transfer into the Pod. */
  datatype Input = Input(now: Time, timestamp: string, s3Ready: bool, transferOk: bool)

  datatype Next = Continue(task: Task) | Answer(response: Response)

  /** What a call changes: nothing, or one object in the caller's namespace. */
  datatype Change = Nothing | SetServer(name: string, server: Cell<GameServer>) | SetBackup(name: string, backup: Cell<Backup>)

  datatype Outcome = Outcome(change: Change, next: Next)

  datatype Progress = Progress(store: Store, next: Next)

  datatype Reply = Reply(store: Store, response: Response)

  const MOD_PATH_ANNOTATION := "kterodactyl.io/mod-path"
  const BACKUP_PATH_ANNOTATION := "kterodactyl.io/backup-path"
  const SCHEDULE_ANNOTATION := "kterodactyl.io/backup-schedule"
  const RETENTION_ANNOTATION := "kterodactyl.io/backup-retention"

  // ------------------------------------------------------------------ store

  function Home(caller: Caller, name: string): Key {
    Key(UserNamespace(caller.user), name)
  }

  function ServerAt(st: Store, k: Key): Cell<GameServer> {
    if k in st.servers then st.servers[k] else NewCell()
  }

  function BackupAt(st: Store, k: Key): Cell<Backup> {
    if k in st.backups then st.backups[k] else NewCell()
  }

  predicate IsListedServer(st: Store, k: Key, namespace: string) {
    k in st.servers && k.namespace == namespace && st.servers[k].current.Some?
  }

  predicate IsListedBackup(st: Store, k: Key, namespace: string, server: string) {
    && k in st.backups && k.namespace == namespace && st.backups[k].current.Some?
    && st.backups[k].current.value.body.listedFor == server
  }

  predicate IsBusy(st: Store, namespace: string, server: string) {
    exists k <- st.backups ::
      IsListedBackup(st, k, namespace, server) && st.backups[k].current.value.body.status.state == BackupLifecycle.InProgress
  }

  // ------------------------------------------------------------- renderings

  function ViewServer(name: string, g: GameServer): ServerView {
    ServerView(name, g.spec.gameType, g.status.state, g.status.address, g.status.ports, g.spec.parameters)
  }

  function ViewBackup(name: string, b: Backup): BackupView {
    BackupView(name, b.server, b.created, b.status)
  }

  function ViewServers(st: Store, namespace: string): map<string, ServerView> {
    map k | k in st.servers && IsListedServer(st, k, namespace) ::
      k.name := ViewServer(k.name, st.servers[k].current.value.body)
  }

  function ViewBackups(st: Store, namespace: string, server: string): map<string, BackupView> {
    map k | k in st.backups && IsListedBackup(st, k, namespace, server) ::
      k.name := ViewBackup(k.name, st.backups[k].current.value.body)
  }

  // ----------------------------------------------------------- handler steps

  function WithParameters(g: GameServer, parameters: map<string, string>): GameServer {
    g.(spec := g.spec.(parameters := parameters))
  }

  function WithState(g: GameServer, to: State): GameServer {
    g.(status := g.status.(state := to))
  }

  function Scheduled(annotations: map<string, string>, schedule: string, retention: Text.GoInt): map<string, string> {
    if schedule == "" then annotations - {SCHEDULE_ANNOTATION, RETENTION_ANNOTATION}
    else if retention <= 0 then annotations[SCHEDULE_ANNOTATION := schedule] - {RETENTION_ANNOTATION}
    else annotations[SCHEDULE_ANNOTATION := schedule][RETENTION_ANNOTATION := Text.Decimal(retention)]
  }

  function WithSchedule(g: GameServer, schedule: string, retention: Text.GoInt): GameServer {
    g.(annotations := Scheduled(g.annotations, schedule, retention))
  }

  function Paths(m: Manifest): map<string, string> {
    (if m.modPath == "" then map[] else map[MOD_PATH_ANNOTATION := m.modPath]) +
    (if m.backupPath == "" then map[] else map[BACKUP_PATH_ANNOTATION := m.backupPath])
  }

  function NewServer(caller: Caller, gameType: string, m: Manifest, parameters: map<string, string>): GameServer {
    GameServer(false, false, Spec(caller.user, gameType, m.ports, parameters), Paths(m), NO_STATUS)
  }

  function Pass(next: Next): Outcome {
    Outcome(Nothing, next)
  }

  function Refuse(code: Code): Outcome {
    Pass(Answer(Refused(code)))
  }

  /** The whole of a create, which makes a single call. */
  function CreateOutcome(cfg: Config, st: Store, caller: Caller, request: Request): Outcome
    requires request.CreateServer?
  {
    if caller.user == "" then Refuse(Unauthorized)
    else if request.name == "" || request.gameType == "" || request.gameType !in cfg.games then Refuse(BadRequest)
    else
      var m := cfg.games[request.gameType];
      var parameters := m.parameters + request.parameters;
      var c := ServerAt(st, Home(caller, request.name));
      if !m.accepts(parameters) then Refuse(BadRequest)
      else if c.current.Some? then Refuse(Conflict)
      else
        var g := NewServer(caller, request.gameType, m, parameters);
        Outcome(SetServer(request.name, Create(c, g)), Answer(ShowServer(ViewServer(request.name, g))))
  }

  /** What a handler decides after fetching the server its path names. */
  function Decide(cfg: Config, request: Request, read: Server): Next {
    match request
    case GetServer(name) => Answer(ShowServer(ViewServer(name, read.body)))
    case UpdateServer(name, overrides) =>
      var parameters := read.body.spec.parameters + overrides;
      var game := read.body.spec.gameType;
      if game in cfg.games && !cfg.games[game].accepts(parameters) then Answer(Refused(BadRequest))
      else Continue(SendParameters(name, read, parameters))
    case DeleteServer(name) => Continue(SendDelete(name))
    case ChangeState(name, verb) =>
      var to := Requested(verb, read.body.status.state);
      if to.None? then Answer(Refused(Conflict)) else Continue(SendState(name, read, to.value))
    case SetSchedule(name, schedule, retention) =>
      if schedule != "" && !cfg.isCron(schedule) then Answer(Refused(BadRequest))
      else Continue(SendSchedule(name, read, schedule, retention))
    case CreateBackup(name) =>
      if !IsServing(read.body.status.state) then Answer(Refused(Conflict)) else Continue(CheckBackups(name))
    case ListBackups(name) => Continue(GatherBackups(name))
    case RestoreBackup(name, backup) => Continue(FetchBackup(name, read, backup))
    case _ => Answer(Refused(NotFound))
  }

  predicate NeedsAdmin(request: Request) {
    request.SetSchedule? || request.DeleteBackup? || request.RestoreBackup?
  }

  /** From the router to the end of the first call. */
  function BeginOutcome(cfg: Config, st: Store, caller: Caller, request: Request): Outcome {
    if NeedsAdmin(request) && !caller.admin then Refuse(Forbidden)
    else
      match request
      case ListServers => Pass(Answer(ShowServers(ViewServers(st, UserNamespace(caller.user)))))
      case CreateServer(_, _, _) => CreateOutcome(cfg, st, caller, request)
      case DeleteBackup(name, backup) =>
        var read := BackupAt(st, Home(caller, backup)).current;
        if read.None? || read.value.body.server != name then Refuse(NotFound) else Pass(Continue(SendDeleteBackup(backup)))
      case _ =>
        if request.UpdateServer? && request.parameters == map[] then Refuse(BadRequest)
        else
          var read := ServerAt(st, Home(caller, request.name)).current;
          if read.None? then Refuse(NotFound) else Pass(Decide(cfg, request, read.value))
  }

  /** Restore's checks once both objects are read. */
  function FetchedBackup(name: string, server: Server, read: Option<Stored<Backup>>): Outcome {
    if read.None? || read.value.body.server != name then Refuse(NotFound)
    else if read.value.body.status.state != BackupLifecycle.Completed || !IsServing(server.body.status.state) then Refuse(Conflict)
    else Pass(Continue(Transfer(name, read.value.body.status.bucket, read.value.body.status.key)))
  }

  /** An update of the whole object but its status; an accepted one is answered. */
  function UpdateOutcome(c: Cell<GameServer>, name: string, sent: Server, response: Response): Outcome {
    if Accepts(c, sent) then Outcome(SetServer(name, PutMeta(c, sent)), Answer(response)) else Refuse(Internal)
  }

  function StateOutcome(c: Cell<GameServer>, name: string, sent: Server, response: Response, failure: Response): Outcome {
    if Accepts(c, sent) then Outcome(SetServer(name, PutStatus(c, sent)), Answer(response)) else Pass(Answer(failure))
  }

  function MakeBackupOutcome(c: Cell<Backup>, name: string, backup: string, now: Time): Outcome {
    if c.current.Some? then Refuse(Internal)
    else
      var c' := Create(c, BackupProtocol.Backup(name, name, now, BackupProtocol.NO_STATUS));
      Outcome(SetBackup(backup, c'), Continue(MarkPending(backup, c'.current.value)))
  }

  function MarkPendingOutcome(c: Cell<Backup>, backup: string, made: Stored<Backup>): Outcome {
    var status := made.body.status.(state := BackupLifecycle.Pending);
    if !Accepts(c, made) then Refuse(Internal)
    else Outcome(SetBackup(backup, BackupProtocol.PutStatus(c, made, status)),
                 Answer(ShowBackup(ViewBackup(backup, made.body.(status := status)))))
  }

  /** One call to the API server and what the handler makes of it. */
  function Call(cfg: Config, st: Store, caller: Caller, task: Task, i: Input): Outcome {
    match task
    case Serve(request) => BeginOutcome(cfg, st, caller, request)
    case SendParameters(name, read, parameters) =>
      var sent := read.(body := WithParameters(read.body, parameters));
      UpdateOutcome(ServerAt(st, Home(caller, name)), name, sent, ShowServer(ViewServer(name, sent.body)))
    case SendDelete(name) =>
      var c := ServerAt(st, Home(caller, name));
      if c.current.None? then Refuse(Internal) else Outcome(SetServer(name, MarkDeleted(c)), Answer(NoContent))
    case SendState(name, read, to) =>
      var sent := read.(body := WithState(read.body, to));
      StateOutcome(ServerAt(st, Home(caller, name)), name, sent, ShowServer(ViewServer(name, sent.body)), Refused(Internal))
    case SendSchedule(name, read, schedule, retention) =>
      var sent := read.(body := WithSchedule(read.body, schedule, retention));
      var kept := if schedule != "" && retention > 0 then retention else 0;
      UpdateOutcome(ServerAt(st, Home(caller, name)), name, sent, ShowSchedule(schedule, kept))
    case CheckBackups(name) =>
      if IsBusy(st, UserNamespace(caller.user), name) then Refuse(Conflict) else Pass(Continue(MakeBackup(name)))
    case MakeBackup(name) =>
      var backup := BackupName(OnDemand, name, i.timestamp);
      MakeBackupOutcome(BackupAt(st, Home(caller, backup)), name, backup, i.now)
    case MarkPending(backup, made) => MarkPendingOutcome(BackupAt(st, Home(caller, backup)), backup, made)
    case GatherBackups(name) => Pass(Answer(ShowBackups(ViewBackups(st, UserNamespace(caller.user), name))))
    case SendDeleteBackup(backup) =>
      var c := BackupAt(st, Home(caller, backup));
      if c.current.None? then Refuse(Internal) else Outcome(SetBackup(backup, Remove(c)), Answer(NoContent))
    case FetchBackup(name, server, backup) => FetchedBackup(name, server, BackupAt(st, Home(caller, backup)).current)
    case Transfer(name, _, _) =>
      if !i.s3Ready then Refuse(Unavailable) else if !i.transferOk then Refuse(Internal) else Pass(Continue(Refetch(name)))
    case Refetch(name) =>
      var read := ServerAt(st, Home(caller, name)).current;
      Pass(if read.None? then Answer(Restored(false)) else Continue(SendRestart(name, read.value)))
    case SendRestart(name, read) =>
      var sent := read.(body := WithState(read.body, Creating));
      StateOutcome(ServerAt(st, Home(caller, name)), name, sent, Restored(true), Restored(false))
  }

  function Commit(st: Store, caller: Caller, change: Change): Store {
    match change
    case Nothing => st
    case SetServer(name, c) => st.(servers := st.servers[Home(caller, name) := c])
    case SetBackup(name, c) => st.(backups := st.backups[Home(caller, name) := c])
  }

  function Step(cfg: Config, st: Store, caller: Caller, task: Task, i: Input): Progress {
    var o := Call(cfg, st, caller, task, i);
    Progress(Commit(st, caller, o.change), o.next)
  }

  // ------------------------------------------------- a handler left to itself

  /** How many calls are still to come, at most. */
  function CallsLeft(task: Task): nat {
    match task
    case Serve(_) => 5
    case FetchBackup(_, _, _) => 4
    case CheckBackups(_) => 3
    case Transfer(_, _, _) => 3
    case MakeBackup(_) => 2
    case Refetch(_) => 2
    case _ => 1
  }

  lemma StepsLowerCallsLeft(cfg: Config, st: Store, caller: Caller, task: Task, i: Input)
    ensures var next := Step(cfg, st, caller, task, i).next; next.Continue? ==> CallsLeft(next.task) < CallsLeft(task)
  {}

  /** The rest of a handler when nobody steps in. */
  function Finish(cfg: Config, st: Store, caller: Caller, task: Task, i: Input): Reply
    decreases CallsLeft(task)
  {
    StepsLowerCallsLeft(cfg, st, caller, task, i);
    var p := Step(cfg, st, caller, task, i);
    if p.next.Answer? then Reply(p.store, p.next.response) else Finish(cfg, p.store, caller, p.next.task, i)
  }

  /** A handler that goes on with `andThen` ends as that does. */
  lemma Proceeds(cfg: Config, st: Store, caller: Caller, task: Task, st': Store, andThen: Task, i: Input)
    requires Step(cfg, st, caller, task, i) == Progress(st', Continue(andThen))
    ensures Finish(cfg, st, caller, task, i) == Finish(cfg, st', caller, andThen, i)
  {}
}
