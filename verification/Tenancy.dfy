/** Many users' requests in flight at once, next to the controllers: what a user
    sees depends on that user's namespace alone, and an accepted request takes
    effect in one instant. */
module Tenancy {
  import opened Lifecycle
  import opened VersionedStore
  import opened GameServers
  import GameServerSlot
  import BackupNames
  import BackupProtocol
  import BackupLifecycle
  import opened Labels
  import opened Api
  import opened ApiOutcome

  datatype Id = Id(user: string, number: nat)

  datatype Session = Session(admin: bool, request: Request, task: Task)

  datatype Entry = Entry(id: Id, response: Response)

  datatype World = World(store: Store, sessions: map<Id, Session>, log: seq<Entry>)

  const EMPTY := World(Store(map[], map[]), map[], [])

  /** A request arrives, or a pending one makes its next call, or a controller
      writes or removes an object, whatever it likes to write. */
  datatype Event =
    | Arrive(id: Id, admin: bool, request: Request)
    | Advance(id: Id, input: Input)
    | WriteServer(key: Key, server: GameServer)
    | DropServer(key: Key)
    | WriteBackup(key: Key, body: Backup)
    | DropBackup(key: Key)

  function Put<T>(c: Cell<T>, body: T): Cell<T> {
    if c.current.None? then Create(c, body) else Replace(c, body)
  }

  function SetServerCell(w: World, k: Key, c: Cell<GameServer>): World {
    w.(store := w.store.(servers := w.store.servers[k := c]))
  }

  function SetBackupCell(w: World, k: Key, c: Cell<Backup>): World {
    w.(store := w.store.(backups := w.store.backups[k := c]))
  }

  /** The session moves on to its next task, or is answered and over. */
  function Settled(w: World, id: Id, p: Progress): World
    requires id in w.sessions
  {
    match p.next
    case Continue(task) => World(p.store, w.sessions[id := w.sessions[id].(task := task)], w.log)
    case Answer(response) => World(p.store, w.sessions - {id}, w.log + [Entry(id, response)])
  }

  function Advanced(cfg: Config, w: World, id: Id, i: Input): World
    requires id in w.sessions
  {
    Settled(w, id, Step(cfg, w.store, Caller(id.user, w.sessions[id].admin), w.sessions[id].task, i))
  }

  function Do(cfg: Config, w: World, e: Event): World {
    match e
    case Arrive(id, admin, request) =>
      if id in w.sessions then w else w.(sessions := w.sessions[id := Session(admin, request, Serve(request))])
    case Advance(id, i) => if id in w.sessions then Advanced(cfg, w, id, i) else w
    case WriteServer(k, g) =>
      if g.deleting && !g.finalizer then w else SetServerCell(w, k, Put(ServerAt(w.store, k), g))
    case DropServer(k) => SetServerCell(w, k, Remove(ServerAt(w.store, k)))
    case WriteBackup(k, b) => SetBackupCell(w, k, Put(BackupAt(w.store, k), b))
    case DropBackup(k) => SetBackupCell(w, k, Remove(BackupAt(w.store, k)))
  }

  function Run(cfg: Config, w: World, events: seq<Event>): World {
    if |events| == 0 then w
    else Do(cfg, Run(cfg, w, events[..|events| - 1]), events[|events| - 1])
  }

  // ------------------------------------------------------------- projection

  function Part<T>(cells: map<Key, Cell<T>>, namespace: string): map<Key, Cell<T>> {
    map k | k in cells && k.namespace == namespace :: cells[k]
  }

  function StorePart(st: Store, namespace: string): Store {
    Store(Part(st.servers, namespace), Part(st.backups, namespace))
  }

  function LogOf(log: seq<Entry>, user: string): seq<Entry> {
    if log == [] then []
    else
      var before := LogOf(log[..|log| - 1], user);
      if log[|log| - 1].id.user == user then before + [log[|log| - 1]] else before
  }

  /** One user's namespace, pending requests and answers. */
  function Mine(w: World, user: string): World {
    World(
      StorePart(w.store, UserNamespace(user)),
      map id | id in w.sessions && id.user == user :: w.sessions[id],
      LogOf(w.log, user))
  }

  predicate Concerns(e: Event, user: string) {
    match e
    case Arrive(id, _, _) => id.user == user
    case Advance(id, _) => id.user == user
    case WriteServer(k, _) => k.namespace == UserNamespace(user)
    case DropServer(k) => k.namespace == UserNamespace(user)
    case WriteBackup(k, _) => k.namespace == UserNamespace(user)
    case DropBackup(k) => k.namespace == UserNamespace(user)
  }

  function Own(events: seq<Event>, user: string): seq<Event> {
    if |events| == 0 then []
    else
      var before := Own(events[..|events| - 1], user);
      if Concerns(events[|events| - 1], user) then before + [events[|events| - 1]] else before
  }

  lemma NamespacesTellUsersApart(user: string, other: string)
    ensures UserNamespace(user) == UserNamespace(other) <==> user == other
  {
    assert UserNamespace(user)[5..] == user && UserNamespace(other)[5..] == other;
  }

  lemma PartOfUpdate<T>(cells: map<Key, Cell<T>>, k: Key, c: Cell<T>, namespace: string)
    ensures Part(cells[k := c], namespace)
         == if k.namespace == namespace then Part(cells, namespace)[k := c] else Part(cells, namespace)
  {}

  lemma LogOfAppended(log: seq<Entry>, entry: Entry, user: string)
    ensures LogOf(log + [entry], user) == LogOf(log, user) + (if entry.id.user == user then [entry] else [])
  {
    assert (log + [entry])[..|log|] == log;
  }

  lemma ServersStayAtHome(st: Store, namespace: string)
    ensures ViewServers(StorePart(st, namespace), namespace) == ViewServers(st, namespace)
  {
    assert forall k :: IsListedServer(StorePart(st, namespace), k, namespace) <==> IsListedServer(st, k, namespace);
  }

  lemma BackupsStayAtHome(st: Store, namespace: string, server: string)
    ensures ViewBackups(StorePart(st, namespace), namespace, server) == ViewBackups(st, namespace, server)
    ensures IsBusy(StorePart(st, namespace), namespace, server) == IsBusy(st, namespace, server)
  {
    assert forall k :: IsListedBackup(StorePart(st, namespace), k, namespace, server) <==> IsListedBackup(st, k, namespace, server);
  }

  ghost predicate SameCells(st: Store, st': Store, namespace: string) {
    && (forall name :: ServerAt(st', Key(namespace, name)) == ServerAt(st, Key(namespace, name)))
    && (forall name :: BackupAt(st', Key(namespace, name)) == BackupAt(st, Key(namespace, name)))
  }

  /** All that a handler can learn about a namespace is the same in both stores. */
  ghost predicate LooksSame(st: Store, st': Store, namespace: string) {
    && SameCells(st, st', namespace)
    && ViewServers(st', namespace) == ViewServers(st, namespace)
    && (forall server :: ViewBackups(st', namespace, server) == ViewBackups(st, namespace, server))
    && (forall server :: IsBusy(st', namespace, server) == IsBusy(st, namespace, server))
  }

  lemma PartLooksSame(st: Store, namespace: string)
    ensures LooksSame(st, StorePart(st, namespace), namespace)
  {
    ServersStayAtHome(st, namespace);
    forall server
      ensures ViewBackups(StorePart(st, namespace), namespace, server) == ViewBackups(st, namespace, server)
      ensures IsBusy(StorePart(st, namespace), namespace, server) == IsBusy(st, namespace, server)
    {
      BackupsStayAtHome(st, namespace, server);
    }
  }

  lemma BeginStaysAtHome(cfg: Config, st: Store, st': Store, caller: Caller, request: Request)
    requires LooksSame(st, st', UserNamespace(caller.user))
    ensures BeginOutcome(cfg, st', caller, request) == BeginOutcome(cfg, st, caller, request)
  {
    if request.ListServers? {
    } else if request.DeleteBackup? {
      DropStaysAtHome(cfg, st, st', caller, request);
    } else {
      assert ServerAt(st', Home(caller, request.name)) == ServerAt(st, Home(caller, request.name));
      FetchStaysAtHome(cfg, st, st', caller, request);
    }
  }

  lemma FetchStaysAtHome(cfg: Config, st: Store, st': Store, caller: Caller, request: Request)
    requires !request.ListServers? && !request.DeleteBackup?
    requires ServerAt(st', Home(caller, request.name)) == ServerAt(st, Home(caller, request.name))
    ensures BeginOutcome(cfg, st', caller, request) == BeginOutcome(cfg, st, caller, request)
  {
    if request.CreateServer? {
      assert CreateOutcome(cfg, st', caller, request) == CreateOutcome(cfg, st, caller, request);
    }
  }

  lemma DropStaysAtHome(cfg: Config, st: Store, st': Store, caller: Caller, request: Request)
    requires request.DeleteBackup?
    requires BackupAt(st', Home(caller, request.backup)) == BackupAt(st, Home(caller, request.backup))
    ensures BeginOutcome(cfg, st', caller, request) == BeginOutcome(cfg, st, caller, request)
  {}

  /** A handler's call has the same outcome on its caller's part of the store as
      on the whole store. */
  lemma CallStaysAtHome(cfg: Config, st: Store, st': Store, caller: Caller, task: Task, i: Input)
    requires LooksSame(st, st', UserNamespace(caller.user))
    ensures Call(cfg, st', caller, task, i) == Call(cfg, st, caller, task, i)
  {
    if task.Serve? {
      BeginStaysAtHome(cfg, st, st', caller, task.request);
    } else if !task.CheckBackups? && !task.GatherBackups? {
      LaterCallStaysAtHome(cfg, st, st', caller, task, i);
    }
  }

  lemma LaterCallStaysAtHome(cfg: Config, st: Store, st': Store, caller: Caller, task: Task, i: Input)
    requires SameCells(st, st', UserNamespace(caller.user))
    requires !task.Serve? && !task.CheckBackups? && !task.GatherBackups?
    ensures Call(cfg, st', caller, task, i) == Call(cfg, st, caller, task, i)
  {}

  lemma CommitProjects(st: Store, caller: Caller, change: Change, namespace: string)
    ensures StorePart(Commit(st, caller, change), namespace)
         == if namespace == UserNamespace(caller.user) then Commit(StorePart(st, namespace), caller, change)
            else StorePart(st, namespace)
  {}

  /** A handler makes the same step on its caller's part of the store as on the
      whole store, and leaves every other part alone. */
  lemma StepProjects(cfg: Config, st: Store, caller: Caller, task: Task, i: Input, namespace: string)
    ensures var p := Step(cfg, st, caller, task, i);
      if namespace == UserNamespace(caller.user)
      then Step(cfg, StorePart(st, namespace), caller, task, i) == Progress(StorePart(p.store, namespace), p.next)
      else StorePart(p.store, namespace) == StorePart(st, namespace)
  {
    CommitProjects(st, caller, Call(cfg, st, caller, task, i).change, namespace);
    if namespace == UserNamespace(caller.user) {
      PartLooksSame(st, namespace);
      CallStaysAtHome(cfg, st, StorePart(st, namespace), caller, task, i);
    }
  }

  lemma SettledProjects(w: World, id: Id, p: Progress, user: string)
    requires id in w.sessions
    requires id.user != user ==> StorePart(p.store, UserNamespace(user)) == StorePart(w.store, UserNamespace(user))
    ensures Mine(Settled(w, id, p), user)
         == if id.user == user then Settled(Mine(w, user), id, Progress(StorePart(p.store, UserNamespace(user)), p.next))
            else Mine(w, user)
  {
    if p.next.Answer? {
      LogOfAppended(w.log, Entry(id, p.next.response), user);
    }
  }

  lemma AdvanceProjects(cfg: Config, w: World, id: Id, i: Input, user: string)
    requires id in w.sessions
    ensures Mine(Advanced(cfg, w, id, i), user)
         == if id.user == user then Advanced(cfg, Mine(w, user), id, i) else Mine(w, user)
  {
    var s := w.sessions[id];
    var caller := Caller(id.user, s.admin);
    NamespacesTellUsersApart(user, id.user);
    StepProjects(cfg, w.store, caller, s.task, i, UserNamespace(user));
    SettledProjects(w, id, Step(cfg, w.store, caller, s.task, i), user);
  }

  lemma EventProjects(cfg: Config, w: World, e: Event, user: string)
    ensures Mine(Do(cfg, w, e), user) == if Concerns(e, user) then Do(cfg, Mine(w, user), e) else Mine(w, user)
  {
    if e.Advance? && e.id in w.sessions {
      AdvanceProjects(cfg, w, e.id, e.input, user);
    } else if e.WriteServer? {
      PartOfUpdate(w.store.servers, e.key, Put(ServerAt(w.store, e.key), e.server), UserNamespace(user));
    } else if e.DropServer? {
      PartOfUpdate(w.store.servers, e.key, Remove(ServerAt(w.store, e.key)), UserNamespace(user));
    } else if e.WriteBackup? {
      PartOfUpdate(w.store.backups, e.key, Put(BackupAt(w.store, e.key), e.body), UserNamespace(user));
    } else if e.DropBackup? {
      PartOfUpdate(w.store.backups, e.key, Remove(BackupAt(w.store, e.key)), UserNamespace(user));
    }
  }

  /** After any mixed run, a user's namespace, pending requests and every answer
      the user got are those of running that user's share of the run alone. */
  lemma {:induction false} UsersAreIsolated(cfg: Config, w: World, events: seq<Event>, user: string)
    ensures Mine(Run(cfg, w, events), user) == Run(cfg, Mine(w, user), Own(events, user))
  {
    if |events| > 0 {
      var before, last := events[..|events| - 1], events[|events| - 1];
      UsersAreIsolated(cfg, w, before, user);
      EventProjects(cfg, Run(cfg, w, before), last, user);
      if Concerns(last, user) {
        assert Own(events, user)[..|Own(events, user)| - 1] == Own(before, user);
      }
    }
  }

  // -------------------------------------------------------------- atomicity

  /** Cells number their versions uniquely, and no object stays that is both
      marked for deletion and free of its finalizer. */
  ghost predicate StoreOk(st: Store) {
    && (forall k <- st.servers :: ServerCellOk(st.servers[k]))
    && (forall k <- st.backups :: CellOk(st.backups[k]))
  }

  ghost predicate ServerCellOk(c: Cell<GameServer>) {
    CellOk(c) && (c.current.Some? ==> IsKept(c.current.value.body))
  }

  predicate IsBackupRequest(r: Request) {
    r.CreateBackup? || r.ListBackups? || r.DeleteBackup? || r.RestoreBackup?
  }

  /** The calls that a backup request is made of, with its names. */
  predicate IsStepOf(task: Task, r: Request) {
    match task
    case CheckBackups(name) => r == CreateBackup(name)
    case MakeBackup(name) => r == CreateBackup(name)
    case MarkPending(_, _) => r.CreateBackup?
    case GatherBackups(name) => r == ListBackups(name)
    case SendDeleteBackup(backup) => r.DeleteBackup? && r.backup == backup
    case FetchBackup(name, _, backup) => r == RestoreBackup(name, backup)
    case Transfer(name, _, _) => r.RestoreBackup? && r.name == name
    case Refetch(name) => r.RestoreBackup? && r.name == name
    case SendRestart(name, _) => r.RestoreBackup? && r.name == name
    case _ => false
  }

  /** A pending write is the one its request asks for on the object it read. */
  ghost predicate SessionOk(cfg: Config, st: Store, id: Id, s: Session) {
    var r := s.request;
    && (NeedsAdmin(r) ==> s.admin || s.task.Serve?)
    && match s.task
       case Serve(request) => request == r
       case SendDelete(name) => r == DeleteServer(name)
       case SendParameters(name, read, _) => WasRead(st, id, name, read) && IsPlanned(cfg, s, name, read)
       case SendState(name, read, _) => WasRead(st, id, name, read) && IsPlanned(cfg, s, name, read)
       case SendSchedule(name, read, _, _) => WasRead(st, id, name, read) && IsPlanned(cfg, s, name, read)
       case SendRestart(name, read) => WasRead(st, id, name, read) && IsStepOf(s.task, r)
       case MarkPending(backup, made) => WasMade(st, id, backup, made) && IsStepOf(s.task, r)
       case _ => IsStepOf(s.task, r)
  }

  predicate IsPlanned(cfg: Config, s: Session, name: string, read: Stored<GameServer>) {
    && (s.request.UpdateServer? || s.request.ChangeState? || s.request.SetSchedule?)
    && s.request.name == name
    && (s.request.UpdateServer? ==> s.request.parameters != map[])
    && Decide(cfg, s.request, read) == Continue(s.task)
  }

  ghost predicate WasRead(st: Store, id: Id, name: string, read: Stored<GameServer>) {
    read in ServerAt(st, Key(UserNamespace(id.user), name)).past
  }

  ghost predicate WasMade(st: Store, id: Id, backup: string, made: Stored<Backup>) {
    made in BackupAt(st, Key(UserNamespace(id.user), backup)).past && made.body.status == BackupProtocol.NO_STATUS
  }

  ghost predicate WorldOk(cfg: Config, w: World) {
    StoreOk(w.store) && forall id <- w.sessions :: SessionOk(cfg, w.store, id, w.sessions[id])
  }

  /** No version is ever forgotten. */
  ghost predicate Remembers(st: Store, st': Store) {
    && (forall k <- st.servers :: k in st'.servers && st.servers[k].past <= st'.servers[k].past)
    && (forall k <- st.backups :: k in st'.backups && st.backups[k].past <= st'.backups[k].past)
  }

  /** Every change keeps the numbering and forgets nothing. */
  ghost predicate IsTidy(st: Store, caller: Caller, change: Change) {
    match change
    case Nothing => true
    case SetServer(name, c) => Succeeds(ServerAt(st, Home(caller, name)), c)
    case SetBackup(name, c) => CellOk(c) && BackupAt(st, Home(caller, name)).past <= c.past
  }

  ghost predicate Succeeds(c: Cell<GameServer>, c': Cell<GameServer>) {
    ServerCellOk(c') && c.past <= c'.past
  }

  lemma UpdateIsTidy(c: Cell<GameServer>, sent: Stored<GameServer>)
    requires ServerCellOk(c)
    ensures Succeeds(c, GameServerSlot.PutMeta(c, sent))
  {}

  lemma StatusIsTidy(c: Cell<GameServer>, sent: Stored<GameServer>)
    requires ServerCellOk(c)
    ensures Succeeds(c, GameServerSlot.PutStatus(c, sent))
  {}

  lemma DeleteIsTidy(c: Cell<GameServer>)
    requires ServerCellOk(c)
    ensures Succeeds(c, GameServerSlot.MarkDeleted(c)) && Succeeds(c, Remove(c))
  {}

  lemma PutIsTidy(c: Cell<GameServer>, g: GameServer)
    requires ServerCellOk(c) && IsKept(g)
    ensures Succeeds(c, Put(c, g))
  {}

  lemma BeginIsTidy(cfg: Config, st: Store, caller: Caller, request: Request)
    requires StoreOk(st)
    ensures IsTidy(st, caller, BeginOutcome(cfg, st, caller, request).change)
  {
    if request.CreateServer? && request.gameType in cfg.games {
      var m := cfg.games[request.gameType];
      PutIsTidy(ServerAt(st, Home(caller, request.name)), NewServer(caller, request.gameType, m, m.parameters + request.parameters));
    }
  }

  lemma CallIsTidy(cfg: Config, st: Store, caller: Caller, task: Task, i: Input)
    requires StoreOk(st)
    ensures IsTidy(st, caller, Call(cfg, st, caller, task, i).change)
  {
    match task
    case Serve(request) => BeginIsTidy(cfg, st, caller, request);
    case SendParameters(name, read, parameters) =>
      UpdateIsTidy(ServerAt(st, Home(caller, name)), read.(body := WithParameters(read.body, parameters)));
    case SendDelete(name) => DeleteIsTidy(ServerAt(st, Home(caller, name)));
    case SendState(name, read, to) =>
      StatusIsTidy(ServerAt(st, Home(caller, name)), read.(body := WithState(read.body, to)));
    case SendSchedule(name, read, schedule, retention) =>
      UpdateIsTidy(ServerAt(st, Home(caller, name)), read.(body := WithSchedule(read.body, schedule, retention)));
    case SendRestart(name, read) =>
      StatusIsTidy(ServerAt(st, Home(caller, name)), read.(body := WithState(read.body, Creating)));
    case _ => BackupCallIsTidy(cfg, st, caller, task, i);
  }

  lemma BackupCallIsTidy(cfg: Config, st: Store, caller: Caller, task: Task, i: Input)
    requires StoreOk(st) && IsBackupTask(task) && !task.SendRestart?
    ensures IsTidy(st, caller, Call(cfg, st, caller, task, i).change)
  {
    match task
    case MakeBackup(name) => MakeIsTidy(st, caller, name, i);
    case MarkPending(backup, made) => MarkIsTidy(BackupAt(st, Home(caller, backup)), backup, made);
    case _ =>
  }

  lemma MakeIsTidy(st: Store, caller: Caller, name: string, i: Input)
    requires StoreOk(st)
    ensures var backup := BackupNames.BackupName(BackupNames.OnDemand, name, i.timestamp);
      IsTidy(st, caller, MakeBackupOutcome(BackupAt(st, Home(caller, backup)), name, backup, i.now).change)
  {}

  lemma MarkIsTidy(c: Cell<Backup>, backup: string, made: Stored<Backup>)
    requires CellOk(c)
    ensures var change := MarkPendingOutcome(c, backup, made).change;
      change == Nothing || (change.SetBackup? && change.name == backup && CellOk(change.backup) && c.past <= change.backup.past)
  {}

  lemma TidyKeepsStore(st: Store, caller: Caller, change: Change)
    requires StoreOk(st) && IsTidy(st, caller, change)
    ensures StoreOk(Commit(st, caller, change)) && Remembers(st, Commit(st, caller, change))
  {}

  predicate HasRead(task: Task, name: string, read: Stored<GameServer>) {
    (task.SendParameters? || task.SendState? || task.SendSchedule?) ==> task.name == name && task.read == read
  }

  lemma DecisionIsPlanned(cfg: Config, s: Session, read: Stored<GameServer>)
    requires s.task == Serve(s.request) && !s.request.ListServers? && !s.request.CreateServer? && !s.request.DeleteBackup?
    requires Decide(cfg, s.request, read).Continue?
    ensures var task := Decide(cfg, s.request, read).task;
      && !task.Serve?
      && HasRead(task, s.request.name, read)
      && (task.SendDelete? ==> s.request == DeleteServer(task.name))
      && (IsBackupTask(task) ==> IsStepOf(task, s.request))
      && (task.SendParameters? || task.SendState? || task.SendSchedule? ==>
            !IsBackupRequest(s.request) && !s.request.GetServer? && !s.request.DeleteServer?)
  {}

  lemma BeginIsPlanned(cfg: Config, st: Store, id: Id, s: Session)
    requires StoreOk(st) && s.task == Serve(s.request)
    ensures var o := BeginOutcome(cfg, st, Caller(id.user, s.admin), s.request);
      o.next.Continue? ==> o.change == Nothing && SessionOk(cfg, st, id, s.(task := o.next.task))
  {
    var caller, r := Caller(id.user, s.admin), s.request;
    if BeginOutcome(cfg, st, caller, r).next.Continue? && !r.DeleteBackup? {
      DecisionIsPlanned(cfg, s, ServerAt(st, Home(caller, r.name)).current.value);
    }
  }

  predicate IsBackupTask(task: Task) {
    !task.Serve? && !task.SendDelete? && !task.SendParameters? && !task.SendState? && !task.SendSchedule?
  }

  lemma LaterCallsAreForBackups(cfg: Config, st: Store, caller: Caller, task: Task, i: Input, r: Request)
    requires !task.Serve?
    ensures var next := Call(cfg, st, caller, task, i).next;
      next.Continue? ==>
        IsBackupTask(next.task) && IsBackupTask(task) && (IsStepOf(task, r) ==> IsStepOf(next.task, r))
  {}

  lemma MadeIsRemembered(st: Store, id: Id, name: string, admin: bool, i: Input)
    ensures var backup := BackupNames.BackupName(BackupNames.OnDemand, name, i.timestamp);
      var caller := Caller(id.user, admin);
      var o := MakeBackupOutcome(BackupAt(st, Home(caller, backup)), name, backup, i.now);
      o.next.Continue? ==>
        && o.next.task.MarkPending? && o.next.task.backup == backup
        && WasMade(Commit(st, caller, o.change), id, backup, o.next.task.made)
  {}

  /** What a handler goes on to do is what its request asks for. */
  lemma ContinuationIsPlanned(cfg: Config, st: Store, id: Id, s: Session, i: Input)
    requires StoreOk(st) && SessionOk(cfg, st, id, s)
    ensures var o := Call(cfg, st, Caller(id.user, s.admin), s.task, i);
      o.next.Continue? ==>
        SessionOk(cfg, Commit(st, Caller(id.user, s.admin), o.change), id, s.(task := o.next.task))
  {
    if s.task.Serve? {
      BeginIsPlanned(cfg, st, id, s);
    } else {
      LaterCallsAreForBackups(cfg, st, Caller(id.user, s.admin), s.task, i, s.request);
      if s.task.MakeBackup? {
        MadeIsRemembered(st, id, s.task.name, s.admin, i);
      }
    }
  }

  lemma SessionsSurvive(cfg: Config, st: Store, st': Store, id: Id, s: Session)
    requires SessionOk(cfg, st, id, s) && Remembers(st, st')
    ensures SessionOk(cfg, st', id, s)
  {}

  lemma AdvanceKeepsOk(cfg: Config, w: World, id: Id, i: Input)
    requires WorldOk(cfg, w) && id in w.sessions
    ensures WorldOk(cfg, Advanced(cfg, w, id, i))
  {
    var s := w.sessions[id];
    var caller := Caller(id.user, s.admin);
    var change := Call(cfg, w.store, caller, s.task, i).change;
    CallIsTidy(cfg, w.store, caller, s.task, i);
    TidyKeepsStore(w.store, caller, change);
    ContinuationIsPlanned(cfg, w.store, id, s, i);
    forall other | other in w.sessions
      ensures SessionOk(cfg, Commit(w.store, caller, change), other, w.sessions[other])
    {
      SessionsSurvive(cfg, w.store, Commit(w.store, caller, change), other, w.sessions[other]);
    }
  }

  lemma WriteKeepsOk(cfg: Config, w: World, k: Key, c: Cell<GameServer>)
    requires WorldOk(cfg, w) && Succeeds(ServerAt(w.store, k), c)
    ensures WorldOk(cfg, SetServerCell(w, k, c))
  {
    var w' := SetServerCell(w, k, c);
    forall id | id in w.sessions ensures SessionOk(cfg, w'.store, id, w.sessions[id]) {
      SessionsSurvive(cfg, w.store, w'.store, id, w.sessions[id]);
    }
  }

  lemma DoKeepsOk(cfg: Config, w: World, e: Event)
    requires WorldOk(cfg, w)
    ensures WorldOk(cfg, Do(cfg, w, e))
  {
    match e
    case Arrive(_, _, _) =>
    case Advance(id, i) =>
      if id in w.sessions {
        AdvanceKeepsOk(cfg, w, id, i);
      }
    case WriteServer(k, g) =>
      if IsKept(g) {
        PutIsTidy(ServerAt(w.store, k), g);
        WriteKeepsOk(cfg, w, k, Put(ServerAt(w.store, k), g));
      }
    case DropServer(k) =>
      DeleteIsTidy(ServerAt(w.store, k));
      WriteKeepsOk(cfg, w, k, Remove(ServerAt(w.store, k)));
    case WriteBackup(k, b) =>
      BackupPutIsTidy(BackupAt(w.store, k), b);
      BackupWriteKeepsOk(cfg, w, k, Put(BackupAt(w.store, k), b));
    case DropBackup(k) =>
      BackupWriteKeepsOk(cfg, w, k, Remove(BackupAt(w.store, k)));
  }

  lemma BackupPutIsTidy(c: Cell<Backup>, b: Backup)
    requires CellOk(c)
    ensures CellOk(Put(c, b)) && c.past <= Put(c, b).past
  {}

  lemma BackupWriteKeepsOk(cfg: Config, w: World, k: Key, c: Cell<Backup>)
    requires WorldOk(cfg, w) && CellOk(c) && BackupAt(w.store, k).past <= c.past
    ensures WorldOk(cfg, SetBackupCell(w, k, c))
  {
    var w' := SetBackupCell(w, k, c);
    forall id | id in w.sessions ensures SessionOk(cfg, w'.store, id, w.sessions[id]) {
      SessionsSurvive(cfg, w.store, w'.store, id, w.sessions[id]);
    }
  }

  lemma {:induction false} RunKeepsOk(cfg: Config, events: seq<Event>)
    ensures WorldOk(cfg, Run(cfg, EMPTY, events))
  {
    if |events| > 0 {
      RunKeepsOk(cfg, events[..|events| - 1]);
      DoKeepsOk(cfg, Run(cfg, EMPTY, events[..|events| - 1]), events[|events| - 1]);
    }
  }

  /** The write of a request, once accepted, is the whole request run at once. */
  lemma AcceptedWriteIsWholeRequest(cfg: Config, st: Store, id: Id, s: Session, i: Input)
    requires StoreOk(st) && SessionOk(cfg, st, id, s) && !IsBackupRequest(s.request) && !s.task.Serve?
    ensures var caller := Caller(id.user, s.admin);
      var p := Step(cfg, st, caller, s.task, i);
      p.next.Answer? && if p.next.response.Refused? then p.store == st
                        else Reply(p.store, p.next.response) == Finish(cfg, st, caller, Serve(s.request), i)
  {
    var caller := Caller(id.user, s.admin);
    var name := s.request.name;
    var c := ServerAt(st, Home(caller, name));
    if c.current.Some? {
      if !s.task.SendDelete? {
        AcceptedReadIsCurrent(c, s.task.read);
      }
      if s.task.SendDelete? || c.current == Some(s.task.read) {
        assert Step(cfg, st, caller, Serve(s.request), i) == Progress(st, Continue(s.task));
      }
    }
  }

  /** However requests and controllers interleave, a request about a server that
      is answered and not refused has the effect and the answer of the whole
      request run at that instant; one that is refused has no effect. */
  lemma ServerRequestsAreAtomic(cfg: Config, events: seq<Event>, id: Id, i: Input)
    requires id in Run(cfg, EMPTY, events).sessions
    requires !IsBackupRequest(Run(cfg, EMPTY, events).sessions[id].request)
    ensures var w := Run(cfg, EMPTY, events);
      var s := w.sessions[id];
      var caller := Caller(id.user, s.admin);
      var p := Step(cfg, w.store, caller, s.task, i);
      p.next.Answer? ==>
        if p.next.response.Refused? then p.store == w.store
        else Reply(p.store, p.next.response) == Finish(cfg, w.store, caller, Serve(s.request), i)
  {
    RunKeepsOk(cfg, events);
    var w := Run(cfg, EMPTY, events);
    var s := w.sessions[id];
    if !s.task.Serve? {
      AcceptedWriteIsWholeRequest(cfg, w.store, id, s, i);
    }
  }

  // --------------------------------------------------------- truthful answers

  /** What each answer says about the store, to the user it is given to. */
  ghost predicate TellsTruth(st: Store, namespace: string, request: Request, response: Response) {
    match response
    case ShowServer(view) => !request.ListServers? && IsServerShown(st, namespace, request.name, view)
    case ShowServers(list) => ListsServers(st, namespace, list)
    case ShowSchedule(schedule, retention) =>
      && request.SetSchedule? && schedule == request.schedule && ServerNow(st, namespace, request.name).Some?
      && var annotations := ServerNow(st, namespace, request.name).value.annotations;
         schedule == ScheduleOf(annotations) && retention == RetentionOf(annotations)
    case ShowBackup(view) =>
      IsBackupShown(st, namespace, view.name, view) && view.status.state == BackupLifecycle.Pending
    case ShowBackups(list) => request.ListBackups? && ListsBackups(st, namespace, request.name, list)
    case NoContent =>
      && (request.DeleteServer? ==>
            var g := ServerNow(st, namespace, request.name); g.Some? ==> g.value.deleting)
      && (request.DeleteBackup? ==> BackupNow(st, namespace, request.backup).None?)
    case Restored(restarting) =>
      request.RestoreBackup? && (restarting ==>
        var g := ServerNow(st, namespace, request.name); g.Some? && g.value.status.state == Creating)
    case Refused(_) => true
  }

  ghost predicate IsTruthful(p: Progress, caller: Caller, request: Request) {
    p.next.Answer? ==> TellsTruth(p.store, UserNamespace(caller.user), request, p.next.response)
  }

  lemma BeginIsTruthful(cfg: Config, st: Store, caller: Caller, request: Request, i: Input)
    ensures IsTruthful(Step(cfg, st, caller, Serve(request), i), caller, request)
  {
    if request.ListServers? {
      ListedServers(st, UserNamespace(caller.user));
    } else if request.CreateServer? {
      CreateIsTruthful(cfg, st, caller, request, i);
    } else {
      FetchIsTruthful(cfg, st, caller, request, i);
    }
  }

  lemma CreateIsTruthful(cfg: Config, st: Store, caller: Caller, request: Request, i: Input)
    requires request.CreateServer?
    ensures IsTruthful(Step(cfg, st, caller, Serve(request), i), caller, request)
  {}

  lemma FetchIsTruthful(cfg: Config, st: Store, caller: Caller, request: Request, i: Input)
    requires !request.ListServers? && !request.CreateServer?
    ensures IsTruthful(Step(cfg, st, caller, Serve(request), i), caller, request)
  {}

  lemma WriteIsTruthful(cfg: Config, st: Store, id: Id, s: Session, i: Input)
    requires StoreOk(st) && SessionOk(cfg, st, id, s) && s.task.SendParameters?
    ensures var caller := Caller(id.user, s.admin); IsTruthful(Step(cfg, st, caller, s.task, i), caller, s.request)
  {
    AcceptedReadIsCurrent(ServerAt(st, Key(UserNamespace(id.user), s.task.name)), s.task.read);
  }

  lemma StateIsTruthful(cfg: Config, st: Store, id: Id, s: Session, i: Input)
    requires StoreOk(st) && SessionOk(cfg, st, id, s) && (s.task.SendState? || s.task.SendRestart?)
    ensures var caller := Caller(id.user, s.admin); IsTruthful(Step(cfg, st, caller, s.task, i), caller, s.request)
  {
    AcceptedReadIsCurrent(ServerAt(st, Key(UserNamespace(id.user), s.task.name)), s.task.read);
  }

  lemma ScheduleIsTruthful(cfg: Config, st: Store, id: Id, s: Session, i: Input)
    requires StoreOk(st) && SessionOk(cfg, st, id, s) && s.task.SendSchedule?
    ensures var caller := Caller(id.user, s.admin); IsTruthful(Step(cfg, st, caller, s.task, i), caller, s.request)
  {
    AcceptedReadIsCurrent(ServerAt(st, Key(UserNamespace(id.user), s.task.name)), s.task.read);
    ScheduledMeans(s.task.read.body.annotations, s.task.schedule, s.task.retention);
  }

  lemma MarkIsTruthful(cfg: Config, st: Store, id: Id, s: Session, i: Input)
    requires StoreOk(st) && SessionOk(cfg, st, id, s) && s.task.MarkPending?
    ensures var caller := Caller(id.user, s.admin); IsTruthful(Step(cfg, st, caller, s.task, i), caller, s.request)
  {
    AcceptedReadIsCurrent(BackupAt(st, Key(UserNamespace(id.user), s.task.backup)), s.task.made);
  }

  lemma OtherTasksAreTruthful(cfg: Config, st: Store, id: Id, s: Session, i: Input)
    requires SessionOk(cfg, st, id, s) && !s.task.Serve? && !s.task.SendParameters? && !s.task.SendState?
    requires !s.task.SendRestart? && !s.task.SendSchedule? && !s.task.MarkPending?
    ensures var caller := Caller(id.user, s.admin); IsTruthful(Step(cfg, st, caller, s.task, i), caller, s.request)
  {
    if s.task.GatherBackups? {
      ListedBackups(st, UserNamespace(id.user), s.task.name);
    }
  }

  /** In every interleaving every answer tells the truth about the store of that
      instant. */
  lemma AnswersMatchTheStore(cfg: Config, events: seq<Event>, id: Id, i: Input)
    requires id in Run(cfg, EMPTY, events).sessions
    ensures var w := Run(cfg, EMPTY, events);
      var s := w.sessions[id];
      var caller := Caller(id.user, s.admin);
      IsTruthful(Step(cfg, w.store, caller, s.task, i), caller, s.request)
  {
    RunKeepsOk(cfg, events);
    var w := Run(cfg, EMPTY, events);
    var s := w.sessions[id];
    match s.task {
      case Serve(_) => BeginIsTruthful(cfg, w.store, Caller(id.user, s.admin), s.request, i);
      case SendParameters(_, _, _) => WriteIsTruthful(cfg, w.store, id, s, i);
      case SendState(_, _, _) => StateIsTruthful(cfg, w.store, id, s, i);
      case SendRestart(_, _) => StateIsTruthful(cfg, w.store, id, s, i);
      case SendSchedule(_, _, _, _) => ScheduleIsTruthful(cfg, w.store, id, s, i);
      case MarkPending(_, _) => MarkIsTruthful(cfg, w.store, id, s, i);
      case _ => OtherTasksAreTruthful(cfg, w.store, id, s, i);
    }
  }
}
