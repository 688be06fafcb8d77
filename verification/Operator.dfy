/** The whole operator: all game servers with their reconcile workers, the backup
    protocol, and API handlers in flight, interleaved in any order. */
module Operator {
  import opened VersionedStore
  import opened Labels
  import Api
  import BackupNames
  import BackupProtocol
  import BackupRuns
  import C = Cluster
  import GameServerSlot
  import SlotInvariant
  import Tenancy
  import Writers

  datatype World = World(
    cluster: C.Cluster,
    backups: BackupProtocol.World,
    sessions: map<Tenancy.Id, Tenancy.Session>)

  /** A request arrives or makes its next call; or something happens to a game
      server (its worker, its Pod, the DNS controller); or to the backups. */
  datatype Event =
    | Arrive(id: Tenancy.Id, admin: bool, request: Api.Request)
    | Advance(id: Tenancy.Id, input: Api.Input)
    | Serve(action: C.Action)
    | Backup(event: BackupProtocol.Event)

  function Empty(maxGlobal: int, maxPerUser: int): World {
    World(C.EmptyCluster(maxGlobal, maxPerUser), BackupProtocol.EMPTY, map[])
  }

  /** What the API server shows to a handler. */
  function View(w: World): Api.Store {
    Api.Store(map k | k in w.cluster.slots :: w.cluster.slots[k].cell, w.backups.cells)
  }

  /** Servers are created by the API alone, and reconciles start from current
      reads. User names are DNS labels and names in a path are segments of it, so
      neither holds a slash; timestamps have the length of their format. */
  predicate IsAllowed(e: Event) {
    match e
    case Arrive(id, _, request) =>
      BackupNames.IsSlashFree(id.user) && (request.CreateBackup? ==> BackupNames.IsSlashFree(request.name))
    case Advance(_, i) => |i.timestamp| == BackupNames.TIMESTAMP_LENGTH
    case Serve(action) => C.ReadsCurrent(action) && !action.event.CreateServer?
    case Backup(_) => true
  }

  function Commit(w: World, caller: Api.Caller, task: Api.Task, change: Api.Change): World {
    match change
    case Nothing => w
    case SetServer(name, c) =>
      var k := Api.Home(caller, name);
      w.(cluster := C.With(w.cluster, k, Writers.Changed(C.SlotAt(w.cluster, k), task, c)))
    case SetBackup(name, c) => w.(backups := BackupProtocol.Put(w.backups, Api.Home(caller, name), c))
  }

  function Timed(w: World, i: Api.Input): Api.Input {
    i.(now := w.backups.clock)
  }

  function CallOf(cfg: Api.Config, w: World, id: Tenancy.Id, i: Api.Input): Api.Outcome
    requires id in w.sessions
  {
    Api.Call(cfg, View(w), Api.Caller(id.user, w.sessions[id].admin), w.sessions[id].task, Timed(w, i))
  }

  function Do(cfg: Api.Config, w: World, e: Event): World {
    match e
    case Arrive(id, admin, request) =>
      if id in w.sessions then w
      else w.(sessions := w.sessions[id := Tenancy.Session(admin, request, Api.Serve(request))])
    case Advance(id, i) =>
      if id !in w.sessions then w
      else
        var s, o := w.sessions[id], CallOf(cfg, w, id, i);
        var w' := Commit(w, Api.Caller(id.user, s.admin), s.task, o.change);
        w'.(sessions := if o.next.Answer? then w.sessions - {id} else w.sessions[id := s.(task := o.next.task)])
    case Serve(action) => w.(cluster := C.Do(w.cluster, action))
    case Backup(event) => w.(backups := BackupProtocol.Apply(w.backups, event))
  }

  function Run(cfg: Api.Config, w: World, events: seq<Event>): World {
    if |events| == 0 then w
    else Do(cfg, Run(cfg, w, events[..|events| - 1]), events[|events| - 1])
  }

  // ------------------------------------------------------------- invariant

  /** What a restore is about to download was uploaded from its own server. */
  ghost predicate DownloadOk(w: World, id: Tenancy.Id, task: Api.Task) {
    task.Transfer? ==>
      task.bucket != "" &&
      BackupProtocol.Upload(task.bucket, task.objectKey, UserNamespace(id.user), task.name, true) in w.backups.uploads
  }

  predicate NamesOk(id: Tenancy.Id, s: Tenancy.Session) {
    && BackupNames.IsSlashFree(UserNamespace(id.user))
    && (s.request.CreateBackup? ==> BackupNames.IsSlashFree(s.request.name))
    && (s.task.CheckBackups? || s.task.MakeBackup? ==> BackupNames.IsSlashFree(s.task.name))
  }

  ghost predicate SessionOk(cfg: Api.Config, w: World, id: Tenancy.Id, s: Tenancy.Session) {
    Tenancy.SessionOk(cfg, View(w), id, s) && DownloadOk(w, id, s.task) && NamesOk(id, s)
  }

  ghost predicate WorldOk(cfg: Api.Config, w: World) {
    && C.SlotsOk(w.cluster)
    && BackupProtocol.WorldOk(w.backups)
    && forall id <- w.sessions :: SessionOk(cfg, w, id, w.sessions[id])
  }

  lemma ViewIsOk(w: World)
    requires C.SlotsOk(w.cluster) && BackupProtocol.WorldOk(w.backups)
    ensures Tenancy.StoreOk(View(w))
    ensures forall k :: Api.ServerAt(View(w), k) == C.SlotAt(w.cluster, k).cell
  {
    forall k <- w.cluster.slots ensures Tenancy.ServerCellOk(w.cluster.slots[k].cell) {
      assert SlotInvariant.SlotOk(w.cluster.slots[k]);
    }
    forall k <- w.backups.cells ensures CellOk(w.backups.cells[k]) {
      assert BackupProtocol.KeyOk(k, w.backups.cells[k], w.backups.uploads);
    }
  }

  lemma ViewOfCommit(w: World, caller: Api.Caller, task: Api.Task, change: Api.Change)
    ensures View(Commit(w, caller, task, change)) == Api.Commit(View(w), caller, change)
  {}

  /** No version of anything is forgotten, and no upload. */
  ghost predicate Remembers(w: World, w': World) {
    Tenancy.Remembers(View(w), View(w')) && w.backups.uploads <= w'.backups.uploads
  }

  lemma SessionSurvives(cfg: Api.Config, w: World, w': World, id: Tenancy.Id, s: Tenancy.Session)
    requires SessionOk(cfg, w, id, s) && Remembers(w, w')
    ensures SessionOk(cfg, w', id, s)
  {
    Tenancy.SessionsSurvive(cfg, View(w), View(w'), id, s);
  }

  lemma PastGrows(s: GameServerSlot.Slot, e: GameServerSlot.Event)
    ensures s.cell.past <= GameServerSlot.Apply(s, e).cell.past
  {}

  lemma CommitRemembers(cfg: Api.Config, w: World, id: Tenancy.Id, i: Api.Input)
    requires WorldOk(cfg, w) && id in w.sessions
    ensures var s := w.sessions[id];
      Remembers(w, Commit(w, Api.Caller(id.user, s.admin), s.task, CallOf(cfg, w, id, i).change))
  {
    var s := w.sessions[id];
    var caller, change := Api.Caller(id.user, s.admin), CallOf(cfg, w, id, i).change;
    ViewIsOk(w);
    ViewOfCommit(w, caller, s.task, change);
    Tenancy.CallIsTidy(cfg, View(w), caller, s.task, Timed(w, i));
    Tenancy.TidyKeepsStore(View(w), caller, change);
  }

  lemma ActionRemembers(w: World, a: C.Action)
    ensures Remembers(w, w.(cluster := C.Do(w.cluster, a)))
  {
    PastGrows(C.SlotAt(w.cluster, a.key), C.Informed(w.cluster, a.key, a.event));
  }

  lemma BackupEventRemembers(w: World, e: BackupProtocol.Event)
    ensures Remembers(w, w.(backups := BackupProtocol.Apply(w.backups, e)))
  {
    BackupRuns.NothingIsForgotten(w.backups, e);
  }

  /** Where the tasks that name a backup's server come from. */
  lemma NamesComeFromTheRequest(cfg: Api.Config, st: Api.Store, caller: Api.Caller, task: Api.Task, i: Api.Input)
    ensures var next := Api.Call(cfg, st, caller, task, i).next;
      next.Continue? ==>
        && (next.task.Transfer? ==> task.FetchBackup?)
        && (next.task.MakeBackup? ==> task.CheckBackups? && task.name == next.task.name)
        && (next.task.CheckBackups? ==>
              task.Serve? && task.request.CreateBackup? && task.request.name == next.task.name)
  {}

  lemma SourceIsOwn(cfg: Api.Config, w: World, id: Tenancy.Id, i: Api.Input)
    requires BackupProtocol.WorldOk(w.backups) && id in w.sessions && w.sessions[id].task.FetchBackup?
    requires CallOf(cfg, w, id, i).next.Continue?
    ensures DownloadOk(w, id, CallOf(cfg, w, id, i).next.task)
  {
    var s := w.sessions[id];
    var state := Some(s.task.server.body.status.state);
    Writers.RestoreHoldsItsSource(cfg, View(w), Api.Caller(id.user, s.admin), s.task, Timed(w, i), w.backups);
    BackupRuns.SourceWasUploaded(w.backups, UserNamespace(id.user), s.task.name, state, s.task.backup);
  }

  /** The next task of a handler keeps to the names of its request, and what it is
      going to download is its server's. */
  lemma NextTaskIsOk(cfg: Api.Config, w: World, id: Tenancy.Id, i: Api.Input)
    requires BackupProtocol.WorldOk(w.backups) && id in w.sessions && SessionOk(cfg, w, id, w.sessions[id])
    requires CallOf(cfg, w, id, i).next.Continue?
    ensures var s, task := w.sessions[id], CallOf(cfg, w, id, i).next.task;
      DownloadOk(w, id, task) && NamesOk(id, s.(task := task))
  {
    var s := w.sessions[id];
    NamesComeFromTheRequest(cfg, View(w), Api.Caller(id.user, s.admin), s.task, Timed(w, i));
    if s.task.FetchBackup? {
      SourceIsOwn(cfg, w, id, i);
    }
  }

  lemma AdvanceKeepsSessions(cfg: Api.Config, w: World, id: Tenancy.Id, i: Api.Input)
    requires WorldOk(cfg, w) && id in w.sessions
    ensures var w' := Do(cfg, w, Advance(id, i)); forall x <- w'.sessions :: SessionOk(cfg, w', x, w'.sessions[x])
  {
    var s, o, w' := w.sessions[id], CallOf(cfg, w, id, i), Do(cfg, w, Advance(id, i));
    var caller := Api.Caller(id.user, s.admin);
    CommitRemembers(cfg, w, id, i);
    ViewOfCommit(w, caller, s.task, o.change);
    assert View(w') == Api.Commit(View(w), caller, o.change);
    forall x <- w'.sessions ensures SessionOk(cfg, w', x, w'.sessions[x]) {
      if x != id {
        SessionSurvives(cfg, w, w', x, w.sessions[x]);
      } else {
        ViewIsOk(w);
        Tenancy.ContinuationIsPlanned(cfg, View(w), id, s, Timed(w, i));
        NextTaskIsOk(cfg, w, id, i);
      }
    }
  }

  // ------------------------------------------------------------- projection

  /** What an event is to the cluster, and what it is to the backups. */
  function ActionOf(cfg: Api.Config, w: World, e: Event): Option<C.Action> {
    match e
    case Serve(action) => Some(action)
    case Advance(id, i) =>
      if id !in w.sessions || !CallOf(cfg, w, id, i).change.SetServer? then None
      else
        var s := w.sessions[id];
        var event := Writers.EventOf(cfg, id.user, s);
        if event.None? then None
        else Some(C.Action(Key(UserNamespace(id.user), CallOf(cfg, w, id, i).change.name), event.value))
    case _ => None
  }

  function BackupEventOf(cfg: Api.Config, w: World, e: Event): Option<BackupProtocol.Event> {
    match e
    case Backup(event) => Some(event)
    case Advance(id, i) =>
      if id !in w.sessions || !CallOf(cfg, w, id, i).change.SetBackup? then None
      else Writers.BackupEventOf(id.user, w.sessions[id].task, Timed(w, i))
    case _ => None
  }

  lemma EventIsAction(cfg: Api.Config, w: World, e: Event)
    requires WorldOk(cfg, w) && IsAllowed(e)
    ensures var a := ActionOf(cfg, w, e);
      if a.None? then Do(cfg, w, e).cluster == w.cluster
      else C.IsOrderly(a.value) && Do(cfg, w, e).cluster == C.Do(w.cluster, a.value)
  {
    if e.Advance? && e.id in w.sessions && CallOf(cfg, w, e.id, e.input).change.SetServer? {
      var s := w.sessions[e.id];
      var k := Key(UserNamespace(e.id.user), CallOf(cfg, w, e.id, e.input).change.name);
      ViewIsOk(w);
      assert SessionOk(cfg, w, e.id, s);
      Writers.ServerCallIsEvent(cfg, View(w), e.id, s, Timed(w, e.input), C.SlotAt(w.cluster, k));
    }
  }

  lemma EventIsBackupEvent(cfg: Api.Config, w: World, e: Event)
    requires WorldOk(cfg, w) && IsAllowed(e)
    ensures var b := BackupEventOf(cfg, w, e);
      Do(cfg, w, e).backups == if b.None? then w.backups else BackupProtocol.Apply(w.backups, b.value)
  {
    if e.Advance? && e.id in w.sessions {
      var s := w.sessions[e.id];
      assert SessionOk(cfg, w, e.id, s);
      Writers.BackupCallIsEvent(cfg, View(w), e.id, s, Timed(w, e.input), w.backups);
    }
  }

  lemma OtherKeepsSessions(cfg: Api.Config, w: World, e: Event)
    requires WorldOk(cfg, w) && IsAllowed(e) && !e.Advance?
    ensures var w' := Do(cfg, w, e); forall x <- w'.sessions :: SessionOk(cfg, w', x, w'.sessions[x])
  {
    var w' := Do(cfg, w, e);
    if e.Serve? {
      ActionRemembers(w, e.action);
    } else if e.Backup? {
      BackupEventRemembers(w, e.event);
    }
    forall x <- w'.sessions ensures SessionOk(cfg, w', x, w'.sessions[x]) {
      if x in w.sessions {
        SessionSurvives(cfg, w, w', x, w.sessions[x]);
      }
    }
  }

  lemma DoKeepsOk(cfg: Api.Config, w: World, e: Event)
    requires WorldOk(cfg, w) && IsAllowed(e)
    ensures WorldOk(cfg, Do(cfg, w, e))
    ensures w.backups.uploads <= Do(cfg, w, e).backups.uploads
  {
    EventIsAction(cfg, w, e);
    EventIsBackupEvent(cfg, w, e);
    var a, b := ActionOf(cfg, w, e), BackupEventOf(cfg, w, e);
    if a.Some? {
      C.DoKeepsSlots(w.cluster, a.value);
    }
    if b.Some? {
      BackupProtocol.ApplyKeepsOk(w.backups, b.value);
      BackupRuns.NothingIsForgotten(w.backups, b.value);
    }
    if e.Advance? && e.id in w.sessions {
      AdvanceKeepsSessions(cfg, w, e.id, e.input);
    } else if !e.Advance? {
      OtherKeepsSessions(cfg, w, e);
    }
  }

  lemma {:induction false} RunKeepsOk(cfg: Api.Config, w: World, events: seq<Event>)
    requires WorldOk(cfg, w) && forall e <- events :: IsAllowed(e)
    ensures WorldOk(cfg, Run(cfg, w, events)) && w.backups.uploads <= Run(cfg, w, events).backups.uploads
  {
    if |events| > 0 {
      var before := events[..|events| - 1];
      RunKeepsOk(cfg, w, before);
      DoKeepsOk(cfg, Run(cfg, w, before), events[|events| - 1]);
    }
  }

  // --------------------------------------------------------------- theorems

  /** Every run of the whole operator is, seen from the game servers, a run of the
      cluster with current reads and creation at home, and seen from the backups a
      run of the backup protocol. */
  lemma {:induction false} OperatorRunProjects(cfg: Api.Config, maxGlobal: int, maxPerUser: int, events: seq<Event>)
    returns (actions: seq<C.Action>, backupEvents: seq<BackupProtocol.Event>)
    requires forall e <- events :: IsAllowed(e)
    ensures forall a <- actions :: C.IsOrderly(a)
    ensures var w := Run(cfg, Empty(maxGlobal, maxPerUser), events);
      && w.cluster == C.Run(C.EmptyCluster(maxGlobal, maxPerUser), actions)
      && w.backups == BackupProtocol.Run(BackupProtocol.EMPTY, backupEvents)
  {
    actions, backupEvents := [], [];
    if |events| > 0 {
      var before, last := events[..|events| - 1], events[|events| - 1];
      actions, backupEvents := OperatorRunProjects(cfg, maxGlobal, maxPerUser, before);
      var w := Run(cfg, Empty(maxGlobal, maxPerUser), before);
      RunKeepsOk(cfg, Empty(maxGlobal, maxPerUser), before);
      EventIsAction(cfg, w, last);
      EventIsBackupEvent(cfg, w, last);
      var a, b := ActionOf(cfg, w, last), BackupEventOf(cfg, w, last);
      if a.Some? {
        assert (actions + [a.value])[..|actions|] == actions;
        actions := actions + [a.value];
      }
      if b.Some? {
        assert (backupEvents + [b.value])[..|backupEvents|] == backupEvents;
        backupEvents := backupEvents + [b.value];
      }
    }
  }

  /** With any number of workers and handlers in flight, the servers that run
      never exceed the global limit, nor any user's the limit per user. */
  lemma OperatorAdmissionBounds(cfg: Api.Config, maxGlobal: int, maxPerUser: int, events: seq<Event>, user: string)
    requires forall e <- events :: IsAllowed(e)
    ensures var c := Run(cfg, Empty(maxGlobal, maxPerUser), events).cluster;
      && |C.RunningServers(c)| <= C.Bound(maxGlobal)
      && |C.RunningServersIn(c, UserNamespace(user))| <= C.Bound(maxPerUser)
  {
    var actions, _ := OperatorRunProjects(cfg, maxGlobal, maxPerUser, events);
    assert forall a <- actions :: C.IsOrderly(a);
    C.AdmissionBoundGlobal(maxGlobal, maxPerUser, actions);
    C.AdmissionBoundPerUser(maxGlobal, maxPerUser, actions, user);
  }

  /** Whatever a restore handler is about to download, and whatever happens until
      it does: all that was ever uploaded there came from the server restored to. */
  lemma RestoreDownloadsOwnData(
    cfg: Api.Config, maxGlobal: int, maxPerUser: int, events: seq<Event>, more: seq<Event>, id: Tenancy.Id)
    requires (forall e <- events :: IsAllowed(e)) && forall e <- more :: IsAllowed(e)
    requires id in Run(cfg, Empty(maxGlobal, maxPerUser), events).sessions
    requires Run(cfg, Empty(maxGlobal, maxPerUser), events).sessions[id].task.Transfer?
    ensures var w := Run(cfg, Empty(maxGlobal, maxPerUser), events);
      var task := w.sessions[id].task;
      && task.bucket != ""
      && BackupRuns.HoldsDataOf(
           Run(cfg, w, more).backups.uploads, task.bucket, task.objectKey, UserNamespace(id.user), task.name)
  {
    RunKeepsOk(cfg, Empty(maxGlobal, maxPerUser), events);
    var w := Run(cfg, Empty(maxGlobal, maxPerUser), events);
    var task := w.sessions[id].task;
    assert SessionOk(cfg, w, id, w.sessions[id]);
    RunKeepsOk(cfg, w, more);
    BackupRuns.UploadTellsData(
      Run(cfg, w, more).backups, BackupProtocol.Upload(task.bucket, task.objectKey, UserNamespace(id.user), task.name, true));
  }
}
