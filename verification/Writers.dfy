/** The API's and the DNS controller's writes, one by one, are the events of the
    machines in which runs are judged. */
module Writers {
  import opened Lifecycle
  import opened VersionedStore
  import opened GameServers
  import opened GameServerSlot
  import opened Labels
  import opened BackupNames
  import Api
  import BackupProtocol
  import BackupRuns
  import Cluster
  import Dns
  import Tenancy

  /** The event under a server's key that a handler's next call amounts to. */
  function EventOf(cfg: Api.Config, user: string, s: Tenancy.Session): Option<Event> {
    match s.task
    case Serve(request) =>
      if !request.CreateServer? || request.gameType !in cfg.games then None
      else
        var m := cfg.games[request.gameType];
        Some(CreateServer(Spec(user, request.gameType, m.ports, m.parameters + request.parameters), Api.Paths(m)))
    case SendParameters(_, read, parameters) => Some(Edit(read, parameters, read.body.annotations))
    case SendDelete(_) => Some(DeleteServer)
    case SendState(_, read, _) => if s.request.ChangeState? then Some(Lifecycle(s.request.verb, read)) else None
    case SendSchedule(_, read, schedule, retention) =>
      Some(Edit(read, read.body.spec.parameters, Api.Scheduled(read.body.annotations, schedule, retention)))
    case SendRestart(_, read) => Some(Lifecycle(Restart, read))
    case _ => None
  }

  /** A key after a handler's change. Lifecycle writes leave their trace with the
      worker that holds the key. */
  function Changed(slot: Slot, task: Api.Task, c: Cell<GameServer>): Slot {
    slot.(cell := c,
          worker := if slot.worker.Some? && (task.SendState? || task.SendRestart?)
                    then Some(slot.worker.value.(touched := true)) else slot.worker)
  }

  /** The handler's change is what the event does under the server's key, and the
      event is one that the admission theorems allow. */
  predicate IsEvent(slot: Slot, k: Key, e: Option<Event>, slot': Slot) {
    && e.Some? && !e.value.Step?
    && Apply(slot, e.value) == slot'
    && Cluster.ReadsCurrent(Cluster.Action(k, e.value)) && Cluster.CreatesAtHome(Cluster.Action(k, e.value))
  }

  /** Whenever a handler changes a game server, that is an event of the server's
      key, whatever the Pod and the worker there. */
  lemma ServerCallIsEvent(cfg: Api.Config, st: Api.Store, id: Tenancy.Id, s: Tenancy.Session, i: Api.Input, slot: Slot)
    requires Tenancy.SessionOk(cfg, st, id, s)
    requires var caller := Api.Caller(id.user, s.admin);
      var change := Api.Call(cfg, st, caller, s.task, i).change;
      change.SetServer? && slot.cell == Api.ServerAt(st, Api.Home(caller, change.name))
    ensures var caller := Api.Caller(id.user, s.admin);
      var change := Api.Call(cfg, st, caller, s.task, i).change;
      IsEvent(slot, Api.Home(caller, change.name), EventOf(cfg, id.user, s), Changed(slot, s.task, change.server))
  {}

  /** The event on the backups that a handler's next call amounts to. */
  function BackupEventOf(user: string, task: Api.Task, i: Api.Input): Option<BackupProtocol.Event> {
    match task
    case MakeBackup(name) => Some(BackupProtocol.CreateBackup(OnDemand, UserNamespace(user), name, i.timestamp))
    case MarkPending(backup, made) => Some(BackupProtocol.MarkPending(Key(UserNamespace(user), backup), made))
    case SendDeleteBackup(backup) => Some(BackupProtocol.DeleteBackup(Key(UserNamespace(user), backup)))
    case _ => None
  }

  /** Whenever a handler changes a backup, that is an event of the backup
      protocol, whatever the worker there, for names that hold no slash and
      timestamps of full length. */
  lemma BackupCallIsEvent(
    cfg: Api.Config, st: Api.Store, id: Tenancy.Id, s: Tenancy.Session, i: Api.Input, p: BackupProtocol.World)
    requires Tenancy.SessionOk(cfg, st, id, s) && p.cells == st.backups && p.clock == i.now
    requires IsSlashFree(UserNamespace(id.user)) && |i.timestamp| == TIMESTAMP_LENGTH
    requires s.task.MakeBackup? ==> IsSlashFree(s.task.name)
    ensures var caller := Api.Caller(id.user, s.admin);
      var change := Api.Call(cfg, st, caller, s.task, i).change;
      var e := BackupEventOf(id.user, s.task, i);
      change.SetBackup? ==>
        e.Some? && BackupProtocol.Apply(p, e.value) == BackupProtocol.Put(p, Api.Home(caller, change.name), change.backup)
  {}

  /** What a restore handler is about to download, once its checks passed, is what
      the backup protocol calls the source of the restore; it goes no further
      exactly when there is none. */
  lemma RestoreHoldsItsSource(
    cfg: Api.Config, st: Api.Store, caller: Api.Caller, task: Api.Task, i: Api.Input, p: BackupProtocol.World)
    requires task.FetchBackup? && p.cells == st.backups
    ensures var state, next := Some(task.server.body.status.state), Api.Call(cfg, st, caller, task, i).next;
      var source := BackupRuns.RestoreSource(p, UserNamespace(caller.user), task.name, state, task.backup);
      if source.Some? then next == Api.Continue(Api.Transfer(task.name, source.value.0, source.value.1))
      else next.Answer? && next.response.Refused?
  {}

  /** A pass of the DNS controller leaves the server alone, or is one of the two
      DNS events under its key. */
  lemma DnsPassIsEvent(w: Dns.World, cfg: Dns.Config, slot: Slot)
    requires CellOk(w.cell) && slot.cell == w.cell
    ensures var cell := Dns.Pass(w, cfg).cell;
      cell == w.cell ||
      (&& w.cell.current.Some?
       && var v := w.cell.current.value;
          cell == Apply(slot, if IsServing(v.body.status.state) then Connect(v, Dns.Hostname(v.body, cfg)) else Disconnect(v)).cell)
  {}
}
