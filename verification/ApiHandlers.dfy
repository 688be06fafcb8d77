/** The handlers as they run: they fetch, change and send back objects of the
    shared store. Each is proved against the stepwise handler left to itself. */
module ApiHandlers {
  import opened Lifecycle
  import opened VersionedStore
  import opened GameServers
  import GameServerSlot
  import BackupNames
  import opened Labels
  import opened Api
  import opened ApiOutcome
  import BackupLifecycle
  import BackupProtocol
  import Text

  method CopyInto(result: map<string, string>, source: map<string, string>) returns (merged: map<string, string>)
    ensures merged == result + source
  {
    merged := result;
    var todo := source.Keys;
    while todo != {}
      invariant todo <= source.Keys
      invariant merged == result + map k | k in source && k !in todo :: source[k]
    {
      var k :| k in todo;
      merged := merged[k := source[k]];
      todo := todo - {k};
    }
    assert (map k | k in source && k !in todo :: source[k]) == source;
  }

  /** Values of `override` win; all other keys keep their value from `base`. */
  method MergeMaps(base: map<string, string>, override: map<string, string>) returns (merged: map<string, string>)
    ensures IsMerged(base, override, merged) && merged == base + override
  {
    merged := CopyInto(map[], base);
    merged := CopyInto(merged, override);
    assert map[] + base == base;
  }

  /** Sets or takes away the two annotations of a backup schedule. */
  method EditSchedule(annotations: map<string, string>, schedule: string, retention: Text.GoInt)
    returns (edited: map<string, string>, kept: Text.GoInt)
    ensures edited == Scheduled(annotations, schedule, retention)
    ensures IsScheduledAs(annotations, edited, schedule, retention)
    ensures kept == RetentionOf(edited) == if schedule != "" && retention > 0 then retention else 0
  {
    edited, kept := annotations, 0;
    if schedule == "" {
      edited := edited - {SCHEDULE_ANNOTATION};
      edited := edited - {RETENTION_ANNOTATION};
    } else {
      edited := edited[SCHEDULE_ANNOTATION := schedule];
      if retention > 0 {
        edited := edited[RETENTION_ANNOTATION := Text.Decimal(retention)];
        kept := retention;
      } else {
        edited := edited - {RETENTION_ANNOTATION};
      }
    }
    assert edited == Scheduled(annotations, schedule, retention);
    ScheduledMeans(annotations, schedule, retention);
  }

  method AnnotatePaths(m: Manifest) returns (annotations: map<string, string>)
    ensures annotations == Paths(m)
  {
    annotations := map[];
    if m.modPath != "" {
      annotations := annotations[MOD_PATH_ANNOTATION := m.modPath];
    }
    if m.backupPath != "" {
      annotations := annotations[BACKUP_PATH_ANNOTATION := m.backupPath];
    }
  }

  /** Only the game server under this key may differ. */
  ghost predicate OnlyServerAt(was: Store, now: Store, k: Key) {
    now.backups == was.backups && forall other :: other != k ==> ServerAt(now, other) == ServerAt(was, other)
  }

  ghost predicate OnlyBackupAt(was: Store, now: Store, k: Key) {
    now.servers == was.servers && forall other :: other != k ==> BackupAt(now, other) == BackupAt(was, other)
  }

  /** The caller's server of this name. */
  function ServerOf(st: Store, caller: Caller, name: string): Option<GameServer> {
    ServerNow(st, UserNamespace(caller.user), name)
  }

  /** The same server in another state. */
  predicate IsMoved(was: GameServer, now: Option<GameServer>, to: State) {
    now == Some(was.(status := was.status.(state := to)))
  }

  predicate IsAcceptable(cfg: Config, name: string, gameType: string, parameters: map<string, string>) {
    && name != "" && gameType != "" && gameType in cfg.games
    && cfg.games[gameType].accepts(cfg.games[gameType].parameters + parameters)
  }

  /** The schema of a game that is no longer in the catalogue accepts anything. */
  predicate IsAcceptableEdit(cfg: Config, g: GameServer, parameters: map<string, string>) {
    g.spec.gameType in cfg.games ==> cfg.games[g.spec.gameType].accepts(g.spec.parameters + parameters)
  }

  predicate IsRestorable(g: GameServer, b: Backup) {
    b.status.state == BackupLifecycle.Completed && IsServing(g.status.state)
  }

  class Server {
    const cfg: Config
    var servers: map<Key, Cell<GameServer>>
    var backups: map<Key, Cell<Backup>>

    function View(): Store
      reads this
    {
      Store(servers, backups)
    }

    function Alone(caller: Caller, request: Request, i: Input): Reply
      reads this
    {
      Finish(cfg, View(), caller, Serve(request), i)
    }

    function Get(k: Key): (read: Option<Stored<GameServer>>)
      reads this
    {
      if k in servers then servers[k].current else None
    }

    method UpdateStatus(k: Key, sent: Stored<GameServer>) returns (ok: bool)
      modifies this`servers
      ensures var c := ServerAt(old(View()), k);
        && ok == Accepts(c, sent)
        && servers == if ok then old(servers)[k := GameServerSlot.PutStatus(c, sent)] else old(servers)
    {
      var read := Get(k);
      ok := read.Some? && read.value.version == sent.version;
      if ok {
        servers := servers[k := Replace(servers[k], read.value.body.(status := sent.body.status))];
      }
    }

    method Update(k: Key, sent: Stored<GameServer>) returns (ok: bool)
      modifies this`servers
      ensures var c := ServerAt(old(View()), k);
        && ok == Accepts(c, sent)
        && servers == if ok then old(servers)[k := GameServerSlot.PutMeta(c, sent)] else old(servers)
    {
      var read := Get(k);
      ok := read.Some? && read.value.version == sent.version;
      if ok {
        var body := sent.body.(status := read.value.body.status, deleting := read.value.body.deleting);
        servers := servers[k := if body.deleting && !body.finalizer then Remove(servers[k]) else Replace(servers[k], body)];
      }
    }

    method HandleCreateGameServer(caller: Caller, name: string, gameType: string, parameters: map<string, string>, i: Input)
      returns (response: Response)
      modifies this`servers
      ensures Reply(View(), response) == old(Alone(caller, CreateServer(name, gameType, parameters), i))
      ensures OnlyServerAt(old(View()), View(), Home(caller, name))
      ensures response.Refused? ==> servers == old(servers)
      ensures var ok, found := IsAcceptable(cfg, name, gameType, parameters), old(Get(Home(caller, name)));
        && (response == Refused(Unauthorized) <==> caller.user == "")
        && (response == Refused(BadRequest) <==> caller.user != "" && !ok)
        && (response == Refused(Conflict) <==> caller.user != "" && ok && found.Some?)
        && (response.ShowServer? <==> caller.user != "" && ok && found.None?)
        && (response.ShowServer? ==>
              && ServerOf(View(), caller, name).Some?
              && IsNewServer(ServerOf(View(), caller, name).value, caller.user, gameType, cfg.games[gameType], parameters)
              && ShowsServer(response.server, name, ServerOf(View(), caller, name).value))
    {
      if caller.user == "" {
        return Refused(Unauthorized);
      }
      if name == "" || gameType == "" || gameType !in cfg.games {
        return Refused(BadRequest);
      }
      var m := cfg.games[gameType];
      var merged := MergeMaps(m.parameters, parameters);
      if !m.accepts(merged) {
        return Refused(BadRequest);
      }
      var annotations := AnnotatePaths(m);
      NewServerMeans(caller, gameType, m, parameters);
      var gs := GameServer(false, false, Spec(caller.user, gameType, m.ports, merged), annotations, NO_STATUS);
      var k := Home(caller, name);
      if Get(k).Some? {
        return Refused(Conflict);
      }
      servers := servers[k := Create(ServerAt(View(), k), gs)];
      response := ShowServer(ViewServer(name, gs));
    }

    method HandleUpdateGameServer(caller: Caller, name: string, parameters: map<string, string>, i: Input)
      returns (response: Response)
      modifies this`servers
      ensures Reply(View(), response) == old(Alone(caller, UpdateServer(name, parameters), i))
      ensures OnlyServerAt(old(View()), View(), Home(caller, name))
      ensures response.Refused? ==> servers == old(servers)
      ensures var found := old(Get(Home(caller, name)));
        var ok := found.Some? ==> IsAcceptableEdit(cfg, found.value.body, parameters);
        && (response == Refused(BadRequest) <==> parameters == map[] || !ok)
        && (response == Refused(NotFound) <==> parameters != map[] && found.None?)
        && (response.ShowServer? <==> parameters != map[] && found.Some? && ok)
        && (response.ShowServer? && IsKept(found.value.body) ==>
              && ServerOf(View(), caller, name).Some?
              && var g, g' := found.value.body, ServerOf(View(), caller, name).value;
                 && g' == g.(spec := g.spec.(parameters := g'.spec.parameters))
                 && IsMerged(g.spec.parameters, parameters, g'.spec.parameters)
                 && ShowsServer(response.server, name, g'))
    {
      if parameters == map[] {
        return Refused(BadRequest);
      }
      var k := Home(caller, name);
      var read := Get(k);
      if read.None? {
        return Refused(NotFound);
      }
      var gs := read.value;
      var merged := MergeMaps(gs.body.spec.parameters, parameters);
      gs := gs.(body := gs.body.(spec := gs.body.spec.(parameters := merged)));
      if gs.body.spec.gameType in cfg.games && !cfg.games[gs.body.spec.gameType].accepts(merged) {
        return Refused(BadRequest);
      }
      Proceeds(cfg, View(), caller, Serve(UpdateServer(name, parameters)), View(), SendParameters(name, read.value, merged), i);
      var ok := Update(k, gs);
      response := if ok then ShowServer(ViewServer(name, gs.body)) else Refused(Internal);
    }

    method HandleDeleteGameServer(caller: Caller, name: string, i: Input) returns (response: Response)
      modifies this`servers
      ensures Reply(View(), response) == old(Alone(caller, DeleteServer(name), i))
      ensures OnlyServerAt(old(View()), View(), Home(caller, name))
      ensures response == if old(Get(Home(caller, name))).None? then Refused(NotFound) else NoContent
      ensures var found := old(Get(Home(caller, name)));
        ServerOf(View(), caller, name) ==
          if found.Some? && found.value.body.finalizer then Some(found.value.body.(deleting := true)) else None
    {
      var k := Home(caller, name);
      var read := Get(k);
      if read.None? {
        return Refused(NotFound);
      }
      Proceeds(cfg, View(), caller, Serve(DeleteServer(name)), View(), SendDelete(name), i);
      var gs := read.value.body;
      if !gs.finalizer {
        servers := servers[k := Remove(servers[k])];
      } else if !gs.deleting {
        servers := servers[k := Replace(servers[k], gs.(deleting := true))];
      }
      response := NoContent;
    }

    /** The common end of start, stop and restart. */
    method SetState(caller: Caller, name: string, verb: GameServerSlot.Verb, read: Stored<GameServer>, to: State, i: Input)
      returns (response: Response)
      requires Get(Home(caller, name)) == Some(read)
      requires GameServerSlot.Requested(verb, read.body.status.state) == Some(to)
      modifies this`servers
      ensures Reply(View(), response) == old(Alone(caller, ChangeState(name, verb), i))
      ensures response.ShowServer? && OnlyServerAt(old(View()), View(), Home(caller, name))
      ensures IsMoved(read.body, ServerOf(View(), caller, name), to)
      ensures IsServerShown(View(), UserNamespace(caller.user), name, response.server)
    {
      Proceeds(cfg, View(), caller, Serve(ChangeState(name, verb)), View(), SendState(name, read, to), i);
      var gs := read.(body := read.body.(status := read.body.status.(state := to)));
      var ok := UpdateStatus(Home(caller, name), gs);
      response := if ok then ShowServer(ViewServer(name, gs.body)) else Refused(Internal);
    }

    method HandleStartGameServer(caller: Caller, name: string, i: Input) returns (response: Response)
      modifies this`servers
      ensures Reply(View(), response) == old(Alone(caller, ChangeState(name, GameServerSlot.Start), i))
      ensures OnlyServerAt(old(View()), View(), Home(caller, name))
      ensures response.Refused? ==> servers == old(servers)
      ensures var found := old(Get(Home(caller, name)));
        && (response == Refused(NotFound) <==> found.None?)
        && (response == Refused(Conflict) <==> found.Some? && found.value.body.status.state !in {Unset, Shutdown, Error})
        && (response.ShowServer? <==> found.Some? && found.value.body.status.state in {Unset, Shutdown, Error})
        && (response.ShowServer? ==>
              && IsMoved(found.value.body, ServerOf(View(), caller, name), Creating)
              && IsServerShown(View(), UserNamespace(caller.user), name, response.server))
    {
      var read := Get(Home(caller, name));
      if read.None? {
        return Refused(NotFound);
      }
      match read.value.body.status.state {
        case Creating | Starting | Ready | Allocated => return Refused(Conflict);
        case Shutdown | Error => response := SetState(caller, name, GameServerSlot.Start, read.value, Creating, i);
        case Unset => response := SetState(caller, name, GameServerSlot.Start, read.value, Creating, i);
      }
    }

    method HandleStopGameServer(caller: Caller, name: string, i: Input) returns (response: Response)
      modifies this`servers
      ensures Reply(View(), response) == old(Alone(caller, ChangeState(name, GameServerSlot.Stop), i))
      ensures OnlyServerAt(old(View()), View(), Home(caller, name))
      ensures response.Refused? ==> servers == old(servers)
      ensures var found := old(Get(Home(caller, name)));
        && (response == Refused(NotFound) <==> found.None?)
        && (response == Refused(Conflict) <==> found.Some? && found.value.body.status.state in {Shutdown, Error})
        && (response.ShowServer? <==> found.Some? && found.value.body.status.state !in {Shutdown, Error})
        && (response.ShowServer? ==>
              && IsMoved(found.value.body, ServerOf(View(), caller, name), Shutdown)
              && IsServerShown(View(), UserNamespace(caller.user), name, response.server))
    {
      var read := Get(Home(caller, name));
      if read.None? {
        return Refused(NotFound);
      }
      var state := read.value.body.status.state;
      if state == Shutdown || state == Error {
        return Refused(Conflict);
      }
      response := SetState(caller, name, GameServerSlot.Stop, read.value, Shutdown, i);
    }

    method HandleRestartGameServer(caller: Caller, name: string, i: Input) returns (response: Response)
      modifies this`servers
      ensures Reply(View(), response) == old(Alone(caller, ChangeState(name, GameServerSlot.Restart), i))
      ensures OnlyServerAt(old(View()), View(), Home(caller, name))
      ensures response.Refused? ==> servers == old(servers)
      ensures var found := old(Get(Home(caller, name)));
        && (response == Refused(NotFound) <==> found.None?)
        && (response.ShowServer? <==> found.Some?)
        && (response.ShowServer? ==>
              && IsMoved(found.value.body, ServerOf(View(), caller, name), Creating)
              && IsServerShown(View(), UserNamespace(caller.user), name, response.server))
    {
      var read := Get(Home(caller, name));
      if read.None? {
        return Refused(NotFound);
      }
      response := SetState(caller, name, GameServerSlot.Restart, read.value, Creating, i);
    }

    method HandleSetBackupSchedule(caller: Caller, name: string, schedule: string, retention: Text.GoInt, i: Input)
      returns (response: Response)
      modifies this`servers
      ensures Reply(View(), response) == old(Alone(caller, SetSchedule(name, schedule, retention), i))
      ensures OnlyServerAt(old(View()), View(), Home(caller, name))
      ensures response.Refused? ==> servers == old(servers)
      ensures var found, ok := old(Get(Home(caller, name))), schedule == "" || cfg.isCron(schedule);
        && (response == Refused(Forbidden) <==> !caller.admin)
        && (response == Refused(NotFound) <==> caller.admin && found.None?)
        && (response == Refused(BadRequest) <==> caller.admin && found.Some? && !ok)
        && (response.ShowSchedule? <==> caller.admin && found.Some? && ok)
        && (response.ShowSchedule? && IsKept(found.value.body) ==>
              && ServerOf(View(), caller, name).Some?
              && var g, g' := found.value.body, ServerOf(View(), caller, name).value;
                 && g' == g.(annotations := g'.annotations)
                 && IsScheduledAs(g.annotations, g'.annotations, schedule, retention)
                 && response == ShowSchedule(ScheduleOf(g'.annotations), RetentionOf(g'.annotations)))
    {
      if !caller.admin {
        return Refused(Forbidden);
      }
      var k := Home(caller, name);
      var read := Get(k);
      if read.None? {
        return Refused(NotFound);
      }
      if schedule != "" && !cfg.isCron(schedule) {
        return Refused(BadRequest);
      }
      var annotations, kept := EditSchedule(read.value.body.annotations, schedule, retention);
      Proceeds(cfg, View(), caller, Serve(SetSchedule(name, schedule, retention)), View(),
               SendSchedule(name, read.value, schedule, retention), i);
      var ok := Update(k, read.value.(body := read.value.body.(annotations := annotations)));
      response := if ok then ShowSchedule(schedule, kept) else Refused(Internal);
    }

    /** The search of the listed backups for one in progress. */
    method HasBackupInProgress(namespace: string, name: string) returns (found: bool)
      ensures found <==> IsBusy(View(), namespace, name)
    {
      var todo := backups.Keys;
      while todo != {}
        invariant todo <= backups.Keys
        invariant forall k <- backups.Keys - todo :: IsListedBackup(View(), k, namespace, name) ==>
          backups[k].current.value.body.status.state != BackupLifecycle.InProgress
      {
        var k :| k in todo;
        if IsListedBackup(View(), k, namespace, name) && backups[k].current.value.body.status.state == BackupLifecycle.InProgress {
          return true;
        }
        todo := todo - {k};
      }
      found := false;
    }

    method HandleCreateBackup(caller: Caller, name: string, i: Input) returns (response: Response)
      modifies this`backups
      ensures Reply(View(), response) == old(Alone(caller, CreateBackup(name), i))
      ensures OnlyBackupAt(old(View()), View(), Home(caller, BackupNames.BackupName(BackupNames.OnDemand, name, i.timestamp)))
      ensures response.Refused? ==> backups == old(backups)
      ensures var found, busy := old(Get(Home(caller, name))), old(IsBusy(View(), UserNamespace(caller.user), name));
        var k := Home(caller, BackupNames.BackupName(BackupNames.OnDemand, name, i.timestamp));
        var free, taken := found.Some? && IsServing(found.value.body.status.state) && !busy, old(BackupAt(View(), k)).current.Some?;
        && (response == Refused(NotFound) <==> found.None?)
        && (response == Refused(Conflict) <==> found.Some? && !free)
        && (response == Refused(Internal) <==> free && taken)
        && (response.ShowBackup? <==> free && !taken)
        && (response.ShowBackup? ==>
              && BackupAt(View(), k).current.Some?
              && BackupAt(View(), k).current.value.body
                 == BackupProtocol.Backup(name, name, i.now, BackupProtocol.NO_STATUS.(state := BackupLifecycle.Pending)))
    {
      var read := Get(Home(caller, name));
      if read.None? {
        return Refused(NotFound);
      }
      if read.value.body.status.state != Ready && read.value.body.status.state != Allocated {
        return Refused(Conflict);
      }
      ghost var st := View();
      Proceeds(cfg, st, caller, Serve(CreateBackup(name)), st, CheckBackups(name), i);
      var busy := HasBackupInProgress(UserNamespace(caller.user), name);
      if busy {
        return Refused(Conflict);
      }
      Proceeds(cfg, st, caller, CheckBackups(name), st, MakeBackup(name), i);
      response := AddBackup(caller, name, i);
    }

    /** The create and the status update that follows it. */
    method AddBackup(caller: Caller, name: string, i: Input) returns (response: Response)
      modifies this`backups
      ensures Reply(View(), response) == old(Finish(cfg, View(), caller, MakeBackup(name), i))
      ensures var k := Home(caller, BackupNames.BackupName(BackupNames.OnDemand, name, i.timestamp));
        var taken := old(BackupAt(View(), k)).current.Some?;
        && OnlyBackupAt(old(View()), View(), k)
        && (taken ==> response == Refused(Internal) && backups == old(backups))
        && (!taken ==>
              && response.ShowBackup? && BackupAt(View(), k).current.Some?
              && BackupAt(View(), k).current.value.body
                 == BackupProtocol.Backup(name, name, i.now, BackupProtocol.NO_STATUS.(state := BackupLifecycle.Pending)))
    {
      ghost var st := View();
      var backup := BackupNames.BackupName(BackupNames.OnDemand, name, i.timestamp);
      var k := Home(caller, backup);
      var c := BackupAt(View(), k);
      if c.current.Some? {
        return Refused(Internal);
      }
      var body := BackupProtocol.Backup(name, name, i.now, BackupProtocol.NO_STATUS);
      c := Create(c, body);
      backups := backups[k := c];
      Proceeds(cfg, st, caller, MakeBackup(name), View(), MarkPending(backup, c.current.value), i);
      body := body.(status := body.status.(state := BackupLifecycle.Pending));
      backups := backups[k := Replace(c, body)];
      response := ShowBackup(ViewBackup(backup, body));
    }

    method HandleDeleteBackup(caller: Caller, name: string, backup: string, i: Input) returns (response: Response)
      modifies this`backups
      ensures Reply(View(), response) == old(Alone(caller, DeleteBackup(name, backup), i))
      ensures OnlyBackupAt(old(View()), View(), Home(caller, backup))
      ensures response.Refused? ==> backups == old(backups)
      ensures var found := old(BackupAt(View(), Home(caller, backup))).current;
        && (response == Refused(Forbidden) <==> !caller.admin)
        && (response == Refused(NotFound) <==> caller.admin && (found.None? || found.value.body.server != name))
        && (response == NoContent <==> caller.admin && found.Some? && found.value.body.server == name)
        && (response == NoContent ==> BackupAt(View(), Home(caller, backup)).current.None?)
    {
      if !caller.admin {
        return Refused(Forbidden);
      }
      var k := Home(caller, backup);
      var c := BackupAt(View(), k);
      if c.current.None? || c.current.value.body.server != name {
        return Refused(NotFound);
      }
      Proceeds(cfg, View(), caller, Serve(DeleteBackup(name, backup)), View(), SendDeleteBackup(backup), i);
      backups := backups[k := Remove(c)];
      response := NoContent;
    }

    method RestartRestored(caller: Caller, name: string, i: Input) returns (response: Response)
      modifies this`servers
      ensures Reply(View(), response) == old(Finish(cfg, View(), caller, Refetch(name), i))
      ensures OnlyServerAt(old(View()), View(), Home(caller, name))
      ensures var found := old(Get(Home(caller, name)));
        && response == Restored(found.Some?)
        && (found.Some? ==> IsMoved(found.value.body, ServerOf(View(), caller, name), Creating))
    {
      var k := Home(caller, name);
      var read := Get(k);
      if read.None? {
        return Restored(false);
      }
      Proceeds(cfg, View(), caller, Refetch(name), View(), SendRestart(name, read.value), i);
      var ok := UpdateStatus(k, read.value.(body := read.value.body.(status := read.value.body.status.(state := Creating))));
      response := Restored(ok);
    }

    method RestoreFrom(caller: Caller, name: string, gs: Stored<GameServer>, backup: string, i: Input)
      returns (response: Response)
      modifies this`servers
      ensures Reply(View(), response) == old(Finish(cfg, View(), caller, FetchBackup(name, gs, backup), i))
      ensures OnlyServerAt(old(View()), View(), Home(caller, name))
      ensures response.Refused? ==> servers == old(servers)
      ensures var found, b := old(Get(Home(caller, name))), old(BackupAt(View(), Home(caller, backup))).current;
        var both := b.Some? && b.value.body.server == name;
        var ready := both && IsRestorable(gs.body, b.value.body);
        && (response == Refused(NotFound) <==> !both)
        && (response == Refused(Conflict) <==> both && !ready)
        && (response == Refused(Unavailable) <==> ready && !i.s3Ready)
        && (response == Refused(Internal) <==> ready && i.s3Ready && !i.transferOk)
        && (response == Restored(found.Some?) <==> ready && i.s3Ready && i.transferOk)
        && (response == Restored(true) ==> IsMoved(found.value.body, ServerOf(View(), caller, name), Creating))
        && response != Refused(Forbidden) && (found.Some? ==> response != Restored(false))
    {
      var b := BackupAt(View(), Home(caller, backup)).current;
      if b.None? || b.value.body.server != name {
        return Refused(NotFound);
      }
      if b.value.body.status.state != BackupLifecycle.Completed {
        return Refused(Conflict);
      }
      if gs.body.status.state != Ready && gs.body.status.state != Allocated {
        return Refused(Conflict);
      }
      Proceeds(cfg, View(), caller, FetchBackup(name, gs, backup), View(),
               Transfer(name, b.value.body.status.bucket, b.value.body.status.key), i);
      if !i.s3Ready {
        return Refused(Unavailable);
      }
      if !i.transferOk {
        return Refused(Internal);
      }
      Proceeds(cfg, View(), caller, Transfer(name, b.value.body.status.bucket, b.value.body.status.key), View(),
               Refetch(name), i);
      response := RestartRestored(caller, name, i);
    }

    method HandleRestoreBackup(caller: Caller, name: string, backup: string, i: Input) returns (response: Response)
      modifies this`servers
      ensures Reply(View(), response) == old(Alone(caller, RestoreBackup(name, backup), i))
      ensures OnlyServerAt(old(View()), View(), Home(caller, name))
      ensures response.Refused? ==> servers == old(servers)
      ensures var found, b := old(Get(Home(caller, name))), old(BackupAt(View(), Home(caller, backup))).current;
        var both := found.Some? && b.Some? && b.value.body.server == name;
        var ready := both && IsRestorable(found.value.body, b.value.body);
        && (response == Refused(Forbidden) <==> !caller.admin)
        && (response == Refused(NotFound) <==> caller.admin && !both)
        && (response == Refused(Conflict) <==> caller.admin && both && !ready)
        && (response == Refused(Unavailable) <==> caller.admin && ready && !i.s3Ready)
        && (response == Refused(Internal) <==> caller.admin && ready && i.s3Ready && !i.transferOk)
        && (response == Restored(true) <==> caller.admin && ready && i.s3Ready && i.transferOk)
        && (response.Restored? ==> IsMoved(found.value.body, ServerOf(View(), caller, name), Creating))
    {
      if !caller.admin {
        return Refused(Forbidden);
      }
      var read := Get(Home(caller, name));
      if read.None? {
        return Refused(NotFound);
      }
      Proceeds(cfg, View(), caller, Serve(RestoreBackup(name, backup)), View(), FetchBackup(name, read.value, backup), i);
      response := RestoreFrom(caller, name, read.value, backup, i);
    }
  }
}
