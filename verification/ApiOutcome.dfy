/** What the API's answers and writes mean, said over the stored fields. */
module ApiOutcome {
  import opened Lifecycle
  import opened VersionedStore
  import opened GameServers
  import opened Labels
  import opened Text
  import opened Api

  // ---------------------------------------------------------------- answers

  predicate ShowsServer(view: ServerView, name: string, g: GameServer) {
    && view.name == name
    && view.gameType == g.spec.gameType
    && view.state == g.status.state
    && view.address == g.status.address
    && view.ports == g.status.ports
    && view.parameters == g.spec.parameters
  }

  predicate ShowsBackup(view: BackupView, name: string, b: Backup) {
    && view.name == name
    && view.server == b.server
    && view.created == b.created
    && view.status == b.status
  }

  function ServerNow(st: Store, namespace: string, name: string): Option<GameServer> {
    var c := ServerAt(st, Key(namespace, name));
    if c.current.Some? then Some(c.current.value.body) else None
  }

  function BackupNow(st: Store, namespace: string, name: string): Option<Backup> {
    var c := BackupAt(st, Key(namespace, name));
    if c.current.Some? then Some(c.current.value.body) else None
  }

  predicate IsServerShown(st: Store, namespace: string, name: string, view: ServerView) {
    ServerNow(st, namespace, name).Some? && ShowsServer(view, name, ServerNow(st, namespace, name).value)
  }

  predicate IsBackupShown(st: Store, namespace: string, name: string, view: BackupView) {
    BackupNow(st, namespace, name).Some? && ShowsBackup(view, name, BackupNow(st, namespace, name).value)
  }

  /** The list holds every server of the namespace, and nothing else. */
  ghost predicate ListsServers(st: Store, namespace: string, list: map<string, ServerView>) {
    && (forall name :: name in list <==> ServerNow(st, namespace, name).Some?)
    && (forall name <- list :: IsServerShown(st, namespace, name, list[name]))
  }

  predicate BelongsTo(b: Option<Backup>, server: string) {
    b.Some? && b.value.listedFor == server
  }

  /** The list holds every backup labelled with the server, and nothing else. */
  ghost predicate ListsBackups(st: Store, namespace: string, server: string, list: map<string, BackupView>) {
    && (forall name :: name in list <==> BelongsTo(BackupNow(st, namespace, name), server))
    && (forall name <- list :: IsBackupShown(st, namespace, name, list[name]))
  }

  lemma ListedServers(st: Store, namespace: string)
    ensures ListsServers(st, namespace, ViewServers(st, namespace))
  {
    var list := ViewServers(st, namespace);
    forall name ensures name in list <==> ServerNow(st, namespace, name).Some? {
      if ServerNow(st, namespace, name).Some? {
        assert IsListedServer(st, Key(namespace, name), namespace);
        assert Key(namespace, name).name in list;
      }
    }
  }

  lemma ListedBackups(st: Store, namespace: string, server: string)
    ensures ListsBackups(st, namespace, server, ViewBackups(st, namespace, server))
  {
    var list := ViewBackups(st, namespace, server);
    forall name ensures name in list <==> BelongsTo(BackupNow(st, namespace, name), server) {
      if BelongsTo(BackupNow(st, namespace, name), server) {
        assert IsListedBackup(st, Key(namespace, name), namespace, server);
        assert Key(namespace, name).name in list;
      }
    }
  }

  /** A reading request that is left alone leaves the store as it is: a missing
      server is not found, and anything else is shown in full. */
  lemma GetAnswers(cfg: Config, st: Store, caller: Caller, name: string, i: Input)
    ensures var namespace := UserNamespace(caller.user);
      var r := Finish(cfg, st, caller, Serve(GetServer(name)), i);
      r.store == st &&
      if ServerNow(st, namespace, name).None? then r.response == Refused(NotFound)
      else r.response.ShowServer? && IsServerShown(st, namespace, name, r.response.server)
  {}

  lemma ListServersAnswers(cfg: Config, st: Store, caller: Caller, i: Input)
    ensures var r := Finish(cfg, st, caller, Serve(Request.ListServers), i);
      r.store == st && r.response.ShowServers? && ListsServers(st, UserNamespace(caller.user), r.response.servers)
  {
    ListedServers(st, UserNamespace(caller.user));
  }

  lemma ListBackupsEnds(cfg: Config, st: Store, caller: Caller, name: string, i: Input)
    ensures Finish(cfg, st, caller, Serve(Request.ListBackups(name)), i)
         == Reply(st, if ServerAt(st, Home(caller, name)).current.None? then Refused(NotFound)
                      else ShowBackups(ViewBackups(st, UserNamespace(caller.user), name)))
  {
    if ServerAt(st, Home(caller, name)).current.Some? {
      Proceeds(cfg, st, caller, Serve(Request.ListBackups(name)), st, GatherBackups(name), i);
    }
  }

  lemma ListBackupsAnswers(cfg: Config, st: Store, caller: Caller, name: string, i: Input)
    ensures var namespace := UserNamespace(caller.user);
      var r := Finish(cfg, st, caller, Serve(Request.ListBackups(name)), i);
      r.store == st &&
      if ServerNow(st, namespace, name).None? then r.response == Refused(NotFound)
      else r.response.ShowBackups? && ListsBackups(st, namespace, name, r.response.backups)
  {
    ListBackupsEnds(cfg, st, caller, name, i);
    ListedBackups(st, UserNamespace(caller.user), name);
  }

  // ------------------------------------------------------------ annotations

  /** Both have `k`, with the same value, or neither has. */
  predicate SameAt(m: map<string, string>, m': map<string, string>, k: string) {
    (k in m <==> k in m') && (k in m ==> m[k] == m'[k])
  }

  /** What the schedule and retention of a server are read as, no annotation
      meaning none. */
  function ScheduleOf(annotations: map<string, string>): string {
    if "kterodactyl.io/backup-schedule" in annotations then annotations["kterodactyl.io/backup-schedule"] else ""
  }

  function RetentionOf(annotations: map<string, string>): GoInt {
    if "kterodactyl.io/backup-retention" in annotations && Atoi(annotations["kterodactyl.io/backup-retention"]).Some?
    then Atoi(annotations["kterodactyl.io/backup-retention"]).value else 0
  }

  /** An empty schedule takes both annotations away; otherwise the schedule is
      there, and the retention if one is asked for. No other annotation changes. */
  ghost predicate IsScheduledAs(was: map<string, string>, now: map<string, string>, schedule: string, retention: GoInt) {
    && ("kterodactyl.io/backup-schedule" in now <==> schedule != "")
    && ("kterodactyl.io/backup-retention" in now <==> schedule != "" && retention > 0)
    && ScheduleOf(now) == schedule
    && RetentionOf(now) == (if schedule != "" && retention > 0 then retention else 0)
    && forall k :: k != "kterodactyl.io/backup-schedule" && k != "kterodactyl.io/backup-retention" ==> SameAt(was, now, k)
  }

  lemma ScheduledMeans(annotations: map<string, string>, schedule: string, retention: GoInt)
    ensures IsScheduledAs(annotations, Scheduled(annotations, schedule, retention), schedule, retention)
  {
    if retention > 0 {
      AtoiUndoesItoa(retention);
    }
  }

  // ----------------------------------------------------------------- writes

  /** A new server: the caller's, with the manifest's ports and paths and nothing
      in its status yet. */
  predicate IsNewServer(g: GameServer, owner: string, gameType: string, m: Manifest, parameters: map<string, string>) {
    && !g.deleting && !g.finalizer
    && g.spec.owner == owner && g.spec.gameType == gameType && g.spec.ports == m.ports
    && IsMerged(m.parameters, parameters, g.spec.parameters)
    && g.status.state == Unset && g.status.conditions == map[] && g.status.address == "" && g.status.ports == []
    && g.annotations.Keys == (if m.modPath != "" then {"kterodactyl.io/mod-path"} else {})
                           + (if m.backupPath != "" then {"kterodactyl.io/backup-path"} else {})
    && (m.modPath != "" ==> g.annotations["kterodactyl.io/mod-path"] == m.modPath)
    && (m.backupPath != "" ==> g.annotations["kterodactyl.io/backup-path"] == m.backupPath)
  }

  /** The keys of both, and the override's value wherever it has one. */
  predicate IsMerged(base: map<string, string>, override: map<string, string>, merged: map<string, string>) {
    && merged.Keys == base.Keys + override.Keys
    && forall k <- merged :: merged[k] == if k in override then override[k] else base[k]
  }

  lemma NewServerMeans(caller: Caller, gameType: string, m: Manifest, parameters: map<string, string>)
    ensures IsNewServer(NewServer(caller, gameType, m, m.parameters + parameters), caller.user, gameType, m, parameters)
  {}

  // -------------------------------------------------------------- retention

  /** The limit that retention goes by: the annotation's if it can be read, else
      the admin config's. */
  method RetentionLimit(annotations: map<string, string>, adminCount: int) returns (limit: int)
    ensures limit == LimitFor(annotations, adminCount)
  {
    limit := adminCount;
    if RETENTION_ANNOTATION in annotations && annotations[RETENTION_ANNOTATION] != "" {
      var n := Atoi(annotations[RETENTION_ANNOTATION]);
      if n.Some? {
        limit := n.value;
      }
    }
  }

  function LimitFor(annotations: map<string, string>, adminCount: int): int {
    var n := Atoi(Lookup(annotations, RETENTION_ANNOTATION));
    if n.Some? then n.value else adminCount
  }

  /** A retention asked for through the API is the one that is enforced; asking for
      none, or taking the schedule away, goes back to the admin config's. */
  lemma AskedRetentionIsEnforced(annotations: map<string, string>, schedule: string, retention: GoInt, adminCount: int)
    ensures LimitFor(Scheduled(annotations, schedule, retention), adminCount)
         == if schedule != "" && retention > 0 then retention else adminCount
  {
    if retention > 0 {
      AtoiUndoesItoa(retention);
    }
  }
}
