/** The names and object keys built for backups, and the request names that the
    backup controller tells apart by prefix. */
module BackupNames {
  import opened VersionedStore
  import opened Text

  datatype Kind = OnDemand | Scheduled

  const SCHEDULE_PREFIX := "schedule-"

  /** Timestamps have the layout 20060102-150405. */
  const TIMESTAMP_LENGTH := 15

  function Infix(kind: Kind): string {
    match kind
    case OnDemand => "-backup-"
    case Scheduled => "-scheduled-"
  }

  function BackupName(kind: Kind, server: string, timestamp: string): string {
    server + Infix(kind) + timestamp
  }

  /** What the names look like. */
  lemma NameFormats(server: string, timestamp: string)
    ensures BackupName(OnDemand, server, timestamp) == server + "-backup-" + timestamp
    ensures BackupName(Scheduled, server, timestamp) == server + "-scheduled-" + timestamp
    ensures ScheduleRequest(server) == "schedule-" + server
  {}

  function ScheduleRequest(server: string): string {
    SCHEDULE_PREFIX + server
  }

  predicate HasPrefix(s: string, prefix: string) {
    prefix <= s
  }

  datatype Request = ScheduleOf(server: string) | BackupNamed(name: string)

  /** How Reconcile reads the name of a request. */
  function Dispatch(name: string): Request {
    if HasPrefix(name, SCHEDULE_PREFIX) then ScheduleOf(name[|SCHEDULE_PREFIX|..]) else BackupNamed(name)
  }

  lemma ScheduleRequestDecodes(server: string)
    ensures Dispatch(ScheduleRequest(server)) == ScheduleOf(server)
  {
    assert ScheduleRequest(server)[|SCHEDULE_PREFIX|..] == server;
  }

  /** A backup's name is read as a schedule request for exactly those servers
      whose name followed by "-" begins with "schedule-". */
  lemma BackupReachesItsReconciler(kind: Kind, server: string, timestamp: string)
    ensures Dispatch(BackupName(kind, server, timestamp)) == BackupNamed(BackupName(kind, server, timestamp))
      <==> !HasPrefix(server + "-", SCHEDULE_PREFIX)
  {
    var name := BackupName(kind, server, timestamp);
    assert |SCHEDULE_PREFIX| == 9 && SCHEDULE_PREFIX[8] == '-';
    assert name[|server|] == '-';
    assert forall i :: 0 <= i < 8 ==> SCHEDULE_PREFIX[i] != '-';
    assert server + "-" <= name;
    assert |server| < 8 ==> SCHEDULE_PREFIX[|server|] != name[|server|];
    if HasPrefix(name, SCHEDULE_PREFIX) {
      assert (server + "-")[..9] == name[..9];
    }
    if HasPrefix(server + "-", SCHEDULE_PREFIX) {
      assert name[..9] == (server + "-")[..9];
    }
  }

  /** The backups of a server called "schedule" are never carried out. */
  lemma ServerCalledSchedule(timestamp: string)
    ensures Dispatch(BackupName(OnDemand, "schedule", timestamp)) == ScheduleOf("backup-" + timestamp)
  {
    var name := BackupName(OnDemand, "schedule", timestamp);
    assert name == SCHEDULE_PREFIX + ("backup-" + timestamp);
    ScheduleRequestDecodes("backup-" + timestamp);
  }

  datatype Parts = Parts(kind: Kind, server: string, timestamp: string)

  predicate EndsWith(s: string, suffix: string) {
    |suffix| <= |s| && s[|s| - |suffix|..] == suffix
  }

  /** Reads a backup's name back. */
  function Decode(name: string): Option<Parts> {
    if |name| < TIMESTAMP_LENGTH then None
    else
      var cut := |name| - TIMESTAMP_LENGTH;
      var head := name[..cut];
      if EndsWith(head, Infix(OnDemand)) then Some(Parts(OnDemand, head[..cut - 8], name[cut..]))
      else if EndsWith(head, Infix(Scheduled)) then Some(Parts(Scheduled, head[..cut - 11], name[cut..]))
      else None
  }

  /** Backup names carry their kind, server and timestamp, so no two differ in
      any of them and still collide. */
  lemma BackupNameRoundTrip(kind: Kind, server: string, timestamp: string)
    requires |timestamp| == TIMESTAMP_LENGTH
    ensures Decode(BackupName(kind, server, timestamp)) == Some(Parts(kind, server, timestamp))
  {
    var name := BackupName(kind, server, timestamp);
    var head := server + Infix(kind);
    assert name[..|head|] == head && name[|head|..] == timestamp;
    assert head[..|server|] == server && head[|server|..] == Infix(kind);
    if kind == Scheduled {
      assert head[|head| - 2] == Infix(kind)[9] == 'd';
      assert head[|head| - 8..][6] != Infix(OnDemand)[6];
    }
  }

  lemma BackupNamesAreInjective(p: Parts, q: Parts)
    requires |p.timestamp| == |q.timestamp| == TIMESTAMP_LENGTH
    requires BackupName(p.kind, p.server, p.timestamp) == BackupName(q.kind, q.server, q.timestamp)
    ensures p == q
  {
    BackupNameRoundTrip(p.kind, p.server, p.timestamp);
    BackupNameRoundTrip(q.kind, q.server, q.timestamp);
  }

  // ------------------------------------------------------------ object keys

  function KeyPrefix(namespace: string, server: string): string {
    "backups/" + namespace + "/" + server + "/"
  }

  function ObjectKey(namespace: string, server: string, timestamp: string): string {
    KeyPrefix(namespace, server) + timestamp + ".tar.gz"
  }

  predicate IsSlashFree(s: string) {
    '/' !in s
  }

  lemma AfterBackups(namespace: string, server: string, rest: string)
    ensures (KeyPrefix(namespace, server) + rest)[8..] == namespace + ['/'] + (server + ['/'] + rest)
  {}

  /** A key lies under one server's prefix only. */
  lemma KeyPrefixesAreDisjoint(namespace: string, server: string, namespace': string, server': string, key: string)
    requires IsSlashFree(namespace) && IsSlashFree(server) && IsSlashFree(namespace') && IsSlashFree(server')
    requires HasPrefix(key, KeyPrefix(namespace, server)) && HasPrefix(key, KeyPrefix(namespace', server'))
    ensures namespace == namespace' && server == server'
  {
    var t, t' := key[|KeyPrefix(namespace, server)|..], key[|KeyPrefix(namespace', server')|..];
    assert key == KeyPrefix(namespace, server) + t == KeyPrefix(namespace', server') + t';
    AfterBackups(namespace, server, t);
    AfterBackups(namespace', server', t');
    FirstSeparator('/', namespace, server + ['/'] + t, namespace', server' + ['/'] + t');
    FirstSeparator('/', server, t, server', t');
  }

  lemma ObjectKeysAreInjective(p: (string, string, string), q: (string, string, string))
    requires IsSlashFree(p.0) && IsSlashFree(p.1) && IsSlashFree(q.0) && IsSlashFree(q.1)
    requires ObjectKey(p.0, p.1, p.2) == ObjectKey(q.0, q.1, q.2)
    ensures p == q
  {
    var key := ObjectKey(p.0, p.1, p.2);
    KeyPrefixesAreDisjoint(p.0, p.1, q.0, q.1, key);
    var n := |KeyPrefix(p.0, p.1)|;
    assert key[n..|key| - 7] == p.2;
    assert key[n..|key| - 7] == q.2;
  }
}
