/** Backups under one reconcile worker while the API creates, marks and deletes
    them at any moment in between. A restore changes no backup. */
module BackupProtocol {
  import opened BackupLifecycle
  import opened VersionedStore
  import opened BackupNames
  import Lifecycle

  type Time = int

  /** An empty bucket in the admin config is ignored in favour of the default. */
  type Bucket = s: string | s != "" witness "kterodactyl-backups"

  datatype Status = Status(
    state: State,
    startedAt: Option<Time>,
    completedAt: Option<Time>,
    ready: Option<bool>,
    bucket: string,
    key: string)

  const NO_STATUS := Status(Unset, None, None, None, "", "")

  /** `listedFor` is the label that lists select by, `server` is spec.gameServerName. */
  datatype Backup = Backup(listedFor: string, server: string, created: Time, status: Status)

  type Version = Stored<Backup>

  datatype Task = Enroll | Check | Claim | Transfer | Finish(bucket: Bucket, objectKey: string) | Fail

  datatype Worker = Worker(key: Key, snap: Version, task: Task)

  /** One object written to S3 from one server's Pod, in full or (not `ok`) with
      an error on the way. */
  datatype Upload = Upload(bucket: string, objectKey: string, namespace: string, server: string, ok: bool)

  datatype World = World(cells: map<Key, Cell<Backup>>, worker: Option<Worker>, uploads: set<Upload>, clock: Time)

  /** What a step of the worker finds outside the Backup objects. */
  datatype Surroundings = Surroundings(
    s3Configured: bool,
    serverState: Option<Lifecycle.State>,
    s3Ready: bool,
    bucket: Bucket,
    timestamp: string,
    uploadOk: bool)

  datatype Event =
    | Tick(seconds: nat)
    | CreateBackup(kind: Kind, namespace: string, server: string, timestamp: string)
    | MarkPending(key: Key, read: Version)
    | DeleteBackup(key: Key)
    | Begin(key: Key)
    | Step(around: Surroundings, read: Version)
    | Abort

  const EMPTY := World(map[], None, {}, 0)

  function CellAt(w: World, k: Key): Cell<Backup> {
    if k in w.cells then w.cells[k] else NewCell()
  }

  function Put(w: World, k: Key, c: Cell<Backup>): World {
    w.(cells := w.cells[k := c])
  }

  function PutStatus(c: Cell<Backup>, read: Version, st: Status): Cell<Backup> {
    if Accepts(c, read) then Replace(c, c.current.value.body.(status := st)) else c
  }

  // ---------------------------------------------------------------- worker

  predicate IsServing(s: Option<Lifecycle.State>) {
    s.Some? && Lifecycle.IsServing(s.value)
  }

  /** The InProgress backups a list by namespace and label returns. */
  predicate IsBusy(w: World, k: Key, namespace: string, server: string) {
    && k in w.cells && k.namespace == namespace && w.cells[k].current.Some?
    && w.cells[k].current.value.body.listedFor == server
    && w.cells[k].current.value.body.status.state == InProgress
  }

  predicate OtherBusy(w: World, key: Key, server: string) {
    exists k <- w.cells :: k != key && IsBusy(w, k, key.namespace, server)
  }

  function FirstTask(s: State): Option<Task> {
    match s
    case Unset => Some(Enroll)
    case Pending => Some(Check)
    case InProgress => Some(Transfer)
    case Completed => None
    case Failed => None
  }

  function Checked(w: World, p: Worker, around: Surroundings): Task {
    if !around.s3Configured || !IsServing(around.serverState) || OtherBusy(w, p.key, p.snap.body.server)
    then Fail else Claim
  }

  function Written(task: Task, st: Status, clock: Time): Status {
    match task
    case Enroll => st.(state := Pending, ready := Some(false))
    case Claim => st.(state := InProgress, startedAt := Some(clock), ready := Some(false))
    case Finish(bucket, objectKey) =>
      st.(state := Completed, key := objectKey, bucket := bucket, completedAt := Some(clock), ready := Some(true))
    case Fail =>
      st.(state := Failed, ready := Some(false),
          completedAt := if st.completedAt.None? then Some(clock) else st.completedAt)
    case _ => st
  }

  function WorkerStep(w: World, p: Worker, around: Surroundings, read: Version): World {
    match p.task
    case Check => w.(worker := Some(p.(task := Checked(w, p, around))))
    case Transfer =>
      if !IsServing(around.serverState) || !around.s3Ready then w.(worker := Some(p.(task := Fail)))
      else
        var objectKey := ObjectKey(p.key.namespace, p.snap.body.server, around.timestamp);
        w.(uploads := w.uploads + {Upload(around.bucket, objectKey, p.key.namespace, p.snap.body.server, around.uploadOk)},
           worker := Some(p.(task := if around.uploadOk then Finish(around.bucket, objectKey) else Fail)))
    case _ =>
      Put(w, p.key, PutStatus(CellAt(w, p.key), read, Written(p.task, read.body.status, w.clock))).(worker := None)
  }

  function Apply(w: World, e: Event): World {
    match e
    case Tick(seconds) => w.(clock := w.clock + seconds)
    case CreateBackup(kind, namespace, server, timestamp) =>
      if !IsSlashFree(namespace) || !IsSlashFree(server) || |timestamp| != TIMESTAMP_LENGTH then w
      else
        var k := Key(namespace, BackupName(kind, server, timestamp));
        Put(w, k, Create(CellAt(w, k), Backup(server, server, w.clock, NO_STATUS)))
    case MarkPending(k, read) =>
      if read !in CellAt(w, k).past || read.body.status != NO_STATUS then w
      else Put(w, k, PutStatus(CellAt(w, k), read, NO_STATUS.(state := Pending)))
    case DeleteBackup(k) => Put(w, k, Remove(CellAt(w, k)))
    case Begin(k) =>
      if w.worker.Some? || Dispatch(k.name).ScheduleOf? || CellAt(w, k).current.None? then w
      else
        var v := CellAt(w, k).current.value;
        var task := FirstTask(v.body.status.state);
        if task.None? then w else w.(worker := Some(Worker(k, v, task.value)))
    case Step(around, read) =>
      if w.worker.None? || read !in CellAt(w, w.worker.value.key).past then w
      else WorkerStep(w, w.worker.value, around, read)
    case Abort => w.(worker := None)
  }

  function Run(w: World, events: seq<Event>): World {
    if events == [] then w else Apply(Run(w, events[..|events| - 1]), events[|events| - 1])
  }

  // ------------------------------------------------------------- invariant

  /** Ready tells Completed, and what a Completed backup points at was uploaded
      in full from its own server. */
  ghost predicate VersionOk(k: Key, v: Version, uploads: set<Upload>) {
    && v.body.listedFor == v.body.server
    && IsSlashFree(k.namespace) && IsSlashFree(v.body.server)
    && Decode(k.name).Some? && Decode(k.name).value.server == v.body.server
    && var st := v.body.status;
       && (st.ready == Some(true) <==> st.state == Completed)
       && (st.state == Completed ==>
             st.bucket != "" && Upload(st.bucket, st.key, k.namespace, v.body.server, true) in uploads)
  }

  ghost predicate KeyOk(k: Key, c: Cell<Backup>, uploads: set<Upload>) {
    CellOk(c) && forall v <- c.past :: VersionOk(k, v, uploads)
  }

  ghost predicate UploadOk(u: Upload) {
    && IsSlashFree(u.namespace) && IsSlashFree(u.server)
    && HasPrefix(u.objectKey, KeyPrefix(u.namespace, u.server))
  }

  predicate TaskFits(s: State, task: Task) {
    match task
    case Enroll => s == Unset
    case Check => s == Pending
    case Claim => s == Pending
    case Transfer => s == InProgress
    case Finish(_, _) => s == InProgress
    case Fail => s == Pending || s == InProgress
  }

  /** The object under a worker's key is the one it read, in the state it read
      (or just marked Pending by the API), or a new one not yet begun. */
  predicate Tracks(snap: Version, v: Version) {
    if v.uid == snap.uid then
      || v.body.status.state == snap.body.status.state
      || (snap.body.status.state == Unset && v.body.status.state == Pending)
    else v.body.status.state in {Unset, Pending}
  }

  ghost predicate WorkerOk(w: World) {
    w.worker.Some? ==>
      var p := w.worker.value;
      var c := CellAt(w, p.key);
      && p.snap in c.past
      && TaskFits(p.snap.body.status.state, p.task)
      && (c.current.Some? ==> Tracks(p.snap, c.current.value))
      && (p.task == Claim ==> !OtherBusy(w, p.key, p.snap.body.server))
      && (p.task.Finish? ==>
            Upload(p.task.bucket, p.task.objectKey, p.key.namespace, p.snap.body.server, true) in w.uploads)
  }

  /** At most one backup of a server is InProgress. */
  ghost predicate Exclusive(w: World) {
    forall k <- w.cells, k' <- w.cells, server ::
      IsBusy(w, k, k.namespace, server) && IsBusy(w, k', k.namespace, server) ==> k == k'
  }

  ghost predicate WorldOk(w: World) {
    && (forall k <- w.cells :: KeyOk(k, w.cells[k], w.uploads))
    && (forall u <- w.uploads :: UploadOk(u))
    && WorkerOk(w)
    && Exclusive(w)
  }

  /** A status write from a read replaces the status of the current object, or
      does nothing. */
  lemma StatusWrite(k: Key, c: Cell<Backup>, read: Version, st: Status, uploads: set<Upload>)
    requires KeyOk(k, c, uploads) && read in c.past
    requires VersionOk(k, read.(body := read.body.(status := st)), uploads)
    ensures var c' := PutStatus(c, read, st);
      && KeyOk(k, c', uploads)
      && if c.current == Some(read)
         then c'.current == Some(Stored(read.uid, c.next, read.body.(status := st))) && c.past <= c'.past
         else c' == c
  {
    AcceptedReadIsCurrent(c, read);
  }

  /** A change under one key that starts no backup. */
  lemma QuietPutKeepsOk(w: World, k: Key, c: Cell<Backup>)
    requires WorldOk(w) && KeyOk(k, c, w.uploads) && CellAt(w, k).past <= c.past
    requires c.current.Some? && c.current.value.body.status.state == InProgress ==>
      CellAt(w, k).current.Some? && CellAt(w, k).current.value.body.status.state == InProgress
    requires w.worker.Some? && w.worker.value.key == k && c.current.Some? ==> Tracks(w.worker.value.snap, c.current.value)
    ensures WorldOk(Put(w, k, c))
  {
    var w' := Put(w, k, c);
    forall k' <- w'.cells, namespace, server ensures IsBusy(w', k', namespace, server) ==> IsBusy(w, k', namespace, server) {
      if k' == k && IsBusy(w', k, namespace, server) {
        assert VersionOk(k, c.current.value, w.uploads);
        assert VersionOk(k, CellAt(w, k).current.value, w.uploads);
      }
    }
  }

  lemma CreatedIsOk(k: Key, c: Cell<Backup>, server: string, clock: Time, uploads: set<Upload>)
    requires KeyOk(k, c, uploads) && c.current.None?
    requires IsSlashFree(k.namespace) && IsSlashFree(server) && Decode(k.name).Some? && Decode(k.name).value.server == server
    ensures KeyOk(k, Create(c, Backup(server, server, clock, NO_STATUS)), uploads)
  {
    WritesRetireReads(c, c.next, Backup(server, server, clock, NO_STATUS));
  }

  lemma CreateKeepsOk(w: World, e: Event)
    requires WorldOk(w) && e.CreateBackup?
    ensures WorldOk(Apply(w, e))
  {
    if IsSlashFree(e.namespace) && IsSlashFree(e.server) && |e.timestamp| == TIMESTAMP_LENGTH {
      var k := Key(e.namespace, BackupName(e.kind, e.server, e.timestamp));
      var c := CellAt(w, k);
      BackupNameRoundTrip(e.kind, e.server, e.timestamp);
      if c.current.None? {
        CreatedIsOk(k, c, e.server, w.clock, w.uploads);
      }
      QuietPutKeepsOk(w, k, Create(c, Backup(e.server, e.server, w.clock, NO_STATUS)));
    }
  }

  lemma MarkKeepsOk(w: World, k: Key, read: Version)
    requires WorldOk(w)
    ensures WorldOk(Apply(w, MarkPending(k, read)))
  {
    var c := CellAt(w, k);
    if read in c.past && read.body.status == NO_STATUS {
      StatusWrite(k, c, read, NO_STATUS.(state := Pending), w.uploads);
      QuietPutKeepsOk(w, k, PutStatus(c, read, NO_STATUS.(state := Pending)));
    }
  }

  lemma WrittenIsOk(w: World, read: Version)
    requires WorldOk(w) && w.worker.Some? && read in CellAt(w, w.worker.value.key).past
    ensures var p := w.worker.value;
      VersionOk(p.key, read.(body := read.body.(status := Written(p.task, read.body.status, w.clock))), w.uploads)
  {
    var p := w.worker.value;
    assert VersionOk(p.key, read, w.uploads);
    assert VersionOk(p.key, p.snap, w.uploads);
  }

  /** The write that starts a backup: no other of the same server is running. */
  lemma ClaimKeepsExclusive(w: World, around: Surroundings, read: Version)
    requires WorldOk(w) && w.worker.Some? && w.worker.value.task == Claim && read in CellAt(w, w.worker.value.key).past
    ensures Exclusive(WorkerStep(w, w.worker.value, around, read))
  {
    var p := w.worker.value;
    var c := CellAt(w, p.key);
    var st := Written(Claim, read.body.status, w.clock);
    WrittenIsOk(w, read);
    StatusWrite(p.key, c, read, st, w.uploads);
    var w' := WorkerStep(w, p, around, read);
    assert VersionOk(p.key, p.snap, w.uploads) && VersionOk(p.key, read, w.uploads);
    forall k, namespace, server | k in w'.cells && k != p.key
      ensures IsBusy(w', k, namespace, server) == IsBusy(w, k, namespace, server)
    {}
    forall k, k', server | k in w'.cells && k' in w'.cells &&
      IsBusy(w', k, k.namespace, server) && IsBusy(w', k', k.namespace, server)
      ensures k == k'
    {
      if k == p.key || k' == p.key {
        assert server == p.snap.body.server || c.current != Some(read);
      } else {
        assert IsBusy(w, k, k.namespace, server) && IsBusy(w, k', k.namespace, server);
      }
    }
  }

  lemma AbortKeepsOk(w: World)
    requires WorldOk(w)
    ensures WorldOk(w.(worker := None))
  {
    assert forall k, namespace, server :: IsBusy(w.(worker := None), k, namespace, server) == IsBusy(w, k, namespace, server);
  }

  lemma ClaimKeepsOk(w: World, around: Surroundings, read: Version)
    requires WorldOk(w) && w.worker.Some? && w.worker.value.task == Claim && read in CellAt(w, w.worker.value.key).past
    ensures WorldOk(WorkerStep(w, w.worker.value, around, read))
  {
    WrittenIsOk(w, read);
    var k := w.worker.value.key;
    StatusWrite(k, CellAt(w, k), read, Written(Claim, read.body.status, w.clock), w.uploads);
    ClaimKeepsExclusive(w, around, read);
  }

  lemma WriteKeepsOk(w: World, around: Surroundings, read: Version)
    requires WorldOk(w) && w.worker.Some? && read in CellAt(w, w.worker.value.key).past
    requires w.worker.value.task in {Enroll, Fail} || w.worker.value.task.Finish?
    ensures WorldOk(WorkerStep(w, w.worker.value, around, read))
  {
    var p := w.worker.value;
    var c := CellAt(w, p.key);
    var st := Written(p.task, read.body.status, w.clock);
    WrittenIsOk(w, read);
    StatusWrite(p.key, c, read, st, w.uploads);
    AbortKeepsOk(w);
    QuietPutKeepsOk(w.(worker := None), p.key, PutStatus(c, read, st));
    assert WorkerStep(w, p, around, read) == Put(w.(worker := None), p.key, PutStatus(c, read, st));
  }

  lemma DecideKeepsOk(w: World, around: Surroundings, read: Version)
    requires WorldOk(w) && w.worker.Some?
    requires w.worker.value.task == Check || w.worker.value.task == Transfer
    ensures WorldOk(WorkerStep(w, w.worker.value, around, read))
  {
    var p := w.worker.value;
    var w' := WorkerStep(w, p, around, read);
    assert VersionOk(p.key, p.snap, w.uploads);
    assert forall k, namespace, server :: IsBusy(w', k, namespace, server) == IsBusy(w, k, namespace, server);
  }

  lemma ApplyKeepsOk(w: World, e: Event)
    requires WorldOk(w)
    ensures WorldOk(Apply(w, e))
  {
    match e {
      case CreateBackup(_, _, _, _) => CreateKeepsOk(w, e);
      case MarkPending(k, read) => MarkKeepsOk(w, k, read);
      case DeleteBackup(k) => QuietPutKeepsOk(w, k, Remove(CellAt(w, k)));
      case Step(around, read) =>
        if w.worker.Some? && read in CellAt(w, w.worker.value.key).past {
          match w.worker.value.task {
            case Check => DecideKeepsOk(w, around, read);
            case Transfer => DecideKeepsOk(w, around, read);
            case Claim => ClaimKeepsOk(w, around, read);
            case _ => WriteKeepsOk(w, around, read);
          }
        }
      case Abort => AbortKeepsOk(w);
      case _ =>
        var w' := Apply(w, e);
        assert forall k, namespace, server :: IsBusy(w', k, namespace, server) == IsBusy(w, k, namespace, server);
    }
  }
}
