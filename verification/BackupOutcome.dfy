/** Where one undisturbed reconcile of a backup leads, said over what it finds. */
module BackupOutcome {
  import opened BackupLifecycle
  import opened VersionedStore
  import opened BackupProtocol
  import Lifecycle

  predicate IsUp(s: Option<Lifecycle.State>) {
    s == Some(Lifecycle.Ready) || s == Some(Lifecycle.Allocated)
  }

  /** Some other backup of the same server, by its label, is running. */
  predicate AnotherRuns(w: World, k: Key, server: string) {
    exists k' <- w.cells ::
      && k' != k && k'.namespace == k.namespace && w.cells[k'].current.Some?
      && w.cells[k'].current.value.body.listedFor == server
      && w.cells[k'].current.value.body.status.state == InProgress
  }

  predicate MayStart(w: World, k: Key, server: string, around: Surroundings) {
    around.s3Configured && IsUp(around.serverState) && !AnotherRuns(w, k, server)
  }

  predicate Uploads(around: Surroundings) {
    IsUp(around.serverState) && around.s3Ready
  }

  function KeyOf(k: Key, server: string, timestamp: string): string {
    "backups/" + k.namespace + "/" + server + "/" + timestamp + ".tar.gz"
  }

  predicate IsFailure(was: Status, st: Status, clock: Time) {
    && st.state == Failed && st.ready == Some(false)
    && st.startedAt == was.startedAt && st.bucket == was.bucket && st.key == was.key
    && st.completedAt == (if was.completedAt.Some? then was.completedAt else Some(clock))
  }

  /** The status that a reconcile writes. */
  predicate StatusFollows(w: World, k: Key, b: Backup, around: Surroundings, st: Status) {
    var was := b.status;
    match was.state
    case Unset => st == was.(state := Pending, ready := Some(false))
    case Pending =>
      if MayStart(w, k, b.server, around)
      then st == was.(state := InProgress, startedAt := Some(w.clock), ready := Some(false))
      else IsFailure(was, st, w.clock)
    case InProgress =>
      if Uploads(around) && around.uploadOk
      then st == Status(Completed, was.startedAt, Some(w.clock), Some(true), around.bucket,
                        KeyOf(k, b.server, around.timestamp))
      else IsFailure(was, st, w.clock)
    case Completed => st == was
    case Failed => st == was
  }

  predicate UploadsFollow(w: World, k: Key, b: Backup, around: Surroundings, uploads: set<Upload>) {
    uploads ==
      if b.status.state == InProgress && Uploads(around)
      then w.uploads + {Upload(around.bucket, KeyOf(k, b.server, around.timestamp), k.namespace, b.server, around.uploadOk)}
      else w.uploads
  }

  /** The outcome of one undisturbed reconcile: the status alone, of this backup
      alone, and what was uploaded for it. */
  predicate IsOutcome(w: World, k: Key, around: Surroundings, w': World) {
    if k !in w.cells || w.cells[k].current.None? then w' == w
    else
      var v := w.cells[k].current.value;
      && w'.worker.None? && w'.clock == w.clock
      && UploadsFollow(w, k, v.body, around, w'.uploads)
      && k in w'.cells && w'.cells == w.cells[k := w'.cells[k]]
      && w'.cells[k].current.Some?
      && var v' := w'.cells[k].current.value;
         && v'.uid == v.uid && v'.body == v.body.(status := v'.body.status)
         && StatusFollows(w, k, v.body, around, v'.body.status)
  }
}
