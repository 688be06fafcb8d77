/** What holds of backups over whole runs. */
module BackupRuns {
  import opened BackupLifecycle
  import opened VersionedStore
  import opened BackupNames
  import opened BackupProtocol
  import Lifecycle

  lemma {:induction false} RunKeepsOk(events: seq<Event>)
    ensures WorldOk(Run(EMPTY, events))
  {
    if events != [] {
      RunKeepsOk(events[..|events| - 1]);
      ApplyKeepsOk(Run(EMPTY, events[..|events| - 1]), events[|events| - 1]);
    }
  }

  /** The stored backup of that name, if any. */
  function Current(w: World, k: Key): Option<Version> {
    CellAt(w, k).current
  }

  predicate IsInProgress(w: World, k: Key, server: string) {
    && Current(w, k).Some?
    && Current(w, k).value.body.server == server
    && Current(w, k).value.body.status.state == InProgress
  }

  /** In every run no server has two backups InProgress. */
  lemma MutualExclusion(events: seq<Event>, k: Key, k': Key, server: string)
    requires k.namespace == k'.namespace
    requires IsInProgress(Run(EMPTY, events), k, server) && IsInProgress(Run(EMPTY, events), k', server)
    ensures k == k'
  {
    RunKeepsOk(events);
    var w := Run(EMPTY, events);
    assert VersionOk(k, Current(w, k).value, w.uploads) && VersionOk(k', Current(w, k').value, w.uploads);
    assert IsBusy(w, k, k.namespace, server) && IsBusy(w, k', k.namespace, server);
  }

  // --------------------------------------------------------------- restore

  /** The bucket and object a restore request reads, once its checks passed. */
  function RestoreSource(w: World, namespace: string, server: string, serverState: Option<Lifecycle.State>, name: string)
    : Option<(string, string)>
  {
    var found := Current(w, Key(namespace, name));
    if serverState.None? || found.None? then None
    else
      var b := found.value.body;
      if b.server != server || b.status.state != Completed || !Lifecycle.IsServing(serverState.value) then None
      else Some((b.status.bucket, b.status.key))
  }

  /** What may lie under an object key: something was uploaded there in full, and
      all that ever was came from this one server. */
  ghost predicate HoldsDataOf(uploads: set<Upload>, bucket: string, objectKey: string, namespace: string, server: string) {
    && Upload(bucket, objectKey, namespace, server, true) in uploads
    && forall u <- uploads :: u.bucket == bucket && u.objectKey == objectKey ==> u.namespace == namespace && u.server == server
  }

  /** Whoever knows an upload knows what may lie under its key. */
  lemma UploadTellsData(w: World, u: Upload)
    requires WorldOk(w) && u in w.uploads && u.ok
    ensures HoldsDataOf(w.uploads, u.bucket, u.objectKey, u.namespace, u.server)
  {
    assert UploadOk(u);
    forall v <- w.uploads | v.bucket == u.bucket && v.objectKey == u.objectKey
      ensures v.namespace == u.namespace && v.server == u.server
    {
      assert UploadOk(v);
      KeyPrefixesAreDisjoint(v.namespace, v.server, u.namespace, u.server, u.objectKey);
    }
  }

  /** No upload is taken back and no version forgotten. */
  lemma NothingIsForgotten(w: World, e: Event)
    ensures w.uploads <= Apply(w, e).uploads
    ensures forall k <- w.cells :: k in Apply(w, e).cells && w.cells[k].past <= Apply(w, e).cells[k].past
  {}

  /** In every run the bucket and key of a Completed backup name an upload from
      its own server that succeeded. */
  lemma CompletedWasUploaded(events: seq<Event>, k: Key)
    requires Current(Run(EMPTY, events), k).Some?
    requires Current(Run(EMPTY, events), k).value.body.status.state == Completed
    ensures var w := Run(EMPTY, events);
      var b := Current(w, k).value.body;
      b.status.bucket != "" && exists u <- w.uploads ::
        u.ok && u.bucket == b.status.bucket && u.objectKey == b.status.key && u.namespace == k.namespace && u.server == b.server
  {
    RunKeepsOk(events);
    var w := Run(EMPTY, events);
    var b := Current(w, k).value.body;
    assert VersionOk(k, Current(w, k).value, w.uploads);
    assert Upload(b.status.bucket, b.status.key, k.namespace, b.server, true) in w.uploads;
  }

  lemma {:induction false} RunOnKeepsOk(w: World, more: seq<Event>)
    requires WorldOk(w)
    ensures WorldOk(Run(w, more)) && w.uploads <= Run(w, more).uploads
  {
    if more != [] {
      var before, last := Run(w, more[..|more| - 1]), more[|more| - 1];
      RunOnKeepsOk(w, more[..|more| - 1]);
      ApplyKeepsOk(before, last);
      NothingIsForgotten(before, last);
      assert Run(w, more) == Apply(before, last);
    }
  }

  lemma SourceWasUploaded(
    w: World, namespace: string, server: string, serverState: Option<Lifecycle.State>, name: string)
    requires WorldOk(w) && RestoreSource(w, namespace, server, serverState, name).Some?
    ensures var (bucket, objectKey) := RestoreSource(w, namespace, server, serverState, name).value;
      bucket != "" && Upload(bucket, objectKey, namespace, server, true) in w.uploads
  {
    var k := Key(namespace, name);
    assert VersionOk(k, Current(w, k).value, w.uploads);
  }

  /** In every run, whatever else is uploaded between the moment a restore reads
      the backup and the moment it downloads the object, what it downloads was
      uploaded from the very server it is restored to. */
  lemma RestoreReadsOwnData(
    events: seq<Event>, more: seq<Event>,
    namespace: string, server: string, serverState: Option<Lifecycle.State>, name: string)
    requires RestoreSource(Run(EMPTY, events), namespace, server, serverState, name).Some?
    ensures var w := Run(EMPTY, events);
      var (bucket, objectKey) := RestoreSource(w, namespace, server, serverState, name).value;
      bucket != "" && HoldsDataOf(Run(w, more).uploads, bucket, objectKey, namespace, server)
  {
    RunKeepsOk(events);
    var w := Run(EMPTY, events);
    SourceWasUploaded(w, namespace, server, serverState, name);
    RunOnKeepsOk(w, more);
    var (bucket, objectKey) := RestoreSource(w, namespace, server, serverState, name).value;
    UploadTellsData(Run(w, more), Upload(bucket, objectKey, namespace, server, true));
  }

  // ------------------------------------------------------------- life cycle

  /** A first enrolment or an edge of the table. */
  predicate IsRegular(from: State, to: State) {
    (from == Unset && to == Pending) || IsValidTransition(from, to)
  }

  ghost predicate Moves(w: World, e: Event, k: Key, from: State, to: State) {
    && Current(w, k).Some? && Current(w, k).value.body.status.state == from
    && Current(Apply(w, e), k).Some? && Current(Apply(w, e), k).value.body.status.state == to
    && from != to
  }

  /** The object under the worker's key is not the one it read. */
  predicate Reborn(w: World, k: Key) {
    && w.worker.Some? && w.worker.value.key == k && Current(w, k).Some?
    && Current(w, k).value.uid != w.worker.value.snap.uid
  }

  /** A worker about to write over a new object what it worked out for the old
      one, further than the new one has come. */
  predicate IsAhead(w: World, k: Key, from: State) {
    && Reborn(w, k)
    && ((from == Unset && w.worker.value.task != Enroll) || (from == Pending && w.worker.value.task.Finish?))
  }

  lemma WriteMoves(w: World, read: Version)
    requires WorldOk(w) && IsWriting(w, read)
    ensures var p := w.worker.value;
      var c := CellAt(w, p.key);
      var c' := PutStatus(c, read, Written(p.task, read.body.status, w.clock));
      c.current.Some? && c'.current.Some? ==>
        var from, to := c.current.value.body.status.state, c'.current.value.body.status.state;
        from != to ==>
          && !IsTerminal(from)
          && (IsRegular(from, to) <==> !IsAhead(w, p.key, from))
  {
    AcceptedReadIsCurrent(CellAt(w, w.worker.value.key), read);
  }

  /** Although no transition is ever checked, a change leaves the table exactly
      when a worker is ahead of a backup that was deleted and created again under
      its old name. Terminal states are never left. */
  lemma MovesAreRegularUnlessAhead(w: World, e: Event, k: Key, from: State, to: State)
    requires WorldOk(w)
    ensures Moves(w, e, k, from, to) ==>
      !IsTerminal(from) && (IsRegular(from, to) <==> !(e.Step? && IsAhead(w, k, from)))
  {
    if e.Step? {
      StepMoves(w, e, k, from, to);
    } else if e.MarkPending? {
      MarkMoves(w, e, k, from, to);
    } else {
      OthersDoNotMove(w, e, k);
    }
  }

  lemma MarkMoves(w: World, e: Event, k: Key, from: State, to: State)
    requires WorldOk(w) && e.MarkPending?
    ensures Moves(w, e, k, from, to) ==> from == Unset && to == Pending
  {
    if e.read in CellAt(w, e.key).past {
      AcceptedReadIsCurrent(CellAt(w, e.key), e.read);
    }
  }

  lemma OthersDoNotMove(w: World, e: Event, k: Key)
    requires !e.Step? && !e.MarkPending?
    ensures Current(w, k).Some? && Current(Apply(w, e), k).Some? ==> Current(Apply(w, e), k) == Current(w, k)
  {}

  predicate IsWriting(w: World, read: Version) {
    && w.worker.Some? && read in CellAt(w, w.worker.value.key).past
    && w.worker.value.task != Check && w.worker.value.task != Transfer
  }

  /** Only a writing task changes anything, and only under the worker's key. */
  lemma StepChanges(w: World, around: Surroundings, read: Version, k: Key)
    ensures CellAt(Apply(w, Step(around, read)), k)
         == if IsWriting(w, read) && k == w.worker.value.key
            then PutStatus(CellAt(w, k), read, Written(w.worker.value.task, read.body.status, w.clock))
            else CellAt(w, k)
  {}

  lemma StepMoves(w: World, e: Event, k: Key, from: State, to: State)
    requires WorldOk(w) && e.Step?
    ensures Moves(w, e, k, from, to) ==> !IsTerminal(from) && (IsRegular(from, to) <==> !IsAhead(w, k, from))
  {
    StepChanges(w, e.around, e.read, k);
    if IsWriting(w, e.read) {
      WriteMoves(w, e.read);
    }
  }

  // ------------------------------------------- when names are not used twice

  /** No name is created again once its backup is gone. While it is stored, a
      second create is refused and does no harm. */
  predicate IsFreshName(w: World, e: Event) {
    e.CreateBackup? ==>
      var c := CellAt(w, Key(e.namespace, BackupName(e.kind, e.server, e.timestamp)));
      c.current.Some? || c.past == {}
  }

  predicate IsFreshRun(events: seq<Event>) {
    events == [] ||
    (&& IsFreshRun(events[..|events| - 1])
     && IsFreshName(Run(EMPTY, events[..|events| - 1]), events[|events| - 1]))
  }

  predicate TimesOk(st: Status, clock: Time) {
    && (st.state == InProgress ==> st.startedAt.Some? && st.startedAt.value <= clock)
    && (st.state == Completed ==>
          st.startedAt.Some? && st.completedAt.Some? && st.startedAt.value <= st.completedAt.value <= clock)
  }

  ghost predicate IsSteadyCell(c: Cell<Backup>, clock: Time) {
    && (forall v <- c.past, v' <- c.past :: v.uid == v'.uid)
    && (c.current.Some? ==> TimesOk(c.current.value.body.status, clock))
  }

  /** Every name stands for one object, whose times are in order. */
  ghost predicate Steady(cells: map<Key, Cell<Backup>>, clock: Time) {
    forall k <- cells :: IsSteadyCell(cells[k], clock)
  }

  lemma WriteKeepsSteady(w: World, read: Version)
    requires WorldOk(w) && w.worker.Some? && read in CellAt(w, w.worker.value.key).past
    requires IsSteadyCell(CellAt(w, w.worker.value.key), w.clock)
    requires w.worker.value.task != Check && w.worker.value.task != Transfer
    ensures var p := w.worker.value;
      IsSteadyCell(PutStatus(CellAt(w, p.key), read, Written(p.task, read.body.status, w.clock)), w.clock)
  {
    AcceptedReadIsCurrent(CellAt(w, w.worker.value.key), read);
  }

  lemma MarkKeepsSteady(c: Cell<Backup>, read: Version, clock: Time)
    requires CellOk(c) && IsSteadyCell(c, clock) && read in c.past
    ensures IsSteadyCell(PutStatus(c, read, NO_STATUS.(state := Pending)), clock)
  {
    AcceptedReadIsCurrent(c, read);
  }

  lemma PutKeepsSteady(w: World, k: Key, c: Cell<Backup>)
    requires Steady(w.cells, w.clock) && IsSteadyCell(c, w.clock)
    ensures Steady(Put(w, k, c).cells, w.clock)
  {}

  lemma CreateKeepsSteady(c: Cell<Backup>, body: Backup, clock: Time)
    requires CellOk(c) && IsSteadyCell(c, clock) && (c.current.Some? || c.past == {}) && body.status == NO_STATUS
    ensures IsSteadyCell(Create(c, body), clock)
  {}

  lemma FreshCreateKeepsSteady(w: World, e: Event)
    requires WorldOk(w) && Steady(w.cells, w.clock) && e.CreateBackup? && IsFreshName(w, e)
    ensures Steady(Apply(w, e).cells, w.clock)
  {
    var k := Key(e.namespace, BackupName(e.kind, e.server, e.timestamp));
    var body := Backup(e.server, e.server, w.clock, NO_STATUS);
    CreateKeepsSteady(CellAt(w, k), body, w.clock);
    PutKeepsSteady(w, k, Create(CellAt(w, k), body));
  }

  lemma StepKeepsSteady(w: World, around: Surroundings, read: Version)
    requires WorldOk(w) && w.worker.Some? && read in CellAt(w, w.worker.value.key).past
    requires Steady(w.cells, w.clock)
    ensures Steady(WorkerStep(w, w.worker.value, around, read).cells, w.clock)
  {
    var p := w.worker.value;
    if p.task != Check && p.task != Transfer {
      WriteKeepsSteady(w, read);
      PutKeepsSteady(w, p.key, PutStatus(CellAt(w, p.key), read, Written(p.task, read.body.status, w.clock)));
    }
  }

  lemma ApplyKeepsSteady(w: World, e: Event)
    requires WorldOk(w) && Steady(w.cells, w.clock) && IsFreshName(w, e)
    ensures Steady(Apply(w, e).cells, Apply(w, e).clock)
  {
    match e {
      case CreateBackup(_, _, _, _) => FreshCreateKeepsSteady(w, e);
      case MarkPending(k, read) =>
        if read in CellAt(w, k).past {
          MarkKeepsSteady(CellAt(w, k), read, w.clock);
          PutKeepsSteady(w, k, PutStatus(CellAt(w, k), read, NO_STATUS.(state := Pending)));
        }
      case DeleteBackup(k) => PutKeepsSteady(w, k, Remove(CellAt(w, k)));
      case Step(around, read) =>
        if w.worker.Some? && read in CellAt(w, w.worker.value.key).past {
          StepKeepsSteady(w, around, read);
        }
      case _ =>
    }
  }

  lemma {:induction false} FreshRunKeepsSteady(events: seq<Event>)
    requires IsFreshRun(events)
    ensures Steady(Run(EMPTY, events).cells, Run(EMPTY, events).clock)
  {
    if events != [] {
      var before := events[..|events| - 1];
      FreshRunKeepsSteady(before);
      RunKeepsOk(before);
      ApplyKeepsSteady(Run(EMPTY, before), events[|events| - 1]);
    }
  }

  /** When no name is used twice, every state change of every run is a first
      enrolment or an edge of the table, and Completed and Failed are final. */
  lemma FreshRunsFollowTheTable(events: seq<Event>, next: Event, k: Key, from: State, to: State)
    requires IsFreshRun(events) && Moves(Run(EMPTY, events), next, k, from, to)
    ensures IsRegular(from, to) && !IsTerminal(from)
  {
    var w := Run(EMPTY, events);
    RunKeepsOk(events);
    FreshRunKeepsSteady(events);
    MovesAreRegularUnlessAhead(w, next, k, from, to);
  }

  /** In every run Ready is true exactly for Completed backups; when no name is
      used twice, a Completed backup did not end before it started. */
  lemma ReadyMeansCompleted(events: seq<Event>, k: Key)
    requires Current(Run(EMPTY, events), k).Some?
    ensures var st := Current(Run(EMPTY, events), k).value.body.status;
      && (st.ready == Some(true) <==> st.state == Completed)
      && (IsFreshRun(events) && st.state == Completed ==>
            st.startedAt.Some? && st.completedAt.Some? && st.startedAt.value <= st.completedAt.value)
  {
    RunKeepsOk(events);
    var w := Run(EMPTY, events);
    assert VersionOk(k, Current(w, k).value, w.uploads);
    if IsFreshRun(events) {
      FreshRunKeepsSteady(events);
    }
  }

  // ---------------------------------------------------- a name used twice

  lemma RebornIsNew(w: World, kind: Kind, server: string, timestamp: string)
    requires WorldOk(w) && w.worker.Some? && |timestamp| == TIMESTAMP_LENGTH
    requires var k := w.worker.value.key; k.name == BackupName(kind, server, timestamp) && Current(w, k).None?
    ensures var k := w.worker.value.key;
      var reborn := Apply(w, CreateBackup(kind, k.namespace, server, timestamp));
      && Current(reborn, k).Some? && Current(reborn, k).value in CellAt(reborn, k).past
      && Current(reborn, k).value.body.status == NO_STATUS && reborn.worker == w.worker
  {
    var k := w.worker.value.key;
    assert VersionOk(k, w.worker.value.snap, w.uploads);
    BackupNameRoundTrip(kind, server, timestamp);
  }

  lemma FinishCompletes(w: World, around: Surroundings)
    requires w.worker.Some? && w.worker.value.task.Finish? && Current(w, w.worker.value.key).Some?
    requires var k := w.worker.value.key; Current(w, k).value in CellAt(w, k).past
    ensures var k := w.worker.value.key;
      var v, done := Current(w, k).value, Apply(w, Step(around, Current(w, k).value));
      && Current(done, k).Some?
      && Current(done, k).value.body.status.state == Completed
      && Current(done, k).value.body.status.startedAt == v.body.status.startedAt
  {}

  /** Whenever a backup is deleted while its worker is about to finish, creating
      it again under the same name makes the new one jump to Completed without
      ever having started. */
  lemma RebirthJumps(w: World, kind: Kind, server: string, timestamp: string, around: Surroundings)
    requires WorldOk(w) && w.worker.Some? && w.worker.value.task.Finish? && |timestamp| == TIMESTAMP_LENGTH
    requires var k := w.worker.value.key; k.name == BackupName(kind, server, timestamp) && Current(w, k).None?
    ensures var k := w.worker.value.key;
      var reborn := Apply(w, CreateBackup(kind, k.namespace, server, timestamp));
      && Current(reborn, k).Some?
      && var done := Apply(reborn, Step(around, Current(reborn, k).value));
         && Current(done, k).Some?
         && Current(done, k).value.body.status.state == Completed
         && Current(done, k).value.body.status.startedAt == None
         && !IsRegular(Current(reborn, k).value.body.status.state, Completed)
  {
    RebornIsNew(w, kind, server, timestamp);
    FinishCompletes(Apply(w, CreateBackup(kind, w.worker.value.key.namespace, server, timestamp)), around);
  }

  lemma RunAppend(w: World, events: seq<Event>, e: Event)
    ensures Run(w, events + [e]) == Apply(Run(w, events), e)
  {
    assert (events + [e])[..|events|] == events;
  }

  predicate OnlyBackup(w: World, k: Key, state: State) {
    && w.worker.None? && w.cells.Keys == {k} && Current(w, k).Some?
    && Current(w, k).value.body.status.state == state && Dispatch(k.name).BackupNamed?
  }

  lemma PendingIsReached(namespace: string, server: string, timestamp: string) returns (events: seq<Event>)
    requires IsSlashFree(namespace) && IsSlashFree(server) && |timestamp| == TIMESTAMP_LENGTH
    requires !HasPrefix(server + "-", SCHEDULE_PREFIX)
    ensures OnlyBackup(Run(EMPTY, events), Key(namespace, BackupName(OnDemand, server, timestamp)), Pending)
  {
    var k := Key(namespace, BackupName(OnDemand, server, timestamp));
    BackupReachesItsReconciler(OnDemand, server, timestamp);
    events := [CreateBackup(OnDemand, namespace, server, timestamp)];
    var w := Apply(EMPTY, events[0]);
    RunAppend(EMPTY, [], events[0]);
    assert events == [] + [events[0]];
    assert Run(EMPTY, events) == w;
    var mark := MarkPending(k, Current(w, k).value);
    RunAppend(EMPTY, events, mark);
    events := events + [mark];
  }

  lemma InProgressIsReached(before: seq<Event>, k: Key, around: Surroundings) returns (events: seq<Event>)
    requires OnlyBackup(Run(EMPTY, before), k, Pending)
    requires around.s3Configured && IsServing(around.serverState)
    ensures OnlyBackup(Run(EMPTY, events), k, InProgress)
  {
    RunKeepsOk(before);
    var w := Run(EMPTY, before);
    var v := Current(w, k).value;
    RunAppend(EMPTY, before, Begin(k));
    events := before + [Begin(k)];
    RunAppend(EMPTY, events, Step(around, v));
    events := events + [Step(around, v)];
    assert Run(EMPTY, events) == w.(worker := Some(Worker(k, v, Claim)));
    RunAppend(EMPTY, events, Step(around, v));
    events := events + [Step(around, v)];
  }

  lemma UploadIsReached(before: seq<Event>, k: Key, around: Surroundings) returns (events: seq<Event>)
    requires OnlyBackup(Run(EMPTY, before), k, InProgress)
    requires IsServing(around.serverState) && around.s3Ready && around.uploadOk
    ensures var w := Run(EMPTY, events); w.worker.Some? && w.worker.value.key == k && w.worker.value.task.Finish?
  {
    RunKeepsOk(before);
    var v := Current(Run(EMPTY, before), k).value;
    RunAppend(EMPTY, before, Begin(k));
    events := before + [Begin(k)];
    RunAppend(EMPTY, events, Step(around, v));
    events := events + [Step(around, v)];
  }

  /** The moment that RebirthJumps needs is reached by a run. */
  lemma RebirthIsReachable(namespace: string, server: string, timestamp: string, around: Surroundings)
    returns (events: seq<Event>)
    requires IsSlashFree(namespace) && IsSlashFree(server) && |timestamp| == TIMESTAMP_LENGTH
    requires !HasPrefix(server + "-", SCHEDULE_PREFIX)
    requires around.s3Configured && IsServing(around.serverState) && around.s3Ready && around.uploadOk
    ensures var w, k := Run(EMPTY, events), Key(namespace, BackupName(OnDemand, server, timestamp));
      w.worker.Some? && w.worker.value.key == k && w.worker.value.task.Finish? && Current(w, k).None?
  {
    var k := Key(namespace, BackupName(OnDemand, server, timestamp));
    events := PendingIsReached(namespace, server, timestamp);
    events := InProgressIsReached(events, k, around);
    events := UploadIsReached(events, k, around);
    RunAppend(EMPTY, events, DeleteBackup(k));
    events := events + [DeleteBackup(k)];
  }
}
