/** One undisturbed reconcile of a backup as the controller runs it, and
    retention. */
module BackupReconciler {
  import opened BackupLifecycle
  import opened VersionedStore
  import opened BackupNames
  import opened BackupProtocol
  import opened Sets
  import opened BackupOutcome

  /** The machine's worker on one key with nobody else moving. */
  function Pass(w: World, k: Key, around: Surroundings): World {
    var w1 := Apply(w, Begin(k));
    if w.worker.Some? || w1.worker.None? then w1
    else
      var v := CellAt(w, k).current.value;
      var w2 := WorkerStep(w1, w1.worker.value, around, v);
      if w2.worker.None? then w2 else WorkerStep(w2, w2.worker.value, around, v)
  }

  // ---------------------------------------------------- three passes finish

  function Rank(s: State): nat {
    match s
    case Unset => 3
    case Pending => 2
    case InProgress => 1
    case Completed => 0
    case Failed => 0
  }

  function StateAt(w: World, k: Key): State {
    if CellAt(w, k).current.Some? then CellAt(w, k).current.value.body.status.state else Unset
  }

  predicate IsIdleAt(w: World, k: Key) {
    w.worker.None? && CellAt(w, k).current.Some? && Dispatch(k.name).BackupNamed?
  }

  /** A worker's write, made from the current object, is accepted. */
  lemma WriteLowersRank(w: World, around: Surroundings)
    requires w.worker.Some? && CellAt(w, w.worker.value.key).current.Some?
    requires var p := w.worker.value; p.task != Check && p.task != Transfer && TaskFits(StateAt(w, p.key), p.task)
    ensures var p := w.worker.value;
      var w' := WorkerStep(w, p, around, CellAt(w, p.key).current.value);
      && w'.worker.None? && CellAt(w', p.key).current.Some?
      && Rank(StateAt(w', p.key)) < Rank(StateAt(w, p.key))
  {}

  lemma PassLowersRank(w: World, k: Key, around: Surroundings)
    requires IsIdleAt(w, k)
    ensures var w' := Pass(w, k, around);
      && IsIdleAt(w', k)
      && (if IsTerminal(StateAt(w, k)) then w' == w else Rank(StateAt(w', k)) < Rank(StateAt(w, k)))
  {
    var w1 := Apply(w, Begin(k));
    if w1.worker.Some? {
      var v := CellAt(w, k).current.value;
      if w1.worker.value.task == Enroll {
        WriteLowersRank(w1, around);
      } else {
        WriteLowersRank(WorkerStep(w1, w1.worker.value, around, v), around);
      }
    }
  }

  /** Undisturbed passes, each some time after the one before. */
  function Passes(w: World, k: Key, turns: seq<(nat, Surroundings)>): World
    decreases |turns|
  {
    if turns == [] then w else Passes(Pass(Apply(w, Tick(turns[0].0)), k, turns[0].1), k, turns[1..])
  }

  /** Whatever each pass finds, every backup is finished after three. */
  lemma {:induction false} ThreePassesFinish(w: World, k: Key, turns: seq<(nat, Surroundings)>)
    requires IsIdleAt(w, k) && |turns| >= Rank(StateAt(w, k))
    ensures Rank(StateAt(w, k)) <= 3 && IsTerminal(StateAt(Passes(w, k, turns), k))
    decreases |turns|
  {
    if turns != [] {
      var ticked := Apply(w, Tick(turns[0].0));
      PassLowersRank(ticked, k, turns[0].1);
      ThreePassesFinish(Pass(ticked, k, turns[0].1), k, turns[1..]);
    }
  }

  // --------------------------------------------------------------- outcomes

  lemma BusyIsAnother(w: World, k: Key, server: string)
    ensures OtherBusy(w, k, server) <==> AnotherRuns(w, k, server)
  {
    if AnotherRuns(w, k, server) {
      var k' :| k' in w.cells && k' != k && IsBusy(w, k', k.namespace, server);
    }
  }

  /** The worker's write from the current object. */
  lemma WriteIsStored(w: World, k: Key, snap: Version, task: Task, around: Surroundings)
    requires CellAt(w, k).current == Some(snap) && task != Check && task != Transfer && k in w.cells
    ensures var w' := WorkerStep(w.(worker := Some(Worker(k, snap, task))), Worker(k, snap, task), around, snap);
      && w'.worker.None? && w'.clock == w.clock && w'.uploads == w.uploads
      && k in w'.cells && w'.cells == w.cells[k := w'.cells[k]] && w'.cells[k].current.Some?
      && w'.cells[k].current.value.uid == snap.uid
      && w'.cells[k].current.value.body == snap.body.(status := Written(task, snap.body.status, w.clock))
  {}

  lemma PendingOutcome(w: World, k: Key, around: Surroundings)
    requires IsIdleAt(w, k) && StateAt(w, k) == Pending
    ensures IsOutcome(w, k, around, Pass(w, k, around))
  {
    var v := CellAt(w, k).current.value;
    var w1 := w.(worker := Some(Worker(k, v, Check)));
    BusyIsAnother(w, k, v.body.server);
    BusyIsAnother(w1, k, v.body.server);
    WriteIsStored(w, k, v, Claim, around);
    WriteIsStored(w, k, v, Fail, around);
  }

  lemma KeysAgree(k: Key, server: string, timestamp: string)
    ensures ObjectKey(k.namespace, server, timestamp) == KeyOf(k, server, timestamp)
  {}

  lemma InProgressOutcome(w: World, k: Key, around: Surroundings)
    requires IsIdleAt(w, k) && StateAt(w, k) == InProgress
    ensures IsOutcome(w, k, around, Pass(w, k, around))
  {
    var v := CellAt(w, k).current.value;
    var objectKey := ObjectKey(k.namespace, v.body.server, around.timestamp);
    var u := Upload(around.bucket, objectKey, k.namespace, v.body.server, around.uploadOk);
    KeysAgree(k, v.body.server, around.timestamp);
    WriteIsStored(w, k, v, Fail, around);
    WriteIsStored(w.(uploads := w.uploads + {u}), k, v, Fail, around);
    WriteIsStored(w.(uploads := w.uploads + {u}), k, v, Finish(around.bucket, objectKey), around);
  }

  /** One undisturbed reconcile of a backup leads where its surroundings say. */
  lemma PassOutcome(w: World, k: Key, around: Surroundings)
    requires w.worker.None? && Dispatch(k.name).BackupNamed?
    ensures IsOutcome(w, k, around, Pass(w, k, around))
  {
    if CellAt(w, k).current.Some? {
      match StateAt(w, k) {
        case Unset => WriteIsStored(w, k, CellAt(w, k).current.value, Enroll, around);
        case Pending => PendingOutcome(w, k, around);
        case InProgress => InProgressOutcome(w, k, around);
        case _ => assert w.cells[k := w.cells[k]] == w.cells;
      }
    }
  }

  // -------------------------------------------------------------- retention

  /** The Completed backups of one server. */
  function CompletedKeys(cells: map<Key, Cell<Backup>>, namespace: string, server: string): set<Key> {
    set k | k in cells && IsCompletedOf(k, cells[k], namespace, server)
  }

  predicate IsCompletedOf(k: Key, c: Cell<Backup>, namespace: string, server: string) {
    && k.namespace == namespace && c.current.Some?
    && c.current.value.body.listedFor == server
    && c.current.value.body.status.state == Completed
  }

  function CreatedAt(c: Cell<Backup>): Time {
    if c.current.Some? then c.current.value.body.created else 0
  }

  /** Retention keeps exactly the newest: as many Completed backups of the server
      survive as the limit allows, none that is deleted is newer than one that
      survives, and nothing else changes. */
  ghost predicate IsRetained(
    cells: map<Key, Cell<Backup>>, cells': map<Key, Cell<Backup>>, namespace: string, server: string, limit: nat)
  {
    var all, kept := CompletedKeys(cells, namespace, server), CompletedKeys(cells', namespace, server);
    && cells'.Keys == cells.Keys
    && kept <= all
    && |kept| == (if |all| <= limit then |all| else limit)
    && (forall k <- all - kept :: cells'[k] == Remove(cells[k]))
    && (forall k <- cells :: k !in all - kept ==> cells'[k] == cells[k])
    && (forall gone <- all - kept, stays <- kept :: CreatedAt(cells[gone]) <= CreatedAt(cells[stays]))
  }

  /** A second run deletes nothing. */
  lemma RetentionIsIdempotent(
    cells: map<Key, Cell<Backup>>, cells': map<Key, Cell<Backup>>, cells'': map<Key, Cell<Backup>>,
    namespace: string, server: string, limit: nat)
    requires IsRetained(cells, cells', namespace, server, limit) && IsRetained(cells', cells'', namespace, server, limit)
    ensures cells'' == cells'
  {
    SameSizeSubset(CompletedKeys(cells'', namespace, server), CompletedKeys(cells', namespace, server));
    assert CompletedKeys(cells', namespace, server) - CompletedKeys(cells'', namespace, server) == {};
  }

  /** `ideal`, except that nothing happened to the keys in `failing`. */
  function Undeleted(
    cells: map<Key, Cell<Backup>>, ideal: map<Key, Cell<Backup>>, failing: set<Key>): map<Key, Cell<Backup>>
  {
    map k | k in cells :: if k in failing || k !in ideal then cells[k] else ideal[k]
  }

  /** A backup that survives beyond the ideal displaces one no newer than itself. */
  lemma DisplacedIsOlder(
    cells: map<Key, Cell<Backup>>, top: set<Key>, partial: map<Key, Cell<Backup>>, final: map<Key, Cell<Backup>>,
    namespace: string, server: string, limit: nat, gone: Key, stays: Key)
    requires IsRetained(partial, final, namespace, server, limit)
    requires top <= CompletedKeys(partial, namespace, server) <= cells.Keys && |top| == limit
    requires forall k <- CompletedKeys(partial, namespace, server) :: partial[k] == cells[k]
    requires gone in cells && forall k <- top :: k in cells && CreatedAt(cells[gone]) <= CreatedAt(cells[k])
    requires stays in CompletedKeys(final, namespace, server)
    ensures stays in cells && CreatedAt(cells[gone]) <= CreatedAt(cells[stays])
  {
    var kept := CompletedKeys(final, namespace, server);
    if stays !in top {
      if top <= kept {
        assert top + {stays} <= kept;
        SubsetSize(top + {stays}, kept);
        assert false;
      }
      var t :| t in top && t !in kept;
      assert CreatedAt(partial[t]) <= CreatedAt(partial[stays]);
    }
  }

  /** What failed deletes leave: the ideal, and of the rest what they failed on. */
  lemma LeftByFailures(
    cells: map<Key, Cell<Backup>>, ideal: map<Key, Cell<Backup>>, failing: set<Key>,
    namespace: string, server: string, limit: nat)
    requires IsRetained(cells, ideal, namespace, server, limit)
    ensures var partial, all := Undeleted(cells, ideal, failing), CompletedKeys(cells, namespace, server);
      var left := CompletedKeys(partial, namespace, server);
      && partial.Keys == cells.Keys
      && left == CompletedKeys(ideal, namespace, server) + (all * failing)
      && (forall k <- all - left :: partial[k] == Remove(cells[k]))
      && (forall k <- cells :: k !in all - left ==> partial[k] == cells[k])
  {
    var partial, all := Undeleted(cells, ideal, failing), CompletedKeys(cells, namespace, server);
    forall k <- cells
      ensures k in CompletedKeys(partial, namespace, server) <==> k in CompletedKeys(ideal, namespace, server) + (all * failing)
    {}
  }

  /** Removing in two goes is removing in one. */
  lemma RetainedInTwo(
    cells: map<Key, Cell<Backup>>, partial: map<Key, Cell<Backup>>, final: map<Key, Cell<Backup>>,
    namespace: string, server: string, limit: nat)
    requires IsRetained(partial, final, namespace, server, limit) && partial.Keys == cells.Keys
    requires var all, left := CompletedKeys(cells, namespace, server), CompletedKeys(partial, namespace, server);
      && left <= all && (limit < |all| ==> limit <= |left|) && (|all| <= limit ==> left == all)
      && (forall k <- all - left :: partial[k] == Remove(cells[k]))
      && (forall k <- cells :: k !in all - left ==> partial[k] == cells[k])
    requires var all, kept := CompletedKeys(cells, namespace, server), CompletedKeys(final, namespace, server);
      forall gone <- all - kept, stays <- kept :: stays in cells && CreatedAt(cells[gone]) <= CreatedAt(cells[stays])
    ensures IsRetained(cells, final, namespace, server, limit)
  {}

  /** Failed deletes are made up for: whatever failed in a first run, a second in
      which none fails leaves just what one run without failures may leave. */
  lemma RetentionCatchesUp(
    cells: map<Key, Cell<Backup>>, ideal: map<Key, Cell<Backup>>, failing: set<Key>, final: map<Key, Cell<Backup>>,
    namespace: string, server: string, limit: nat)
    requires IsRetained(cells, ideal, namespace, server, limit)
    requires IsRetained(Undeleted(cells, ideal, failing), final, namespace, server, limit)
    ensures IsRetained(cells, final, namespace, server, limit)
  {
    var partial := Undeleted(cells, ideal, failing);
    var all, kept := CompletedKeys(cells, namespace, server), CompletedKeys(final, namespace, server);
    LeftByFailures(cells, ideal, failing, namespace, server, limit);
    SubsetSize(CompletedKeys(ideal, namespace, server), CompletedKeys(partial, namespace, server));
    if |all| <= limit {
      SameSizeSubset(CompletedKeys(ideal, namespace, server), all);
    }
    forall gone <- all - kept, stays <- kept ensures stays in cells && CreatedAt(cells[gone]) <= CreatedAt(cells[stays]) {
      GoneInTwoIsOlder(cells, ideal, failing, final, namespace, server, limit, gone, stays);
    }
    RetainedInTwo(cells, partial, final, namespace, server, limit);
  }

  lemma GoneInTwoIsOlder(
    cells: map<Key, Cell<Backup>>, ideal: map<Key, Cell<Backup>>, failing: set<Key>, final: map<Key, Cell<Backup>>,
    namespace: string, server: string, limit: nat, gone: Key, stays: Key)
    requires IsRetained(cells, ideal, namespace, server, limit)
    requires IsRetained(Undeleted(cells, ideal, failing), final, namespace, server, limit)
    requires gone in CompletedKeys(cells, namespace, server) - CompletedKeys(final, namespace, server)
    requires stays in CompletedKeys(final, namespace, server)
    ensures stays in cells && CreatedAt(cells[gone]) <= CreatedAt(cells[stays])
  {
    var partial := Undeleted(cells, ideal, failing);
    var left := CompletedKeys(partial, namespace, server);
    LeftByFailures(cells, ideal, failing, namespace, server, limit);
    if gone in left {
      assert partial[gone] == cells[gone] && partial[stays] == cells[stays];
    } else {
      var top := CompletedKeys(ideal, namespace, server);
      if |top| != limit {
        SameSizeSubset(top, CompletedKeys(cells, namespace, server));
      }
      DisplacedIsOlder(cells, top, partial, final, namespace, server, limit, gone, stays);
    }
  }

  datatype Entry = Entry(key: Key, created: Time)

  predicate IsNewestFirst(s: seq<Entry>) {
    forall i, j :: 0 <= i < j < |s| ==> s[i].created >= s[j].created
  }

  lemma InsertKeepsOrder(sorted: seq<Entry>, i: nat, e: Entry)
    requires IsNewestFirst(sorted) && i <= |sorted|
    requires forall j :: 0 <= j < i ==> sorted[j].created > e.created
    requires i < |sorted| ==> sorted[i].created <= e.created
    ensures IsNewestFirst(sorted[..i] + [e] + sorted[i..])
  {
    var longer := sorted[..i] + [e] + sorted[i..];
    assert forall j :: 0 <= j < |longer| ==> longer[j] == if j < i then sorted[j] else if j == i then e else sorted[j - 1];
  }

  method InsertByAge(sorted: seq<Entry>, e: Entry) returns (longer: seq<Entry>)
    requires IsNewestFirst(sorted)
    ensures multiset(longer) == multiset(sorted) + multiset{e} && IsNewestFirst(longer)
  {
    var i := 0;
    while i < |sorted| && sorted[i].created > e.created
      invariant 0 <= i <= |sorted|
      invariant forall j :: 0 <= j < i ==> sorted[j].created > e.created
    {
      i := i + 1;
    }
    longer := sorted[..i] + [e] + sorted[i..];
    InsertKeepsOrder(sorted, i, e);
    assert sorted == sorted[..i] + sorted[i..];
  }

  /** sort.Slice promises no order among equals, and neither does this contract. */
  method SortNewestFirst(entries: seq<Entry>) returns (sorted: seq<Entry>)
    ensures multiset(sorted) == multiset(entries) && IsNewestFirst(sorted)
  {
    sorted := [];
    for n := 0 to |entries|
      invariant multiset(sorted) == multiset(entries[..n]) && IsNewestFirst(sorted)
    {
      assert entries[..n + 1] == entries[..n] + [entries[n]];
      sorted := InsertByAge(sorted, entries[n]);
    }
    assert entries[..|entries|] == entries;
  }

  ghost function KeysOf(s: seq<Entry>): set<Key> {
    set e | e in s :: e.key
  }

  lemma KeysOfAppend(s: seq<Entry>, e: Entry)
    ensures KeysOf(s + [e]) == KeysOf(s) + {e.key}
  {
    assert forall x :: x in s + [e] <==> x in s || x == e;
    forall k | k in KeysOf(s) + {e.key} ensures k in KeysOf(s + [e]) {
      if k in KeysOf(s) {
        var x :| x in s && x.key == k;
        assert x in s + [e];
      } else {
        assert e in s + [e];
      }
    }
  }

  ghost predicate AreDistinct(s: seq<Entry>) {
    forall i, j :: 0 <= i < j < |s| ==> s[i].key != s[j].key
  }

  lemma {:induction false} DistinctSize(s: seq<Entry>)
    requires AreDistinct(s)
    ensures |KeysOf(s)| == |s|
  {
    if s != [] {
      DistinctSize(s[1..]);
      assert KeysOf(s) == {s[0].key} + KeysOf(s[1..]);
    }
  }

  lemma SortedStaysDistinct(s: seq<Entry>, sorted: seq<Entry>)
    requires AreDistinct(s) && multiset(sorted) == multiset(s)
    ensures AreDistinct(sorted) && KeysOf(sorted) == KeysOf(s)
    ensures forall e :: e in s <==> e in sorted
  {
    forall e ensures e in s <==> e in sorted {
      assert e in multiset(s) <==> e in multiset(sorted);
    }
    forall i, j | 0 <= i < j < |sorted| ensures sorted[i].key != sorted[j].key {
      if sorted[i].key == sorted[j].key {
        assert sorted[i] in s && sorted[j] in s;
        var a :| 0 <= a < |s| && s[a] == sorted[i];
        var b :| 0 <= b < |s| && s[b] == sorted[j];
        assert a == b;
        Twice(sorted, i, j);
        Once(s, a);
      }
    }
  }

  lemma Twice(s: seq<Entry>, i: int, j: int)
    requires 0 <= i < j < |s| && s[i] == s[j]
    ensures multiset(s)[s[i]] >= 2
  {
    assert s == s[..i] + [s[i]] + s[i + 1..j] + [s[j]] + s[j + 1..];
  }

  lemma Once(s: seq<Entry>, a: int)
    requires AreDistinct(s) && 0 <= a < |s|
    ensures multiset(s)[s[a]] == 1
  {
    assert s == s[..a] + [s[a]] + s[a + 1..];
    assert s[a] !in s[..a] && s[a] !in s[a + 1..];
  }

  function Without(cells: map<Key, Cell<Backup>>, gone: set<Key>): map<Key, Cell<Backup>> {
    map k | k in cells :: if k in gone then Remove(cells[k]) else cells[k]
  }

  lemma RemovedAreNotCompleted(cells: map<Key, Cell<Backup>>, gone: set<Key>, namespace: string, server: string)
    ensures CompletedKeys(Without(cells, gone), namespace, server) == CompletedKeys(cells, namespace, server) - gone
  {}

  lemma SplitKeys(sorted: seq<Entry>, limit: nat)
    requires limit <= |sorted| && AreDistinct(sorted)
    ensures KeysOf(sorted) - KeysOf(sorted[limit..]) == KeysOf(sorted[..limit])
    ensures |KeysOf(sorted[..limit])| == limit
    ensures KeysOf(sorted[limit..]) <= KeysOf(sorted)
  {
    var head, tail := sorted[..limit], sorted[limit..];
    DistinctSize(head);
    assert forall e :: e in sorted <==> e in head || e in tail by {
      assert sorted == head + tail;
    }
    forall e, e' | e in head && e' in tail ensures e.key != e'.key {
      var i :| 0 <= i < |head| && head[i] == e;
      var j :| 0 <= j < |tail| && tail[j] == e';
      assert sorted[i] == e && sorted[limit + j] == e';
    }
  }

  lemma TailIsOlder(cells: map<Key, Cell<Backup>>, sorted: seq<Entry>, limit: nat, stays: Key, gone: Key)
    requires limit <= |sorted| && IsNewestFirst(sorted)
    requires forall e <- sorted :: e.key in cells && e.created == CreatedAt(cells[e.key])
    requires stays in KeysOf(sorted[..limit]) && gone in KeysOf(sorted[limit..])
    ensures gone in cells && stays in cells && CreatedAt(cells[gone]) <= CreatedAt(cells[stays])
  {
    var e :| e in sorted[..limit] && e.key == stays;
    var e' :| e' in sorted[limit..] && e'.key == gone;
    var i :| 0 <= i < limit && sorted[i] == e;
    var j :| limit <= j < |sorted| && sorted[j] == e';
  }

  /** Deleting everything behind the first `limit` of the sorted list is retention. */
  lemma NewestAreRetained(
    cells: map<Key, Cell<Backup>>, sorted: seq<Entry>, namespace: string, server: string, limit: nat)
    requires limit < |sorted| && IsNewestFirst(sorted) && AreDistinct(sorted)
    requires KeysOf(sorted) == CompletedKeys(cells, namespace, server)
    requires forall e <- sorted :: e.key in cells && e.created == CreatedAt(cells[e.key])
    ensures IsRetained(cells, Without(cells, KeysOf(sorted[limit..])), namespace, server, limit)
  {
    var gone := KeysOf(sorted[limit..]);
    DistinctSize(sorted);
    SplitKeys(sorted, limit);
    RemovedAreNotCompleted(cells, gone, namespace, server);
    var all := CompletedKeys(cells, namespace, server);
    assert all - (all - gone) == gone;
    forall g <- gone, k <- all - gone ensures CreatedAt(cells[g]) <= CreatedAt(cells[k]) {
      TailIsOlder(cells, sorted, limit, k, g);
    }
  }

  class BackupReconciler {
    var cells: map<Key, Cell<Backup>>
    var uploads: set<Upload>
    var clock: Time

    /** The world with no worker, and with one at `task`. */
    ghost function View(): World
      reads this
    {
      World(cells, None, uploads, clock)
    }

    ghost function At(k: Key, snap: Version, task: Task): World
      reads this
    {
      View().(worker := Some(Worker(k, snap, task)))
    }

    /** The write at the end of each branch: re-fetch, set the fields, update. */
    method Write(k: Key, st: Status, read: Version)
      modifies this`cells
      ensures cells == old(cells)[k := PutStatus(CellAt(old(View()), k), read, st)]
    {
      var c := if k in cells then cells[k] else NewCell();
      if c.current.Some? && c.current.value.version == read.version {
        c := Replace(c, c.current.value.body.(status := st));
      }
      cells := cells[k := c];
    }

    method FailBackup(k: Key, read: Version)
      modifies this`cells
      ensures cells == old(cells)[k := PutStatus(CellAt(old(View()), k), read, Written(Fail, read.body.status, clock))]
    {
      var st := read.body.status.(state := Failed, ready := Some(false));
      if st.completedAt.None? {
        st := st.(completedAt := Some(clock));
      }
      Write(k, st, read);
    }

    /** The search for another InProgress backup of the same server. */
    method FindOtherInProgress(key: Key, server: string) returns (found: bool)
      ensures found <==> OtherBusy(View(), key, server)
    {
      var todo := cells.Keys;
      while todo != {}
        invariant todo <= cells.Keys
        invariant forall k <- cells.Keys - todo :: k != key ==> !IsBusy(View(), k, key.namespace, server)
      {
        var k :| k in todo;
        var c := cells[k];
        if k != key && k.namespace == key.namespace && c.current.Some? && c.current.value.body.listedFor == server
           && c.current.value.body.status.state == InProgress
        {
          assert IsBusy(View(), k, key.namespace, server);
          return true;
        }
        todo := todo - {k};
      }
      found := false;
    }

    method ReconcilePending(k: Key, v: Version, around: Surroundings)
      requires k in cells && cells[k].current == Some(v) && v.body.status.state in {Unset, Pending}
      requires Dispatch(k.name).BackupNamed?
      modifies this
      ensures View() == Pass(old(View()), k, around)
    {
      if v.body.status.state == Unset {
        Write(k, v.body.status.(state := Pending, ready := Some(false)), v);
        return;
      }
      var busy := FindOtherInProgress(k, v.body.server);
      assert OtherBusy(At(k, v, Check), k, v.body.server) == OtherBusy(View(), k, v.body.server) by {
        assert forall k' :: IsBusy(At(k, v, Check), k', k.namespace, v.body.server) == IsBusy(View(), k', k.namespace, v.body.server);
      }
      if !around.s3Configured || !IsServing(around.serverState) || busy {
        FailBackup(k, v);
        return;
      }
      Write(k, v.body.status.(state := InProgress, startedAt := Some(clock), ready := Some(false)), v);
    }

    method ReconcileInProgress(k: Key, v: Version, around: Surroundings)
      requires k in cells && cells[k].current == Some(v) && v.body.status.state == InProgress
      requires Dispatch(k.name).BackupNamed?
      modifies this
      ensures View() == Pass(old(View()), k, around)
    {
      if !IsServing(around.serverState) || !around.s3Ready {
        FailBackup(k, v);
        return;
      }
      var objectKey := ObjectKey(k.namespace, v.body.server, around.timestamp);
      uploads := uploads + {Upload(around.bucket, objectKey, k.namespace, v.body.server, around.uploadOk)};
      if !around.uploadOk {
        FailBackup(k, v);
        return;
      }
      var st := v.body.status.(state := Completed, key := objectKey, bucket := around.bucket);
      Write(k, st.(completedAt := Some(clock), ready := Some(true)), v);
    }

    /** One undisturbed reconcile is one pass of the machine's worker. */
    method Reconcile(k: Key, around: Surroundings)
      requires Dispatch(k.name).BackupNamed?
      modifies this
      ensures View() == Pass(old(View()), k, around)
      ensures IsOutcome(old(View()), k, around, View())
    {
      PassOutcome(View(), k, around);
      if k !in cells || cells[k].current.None? {
        return;
      }
      var v := cells[k].current.value;
      match v.body.status.state {
        case Unset => ReconcilePending(k, v, around);
        case Pending => ReconcilePending(k, v, around);
        case InProgress => ReconcileInProgress(k, v, around);
        case Completed =>
        case Failed =>
      }
    }

    /** The Completed backups of a server, in no particular order. */
    method ListCompleted(namespace: string, server: string) returns (completed: seq<Entry>)
      ensures AreDistinct(completed) && KeysOf(completed) == CompletedKeys(cells, namespace, server)
      ensures forall e <- completed :: e.key in cells && e.created == CreatedAt(cells[e.key])
    {
      completed := [];
      var todo := cells.Keys;
      while todo != {}
        invariant todo <= cells.Keys
        invariant AreDistinct(completed)
        invariant KeysOf(completed) == CompletedKeys(cells, namespace, server) - todo
        invariant forall e <- completed :: e.key in cells && e.created == CreatedAt(cells[e.key])
      {
        var k :| k in todo;
        var c := cells[k];
        if k.namespace == namespace && c.current.Some? && c.current.value.body.listedFor == server
           && c.current.value.body.status.state == Completed
        {
          assert forall e <- completed :: e.key in KeysOf(completed);
          KeysOfAppend(completed, Entry(k, c.current.value.body.created));
          completed := completed + [Entry(k, c.current.value.body.created)];
        }
        todo := todo - {k};
      }
    }

    method DeleteAll(doomed: seq<Entry>, failing: set<Key>)
      requires forall e <- doomed :: e.key in cells
      modifies this`cells
      ensures cells == Without(old(cells), KeysOf(doomed) - failing)
    {
      for i := 0 to |doomed|
        invariant cells == Without(old(cells), KeysOf(doomed[..i]) - failing)
      {
        KeysOfAppend(doomed[..i], doomed[i]);
        assert doomed[..i + 1] == doomed[..i] + [doomed[i]];
        if doomed[i].key !in failing {
          cells := cells[doomed[i].key := Remove(cells[doomed[i].key])];
        }
      }
      assert doomed[..|doomed|] == doomed;
    }

    /** The Completed backups behind the newest `maxCount`. */
    method FindExcess(namespace: string, server: string, maxCount: nat) returns (doomed: seq<Entry>)
      ensures forall e <- doomed :: e.key in cells
      ensures IsRetained(cells, Without(cells, KeysOf(doomed)), namespace, server, maxCount)
    {
      doomed := ListCompleted(namespace, server);
      DistinctSize(doomed);
      if |doomed| <= maxCount {
        doomed := [];
        assert Without(cells, KeysOf(doomed)) == cells;
        return;
      }
      var sorted := SortNewestFirst(doomed);
      SortedStaysDistinct(doomed, sorted);
      DistinctSize(sorted);
      NewestAreRetained(cells, sorted, namespace, server, maxCount);
      doomed := sorted[maxCount..];
    }

    /** Deletes of the keys in `failing` fail and are skipped. `ideal` is what
        would be left had they all succeeded. */
    method EnforceRetention(namespace: string, server: string, maxCount: int, failing: set<Key>)
      returns (ghost ideal: map<Key, Cell<Backup>>)
      modifies this`cells
      ensures if maxCount <= 0 then ideal == old(cells) else IsRetained(old(cells), ideal, namespace, server, maxCount)
      ensures cells == Undeleted(old(cells), ideal, failing)
    {
      ideal := cells;
      if maxCount <= 0 {
        assert cells == Undeleted(cells, ideal, failing);
        return;
      }
      var doomed := FindExcess(namespace, server, maxCount);
      ideal := Without(cells, KeysOf(doomed));
      DeleteAll(doomed, failing);
      assert cells == Undeleted(old(cells), ideal, failing);
    }
  }
}
