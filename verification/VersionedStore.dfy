/** The part of the Kubernetes API server that the operator relies on: one
    cell per object key, optimistic concurrency by version number, and reads
    that may return any version the cell has ever held. */
module VersionedStore {

  datatype Option<+T> = None | Some(value: T)

  datatype Key = Key(namespace: string, name: string)

  /** One version of an object. `uid` tells an object from a later one that was
      created under the same key. */
  datatype Stored<T> = Stored(uid: nat, version: nat, body: T)

  /** `past` holds every version ever stored; `next` is the next unused version. */
  datatype Cell<T(==)> = Cell(current: Option<Stored<T>>, past: set<Stored<T>>, next: nat)

  function NewCell<T>(): Cell<T> {
    Cell(None, {}, 0)
  }

  /** Every version number was handed out once. */
  ghost predicate CellOk<T>(c: Cell<T>) {
    && (c.current.Some? ==> c.current.value in c.past)
    && (forall v <- c.past :: v.uid <= v.version < c.next)
    && (forall v <- c.past, w <- c.past :: v.version == w.version ==> v == w)
  }

  function Insert<T>(c: Cell<T>, uid: nat, body: T): Cell<T> {
    var v := Stored(uid, c.next, body);
    Cell(Some(v), c.past + {v}, c.next + 1)
  }

  /** Create fails, changing nothing, when the name is taken. */
  function Create<T>(c: Cell<T>, body: T): Cell<T> {
    if c.current.Some? then c else Insert(c, c.next, body)
  }

  function Replace<T>(c: Cell<T>, body: T): Cell<T>
    requires c.current.Some?
  {
    Insert(c, c.current.value.uid, body)
  }

  function Remove<T>(c: Cell<T>): Cell<T> {
    c.(current := None)
  }

  /** The test an Update makes before it is accepted. */
  predicate Accepts<T>(c: Cell<T>, sent: Stored<T>) {
    c.current.Some? && c.current.value.version == sent.version
  }

  /** However old the read, an accepted write was computed from the version that
      is stored now: nothing written in between is lost. */
  lemma AcceptedReadIsCurrent<T>(c: Cell<T>, read: Stored<T>)
    requires CellOk(c) && read in c.past
    ensures Accepts(c, read) <==> c.current == Some(read)
  {}

  /** Writes keep the numbering unique, and a write retires every earlier read:
      no version read before it is accepted after it. */
  lemma WritesRetireReads<T>(c: Cell<T>, uid: nat, body: T)
    requires CellOk(c) && uid <= c.next
    ensures CellOk(Insert(c, uid, body)) && CellOk(Remove(c))
    ensures forall read <- c.past :: !Accepts(Insert(c, uid, body), read) && !Accepts(Remove(c), read)
  {}
}
