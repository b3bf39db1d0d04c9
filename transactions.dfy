/**
  What every action of the adapter does between getting a connection and
  issuing its one request: validate the target store, then open a
  transaction in that action's fixed mode. `validateBeforeTransaction`
  rejects without stopping the caller; the promise keeps its first
  rejection.
*/
module Transactions {
  import opened Options
  import opened Settle
  import opened Schema

  datatype Mode = ReadOnly | ReadWrite

  /** The operations of the action factory. */
  datatype Action =
    | GetByID | GetOneByKey | GetManyByKey | GetAll | OpenCursor
    | Add | Update | DeleteByID | DeleteAll

  /** The one engine request each action issues on its object store. */
  datatype Request = Get | IndexGet | IndexGetAll | GetAllRecords | Cursor | AddRecord | Put | Delete | Clear

  function RequestOf(a: Action): Request
  {
    match a
    case GetByID => Get
    case GetOneByKey => IndexGet
    case GetManyByKey => IndexGetAll
    case GetAll => GetAllRecords
    case OpenCursor => Cursor
    case Add => AddRecord
    case Update => Put
    case DeleteByID => Delete
    case DeleteAll => Clear
  }

  /** The requests that write to the store and so need a read-write transaction. */
  predicate Writes(r: Request)
  {
    r in {AddRecord, Put, Delete, Clear}
  }

  /**
    The transaction mode each action opens: the reads and the cursor use
    `readonly`, the writes `readwrite`, which is the least mode the
    action's request needs.
  */
  function ModeOf(a: Action): (m: Mode)
    ensures m == ReadOnly <==> a in {GetByID, GetOneByKey, GetManyByKey, GetAll, OpenCursor}
    ensures m == ReadWrite <==> a in {Add, Update, DeleteByID, DeleteAll}
    ensures m == ReadWrite <==> Writes(RequestOf(a))
  {
    match a
    case GetByID => ReadOnly
    case GetOneByKey => ReadOnly
    case GetManyByKey => ReadOnly
    case GetAll => ReadOnly
    case OpenCursor => ReadOnly
    case Add => ReadWrite
    case Update => ReadWrite
    case DeleteByID => ReadWrite
    case DeleteAll => ReadWrite
  }

  const NoConnection := "Queried before opening connection"

  /** The message for a store that is not in the database. */
  function StoreNotFound(storeName: string): string
  {
    "Store " + storeName + " not found"
  }

  /** The not-found message names the store: different stores give different messages. */
  lemma StoreNotFoundNamesStore(a: string, b: string)
    requires StoreNotFound(a) == StoreNotFound(b)
    ensures a == b
  {
    var n := |StoreNotFound(a)|;
    assert a == StoreNotFound(a)[6..n - 10];
    assert b == StoreNotFound(b)[6..n - 10];
  }

  /**
    `validateBeforeTransaction(db, storeName, reject)`: both checks call
    `reject` and neither returns early. With no database the store check
    reads a property of `null` and throws.
  */
  method ValidateBeforeTransaction<T>(db: Database?, storeName: string, cell: Cell<T>)
    returns (c: Completion<()>)
    modifies cell
    ensures db == null ==> c == Throw(TypeError) && cell.state == Step(old(cell.state), Rejected(Message(NoConnection)))
    ensures db != null && storeName in db.stores ==> c == Normal(()) && cell.state == old(cell.state)
    ensures db != null && storeName !in db.stores ==>
      c == Normal(()) && cell.state == Step(old(cell.state), Rejected(Message(StoreNotFound(storeName))))
  {
    if db == null {
      cell.Reject(Message(NoConnection));
      return Throw(TypeError);
    }
    if !db.Contains(storeName) {
      cell.Reject(Message(StoreNotFound(storeName)));
    }
    c := Normal(());
  }

  /** A transaction over one object store. */
  datatype Transaction = Transaction(storeName: string, mode: Mode)

  /**
    `createTransaction(db, mode, storeName, …)`: `db.transaction(…)` throws
    `InvalidStateError` on a closed connection and `NotFoundError` for a
    store the database does not have (the `transaction()` method of
    `IDBDatabase` in the Indexed Database API); otherwise a transaction over
    that store in that mode.
  */
  method CreateTransaction(db: Database, mode: Mode, storeName: string)
    returns (c: Completion<Transaction>)
    ensures db.closed ==> c == Throw(DomException("InvalidStateError"))
    ensures !db.closed && storeName !in db.stores ==> c == Throw(DomException("NotFoundError"))
    ensures !db.closed && storeName in db.stores ==> c == Normal(Transaction(storeName, mode))
  {
    if db.closed {
      return Throw(DomException("InvalidStateError"));
    }
    if !db.Contains(storeName) {
      return Throw(DomException("NotFoundError"));
    }
    c := Normal(Transaction(storeName, mode));
  }

  /**
    The body of one action up to its request: wait for the connection
    (`conn` is how `getConnection()` settled), validate, and open the
    transaction. A throw inside the `.then` callback reaches `.catch(reject)`,
    which can no longer change an already rejected promise.
  */
  method BeginAction<T>(action: Action, storeName: string, conn: Settlement<Database?>, cell: Cell<T>)
    returns (tx: Option<Transaction>)
    requires cell.state.Pending?
    modifies cell
    ensures conn.Pending? ==> cell.state.Pending? && tx == None
    ensures conn.Rejected? ==> cell.state == Rejected(conn.reason) && tx == None
    ensures conn.Fulfilled? && conn.value == null ==>
      cell.state == Rejected(Message(NoConnection)) && tx == None
    ensures conn.Fulfilled? && conn.value != null && storeName !in conn.value.stores ==>
      cell.state == Rejected(Message(StoreNotFound(storeName))) && tx == None
    ensures conn.Fulfilled? && conn.value != null && storeName in conn.value.stores && conn.value.closed ==>
      cell.state == Rejected(DomException("InvalidStateError")) && tx == None
    ensures conn.Fulfilled? && conn.value != null && storeName in conn.value.stores && !conn.value.closed ==>
      cell.state.Pending? && tx == Some(Transaction(storeName, ModeOf(action)))
  {
    match conn
    case Pending =>
      return None;
    case Rejected(r) =>
      cell.Reject(r);
      return None;
    case Fulfilled(db) =>
      var v := ValidateBeforeTransaction(db, storeName, cell);
      if v.Throw? {
        cell.Reject(v.reason);
        return None;
      }
      var t := CreateTransaction(db, ModeOf(action), storeName);
      if t.Throw? {
        cell.Reject(t.reason);
        return None;
      }
      tx := Some(t.value);
  }
}
