/**
  `getConnection` as `src/utils/db.ts` writes it: with an engine it opens
  without checking that a config was found, the upgrade callback closes
  the handle but does not settle the promise, and an open error rejects
  with the error's name.
*/
module DbConnection {
  import opened Options
  import opened Settle
  import opened Schema
  import opened Connection
  import IndexedDbConnection

  /**
    The decision `getConnection(config)` takes before the engine answers.
    With no config found after the poll, reading `_config!.databaseName`
    throws inside the promise executor, which rejects the promise.
  */
  function ConnectionPlan(config: Option<Config>, engine: bool, wait: Readiness): (p: Plan)
    ensures p == Fail(Message(FailedToConnect)) <==> !engine
    ensures p == Fail(Message(WaitTimeout)) <==> engine && config.None? && wait.TimedOut?
    ensures p == Fail(TypeError) <==> engine && config.None? && wait == Ready(None)
    ensures config.Some? && engine ==> p == Open(config.value, config.value.stores)
    ensures config.None? && engine && wait.Ready? && wait.published.Some? ==> p == Open(wait.published.value, [])
  {
    if !engine then
      Fail(Message(FailedToConnect))
    else if config.Some? then
      Open(config.value, config.value.stores)
    else if wait.TimedOut? then
      Fail(Message(WaitTimeout))
    else if wait.published.None? then
      Fail(TypeError)
    else
      Open(wait.published.value, [])
  }

  /** A connection opened without a config never creates a store, whatever the database holds. */
  lemma ConfigLessUpgradeCreatesNothing(wait: Readiness, m: StoreMap)
    requires ConnectionPlan(None, true, wait).Open?
    ensures Upgraded(m, ConnectionPlan(None, true, wait).upgradeStores) == m
  {
  }

  /** The call each request handler makes on the connection promise; the upgrade callback makes none. */
  function Attempt(ev: OpenEvent, db: Database): Settlement<Database>
  {
    match ev
    case UpgradeNeeded => Pending
    case Success => Fulfilled(db)
    case Error(name) => Rejected(Message(name))
  }

  /** `request.onsuccess`: resolve with the open handle. */
  method OnSuccess(db: Database, cell: Cell<Database>)
    modifies cell
    ensures cell.state == Step(old(cell.state), Attempt(Success, db))
  {
    cell.Resolve(db);
  }

  /** `request.onerror`: reject with `e.target.error.name`, the error's name. */
  method OnError(db: Database, errorName: string, cell: Cell<Database>)
    modifies cell
    ensures cell.state == Step(old(cell.state), Attempt(Error(errorName), db))
  {
    cell.Reject(Message(errorName));
  }

  /** `request.onupgradeneeded`: create the missing stores and close the handle; the promise is left alone. */
  method OnUpgradeNeeded(db: Database, upgradeStores: seq<StoreDecl>, cell: Cell<Database>)
    modifies db
    ensures db.stores == Upgraded(old(db.stores), upgradeStores) && db.closed
    ensures cell.state == Step(old(cell.state), Attempt(UpgradeNeeded, db))
  {
    ApplyStores(db, upgradeStores);
    db.Close();
  }

  /**
    The upgrade callback never settles the promise: the outcome is decided
    by the first success or error event, and an error rejects with its name.
  */
  lemma FirstSuccessOrErrorDecides(evs: seq<OpenEvent>, db: Database, k: nat)
    requires k < |evs| && !evs[k].UpgradeNeeded?
    requires forall j :: 0 <= j < k ==> evs[j].UpgradeNeeded?
    ensures SettleAll(Pending, Attempts(evs, db, Attempt)) == Attempt(evs[k], db)
    ensures evs[k].Success? ==> SettleAll(Pending, Attempts(evs, db, Attempt)) == Fulfilled(db)
    ensures evs[k].Error? ==> SettleAll(Pending, Attempts(evs, db, Attempt)) == Rejected(Message(evs[k].errorName))
  {
    FirstSettlementWins(Attempts(evs, db, Attempt), k);
  }

  /** Upgrade events alone leave the connection pending. */
  lemma UpgradeAloneLeavesPending(evs: seq<OpenEvent>, db: Database)
    requires forall j :: 0 <= j < |evs| ==> evs[j].UpgradeNeeded?
    ensures SettleAll(Pending, Attempts(evs, db, Attempt)) == Pending
  {
    NoSettlementStaysPending(Attempts(evs, db, Attempt));
  }

  /**
    Where the two versions part ways on the same engine events: after an
    upgrade followed by an error, the other version has already resolved
    with the closed handle, while this one rejects with the error's name.
  */
  lemma VersionsDivergeAfterUpgrade(db: Database, errorName: string)
    ensures SettleAll(Pending, Attempts([UpgradeNeeded, Error(errorName)], db, IndexedDbConnection.Attempt)) == Fulfilled(db)
    ensures SettleAll(Pending, Attempts([UpgradeNeeded, Error(errorName)], db, Attempt)) == Rejected(Message(errorName))
  {
    IndexedDbConnection.FirstEventDecides([UpgradeNeeded, Error(errorName)], db);
    FirstSuccessOrErrorDecides([UpgradeNeeded, Error(errorName)], db, 1);
  }
}
