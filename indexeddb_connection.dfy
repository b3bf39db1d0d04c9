/**
  `getConnection` as `src/utils/indexedDB.ts` writes it: it opens only when
  both an engine and a config are at hand, the upgrade callback resolves
  with the handle it has just closed, and an open error rejects with the
  error event itself.
*/
module IndexedDbConnection {
  import opened Options
  import opened Settle
  import opened Schema
  import opened Connection

  /**
    The decision `getConnection(config)` takes before the engine answers.
    `engine` says whether `window.indexedDB` exists; `wait` is consulted
    only on the path that polls for readiness. The upgrade callback iterates
    the `config` parameter, not the config loaded from the published state.
  */
  function ConnectionPlan(config: Option<Config>, engine: bool, wait: Readiness): (p: Plan)
    ensures p == Fail(Message(FailedToConnect)) <==> !engine || (config.None? && wait == Ready(None))
    ensures p == Fail(Message(WaitTimeout)) <==> engine && config.None? && wait.TimedOut?
    ensures p.Fail? ==> p == Fail(Message(FailedToConnect)) || p == Fail(Message(WaitTimeout))
    ensures config.Some? && engine ==> p == Open(config.value, config.value.stores)
    ensures config.None? && engine && wait.Ready? && wait.published.Some? ==> p == Open(wait.published.value, [])
  {
    if config.None? && engine && wait.TimedOut? then
      Fail(Message(WaitTimeout))
    else
      var resolved := if config.Some? then config else if engine then wait.published else None;
      if resolved.Some? && engine then
        Open(resolved.value, if config.Some? then config.value.stores else [])
      else
        Fail(Message(FailedToConnect))
  }

  /** A connection opened without a config never creates a store, whatever the database holds. */
  lemma ConfigLessUpgradeCreatesNothing(engine: bool, wait: Readiness, m: StoreMap)
    requires ConnectionPlan(None, engine, wait).Open?
    ensures Upgraded(m, ConnectionPlan(None, engine, wait).upgradeStores) == m
  {
  }

  /** The call each request handler makes on the connection promise. */
  function Attempt(ev: OpenEvent, db: Database): Settlement<Database>
  {
    match ev
    case UpgradeNeeded => Fulfilled(db)
    case Success => Fulfilled(db)
    case Error(name) => Rejected(ErrorEvent(name))
  }

  /** `request.onsuccess`: resolve with the open handle. */
  method OnSuccess(db: Database, cell: Cell<Database>)
    modifies cell
    ensures cell.state == Step(old(cell.state), Attempt(Success, db))
  {
    cell.Resolve(db);
  }

  /** `request.onerror`: reject with the event. */
  method OnError(db: Database, errorName: string, cell: Cell<Database>)
    modifies cell
    ensures cell.state == Step(old(cell.state), Attempt(Error(errorName), db))
  {
    cell.Reject(ErrorEvent(errorName));
  }

  /** `request.onupgradeneeded`: create the missing stores, close the handle, and resolve with it. */
  method OnUpgradeNeeded(db: Database, upgradeStores: seq<StoreDecl>, cell: Cell<Database>)
    modifies db, cell
    ensures db.stores == Upgraded(old(db.stores), upgradeStores) && db.closed
    ensures cell.state == Step(old(cell.state), Attempt(UpgradeNeeded, db))
  {
    ApplyStores(db, upgradeStores);
    db.Close();
    cell.Resolve(db);
  }

  /**
    Every handler settles the promise, so the first event the engine fires
    decides the outcome; after an upgrade that is the closed handle, and a
    later error changes nothing.
  */
  lemma FirstEventDecides(evs: seq<OpenEvent>, db: Database)
    requires evs != []
    ensures SettleAll(Pending, Attempts(evs, db, Attempt)) == Attempt(evs[0], db)
    ensures evs[0] == UpgradeNeeded ==> SettleAll(Pending, Attempts(evs, db, Attempt)) == Fulfilled(db)
  {
    assert Attempts(evs, db, Attempt)[0] == Attempt(evs[0], db);
    FirstSettlementWins(Attempts(evs, db, Attempt), 0);
  }
}
