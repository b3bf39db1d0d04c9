/**
  What the two versions of `getConnection` share: the inputs that decide
  whether the database is opened at all, and the events the open request
  delivers afterwards.
*/
module Connection {
  import opened Options
  import opened Settle
  import opened Schema

  /** The rejection for a missing engine or a missing config. */
  const FailedToConnect := "Failed to connect"

  /** The rejection of the readiness poll when the flag does not appear in time. */
  const WaitTimeout := "your error msg"

  /**
    How the readiness poll of a call without a config ends: the flag
    appeared, together with whatever config was published beside it, or
    the poll timed out.
  */
  datatype Readiness = Ready(published: Option<Config>) | TimedOut

  /**
    What `getConnection` does before the engine answers: open the database
    by the name and version of `config`, with `upgradeStores` the list the
    upgrade callback will iterate, or settle at once with `reason`.
  */
  datatype Plan = Open(config: Config, upgradeStores: seq<StoreDecl>) | Fail(reason: Reason)

  /** The callbacks the engine may fire on the open request, in the order it fires them. */
  datatype OpenEvent = UpgradeNeeded | Success | Error(errorName: string)

  /** The settling calls the request handlers make for a series of engine events, given the call each handler makes. */
  function Attempts(evs: seq<OpenEvent>, db: Database, attempt: (OpenEvent, Database) -> Settlement<Database>)
    : seq<Settlement<Database>>
  {
    seq(|evs|, i requires 0 <= i < |evs| => attempt(evs[i], db))
  }
}
