# Todo list: in-memory store and storage-adapter schema logic

This project models, in Dafny, the two pieces of logic in a small browser todo-list
application (heddyk/todolist-mobx) that are more than view glue:

- **`TodoStore`** (`src/store/todo.store.ts`), the observable list behind the view. It is a
  class holding a list of `{id, description, done}` records. `add(description)` pushes a record
  whose id is the old length plus one, and `toggleDone(index)` flips one record's `done`.
  In `todo_store.dfy` it is the class `Todos.TodoStore`, whose field `todoList` the methods
  reassign. The functions `Appended` and `Flipped` specify the methods. `Replay` gives the list
  after any sequence of view commands, and the lemmas about it give the whole-history
  invariants: ids equal position plus one, ids are unique, and descriptions follow the order
  of the adds.
- **The schema and validation logic of the storage adapter** over the browser's key-value
  engine (`src/utils/indexedDB.ts` and its divergent copy `src/utils/db.ts`). The database is
  a map from store name to the store's key parameters and its indices in creation order
  (`Schema.StoreMap`).
  - `Schema.ApplyStores` is the upgrade callback's nested loop. It is proved equal to the
    pure function `Schema.Upgraded`, and lemmas show that the step skips existing stores,
    never drops a store, and is idempotent.
  - Every promise the adapter creates is a settle-once cell (`Settle.Cell`): the first
    `resolve` or `reject` wins. `SettleAll` replays a series of such calls.
  - `Transactions.BeginAction` is what every action does between getting a connection and
    issuing its request. `validateBeforeTransaction` rejects and lets the action carry on to
    `createTransaction`, and that throws. The model shows that the caller still sees the first
    rejection.
  - The two versions of `getConnection` are the modules `IndexedDbConnection` and
    `DbConnection`. Each has a pure decision (`ConnectionPlan`: open, or fail without opening) and
    the three request handlers. Lemmas about the handlers say which engine event decides the
    outcome.

Code that the two source files share word for word is modelled once: `validateStore`,
`validateBeforeTransaction` and `createTransaction` (db.ts:5-35, the same as
indexedDB.ts:30-60), the upgrade loop (db.ts:67-74, the same as indexedDB.ts:95-102), and the
action bodies with their modes (db.ts:85-288, the same as indexedDB.ts:113-328). The table cites
whichever file states a property.

The engine's open-request events are a parameter: a sequence of `UpgradeNeeded`, `Success`
and `Error(name)`. So is the environment: whether an engine exists, and how the readiness
poll ended (`Connection.Readiness`).

Facts about the code that the model keeps as they are:
- Rejections are plain strings, the open request's error event, or an exception thrown by
  the engine or by JavaScript itself.
- A failed validation does not short-circuit the action.
- A `getConnection` call without a config creates no stores during an upgrade, because the
  callback iterates the `config` parameter and not the config loaded from the published state.
- The readiness timeout rejects with the string `'your error msg'`.

## Model

| member | source | states |
|---|---|---|
| `Todos.TodoStore.constructor` | src/store/todo.store.ts:10-17 | a new store's `todoList` is empty |
| `Todos.TodoStore.Add` | src/store/todo.store.ts:19-25 | the list grows by exactly one; earlier records stay unchanged in place; the new last record is `{id: old length + 1, description, done: false}`; numbering by position is preserved |
| `Todos.TodoStore.ToggleDone` | src/store/todo.store.ts:27-29 | it succeeds exactly when `0 <= index < length`, and then negates that record's `done` only; ids, descriptions, the length and the other records never change; an out-of-range index throws and leaves the list as it was |
| `Todos.AppendedExtends` | src/store/todo.store.ts:20-24 | the appended list is one longer, keeps the old list as its prefix, ends with the new unfinished record, and keeps ids equal to position plus one |
| `Todos.FlippedChangesOneFlag` | src/store/todo.store.ts:28 | a toggle negates one `done`, keeps that record's id and description and every other record, keeps the length, and keeps the numbering |
| `Todos.FlipTwiceRestores` | src/store/todo.store.ts:28 | toggling the same index twice gives back the original list |
| `Todos.NumberedIdsUnique` | src/store/todo.store.ts:21 | in a list numbered by position, two records with the same id are the same record |
| `Todos.ReplayFollowsAdds` | src/store/todo.store.ts:10-29 | after any sequence of adds and toggles from the empty list, there is one record per add, in add order, with that add's description, and with id equal to index + 1 (so ids are unique) |
| `Settle.Cell.Resolve` | src/utils/indexedDB.ts:82-84 | a pending promise becomes fulfilled with the value; a settled one is unchanged |
| `Settle.Cell.Reject` | src/utils/indexedDB.ts:117-131 | a pending promise becomes rejected with the reason; a settled one is unchanged, so a later `.catch(reject)` cannot replace the first rejection |
| `Settle.SettledIsFinal` | src/utils/indexedDB.ts:104-105 | once settled, any further series of resolve/reject calls leaves the outcome as it is |
| `Settle.FirstSettlementWins` | src/utils/indexedDB.ts:114-132 | the outcome of a series of calls is the first call that settles |
| `Settle.NoSettlementStaysPending` | src/utils/db.ts:76-77 | a series of handlers none of which settles leaves the promise pending |
| `Schema.ApplyStores` | src/utils/indexedDB.ts:95-102 | the nested loops leave the store map equal to `Upgraded(old map, configured stores)` |
| `Schema.UpgradedNames` | src/utils/indexedDB.ts:95-97 | after the upgrade step the store names are exactly the old names plus the configured names: nothing else is created and nothing is removed |
| `Schema.UpgradeKeepsExisting` | src/utils/indexedDB.ts:96 | a store already present keeps its key parameters and its indices: it is not recreated, it gets no new indices, and it is not dropped |
| `Schema.UpgradeCreatesMissing` | src/utils/indexedDB.ts:96-100 | a configured store whose name was absent is created with its declared key parameters and exactly its declared indices in declaration order; with a name declared twice, the first declaration is used |
| `Schema.UpgradeWhenAllPresent` | src/utils/db.ts:68 | when every configured name is already present, the upgrade step changes nothing |
| `Schema.UpgradeIdempotent` | src/utils/db.ts:67-74 | running the upgrade step twice with the same config gives the same store map as running it once |
| `Schema.AppConfigCreatesTodolist` | src/main.tsx:7-16 | on an empty database, the application's own config creates only the `todolist` store, keyed by an auto-incremented `id`, with no indices |
| `Transactions.ModeOf` | src/utils/indexedDB.ts:113-328 | `getByID`, `getOneByKey`, `getManyByKey`, `getAll` and `openCursor` use `readonly`; `add`, `update`, `deleteByID` and `deleteAll` use `readwrite`; this is exactly the set of actions whose request writes |
| `Transactions.StoreNotFoundNamesStore` | src/utils/db.ts:17-19 | the message `Store ${storeName} not found` determines the store name |
| `Transactions.ValidateBeforeTransaction` | src/utils/indexedDB.ts:34-45 | with no database, it rejects with `'Queried before opening connection'` and then throws; with a database, it rejects with `Store <name> not found` exactly when the store is absent, otherwise leaves the promise alone, and in both cases it returns normally |
| `Transactions.CreateTransaction` | src/utils/db.ts:22-35 | it gives a transaction over the named store in the given mode, or the engine's `InvalidStateError` or `NotFoundError` |
| `Transactions.BeginAction` | src/utils/db.ts:85-288 | for a fresh action promise: a rejected connection passes its reason on; a missing store leaves the promise rejected with `Store <name> not found` even though a second rejection follows; an existing store on an open connection leaves it pending with a transaction in the action's fixed mode |
| `IndexedDbConnection.ConnectionPlan` | src/utils/indexedDB.ts:62-111 | it rejects with `'Failed to connect'` exactly when there is no engine, or no config was given and none was published; it rejects with the poll's timeout only on the config-less path; with a config and an engine it opens with that config and upgrades with its stores; without a config it opens with the published config and upgrades with no stores |
| `IndexedDbConnection.ConfigLessUpgradeCreatesNothing` | src/utils/indexedDB.ts:66-95 | the upgrade of a connection opened without a config leaves any store map unchanged |
| `IndexedDbConnection.OnSuccess` | src/utils/indexedDB.ts:82-84 | the success handler resolves with the handle unless already settled |
| `IndexedDbConnection.OnError` | src/utils/indexedDB.ts:86-88 | the error handler rejects with the error event itself unless already settled |
| `IndexedDbConnection.OnUpgradeNeeded` | src/utils/indexedDB.ts:90-106 | the upgrade handler applies the upgrade step, closes the handle and resolves with it |
| `IndexedDbConnection.FirstEventDecides` | src/utils/indexedDB.ts:75-110 | every handler settles, so the first engine event decides the outcome; an upgrade resolves with the (closed) handle whatever follows |
| `DbConnection.ConnectionPlan` | src/utils/db.ts:37-83 | it rejects with `'Failed to connect'` exactly when there is no engine; with an engine and no config found after the poll, the non-null assertion reads `undefined` and the promise rejects with a `TypeError`; otherwise it opens, upgrading with the given config's stores or with none |
| `DbConnection.ConfigLessUpgradeCreatesNothing` | src/utils/db.ts:41-67 | the upgrade of a connection opened without a config leaves any store map unchanged |
| `DbConnection.OnSuccess` | src/utils/db.ts:56-58 | the success handler resolves with the handle unless already settled |
| `DbConnection.OnError` | src/utils/db.ts:60-62 | the error handler rejects with the error's name string, not the event |
| `DbConnection.OnUpgradeNeeded` | src/utils/db.ts:64-78 | the upgrade handler applies the upgrade step and closes the handle, and leaves the promise as it was |
| `DbConnection.FirstSuccessOrErrorDecides` | src/utils/db.ts:49-82 | the outcome is decided by the first success or error event, whatever upgrades come before; an error rejects with its name |
| `DbConnection.UpgradeAloneLeavesPending` | src/utils/db.ts:76-77 | upgrade events alone never settle the connection |
| `DbConnection.VersionsDivergeAfterUpgrade` | src/utils/db.ts:60-77 | for an upgrade followed by an error, one version resolves with the closed handle and the other rejects with the error's name |

## Left out

- The readiness poll (`src/utils/waitUntil.ts`): its 100 ms tick and 10 s timeout are timing. Only how it ends is modelled, as the parameter `Connection.Readiness`, with its rejection string.
- `setupIndexedDB` (src/utils/indexedDB.ts:370-379, src/utils/setupIndexedDB.ts): it writes `{init: 1, config}` onto `window` and logs. The published config is a parameter of `ConnectionPlan`.
- What the engine does with each action's request (`get`, `index.get`, `index.getAll`, `getAll`, `add`, `put`, `delete`, `clear`, `openCursor`). Key generation, uniqueness errors, ordering and cursor iteration belong to the browser engine. So the action's `request.onsuccess` resolution, the optional `tx.commit()` and the cursor callback are not modelled. `Transactions.BeginAction` stops at the transaction.
- The handlers `createTransaction` binds (`tx.onerror`, `tx.oncomplete`, `tx.onabort`), and the order in which the engine fires them relative to `request.onsuccess`: both are engine event ordering.
- When the engine fires `upgradeneeded` (the version comparison), and how it reacts to `close()` inside the upgrade callback: the open request's events are a parameter.
- Engine errors inside the upgrade callback, such as a duplicate index name or invalid key parameters: `Schema.Database.CreateIndex` always appends.
- `db.transaction` is modelled only through its two failures, on a closed connection and on a missing store; its other argument checks are not modelled.
- JavaScript truthiness: a config is modelled as present or absent.
- `Todos.TodoStore.ToggleDone`: the index is an integer. A fractional JavaScript number also names no record and throws, but it is not modelled.
- `Todos.TodoStore`: records are values in a sequence. `toggleDone` writes through a shared record object in the source; the model replaces the element, so aliasing of a record by other holders is not captured.
- MobX observability, the React components (`TodoList`, `TodoForm`, `App`, `main`) and the `useIndexedDBStore` hook are view glue. Logging is not modelled.
- `Schema.Config`: `version` is any integer. `indexedDB.open` throws a `TypeError` for a version below 1 (src/utils/indexedDB.ts:77-80, src/utils/db.ts:51-54), so both versions of `getConnection` would then reject with that `TypeError`. `ConnectionPlan` still plans `Open` in that case.
- `Schema.KeyParams` and `Schema.IndexOptions` are narrower than the engine's parameter types: a key path is always one string here, while the engine also allows a missing key path or an array of paths, and the index option `multiEntry` is absent. The adapter passes these values through unchanged, and no lemma depends on their shape.
