/**
  The schema side of the storage adapter: the configuration passed to the
  adapter, the database as a map from store name to the store's key
  parameters and index declarations, and the upgrade step that creates the
  configured stores that are missing.
*/
module Schema {
  import opened Options

  /** `IDBObjectStoreParameters`: the primary key path and key generation. */
  datatype KeyParams = KeyParams(keyPath: string, autoIncrement: bool)

  /** `IDBIndexParameters`. */
  datatype IndexOptions = IndexOptions(unique: bool)

  /** One entry of a store's `indices` list (`IndexedDBColumn`). */
  datatype IndexDecl = IndexDecl(name: string, keyPath: string, options: Option<IndexOptions>)

  /** One entry of the config's `stores` list (`IndexedDBStore`); `indices` may be absent. */
  datatype StoreDecl = StoreDecl(name: string, id: KeyParams, indices: Option<seq<IndexDecl>>)

  /** `IndexedDBConfig`. */
  datatype Config = Config(databaseName: string, version: int, stores: seq<StoreDecl>)

  /** What the database holds for one object store: its key parameters and its indices in creation order. */
  datatype ObjectStore = ObjectStore(key: KeyParams, indices: seq<IndexDecl>)

  type StoreMap = map<string, ObjectStore>

  /** The indices a declaration asks for; an absent list asks for none. */
  function DeclaredIndices(s: StoreDecl): seq<IndexDecl>
  {
    if s.indices.Some? then s.indices.value else []
  }

  /** The store the upgrade step builds for a declaration. */
  function Created(s: StoreDecl): ObjectStore
  {
    ObjectStore(s.id, DeclaredIndices(s))
  }

  /** One turn of the outer loop: create the store only when its name is absent. */
  function ApplyStore(m: StoreMap, s: StoreDecl): StoreMap
  {
    if s.name in m then m else m[s.name := Created(s)]
  }

  /** The store map after the upgrade step has gone through `decls` in order. */
  function Upgraded(m: StoreMap, decls: seq<StoreDecl>): StoreMap
    decreases |decls|
  {
    if decls == [] then m else ApplyStore(Upgraded(m, decls[..|decls| - 1]), decls[|decls| - 1])
  }

  function Names(decls: seq<StoreDecl>): set<string>
  {
    set s | s in decls :: s.name
  }

  /** The upgrade step creates exactly the configured names that were missing, and removes none. */
  lemma {:induction false} UpgradedNames(m: StoreMap, decls: seq<StoreDecl>)
    ensures Upgraded(m, decls).Keys == m.Keys + Names(decls)
    decreases |decls|
  {
    if decls != [] {
      var init := decls[..|decls| - 1];
      UpgradedNames(m, init);
      assert decls == init + [decls[|decls| - 1]];
      assert Names(decls) == Names(init) + {decls[|decls| - 1].name};
    }
  }

  /** A store that already exists is neither recreated nor given new indices, and is never dropped. */
  lemma {:induction false} UpgradeKeepsExisting(m: StoreMap, decls: seq<StoreDecl>, name: string)
    requires name in m
    ensures name in Upgraded(m, decls) && Upgraded(m, decls)[name] == m[name]
    decreases |decls|
  {
    if decls != [] {
      UpgradeKeepsExisting(m, decls[..|decls| - 1], name);
    }
  }

  /**
    A configured store that was missing is created with its own key
    parameters and exactly its declared indices, in declaration order. When
    the config names a store twice, the first declaration is the one used.
  */
  lemma {:induction false} UpgradeCreatesMissing(m: StoreMap, decls: seq<StoreDecl>, k: nat)
    requires k < |decls| && decls[k].name !in m
    requires forall j :: 0 <= j < k ==> decls[j].name != decls[k].name
    ensures decls[k].name in Upgraded(m, decls)
    ensures Upgraded(m, decls)[decls[k].name] == Created(decls[k])
    ensures Upgraded(m, decls)[decls[k].name].indices == DeclaredIndices(decls[k])
    decreases |decls|
  {
    var last := |decls| - 1;
    var init := decls[..last];
    if k == last {
      UpgradedNames(m, init);
      assert decls[k].name !in Names(init) by {
        forall s | s in init ensures s.name != decls[k].name {
          var j :| 0 <= j < |init| && init[j] == s;
        }
      }
    } else {
      UpgradeCreatesMissing(m, init, k);
    }
  }

  /** With every configured name present, the upgrade step changes nothing. */
  lemma {:induction false} UpgradeWhenAllPresent(m: StoreMap, decls: seq<StoreDecl>)
    requires Names(decls) <= m.Keys
    ensures Upgraded(m, decls) == m
    decreases |decls|
  {
    if decls != [] {
      var init := decls[..|decls| - 1];
      assert Names(init) <= Names(decls) by {
        forall s | s in init ensures s in decls { }
      }
      UpgradeWhenAllPresent(m, init);
      assert decls[|decls| - 1] in decls;
    }
  }

  /** Running the upgrade step twice with the same config is the same as running it once. */
  lemma UpgradeIdempotent(m: StoreMap, decls: seq<StoreDecl>)
    ensures Upgraded(Upgraded(m, decls), decls) == Upgraded(m, decls)
  {
    UpgradedNames(m, decls);
    UpgradeWhenAllPresent(Upgraded(m, decls), decls);
  }

  /**
    The open database handed to the upgrade callback (`IDBDatabase`):
    `stores` stands for `objectStoreNames` together with each store's
    key parameters and indices.
  */
  class Database {
    var stores: StoreMap
    var closed: bool

    constructor (stores: StoreMap)
      ensures this.stores == stores && !closed
    {
      this.stores := stores;
      closed := false;
    }

    /** `objectStoreNames.contains(name)`. */
    predicate Contains(name: string)
      reads this
    {
      name in stores
    }

    /** `createObjectStore(name, key)`: a new store with no indices yet. */
    method CreateObjectStore(name: string, key: KeyParams)
      requires name !in stores
      modifies this`stores
      ensures stores == old(stores)[name := ObjectStore(key, [])]
    {
      stores := stores[name := ObjectStore(key, [])];
    }

    /** `store.createIndex(…)` on the store named `storeName`: appends one index. */
    method CreateIndex(storeName: string, index: IndexDecl)
      requires storeName in stores
      modifies this`stores
      ensures storeName in stores
      ensures stores == old(stores)[storeName := ObjectStore(old(stores)[storeName].key, old(stores)[storeName].indices + [index])]
    {
      var s := stores[storeName];
      stores := stores[storeName := ObjectStore(s.key, s.indices + [index])];
    }

    /** `db.close()`. */
    method Close()
      modifies this`closed
      ensures closed
    {
      closed := true;
    }
  }

  /**
    The nested loops of the upgrade callback: for each configured store
    whose name is absent, create it and then each of its declared indices.
  */
  method ApplyStores(db: Database, decls: seq<StoreDecl>)
    modifies db`stores
    ensures db.stores == Upgraded(old(db.stores), decls)
  {
    var i := 0;
    while i < |decls|
      invariant 0 <= i <= |decls|
      invariant db.stores == Upgraded(old(db.stores), decls[..i])
    {
      var s := decls[i];
      assert decls[..i + 1][..i] == decls[..i];
      if !db.Contains(s.name) {
        ghost var before := db.stores;
        db.CreateObjectStore(s.name, s.id);
        var columns := DeclaredIndices(s);
        var j := 0;
        while j < |columns|
          invariant 0 <= j <= |columns|
          invariant db.stores == before[s.name := ObjectStore(s.id, columns[..j])]
        {
          assert columns[..j + 1] == columns[..j] + [columns[j]];
          db.CreateIndex(s.name, columns[j]);
          j := j + 1;
        }
        assert columns[..j] == columns;
      }
      i := i + 1;
    }
    assert decls[..i] == decls;
  }

  /** The configuration the application starts with: one store of todos keyed by an auto-incremented `id`. */
  const AppConfig := Config("Todolist database", 9, [StoreDecl("todolist", KeyParams("id", true), None)])

  /** On an empty database, the upgrade step for the application's configuration creates exactly that store, without indices. */
  lemma AppConfigCreatesTodolist()
    ensures Upgraded(map[], AppConfig.stores) == map["todolist" := ObjectStore(KeyParams("id", true), [])]
  {
  }
}
