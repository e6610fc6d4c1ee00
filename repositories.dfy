/**
 * The repository contract every service depends on: `find_by_id`, `save` and
 * `delete` over a store of entities keyed by id. A storage failure is modelled
 * by two flags the environment sets on the store: one for lookups, one for writes.
 */
module Repositories {
  import opened Wrappers

  /** The opaque failure a storage adapter reports. */
  datatype StorageError = StorageError

  /** The abstract state of a store: its entries and whether lookups or writes fail. */
  datatype StoreState<K, V> = StoreState(entries: map<K, V>, findFails: bool, writeFails: bool)

  /** What `find_by_id` answers in a given state. */
  function Lookup<K, V>(s: StoreState<K, V>, id: K): (r: Result<Option<V>, StorageError>)
    ensures r.Err? <==> s.findFails
    ensures r.Ok? ==> (r.value.Some? <==> id in s.entries)
    ensures r.Ok? && r.value.Some? ==> r.value.value == s.entries[id]
  {
    if s.findFails then Err(StorageError)
    else if id in s.entries then Ok(Some(s.entries[id]))
    else Ok(None)
  }

  class Store<K(==), V> {
    var entries: map<K, V>
    var findFails: bool
    var writeFails: bool

    constructor (entries: map<K, V>, findFails: bool, writeFails: bool)
      ensures this.entries == entries
      ensures this.findFails == findFails && this.writeFails == writeFails
    {
      this.entries := entries;
      this.findFails := findFails;
      this.writeFails := writeFails;
    }

    function State(): StoreState<K, V>
      reads this
    {
      StoreState(entries, findFails, writeFails)
    }

    /** `find_by_id`: the entity stored under `id`, if any. */
    method FindById(id: K) returns (r: Result<Option<V>, StorageError>)
      ensures r == Lookup(State(), id)
    {
      if findFails {
        r := Err(StorageError);
      } else if id in entries {
        r := Ok(Some(entries[id]));
      } else {
        r := Ok(None);
      }
    }

    /** `save`: upsert `v` under `id` and hand it back, unless writes fail. */
    method Save(id: K, v: V) returns (r: Result<V, StorageError>)
      modifies this`entries
      ensures r == if writeFails then Err(StorageError) else Ok(v)
      ensures entries == if writeFails then old(entries) else old(entries)[id := v]
    {
      if writeFails {
        r := Err(StorageError);
      } else {
        entries := entries[id := v];
        r := Ok(v);
      }
    }

    /** `delete`: remove the entity stored under `id`, unless writes fail. */
    method Delete(id: K) returns (r: Result<(), StorageError>)
      modifies this`entries
      ensures r == if writeFails then Err(StorageError) else Ok(())
      ensures entries == if writeFails then old(entries) else old(entries) - {id}
    {
      if writeFails {
        r := Err(StorageError);
      } else {
        entries := entries - {id};
        r := Ok(());
      }
    }
  }
}
