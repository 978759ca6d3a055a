/**
 * The in-batch cache of src/store/memory.store.ts.
 *
 * A store is either an entity store (a JavaScript `Map` from id to entity,
 * iterated in first-insertion order) or an event store (an append-only
 * array).  `StoreState` is the value of one store and the functions on it say
 * what each operation does; `MemoryStore` is the mutable object the services
 * hold, proved against `StoreState`; `StoreManager` hands out one store per
 * name.
 */
module Store {
  import opened Wrappers

  datatype StoreState<T> = StoreState(
    isEvent: bool,
    entries: map<string, T>,
    keys: seq<string>,
    events: seq<T>)
  {
    /** The id map lists each key once, in insertion order; only one tier is ever used. */
    ghost predicate Valid() {
      && (isEvent ==> entries == map[] && keys == [])
      && (!isEvent ==> events == [])
      && (forall i, j :: 0 <= i < j < |keys| ==> keys[i] != keys[j])
      && (forall k :: k in entries <==> k in keys)
    }

    /** `store.get(id)`. */
    function Find(id: string): Option<T> {
      if id in entries then Some(entries[id]) else None
    }

    /** `save(item)`: append for an event store, upsert under `id` otherwise. */
    function Save(id: string, item: T): StoreState<T> {
      if isEvent then this.(events := events + [item])
      else this.(entries := entries[id := item], keys := if id in entries then keys else keys + [id])
    }

    /** `update(item)`: refused on an event store, an upsert otherwise. */
    function Update(id: string, item: T): Result<StoreState<T>> {
      if isEvent then Err("Cannot update event type entities") else Ok(Save(id, item))
    }

    /** `getAll()`: the events, or the map's values in key order. */
    function All(): seq<T>
      requires Valid()
    {
      if isEvent then events
      else seq(|keys|, i requires 0 <= i < |keys| => entries[keys[i]])
    }
  }

  function Empty<T>(isEvent: bool): (st: StoreState<T>)
    ensures st.Valid()
  {
    StoreState(isEvent, map[], [], [])
  }

  /** Every id outside `written` reads in `after` as it did in `before`. */
  ghost predicate KeptOutside<T>(before: StoreState<T>, after: StoreState<T>, written: set<string>) {
    forall id :: id !in written ==> after.Find(id) == before.Find(id)
  }

  // ---------------------------------------------------------------------
  // Properties of the store operations
  // ---------------------------------------------------------------------

  lemma SaveKeepsValid<T>(st: StoreState<T>, id: string, item: T)
    requires st.Valid()
    ensures st.Save(id, item).Valid()
  {
  }

  /** On an entity store `find(id)` after `save(item)` gives `item`, and no other id changes. */
  lemma FindAfterSave<T>(st: StoreState<T>, id: string, item: T, other: string)
    requires !st.isEvent
    ensures st.Save(id, item).Find(id) == Some(item)
    ensures other != id ==> st.Save(id, item).Find(other) == st.Find(other)
  {
  }

  /**
   * An entity-store save is an upsert: a new id is added at the end, an
   * existing id keeps its place and only its value is replaced.
   */
  lemma SaveUpserts<T>(st: StoreState<T>, id: string, item: T)
    requires st.Valid() && !st.isEvent
    ensures id !in st.entries ==> st.Save(id, item).All() == st.All() + [item]
    ensures forall i :: 0 <= i < |st.keys| && st.keys[i] == id ==>
      st.Save(id, item).All() == st.All()[i := item]
    ensures |st.Save(id, item).All()| == |st.All()| + (if id in st.entries then 0 else 1)
  {
    var after := st.Save(id, item);
    SaveKeepsValid(st, id, item);
    if id !in st.entries {
      assert after.All() == st.All() + [item] by {
        assert |after.All()| == |st.All()| + 1;
        forall i | 0 <= i < |after.All()|
          ensures after.All()[i] == (st.All() + [item])[i]
        {
          if i < |st.keys| {
            assert st.keys[i] != id;
          }
        }
      }
    }
    forall i | 0 <= i < |st.keys| && st.keys[i] == id
      ensures after.All() == st.All()[i := item]
    {
      assert after.keys == st.keys;
      forall j | 0 <= j < |st.keys|
        ensures after.All()[j] == st.All()[i := item][j]
      {
        if j != i {
          assert st.keys[j] != id;
        }
      }
    }
  }

  /** An event-store save appends even when the id was seen before; `find` never sees events. */
  lemma EventSaveAppends<T>(st: StoreState<T>, id: string, item: T, any: string)
    requires st.Valid() && st.isEvent
    ensures st.Save(id, item).All() == st.All() + [item]
    ensures st.Save(id, item).Find(any) == None
    ensures |st.Save(id, item).All()| == |st.All()| + 1
  {
  }

  /** `update` on an event store throws; on an entity store it is `save`. */
  lemma UpdateRefusedOnEvents<T>(st: StoreState<T>, id: string, item: T)
    ensures st.Update(id, item).Err? <==> st.isEvent
    ensures st.Update(id, item).Ok? ==> st.Update(id, item).value.Find(id) == Some(item)
  {
  }

  // ---------------------------------------------------------------------
  // The mutable store
  // ---------------------------------------------------------------------

  class MemoryStore<T> {
    const name: string
    const isEventType: bool
    /** The `id` property every stored entity carries. */
    const idOf: T -> string
    var store: map<string, T>
    /** The iteration order of `store`'s keys. */
    var order: seq<string>
    var eventStore: seq<T>

    function State(): StoreState<T>
      reads this
    {
      StoreState(isEventType, store, order, eventStore)
    }

    ghost predicate Valid()
      reads this
    {
      State().Valid()
    }

    constructor(name: string, isEventType: bool, idOf: T -> string)
      ensures Valid()
      ensures State() == Empty(isEventType)
      ensures this.name == name && this.isEventType == isEventType && this.idOf == idOf
    {
      this.name := name;
      this.isEventType := isEventType;
      this.idOf := idOf;
      store := map[];
      order := [];
      eventStore := [];
    }

    method Find(id: string) returns (r: Option<T>)
      ensures r == State().Find(id)
      ensures isEventType && Valid() ==> r == None
    {
      if id in store {
        r := Some(store[id]);
      } else {
        r := None;
      }
    }

    method Save(item: T)
      requires Valid()
      modifies this
      ensures Valid()
      ensures State() == old(State()).Save(idOf(item), item)
    {
      if isEventType {
        eventStore := eventStore + [item];
      } else {
        var id := idOf(item);
        if id !in store {
          order := order + [id];
        }
        store := store[id := item];
      }
    }

    method Update(item: T) returns (outcome: Outcome)
      requires Valid()
      modifies this
      ensures Valid()
      ensures outcome.Fail? <==> isEventType
      ensures old(State()).Update(idOf(item), item) == (if isEventType then Err(outcome.message) else Ok(State()))
      ensures isEventType ==> State() == old(State())
    {
      if isEventType {
        return Fail("Cannot update event type entities");
      }
      var id := idOf(item);
      if id !in store {
        order := order + [id];
      }
      store := store[id := item];
      outcome := Pass;
    }

    method GetAll() returns (items: seq<T>)
      requires Valid()
      ensures items == State().All()
    {
      if isEventType {
        items := eventStore;
      } else {
        items := ValuesInOrder();
      }
    }

    method GetAllValues() returns (items: seq<T>)
      requires Valid()
      ensures items == State().All()
    {
      if isEventType {
        return eventStore;
      } else {
        items := ValuesInOrder();
      }
    }

    /** `Array.from(this.store.values())`. */
    method ValuesInOrder() returns (items: seq<T>)
      requires Valid() && !isEventType
      ensures items == State().All()
    {
      items := [];
      var i := 0;
      while i < |order|
        invariant 0 <= i <= |order|
        invariant |items| == i
        invariant forall j :: 0 <= j < i ==> items[j] == store[order[j]]
      {
        items := items + [store[order[i]]];
        i := i + 1;
      }
    }
  }

  /** One store per name, created on first request. */
  class StoreManager<T> {
    const idOf: T -> string
    var stores: map<string, MemoryStore<T>>

    ghost predicate Valid()
      reads this, stores.Values
    {
      forall n :: n in stores ==> stores[n].name == n && stores[n].Valid()
    }

    constructor(idOf: T -> string)
      ensures Valid() && stores == map[] && this.idOf == idOf
    {
      this.idOf := idOf;
      stores := map[];
    }

    /**
     * `getStore(name, isEventType)`: the existing store for `name`, whatever
     * `isEventType` now says, or a fresh empty one registered under `name`.
     */
    method GetStore(name: string, isEventType: bool) returns (s: MemoryStore<T>)
      requires Valid()
      modifies this
      ensures Valid()
      ensures s.name == name && s.Valid()
      ensures name in old(stores) ==> s == old(stores)[name] && stores == old(stores)
      ensures name !in old(stores) ==>
        fresh(s) && s.isEventType == isEventType && s.State() == Empty(isEventType)
        && stores == old(stores)[name := s]
    {
      if name in stores {
        s := stores[name];
      } else {
        s := new MemoryStore(name, isEventType, idOf);
        stores := stores[name := s];
      }
    }

    method GetAllStores() returns (all: map<string, MemoryStore<T>>)
      ensures all == stores
    {
      all := stores;
    }
  }
}
