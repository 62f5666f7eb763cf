/** The per-screen saved-state store a view model may be given (Android's SavedStateHandle),
    restricted to the `Int` entries the view models use. */
module SavedState {
  import opened Wrappers
  import opened KotlinInt

  /** What a view model sees of its store: None when it was built without one. */
  type Snapshot = Option<map<string, Int32>>

  /** `handle?.get<Int>(key)`: the stored value, or null when the key or the store is missing. */
  function Get(h: Snapshot, key: string): (r: Option<Int32>)
    ensures r.Some? <==> h.Some? && key in h.value
    ensures r.Some? ==> r.value == h.value[key]
  {
    match h
    case None => None
    case Some(entries) => if key in entries then Some(entries[key]) else None
  }

  /** `handle?.set(key, v)`: writes through when there is a store, does nothing otherwise. */
  function Put(h: Snapshot, key: string, v: Int32): (r: Snapshot)
    ensures r.Some? <==> h.Some?
    ensures h.Some? ==> Get(r, key) == Some(v)
    ensures forall k :: k != key ==> Get(r, k) == Get(h, k)
  {
    match h
    case None => None
    case Some(entries) => Some(entries[key := v])
  }

  /** The mutable store itself, shared by a view model and any later view model
      created on the same handle. */
  class Store {
    var entries: map<string, Int32>

    constructor (initial: map<string, Int32>)
      ensures entries == initial
    {
      entries := initial;
    }

    method Set(key: string, v: Int32)
      modifies this
      ensures Snapshot() == Put(old(Snapshot()), key, v)
    {
      entries := entries[key := v];
    }

    function Snapshot(): (h: Snapshot)
      reads this
      ensures h == Some(entries)
    {
      Some(entries)
    }
  }

  /** The snapshot of an optional store. */
  function SnapshotOf(store: Store?): (h: Snapshot)
    reads store
    ensures h.Some? <==> store != null
    ensures store != null ==> h == Some(store.entries)
  {
    if store == null then None else store.Snapshot()
  }
}
