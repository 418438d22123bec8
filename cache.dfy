/** The PSR-6 cache the services write responses to. */
module Cache {
  import opened Wrappers
  import opened Http

  /** A cache item as `getItem` hands it out: its key and, on a hit, the stored
      string. Expiry is not modelled, so an item is a hit exactly when its key
      is in the pool. */
  datatype CacheItem = CacheItem(key: string, stored: Option<string>) {
    predicate IsHit() { stored.Some? }
  }

  /** The characters PSR-6 reserves: no implementation may accept a key
      holding one of them. */
  predicate IsReserved(c: char)
  {
    c in "{}()/\\@:"
  }

  predicate HasReservedCharacter(key: string)
  {
    exists i :: 0 <= i < |key| && IsReserved(key[i])
  }

  /** A cache pool: stored response strings by cache key. Which keys beyond
      the reserved characters an implementation refuses is its own choice,
      given by `accepts`. */
  class CacheItemPool {
    var items: map<string, string>
    const accepts: string -> bool

    constructor (items: map<string, string>, accepts: string -> bool)
      ensures this.items == items && this.accepts == accepts
    {
      this.items := items;
      this.accepts := accepts;
    }

    /** `getItem`: the item for a legal `key`, a hit when the pool holds a
        value for it; an illegal key throws the PSR-6 `InvalidArgumentException`. */
    function GetItem(key: string): (r: Result<CacheItem, Throwable>)
      reads this
      ensures r.Failure? <==> HasReservedCharacter(key) || !accepts(key)
      ensures r.Failure? ==> r.error.kind == PsrCacheInvalidArgument
      ensures r.Success? ==> r.value.key == key
      ensures r.Success? ==> (r.value.IsHit() <==> key in items)
      ensures r.Success? && r.value.IsHit() ==> r.value.stored.value == items[key]
    {
      if HasReservedCharacter(key) || !accepts(key) then
        Failure(Throwable(PsrCacheInvalidArgument, "Invalid cache key: " + key, 0, None))
      else
        Success(CacheItem(key, if key in items then Some(items[key]) else None))
    }

    /** `save` of an item whose value was just `set`. */
    method Save(key: string, value: string)
      modifies this
      ensures items == old(items)[key := value]
    {
      items := items[key := value];
    }
  }
}
