/**
 * The status map every monitor shares: `Arc<Mutex<HashMap<String, MonitorStatus>>>`.
 *
 * The `Arc` becomes an object reference that all monitors hold; the map is
 * a field that monitors reassign in place.  Taking the lock fails exactly
 * when the mutex is poisoned.  Poisoning by a panic in another thread that
 * shares the map belongs to the concurrency this model leaves out, so
 * `poisoned` is fixed when the map is created.
 */
module Registry {
  import opened Wrappers
  import opened MonitorStatuses

  class StatusRegistry {
    /** The map behind the mutex, keyed by monitor name. */
    var statuses: map<string, MonitorStatus>
    /** Whether `lock()` returns an error. */
    const poisoned: bool

    /** Every entry is filed under its own name. */
    ghost predicate Valid()
      reads this
    {
      forall k :: k in statuses ==> statuses[k].name == k
    }

    /** `Arc::new(Mutex::new(HashMap::new()))`. */
    constructor (poisoned: bool)
      ensures Valid()
      ensures statuses == map[] && this.poisoned == poisoned
    {
      statuses := map[];
      this.poisoned := poisoned;
    }

    /**
     * `map.get(name)`, as the tests read the map after a check.  Because the
     * map is kept `Valid`, the entry found under a name carries that name.
     */
    function Get(name: string): (r: Option<MonitorStatus>)
      reads this
      ensures r.Some? <==> name in statuses
      ensures r.Some? ==> r.value == statuses[name]
      ensures Valid() && r.Some? ==> r.value.name == name
    {
      if name in statuses then Some(statuses[name]) else None
    }
  }
}
