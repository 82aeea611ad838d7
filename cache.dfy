/**
 * The cache-aside layer. A storage class reads and writes one namespace of
 * an external key-value store; a cacheable service answers `get(key)` from
 * the store when it can and otherwise refreshes the value, writes it back
 * with a 30-day expiry and returns it.
 */
module Cache {
  import opened Wrappers

  /** `expire_time`: 30 days, in seconds. */
  const ExpireTime: nat := 60 * 60 * 24 * 30

  /** The exceptions the layer raises or lets through. */
  datatype Error =
    | CacheStorageNotFound
    | ValueError
    | IndexError
    | TypeError

  /** One call made on the key-value store. */
  datatype StoreCall =
    | GetCall(key: string)
    | ExistsCall(key: string)
    | SetCall(key: string, value: string, ex: nat)

  /**
   * The external key-value store (Redis in production). `data` is what it
   * holds; `calls` records every request made of it, in order.
   */
  class KeyValueStore {
    var data: map<string, string>
    var calls: seq<StoreCall>

    constructor(initial: map<string, string>)
      ensures data == initial && calls == []
    {
      data := initial;
      calls := [];
    }

    /** `get(key)`: the stored value, or nothing. */
    method Get(key: string) returns (r: Option<string>)
      modifies this
      ensures r == (if key in old(data) then Some(old(data)[key]) else None)
      ensures data == old(data) && calls == old(calls) + [GetCall(key)]
    {
      calls := calls + [GetCall(key)];
      r := if key in data then Some(data[key]) else None;
    }

    /** `exists(key)`. */
    method Exists(key: string) returns (b: bool)
      modifies this
      ensures b == (key in old(data))
      ensures data == old(data) && calls == old(calls) + [ExistsCall(key)]
    {
      calls := calls + [ExistsCall(key)];
      b := key in data;
    }

    /** `set(key, value, ex=...)`; expiry itself is the store's business. */
    method Set(key: string, value: string, ex: nat)
      modifies this
      ensures data == old(data)[key := value]
      ensures calls == old(calls) + [SetCall(key, value, ex)]
    {
      calls := calls + [SetCall(key, value, ex)];
      data := data[key := value];
    }
  }

  /**
   * A storage class: how one namespace derives its key, writes a value
   * (`None` included) and reads it back, when a read value is truthy, and
   * whether it follows the negative-cache policy (`allow_empty`), under
   * which a key that exists with an empty value is a hit.
   */
  datatype StorageClass<!K, !T> = StorageClass(
    getKey: K -> string,
    serialize: Option<T> -> string,
    deserialize: string -> Result<Option<T>, Error>,
    truthy: T -> bool,
    allowEmpty: bool)

  /** Python truthiness of a possibly-`None` value. */
  predicate Truthy<K, T>(sc: StorageClass<K, T>, v: Option<T>)
  {
    v.Some? && sc.truthy(v.value)
  }

  /** What reading a key gives: `CacheValueNotFound`, a value, or an exception from deserializing. */
  datatype Probe<T> = NotFound | Found(value: Option<T>) | Raised(error: Error)

  /** A stored value that Python treats as false: absent or empty. */
  predicate FalsyRaw(data: map<string, string>, key: string)
  {
    key !in data || data[key] == ""
  }

  /**
   * `storage.get(instance)` on store contents `data`. The standard policy
   * answers `None` for a falsy stored value without deserializing it; the
   * negative-cache policy raises `CacheValueNotFound` only when the value is
   * falsy and the key does not exist, and deserializes otherwise.
   */
  function ProbeOf<K, T>(sc: StorageClass<K, T>, data: map<string, string>, key: string): Probe<T>
  {
    if !sc.allowEmpty && FalsyRaw(data, key) then Found(None)
    else if sc.allowEmpty && key !in data then NotFound
    else match sc.deserialize(data[key])
      case Success(v) => Found(v)
      case Failure(e) => Raised(e)
  }

  /** The store calls `storage.get` makes: a `get`, then an `exists` only under the negative-cache policy and a falsy value. */
  function ProbeCalls<K, T>(sc: StorageClass<K, T>, data: map<string, string>, key: string): seq<StoreCall>
  {
    [GetCall(key)] + (if sc.allowEmpty && FalsyRaw(data, key) then [ExistsCall(key)] else [])
  }

  /** `storage.get(instance)`. */
  method StorageGet<K, T>(sc: StorageClass<K, T>, store: KeyValueStore, instance: K) returns (p: Probe<T>)
    modifies store
    ensures p == ProbeOf(sc, old(store.data), sc.getKey(instance))
    ensures store.data == old(store.data)
    ensures store.calls == old(store.calls) + ProbeCalls(sc, old(store.data), sc.getKey(instance))
  {
    var key := sc.getKey(instance);
    var value := store.Get(key);
    if !sc.allowEmpty {
      if value.None? || value.value == "" {
        return Found(None);
      }
      var d := sc.deserialize(value.value);
      p := if d.Success? then Found(d.value) else Raised(d.error);
    } else {
      if value.None? || value.value == "" {
        var present := store.Exists(key);
        if !present {
          return NotFound;
        }
      }
      var d := sc.deserialize(value.GetOr(""));
      p := if d.Success? then Found(d.value) else Raised(d.error);
    }
  }

  /** `storage.set(instance, value)`: one write of the serialized value, expiring in 30 days. */
  method StorageSet<K, T>(sc: StorageClass<K, T>, store: KeyValueStore, instance: K, value: Option<T>)
    modifies store
    ensures store.data == old(store.data)[sc.getKey(instance) := sc.serialize(value)]
    ensures store.calls == old(store.calls) + [SetCall(sc.getKey(instance), sc.serialize(value), ExpireTime)]
  {
    store.Set(sc.getKey(instance), sc.serialize(value), ExpireTime);
  }

  /** Everything one `get` does: its answer, whether it refreshed, the new store contents and the store calls made. */
  datatype Outcome<T> = Outcome(
    result: Result<Option<T>, Error>,
    refreshed: bool,
    data: map<string, string>,
    calls: seq<StoreCall>)

  /**
   * The get-or-refresh protocol. A found value is returned when it is truthy
   * or the policy allows empty values; otherwise, and when nothing was found,
   * `refresh_value` runs once and its result is written once and returned.
   * An exception from reading or refreshing propagates with no write.
   */
  function GetOutcome<K, T>(sc: StorageClass<K, T>, refresh: K -> Result<Option<T>, Error>,
                            data: map<string, string>, k: K): Outcome<T>
  {
    var key := sc.getKey(k);
    var probeCalls := ProbeCalls(sc, data, key);
    var probe := ProbeOf(sc, data, key);
    if probe.Raised? then Outcome(Failure(probe.error), false, data, probeCalls)
    else if probe.Found? && (Truthy(sc, probe.value) || sc.allowEmpty) then
      Outcome(Success(probe.value), false, data, probeCalls)
    else match refresh(k)
      case Failure(e) => Outcome(Failure(e), true, data, probeCalls)
      case Success(v) =>
        var s := sc.serialize(v);
        Outcome(Success(v), true, data[key := s], probeCalls + [SetCall(key, s, ExpireTime)])
  }

  /** `CacheableServiceAbstractMixin`: a store, a storage class and the service's `refresh_value`. */
  class CacheableService<K, T> {
    const store: KeyValueStore
    const storageClass: StorageClass<K, T>
    const refresh: K -> Result<Option<T>, Error>

    constructor(store: KeyValueStore, storageClass: StorageClass<K, T>, refresh: K -> Result<Option<T>, Error>)
      ensures this.store == store && this.storageClass == storageClass && this.refresh == refresh
    {
      this.store := store;
      this.storageClass := storageClass;
      this.refresh := refresh;
    }

    /** `get(key)`; `refreshed` tells whether `refresh_value` was called. */
    method Get(k: K) returns (r: Result<Option<T>, Error>, refreshed: bool)
      modifies store
      ensures var o := GetOutcome(storageClass, refresh, old(store.data), k);
        r == o.result && refreshed == o.refreshed
        && store.data == o.data && store.calls == old(store.calls) + o.calls
    {
      var probe := StorageGet(storageClass, store, k);
      if probe.Raised? {
        return Failure(probe.error), false;
      }
      if probe.Found? && (Truthy(storageClass, probe.value) || storageClass.allowEmpty) {
        return Success(probe.value), false;
      }
      var refreshedValue := refresh(k);
      if refreshedValue.Failure? {
        return Failure(refreshedValue.error), true;
      }
      StorageSet(storageClass, store, k, refreshedValue.value);
      r, refreshed := Success(refreshedValue.value), true;
    }
  }

  /** Building a service with no store raises `CacheStorageNotFound` at once. */
  method NewService<K, T>(store: KeyValueStore?, storageClass: StorageClass<K, T>,
                          refresh: K -> Result<Option<T>, Error>)
    returns (r: Result<CacheableService<K, T>, Error>)
    ensures store == null <==> r == Failure(CacheStorageNotFound)
    ensures r.Success? ==>
      (fresh(r.value) && r.value.store == store
       && r.value.storageClass == storageClass && r.value.refresh == refresh)
  {
    if store == null {
      return Failure(CacheStorageNotFound);
    }
    var s := new CacheableService(store, storageClass, refresh);
    r := Success(s);
  }

  // ---------------------------------------------------------------------
  // Properties of the protocol

  function SetCalls(calls: seq<StoreCall>): seq<StoreCall>
  {
    if |calls| == 0 then []
    else (if calls[0].SetCall? then [calls[0]] else []) + SetCalls(calls[1..])
  }

  lemma SetCallsAppend(a: seq<StoreCall>, b: seq<StoreCall>)
    ensures SetCalls(a + b) == SetCalls(a) + SetCalls(b)
  {
    if |a| == 0 {
      assert a + b == b;
    } else {
      assert (a + b)[0] == a[0];
      assert (a + b)[1..] == a[1..] + b;
      SetCallsAppend(a[1..], b);
    }
  }

  /**
   * Every `get` refreshes at most once and writes at most once: it writes
   * exactly when it refreshed successfully, and the one write stores the
   * serialized refreshed value under the key with the 30-day expiry.
   * Without a write the store's contents are unchanged.
   */
  lemma AtMostOneWrite<K, T>(sc: StorageClass<K, T>, refresh: K -> Result<Option<T>, Error>,
                             data: map<string, string>, k: K)
    ensures var o := GetOutcome(sc, refresh, data, k);
      |SetCalls(o.calls)| <= 1
      && (|SetCalls(o.calls)| == 1 <==> o.refreshed && refresh(k).Success?)
      && (o.refreshed && refresh(k).Success? ==>
            o.result == refresh(k)
            && o.data == data[sc.getKey(k) := sc.serialize(refresh(k).value)]
            && SetCalls(o.calls) == [SetCall(sc.getKey(k), sc.serialize(refresh(k).value), ExpireTime)])
      && (|SetCalls(o.calls)| == 0 ==> o.data == data)
  {
    var key := sc.getKey(k);
    var pc := ProbeCalls(sc, data, key);
    SetCallsAppend([GetCall(key)], if sc.allowEmpty && FalsyRaw(data, key) then [ExistsCall(key)] else []);
    assert SetCalls(pc) == [];
    var o := GetOutcome(sc, refresh, data, k);
    if o.refreshed && refresh(k).Success? {
      SetCallsAppend(pc, [SetCall(key, sc.serialize(refresh(k).value), ExpireTime)]);
    }
  }

  /** A truthy cached value is returned as is: no refresh, no write. */
  lemma HitDoesNotRefresh<K, T>(sc: StorageClass<K, T>, refresh: K -> Result<Option<T>, Error>,
                                data: map<string, string>, k: K, v: T)
    requires sc.getKey(k) in data && data[sc.getKey(k)] != ""
    requires sc.deserialize(data[sc.getKey(k)]) == Success(Some(v)) && sc.truthy(v)
    ensures var o := GetOutcome(sc, refresh, data, k);
      o.result == Success(Some(v)) && !o.refreshed && o.data == data
      && o.calls == [GetCall(sc.getKey(k))]
  {
  }

  /** Under the negative-cache policy an existing empty value is a hit: no refresh, no write. */
  lemma EmptyHitUnderAllowEmpty<K, T>(sc: StorageClass<K, T>, refresh: K -> Result<Option<T>, Error>,
                                      data: map<string, string>, k: K)
    requires sc.allowEmpty
    requires sc.getKey(k) in data && data[sc.getKey(k)] == ""
    requires sc.deserialize("") == Success(None)
    ensures var o := GetOutcome(sc, refresh, data, k);
      o.result == Success(None) && !o.refreshed && o.data == data
      && o.calls == [GetCall(sc.getKey(k)), ExistsCall(sc.getKey(k))]
  {
  }

  /** A key the store does not hold is refreshed, under either policy, and the result is what `refresh_value` gave. */
  lemma MissRefreshes<K, T>(sc: StorageClass<K, T>, refresh: K -> Result<Option<T>, Error>,
                            data: map<string, string>, k: K)
    requires sc.getKey(k) !in data
    ensures var o := GetOutcome(sc, refresh, data, k);
      o.refreshed && o.result == refresh(k)
      && o.calls[..|ProbeCalls(sc, data, sc.getKey(k))|] == ProbeCalls(sc, data, sc.getKey(k))
  {
  }

  /**
   * Under the standard policy a stored value that reads back falsy, such
   * as a distance of 0, is a miss and is recomputed.
   */
  lemma FalsyValueRecomputed<K, T>(sc: StorageClass<K, T>, refresh: K -> Result<Option<T>, Error>,
                                   data: map<string, string>, k: K)
    requires !sc.allowEmpty
    requires sc.getKey(k) in data
    requires sc.deserialize(data[sc.getKey(k)]).Success?
    requires !Truthy(sc, sc.deserialize(data[sc.getKey(k)]).value)
    ensures GetOutcome(sc, refresh, data, k).refreshed
  {
  }

  /** The standard `storage.get` answers `None` for a falsy stored value whatever `deserialize_value` would do. */
  lemma StandardFalsyIsNone<K, T>(sc: StorageClass<K, T>, data: map<string, string>, key: string)
    requires !sc.allowEmpty && FalsyRaw(data, key)
    ensures ProbeOf(sc, data, key) == Found(None)
    ensures forall d :: ProbeOf(sc.(deserialize := d), data, key) == Found(None)
  {
  }

  /** The negative-cache `storage.get` raises `CacheValueNotFound` exactly when the value is falsy and the key does not exist. */
  lemma NotFoundExactly<K, T>(sc: StorageClass<K, T>, data: map<string, string>, key: string)
    requires sc.allowEmpty
    ensures ProbeOf(sc, data, key) == NotFound <==> FalsyRaw(data, key) && key !in data
    ensures key in data ==> ProbeOf(sc, data, key) == match sc.deserialize(data[key])
                                                       case Success(v) => Found(v)
                                                       case Failure(e) => Raised(e)
  {
  }

  /** The storage class's codec reads back what it writes for `v`. */
  ghost predicate RoundTrips<K, T>(sc: StorageClass<K, T>, v: Option<T>)
  {
    sc.deserialize(sc.serialize(v)) == Success(v)
  }

  /**
   * After a `get` that refreshed and wrote `v`, a second `get` of the same
   * key is a hit, provided the codec reads `v` back and `v` counts as a hit
   * under the storage's policy.
   */
  lemma SecondGetHits<K, T>(sc: StorageClass<K, T>, refresh: K -> Result<Option<T>, Error>,
                            data: map<string, string>, k: K)
    requires var o := GetOutcome(sc, refresh, data, k); o.refreshed && o.result.Success?
    requires RoundTrips(sc, refresh(k).value)
    requires sc.allowEmpty || (Truthy(sc, refresh(k).value) && sc.serialize(refresh(k).value) != "")
    ensures var o := GetOutcome(sc, refresh, data, k);
      var o2 := GetOutcome(sc, refresh, o.data, k);
      !o2.refreshed && o2.result == o.result && o2.data == o.data
  {
  }
}
