/**
 * The run-time behaviour of the cache hooks montgomery's type supports
 * emit. Serializing an entity to a dict, the SQLAlchemy source is looked up
 * by `id()` and the dict support caches a keys-only dict for it, so the
 * second occurrence of the entity is written in that short form.
 * Deserializing a dict, the dict is looked up by its tagged key tuple, but
 * only when some key value is set, and the new instance is cached under it.
 */
module ReadCache {
  import opened Wrappers
  import opened PyValues
  import opened PyCollections

  /** The `cache_key` variable a read-cache hook sets, and what it returned early, if anything. */
  datatype Lookup = Lookup(key: Value, hit: Option<Value>)

  /** `cache_on_read` of the SQLAlchemy and object supports: keyed by `id(source)`. */
  function IdCacheOnRead(cache: map<Value, Value>, sourceId: nat): (r: Lookup)
    ensures r.key == Ref(sourceId)
    ensures r.hit.Some? <==> Ref(sourceId) in cache
    ensures r.hit.Some? ==> r.hit.value == cache[Ref(sourceId)]
  {
    Lookup(Ref(sourceId), if Ref(sourceId) in cache then Some(cache[Ref(sourceId)]) else None)
  }

  /**
   * `cache_on_read` of the dict support: the key is the base name followed
   * by the key fields of the dict; the cache is consulted only when some key
   * value is truthy. A missing key field raises.
   */
  function DictCacheOnRead(cache: map<Value, Value>, src: map<string, Value>, base: string, keyNames: seq<string>)
    : (r: Result<Lookup, PyError>)
    requires |keyNames| >= 1
    ensures r.Ok? <==> forall i :: 0 <= i < |keyNames| ==> keyNames[i] in src
    ensures r.Err? ==> r.error.MissingField?
    ensures r.Ok? ==> var vs := ReadFields(src, keyNames).value;
      && r.value.key == Tuple([Str(base)] + vs)
      && (r.value.hit.Some? <==> Any(vs) && r.value.key in cache)
      && (r.value.hit.Some? ==> r.value.hit.value == cache[r.value.key])
  {
    match ReadFields(src, keyNames)
    case Err(e) => Err(e)
    case Ok(vs) =>
      var key := Tuple([Str(base)] + vs);
      Ok(Lookup(key, if Any(vs) && key in cache then Some(cache[key]) else None))
  }

  /**
   * `cache_on_read_update` of the SQLAlchemy support, and `cache_on_write`
   * of the SQLAlchemy and object supports: the destination is cached under
   * the current key.
   */
  method StoreDestination(cache: PyDict<Value, Value>, cacheKey: Value, dest: Value)
    modifies cache
    ensures cache.entries == old(cache.entries)[cacheKey := dest]
  {
    cache.Put(cacheKey, dest);
  }

  /** `cache_on_write` of the dict support: the keys-only dict of the source. */
  method DictCacheOnWrite(cache: PyDict<Value, Value>, cacheKey: Value, keyNames: seq<string>, keyValues: seq<Value>)
    requires |keyNames| == |keyValues|
    modifies cache
    ensures cache.entries == old(cache.entries)[cacheKey := Dict(DictDisplay(keyNames, keyValues))]
  {
    cache.Put(cacheKey, Dict(DictDisplay(keyNames, keyValues)));
  }

  /** Two new instances (no key value set) are never taken for one another, whatever the cache holds. */
  lemma UnsetKeysNeverHit(cache: map<Value, Value>, src: map<string, Value>, base: string, keyNames: seq<string>)
    requires |keyNames| >= 1
    requires forall i :: 0 <= i < |keyNames| ==> keyNames[i] in src && !Truthy(src[keyNames[i]])
    ensures DictCacheOnRead(cache, src, base, keyNames).Ok?
    ensures DictCacheOnRead(cache, src, base, keyNames).value.hit.None?
  {
    var vs := ReadFields(src, keyNames).value;
    assert forall i :: 0 <= i < |vs| ==> !Truthy(vs[i]);
  }

  /**
   * Serializing the same entity twice with the emitted hooks: the source is
   * looked up by `id()`; on a miss the dict support caches the keys-only dict
   * under that key, and the next lookup of the same source returns it.
   */
  method SerializeTwice(cache: PyDict<Value, Value>, sourceId: nat, keyNames: seq<string>, keyValues: seq<Value>)
    returns (first: Option<Value>, second: Option<Value>)
    requires |keyNames| == |keyValues|
    modifies cache
    ensures first == IdCacheOnRead(old(cache.entries), sourceId).hit
    ensures first.None? ==> second == Some(Dict(DictDisplay(keyNames, keyValues)))
    ensures first.Some? ==> second == first && cache.entries == old(cache.entries)
  {
    var look := IdCacheOnRead(cache.entries, sourceId);
    first := look.hit;
    if first.None? {
      DictCacheOnWrite(cache, look.key, keyNames, keyValues);
    }
    second := IdCacheOnRead(cache.entries, sourceId).hit;
  }

  /**
   * The keys-only dict written for an entity is looked up under the key of
   * the full dict of that entity: it holds enough to query the cache.
   */
  lemma ShortDictKeyMatchesFull(cache: map<Value, Value>, full: map<string, Value>, base: string,
                                keyNames: seq<string>, keyValues: seq<Value>)
    requires |keyNames| == |keyValues| >= 1
    requires forall i, j :: 0 <= i < j < |keyNames| ==> keyNames[i] != keyNames[j]
    requires forall i :: 0 <= i < |keyNames| ==> keyNames[i] in full && full[keyNames[i]] == keyValues[i]
    ensures DictCacheOnRead(cache, DictDisplay(keyNames, keyValues), base, keyNames)
         == DictCacheOnRead(cache, full, base, keyNames)
  {
    ReadDisplay(keyNames, keyValues);
    assert ReadFields(full, keyNames).value == keyValues;
  }

  /**
   * Deserializing: once an instance is cached under the key of a dict with
   * some key value set, every dict with the same key values returns it.
   */
  lemma DeserializedInstanceReused(cache: map<Value, Value>, src: map<string, Value>, again: map<string, Value>,
                                   base: string, keyNames: seq<string>, inst: Value)
    requires |keyNames| >= 1
    requires DictCacheOnRead(cache, src, base, keyNames).Ok?
    requires Any(ReadFields(src, keyNames).value)
    requires forall i :: 0 <= i < |keyNames| ==> keyNames[i] in again && again[keyNames[i]] == src[keyNames[i]]
    ensures var cache2 := cache[DictCacheOnRead(cache, src, base, keyNames).value.key := inst];
      DictCacheOnRead(cache2, again, base, keyNames).value.hit == Some(inst)
  {
    assert ReadFields(again, keyNames).value == ReadFields(src, keyNames).value;
  }

  /**
   * The scenario of an operation with `operation_id` 12 met a second time:
   * it is written as `{'operation_id': 12}`.
   */
  lemma OperationWrittenShort(cache: map<Value, Value>, sourceId: nat)
    requires Ref(sourceId) !in cache
    ensures var key := IdCacheOnRead(cache, sourceId).key;
      var cache2 := cache[key := Dict(DictDisplay(["operation_id"], [Int(12)]))];
      IdCacheOnRead(cache2, sourceId).hit == Some(Dict(map["operation_id" := Int(12)]))
  {
    var d := DictDisplay(["operation_id"], [Int(12)]);
    assert d.Keys == {"operation_id"} by {
      assert (set i | 0 <= i < 1 :: ["operation_id"][i]) == {"operation_id"};
    }
    assert d == map["operation_id" := Int(12)];
  }
}
