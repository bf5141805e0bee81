/**
 * The run-time behaviour of the code that pyxfer's SQLADictTypeSupport
 * emits: the cache key computed for a dict being deserialized, the short
 * form cached for an entity being serialized to a dict, and `peek`.
 *
 * An entity serialized a second time is written as a short form: a dict
 * whose `__PYX_REUSE` entry identifies it. An entity with some key value set
 * is identified by its key values; one without (a new object) by `id()` of
 * the source object, which the full dict then carries as `__PYXID`. Reading
 * the dicts back, the full form and every short form of one entity must
 * land on the same cache key.
 */
module KeyCache {
  import opened Wrappers
  import opened PyValues
  import opened PyCollections

  const Reuse: string := "__PYX_REUSE"
  const PyxId: string := "__PYXID"

  /** `zulu`: the run-time value of the key tuple expression, tagged with the base name when that is not empty. */
  function KeyTuple(base: string, keyValues: seq<Value>): (r: seq<Value>)
    ensures |r| == |keyValues| + (if base != "" then 1 else 0)
    ensures base != "" ==> r[0] == Str(base) && r[1..] == keyValues
    ensures base == "" ==> r == keyValues
  {
    (if base != "" then [Str(base)] else []) + keyValues
  }

  /** What `cache_on_write` caches for the source entity: the form written for its later occurrences. */
  function ShortForm(base: string, keyNames: seq<string>, keyValues: seq<Value>, sourceId: nat): (r: map<string, Value>)
    requires |keyNames| == |keyValues| >= 1
    ensures Reuse in r
  {
    var zulu := KeyTuple(base, keyValues);
    if Any(zulu[1..]) then map[Reuse := Tuple(zulu[1..])]
    else
      assert ([Reuse] + keyNames)[0] == Reuse;
      DictDisplay([Reuse] + keyNames, [Ref(sourceId)] + keyValues)
  }

  /**
   * `cache_on_write`: caches the short form under the current cache key
   * and, for an entity without a key value, stamps the full dict with the
   * source's `id()`.
   */
  method CacheOnWrite(cache: PyDict<Value, Value>, dest: PyDict<string, Value>, cacheKey: Value,
                      base: string, keyNames: seq<string>, keyValues: seq<Value>, sourceId: nat)
    requires |keyNames| == |keyValues| >= 1
    modifies cache, dest
    ensures cache.entries == old(cache.entries)[cacheKey := Dict(ShortForm(base, keyNames, keyValues, sourceId))]
    ensures dest.entries == if Any(KeyTuple(base, keyValues)[1..]) then old(dest.entries)
                            else old(dest.entries)[PyxId := Ref(sourceId)]
  {
    var zulu := KeyTuple(base, keyValues);
    if Any(zulu[1..]) {
      cache.Put(cacheKey, Dict(map[Reuse := Tuple(zulu[1..])]));
    } else {
      cache.Put(cacheKey, Dict(DictDisplay([Reuse] + keyNames, [Ref(sourceId)] + keyValues)));
      dest.Put(PyxId, Ref(sourceId));
    }
  }

  /**
   * `cache_key` as emitted: a `__PYX_REUSE` entry wins, then `__PYXID`, then
   * the key fields. A `__PYX_REUSE` list is concatenated to a tuple, which
   * Python refuses.
   */
  function CacheKeyAsWritten(src: map<string, Value>, base: string, keyNames: seq<string>): (r: Result<Value, PyError>)
    ensures r.Err? && r.error.TypeError? <==> Reuse in src && src[Reuse].List?
    ensures r.Ok? ==> r.value.Tuple? && |r.value.elems| >= 1 && r.value.elems[0] == Str(base)
    ensures Reuse in src && src[Reuse].Tuple? ==> r == Ok(Tuple([Str(base)] + src[Reuse].elems))
    ensures Reuse in src && !src[Reuse].Tuple? && !src[Reuse].List? ==> r == Ok(Tuple([Str(base), src[Reuse]]))
    ensures Reuse !in src && PyxId in src ==> r == Ok(Tuple([Str(base), src[PyxId]]))
    ensures Reuse !in src && PyxId !in src ==>
      (r.Ok? <==> ReadFields(src, keyNames).Ok?) && (r.Ok? ==> r.value.elems[1..] == ReadFields(src, keyNames).value)
  {
    if Reuse in src then
      var v := src[Reuse];
      if v.Tuple? then Ok(Tuple([Str(base)] + v.elems))
      else if v.List? then Err(TypeError("can only concatenate tuple (not \"list\") to tuple"))
      else Ok(Tuple([Str(base), v]))
    else if PyxId in src then Ok(Tuple([Str(base), src[PyxId]]))
    else
      match ReadFields(src, keyNames)
      case Ok(vs) => Ok(Tuple([Str(base)] + vs))
      case Err(e) => Err(e)
  }

  /**
   * `cache_key` as intended: a `__PYX_REUSE` list (a tuple that went
   * through JSON) is read like the tuple it was.
   */
  function CacheKey(src: map<string, Value>, base: string, keyNames: seq<string>): (r: Result<Value, PyError>)
    ensures r.Err? <==> Reuse !in src && PyxId !in src && exists i :: 0 <= i < |keyNames| && keyNames[i] !in src
    ensures r.Ok? ==> r.value.Tuple? && |r.value.elems| >= 1 && r.value.elems[0] == Str(base)
    ensures Reuse !in src && PyxId !in src && r.Ok? ==> r.value.elems[1..] == ReadFields(src, keyNames).value
    ensures Reuse in src && (src[Reuse].Tuple? || src[Reuse].List?) ==> r == Ok(Tuple([Str(base)] + src[Reuse].elems))
    ensures Reuse in src && !src[Reuse].Tuple? && !src[Reuse].List? ==> r == Ok(Tuple([Str(base), src[Reuse]]))
    ensures Reuse !in src && PyxId in src ==> r == Ok(Tuple([Str(base), src[PyxId]]))
  {
    if Reuse in src then
      var v := src[Reuse];
      if v.Tuple? || v.List? then Ok(Tuple([Str(base)] + v.elems))
      else Ok(Tuple([Str(base), v]))
    else if PyxId in src then Ok(Tuple([Str(base), src[PyxId]]))
    else
      match ReadFields(src, keyNames)
      case Ok(vs) => Ok(Tuple([Str(base)] + vs))
      case Err(e) => Err(e)
  }

  /** The two agree on every dict except one whose `__PYX_REUSE` is a list. */
  lemma CacheKeyFixOnlyTouchesLists(src: map<string, Value>, base: string, keyNames: seq<string>)
    requires !(Reuse in src && src[Reuse].List?)
    ensures CacheKeyAsWritten(src, base, keyNames) == CacheKey(src, base, keyNames)
  {
  }

  /**
   * The full dict written for an entity: it carries the key values under the
   * key names and, when no key value is set, the `__PYXID` stamp.
   */
  ghost predicate FullForm(full: map<string, Value>, keyNames: seq<string>, keyValues: seq<Value>, sourceId: nat)
    requires |keyNames| == |keyValues|
  {
    && Reuse !in full
    && (forall i :: 0 <= i < |keyNames| ==> keyNames[i] in full && full[keyNames[i]] == keyValues[i])
    && (if Any(keyValues) then PyxId !in full else PyxId in full && full[PyxId] == Ref(sourceId))
  }

  /**
   * The short form cached for an entity and the full dict written for it
   * lead to the same cache key, both as written and as intended, as long as
   * the short form keeps its tuple.
   */
  lemma ShortFormSharesKey(base: string, keyNames: seq<string>, keyValues: seq<Value>, sourceId: nat, full: map<string, Value>)
    requires |keyNames| == |keyValues| >= 1 && base != "" && Reuse !in keyNames
    requires FullForm(full, keyNames, keyValues, sourceId)
    ensures var short := ShortForm(base, keyNames, keyValues, sourceId);
      && CacheKey(short, base, keyNames).Ok?
      && CacheKey(short, base, keyNames) == CacheKey(full, base, keyNames)
      && CacheKeyAsWritten(short, base, keyNames) == CacheKeyAsWritten(full, base, keyNames)
  {
    var short := ShortForm(base, keyNames, keyValues, sourceId);
    assert KeyTuple(base, keyValues)[1..] == keyValues;
    if Any(keyValues) {
      assert short == map[Reuse := Tuple(keyValues)];
      assert ReadFields(full, keyNames).value == keyValues;
    } else {
      var names := [Reuse] + keyNames;
      assert forall j :: 0 < j < |names| ==> names[j] != Reuse;
      assert short[Reuse] == Ref(sourceId);
    }
  }

  /**
   * A short form with key values that went through JSON (its tuple became a
   * list) makes the emitted code raise, where the intended key is the one of
   * the full dict.
   */
  lemma JsonShortFormRaises(base: string, keyNames: seq<string>, keyValues: seq<Value>, sourceId: nat, full: map<string, Value>)
    requires |keyNames| == |keyValues| >= 1 && base != "" && Reuse !in keyNames
    requires FullForm(full, keyNames, keyValues, sourceId) && Any(keyValues)
    ensures var json := map[Reuse := List(keyValues)];
      && CacheKeyAsWritten(json, base, keyNames).Err?
      && CacheKey(json, base, keyNames) == CacheKey(full, base, keyNames)
  {
    ShortFormSharesKey(base, keyNames, keyValues, sourceId, full);
    assert KeyTuple(base, keyValues)[1..] == keyValues;
  }

  /** The concrete case: an operation with `operation_id` 12, short form read back from JSON. */
  lemma JsonShortFormExample()
    ensures CacheKeyAsWritten(map[Reuse := List([Int(12)])], "B", ["operation_id"]).Err?
    ensures CacheKey(map[Reuse := List([Int(12)])], "B", ["operation_id"]) == Ok(Tuple([Str("B"), Int(12)]))
    ensures CacheKey(map["operation_id" := Int(12)], "B", ["operation_id"]) == Ok(Tuple([Str("B"), Int(12)]))
  {
    var full := map["operation_id" := Int(12)];
    assert Reuse !in full && PyxId !in full;
    var r := ReadFields(full, ["operation_id"]);
    assert r.Ok? && r.value[0] == Int(12);
    assert r.value == [Int(12)];
    assert [Str("B")] + [Int(12)] == [Str("B"), Int(12)];
  }

  /**
   * An operation with `operation_id` 12 met again: the form cached for it
   * keeps its key values under `__PYX_REUSE`, not under `operation_id`.
   */
  lemma OperationShortForm(base: string, sourceId: nat)
    requires base != ""
    ensures ShortForm(base, ["operation_id"], [Int(12)], sourceId) == map[Reuse := Tuple([Int(12)])]
    ensures ShortForm(base, ["operation_id"], [Int(12)], sourceId) != map["operation_id" := Int(12)]
  {
    var zulu := KeyTuple(base, [Int(12)]);
    assert zulu[1..] == [Int(12)];
    assert Truthy(zulu[1..][0]);
    assert Reuse != "operation_id";
  }

  /**
   * Short forms of two entities lead to one cache key only for the same
   * entity: equal key values, or, without key values, the same source object.
   */
  lemma ShortFormKeyIdentifies(base: string, keyNames: seq<string>, vals1: seq<Value>, id1: nat, vals2: seq<Value>, id2: nat)
    requires |keyNames| == |vals1| == |vals2| >= 1 && base != "" && Reuse !in keyNames
    requires Any(vals1) == Any(vals2)
    requires CacheKey(ShortForm(base, keyNames, vals1, id1), base, keyNames) == CacheKey(ShortForm(base, keyNames, vals2, id2), base, keyNames)
    ensures Any(vals1) ==> vals1 == vals2
    ensures !Any(vals1) ==> id1 == id2
  {
    assert KeyTuple(base, vals1)[1..] == vals1;
    assert KeyTuple(base, vals2)[1..] == vals2;
    var names := [Reuse] + keyNames;
    assert forall j :: 0 < j < |names| ==> names[j] != Reuse;
    if Any(vals1) {
      assert [Str(base)] + vals1 == [Str(base)] + vals2;
      assert vals1 == ([Str(base)] + vals1)[1..];
    } else {
      assert ShortForm(base, keyNames, vals1, id1)[Reuse] == Ref(id1);
      assert ShortForm(base, keyNames, vals2, id2)[Reuse] == Ref(id2);
    }
  }

  /**
   * `peek`: looks the `__PYX_REUSE` value itself up in the cache; `cache.get`
   * raises TypeError on a value Python cannot hash.
   */
  function Peek(source: map<string, Value>, cache: map<Value, Value>): (r: Result<Option<Value>, PyError>)
    ensures r.Err? <==> Reuse in source && !Hashable(source[Reuse])
    ensures r.Err? ==> r.error.TypeError?
    ensures r.Ok? && r.value.Some? <==> Reuse in source && Hashable(source[Reuse]) && source[Reuse] in cache
    ensures r.Ok? && r.value.Some? ==> r.value.value == cache[source[Reuse]]
  {
    if Reuse !in source then Ok(None)
    else if !Hashable(source[Reuse]) then Err(TypeError("unhashable type"))
    else if source[Reuse] in cache then Ok(Some(cache[source[Reuse]]))
    else Ok(None)
  }

  /**
   * A short form whose tuple went through JSON (and became a list) makes
   * `peek` raise too, whatever the cache holds.
   */
  lemma JsonShortFormPeekRaises(keyValues: seq<Value>, cache: map<Value, Value>)
    ensures Peek(map[Reuse := List(keyValues)], cache).Err?
  {
  }

  /**
   * `peek` looks up the untagged `__PYX_REUSE` value, while `cache_key`
   * tags it with the base name: an entry stored under the cache key of a
   * short form is not the one `peek` finds.
   */
  lemma PeekIgnoresCacheKey(source: map<string, Value>, base: string, keyNames: seq<string>, stored: Value)
    requires Reuse in source && source[Reuse].Tuple?
    ensures var k := CacheKey(source, base, keyNames).value;
      Peek(source, map[k := stored]) == if Hashable(source[Reuse]) then Ok(None) else Err(TypeError("unhashable type"))
  {
    var k := CacheKey(source, base, keyNames).value;
    assert |k.elems| == |source[Reuse].elems| + 1;
  }
}
