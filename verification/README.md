# Type supports of pyxfer and montgomery, in Dafny

pyxfer (and its predecessor montgomery) generates Python serializers that copy data between SQLAlchemy entities, plain dicts and generated plain objects. A *type support* is the adapter for one representation. Every method of a type support either returns a fragment of Python code or appends lines to the serializer being generated. This project models what those fragments say and what the emitted code does when it runs:

- **Reconcile** (`reconcile.dfy`) holds the relation merge loops emitted for SQLAlchemy relations:
  - the key-diff merge through `dest_inst_keys` (pyxfer `gen_merge_relation_sqla2`, montgomery `gen_merge_relation_sqla`);
  - the cache-driven merge with the `used` set (pyxfer `gen_merge_relation_sqla`, which is what pyxfer's `SQLATypeSupport.relation_copy` calls);
  - the choice between list and set insertion;
  - the `relation_copy` loops of the dict and object supports.

  The loops run as methods on Python list and set objects (`PyList`, `PySet`) and are proved against left-fold specification functions. The child serializer the loops call is an opaque function. It takes the item and the destination element to fill (`None`: create one) and returns the element it produced and the new run state.
- **KeyCache** (`keycache.dfy`) models pyxfer's `SQLADictTypeSupport`: the cache key of a dict being read back, the short form cached by `cache_on_write`, and `peek`.
- **ReadCache** (`readcache.dfy`) models montgomery's `cache_on_read`, `cache_on_read_update` and `cache_on_write` hooks of the SQLAlchemy, dict and object supports.
- **Builders** (`builders.dfy`) models the code-fragment builders of all supports: field and relation access, presence test, instance creation, conversions, and the cache key and cache value expressions. It also holds a parser that reads an access path back, which is the partner the builder lemmas are stated against.
- **Supports** (`supports.dfy`) models the state the supports keep between generator calls. `SqlaSupport` holds the field table built from the mapped columns. `ObjectSupport` holds the fields and relations recorded while serializers are generated, and emits the destination class from them.
- **PyValues**, **PyCollections**, **Sequences** and **Wrappers** are supporting modules. They hold the Python values the emitted code computes with (with Python truthiness), Python's mutable list, set and dict, sequence utilities and `Option`/`Result`.

Some things are inputs rather than computed here:
- the key names, column types and collection class that SQLAlchemy reflection reports;
- `id(x)`, modelled as `Ref(n)`;
- the key functions of the merge loops.

## Model

| member | source | states |
|---|---|---|
| Reconcile.InsertionFor | pyxfer/type_support.py:41-48 | a list relation gets `append`, a set gets `add`, and any other collection class fails generation with "Unrecognized collection type" |
| Reconcile.RelationCollectionClass | pyxfer/type_support.py:328-333 | the collection class handed to the merge generator is `set` exactly when the mapped `collection_class` is `set`, and a list otherwise, in pyxfer and in montgomery (montgomery/type_support.py:249-253); so the generation error cannot come from `relation_copy` |
| Reconcile.KeyIndex | pyxfer/type_support.py:121-125 | the pre-pass map holds the key of every destination element; each entry is a destination element carrying that key; when two elements share a key the later one wins |
| Reconcile.BuildKeyIndex | montgomery/type_support.py:88-91 | the pre-pass loop builds exactly that map |
| Reconcile.KeyedRunOutcome | pyxfer/type_support.py:166-177 | after the source pass the map keeps exactly the initial keys that no source item carries, with their original elements; each merged-into element is the pre-existing element under a source key, and conversely every pre-existing element under a source key is merged into; one element is merged or created per item |
| Reconcile.MergedAreNotLeftover | pyxfer/type_support.py:169-172 | an element a source item was merged into is not removed afterwards |
| Reconcile.RemoveEach | pyxfer/type_support.py:192-196 | removing every leftover element once, in whatever order the dict yields them, removes the first occurrence of each and raises no ValueError |
| Reconcile.MergeKeyedIntoList | pyxfer/type_support.py:63-197 | list relation: the final list is the old list followed by the created elements, with the first occurrence of every leftover removed; the returned run state is the one after the last item |
| Reconcile.MergeKeyedIntoSet | pyxfer/type_support.py:183-196 | set relation: the final set is the old set plus the created elements minus the leftovers; the pre-pass map is a key index of the old set |
| Reconcile.MergeUnseededIntoList | montgomery/type_support.py:32-125 | montgomery's merge: the same outcome, with every new element produced from `None` |
| Reconcile.KeyedListResult | pyxfer/type_support.py:173-196 | when the relation holds each instance once, the result is the surviving old elements in their order, then the created ones in source order |
| Reconcile.KeyedLeftovers | pyxfer/type_support.py:121-196 | an element is removed exactly when it is the one recorded under its key and no source item carries that key (both directions) |
| Reconcile.MatchedKept | pyxfer/type_support.py:169-172 | a destination element whose key some source item carries is still in the relation afterwards, as the same element |
| Reconcile.ReconcileExample | pyxfer/type_support.py:121-196 | relation A, B, C reconciled with source keys A, C, D: A and C are merged into, B is removed, one element is created for D, and the result is A, C, D |
| Reconcile.EmptySourceEmptiesRelation | montgomery/type_support.py:121-124 | an empty source empties a relation whose elements have distinct keys |
| Reconcile.UsedRunOutcome | pyxfer/type_support.py:20-53 | every appended element is recorded in `used`, and at most one element is appended per item |
| Reconcile.MergeCachedIntoList | pyxfer/type_support.py:10-61 | cache-driven merge into a list: an item's result is appended only when the cache lookup missed; afterwards every old element not in `used` is removed once |
| Reconcile.MergeCachedIntoSet | pyxfer/type_support.py:44-60 | the same merge into a set: the old set plus the elements added, minus the old elements not in `used` |
| Reconcile.UsedListResult | pyxfer/type_support.py:36-60 | with each instance once, the result is the old elements some item resolved to, then the appended ones; its members are exactly (old ∩ used) ∪ appended |
| Reconcile.CachedHitOutsideRelationIsLost | pyxfer/type_support.py:32-53 | as written, an item whose lookup hits an element not already in the relation ends up in `used` but not in the relation |
| Reconcile.FixedRunOutcome | pyxfer/type_support.py:32-53 | corrected pass: appended elements are in `used`, are new to the relation and are appended once; everything in `used` is in the relation |
| Reconcile.FixedMembership | pyxfer/type_support.py:10-61 | corrected merge: the relation ends up holding exactly the elements the source items resolved to, each once |
| Reconcile.MergeCachedIntoListFixed | pyxfer/type_support.py:10-61 | the corrected merge run on a list object gives the relation `FixedMembership` describes |
| Reconcile.ProduceAllInOrder | pyxfer/type_support.py:429-436 | one element per source item, in source order, each produced from `None` with the run state left by the previous items |
| Reconcile.DictRelationCopy | pyxfer/type_support.py:418-439 | the dict support's relation becomes a new list holding the produced elements; montgomery/type_support.py:471-492 emits the same loop |
| Reconcile.ObjectRelationCopy | pyxfer/type_support.py:542-564 | the object support clears the existing list in place and refills it with the produced elements; montgomery/type_support.py:595-617 emits the same loop |
| Builders.ParseRender | pyxfer/type_support.py:294-295 | attribute and subscript access paths read back to the instance and the name they were built from, when the name is a plain name |
| Builders.ReadField | pyxfer/type_support.py:401-402 | a field read begins with the instance expression |
| Builders.ReadFieldRoundTrip | pyxfer/type_support.py:294-295 | a field read names exactly its instance and field; it is a subscript for the dict support and an attribute for the others (both directions); montgomery's builders are the same |
| Builders.ReadFieldInjective | pyxfer/type_support.py:523-525 | two reads of one support are the same code only for the same instance and field |
| Builders.WriteField | pyxfer/type_support.py:394-395 | the assignment starts with the instance and ends with the value |
| Builders.WriteTargetsReadLocation | pyxfer/type_support.py:288-289 | the write assigns the value to the location the read of that field reads |
| Builders.RelationAccessAgrees | pyxfer/type_support.py:412-416 | relations are read (`ReadRelation`, modelling `gen_read_relation`) with the field syntax; the presence test (`IsSingleRelationPresent`, modelling `gen_is_single_relation_present`) is that read, and for dicts it contains that read behind the key check |
| Builders.InitRelation | pyxfer/type_support.py:300-301 | the relation initialisation code begins with the instance expression (its partner is `Builders.InitRelationAssigns`) |
| Builders.InitRelationAssigns | pyxfer/type_support.py:300-301 | for a plain relation name, the initialisation is `<lhs> = []` where `<lhs>` parses back as the attribute `rel` of the instance, the same location the relation is read from (montgomery/type_support.py:221-222 is identical) |
| Builders.MakeInstanceCode | pyxfer/type_support.py:262-263 | instance creation code is a call, with no arguments, of the constructor named by the support's type name (`type_name()`) |
| Builders.CreateInstanceConstructs | pyxfer/type_support.py:306-307 | every support's creation code (`CreateInstance`, modelling `gen_create_instance`) contains the constructor call; only the SQLAlchemy support wraps it in a session add (both directions) |
| Builders.ConversionRoundTrip | pyxfer/type_support.py:291-298 | converted code (`BasetypeToType`, modelling `gen_basetype_to_type_conversion`) reads back (through `Unconvert`, which takes off the SQLAlchemy support's parentheses) to exactly the code converted; a converted field read still parses to the same field; converting to the base type (`TypeToBasetype`, modelling `gen_type_to_basetype_conversion`) changes nothing |
| Builders.KeyReads | montgomery/type_support.py:22-23 | one field read per key name, in key order |
| Builders.KeyEntries | montgomery/type_support.py:10-12 | one `'k' : read` entry per key name, in key order |
| Builders.MakeCacheKeyExpression | montgomery/type_support.py:16-25 | generation fails on an empty key list or instance name; otherwise the result is a parenthesised tuple expression |
| Builders.CacheKeyComponents | montgomery/type_support.py:16-25 | the tuple's components are the quoted base name and then one read per key, in order |
| Builders.MakeTaggedKeyExpression | pyxfer/type_support.py:713-727 | generation fails on an empty key list or instance name; otherwise the tuple expression ends with a trailing comma |
| Builders.TaggedKeyComponents | pyxfer/type_support.py:713-727 | the components are the quoted base name only when it is not empty, then one read per key, then nothing after the trailing comma |
| Builders.MakeCacheValueExpression | pyxfer/type_support.py:704-710 | the value expression is a dict display |
| Builders.CacheValueEntries | montgomery/type_support.py:8-14 | the dict display has exactly one entry per leading part and per key field, in order |
| PyValues.Any | pyxfer/type_support.py:681 | Python's `any`: some component is truthy |
| PyValues.ReadFields | pyxfer/type_support.py:660-667 | reading the key fields succeeds exactly when all are present and then yields their values in order; otherwise it names a missing field |
| PyValues.DictDisplay | montgomery/type_support.py:425-427 | the displayed dict has exactly the displayed names, each with its value |
| PyValues.ReadDisplay | montgomery/type_support.py:425-427 | reading the key fields of a keys-only dict gives back the key values |
| KeyCache.KeyTuple | pyxfer/type_support.py:675-676 | `zulu` is the base tag (when not empty) followed by the key values |
| KeyCache.ShortForm | pyxfer/type_support.py:680-692 | the cached short form always carries `__PYX_REUSE` |
| KeyCache.CacheOnWrite | pyxfer/type_support.py:674-695 | when some key value is truthy, the short form is the key values under `__PYX_REUSE` and the full dict is untouched; otherwise the short form carries `id(source)` and the key fields, and the full dict gets `__PYXID` |
| KeyCache.CacheKeyAsWritten | pyxfer/type_support.py:621-671 | the emitted cache key: `__PYX_REUSE` wins over `__PYXID`, which wins over the key fields; a tuple in `__PYX_REUSE` is flattened after the base tag and any other value but a list is paired with it; a list raises TypeError, and that is the only TypeError; `__PYXID` is paired with the tag; otherwise the key fields follow the tag in key order, and a missing one raises |
| KeyCache.CacheKey | pyxfer/type_support.py:621-671 | the corrected cache key: the same precedence, but a tuple or a list in `__PYX_REUSE` is flattened after the tag; it fails only when neither marker nor some key field is present, and from the key fields holds their values in order |
| KeyCache.CacheKeyFixOnlyTouchesLists | pyxfer/type_support.py:636-645 | the correction changes nothing unless the reuse value is a list |
| KeyCache.ShortFormSharesKey | pyxfer/type_support.py:674-695 | the cached short form of an entity and the full dict written for it give the same cache key, whether or not the entity has a key value set |
| KeyCache.JsonShortFormRaises | pyxfer/type_support.py:636-641 | a short form whose tuple went through JSON makes the emitted key code raise, while the corrected key is the full dict's key |
| KeyCache.JsonShortFormExample | pyxfer/type_support.py:636-641 | the concrete case of `operation_id` 12 |
| KeyCache.OperationShortForm | pyxfer/type_support.py:674-683 | for an operation with `operation_id` 12, pyxfer's `cache_on_write` caches `{'__PYX_REUSE': (12,)}`, not `{'operation_id': 12}` |
| KeyCache.ShortFormKeyIdentifies | pyxfer/type_support.py:680-694 | two short forms give one cache key only for equal key values, or for the same source object when no key value is set |
| KeyCache.Peek | pyxfer/type_support.py:741-749 | `peek` raises TypeError exactly when `__PYX_REUSE` holds a value Python cannot hash (a list, a dict, or a tuple holding one); otherwise it finds something exactly when the dict has `__PYX_REUSE` and the cache holds that value as a key |
| KeyCache.JsonShortFormPeekRaises | pyxfer/type_support.py:741-749 | a short form whose tuple became a list through JSON makes `peek` raise, whatever the cache holds |
| KeyCache.PeekIgnoresCacheKey | pyxfer/type_support.py:741-749 | `peek` does not find an entry stored under the tagged cache key of the same short form: it misses when the value can be hashed and raises otherwise |
| ReadCache.IdCacheOnRead | montgomery/type_support.py:267-279 | the SQLAlchemy support's `cache_on_read` keys the source by `id(source)`; there is a hit exactly when that key is cached, and the hit is the cached value; the object support's hook (montgomery/type_support.py:620-632) is the same |
| ReadCache.DictCacheOnRead | montgomery/type_support.py:338-373 | dict sources are keyed by the base name and their key values; a missing key field raises; a hit happens exactly when some key value is truthy and the key is cached |
| ReadCache.StoreDestination | montgomery/type_support.py:283-293 | the destination is cached under the current key |
| ReadCache.DictCacheOnWrite | montgomery/type_support.py:398-429 | the dict support caches only the keys-only dict of the source, never the full destination |
| ReadCache.UnsetKeysNeverHit | montgomery/type_support.py:360-372 | a dict with no key value set never hits the cache |
| ReadCache.SerializeTwice | montgomery/type_support.py:267-279 | on a miss the keys-only dict is cached under `id(source)` and the next lookup of the same source returns it; on a hit nothing changes |
| ReadCache.ShortDictKeyMatchesFull | montgomery/type_support.py:338-373 | the keys-only dict of an entity and its full dict lead to the same lookup |
| ReadCache.DeserializedInstanceReused | montgomery/type_support.py:360-372 | once an instance is cached under a dict's key with some key value set, every dict with the same key values returns it |
| ReadCache.OperationWrittenShort | montgomery/type_support.py:398-429 | with montgomery's hooks, the second occurrence of an operation with `operation_id` 12 is written as `{'operation_id': 12}` |
| Supports.FieldKindOf | pyxfer/type_support.py:207-215 | a column is a `str` field exactly when its type is the `String` class, and an `int` field exactly when its type is an instance of `Integer` or a subclass |
| Supports.FieldTable | montgomery/type_support.py:135-143 | the field table holds exactly the accepted columns, each with its kind, and no other name |
| Supports.SqlaSupport.constructor | pyxfer/type_support.py:202-215 | the support's field table is the field table of its columns |
| Supports.SqlaSupport.Fields | pyxfer/type_support.py:265-266 | the fields are the names in the field table |
| Supports.SqlaSupport.FieldType | montgomery/type_support.py:192-193 | a field's kind, and KeyError for a column that was dropped |
| Supports.FieldFilterCases | montgomery/type_support.py:135-143 | a `String` column is kept only as the class and an `Integer` column only as an instance |
| Supports.ClassLinesDeclareAll | pyxfer/type_support.py:497-512 | the emitted class has its header, one line per recorded field and per relation (or `# no relations`), and initialises each to `None` or `[]` |
| Supports.InitLineAssignsRead | montgomery/type_support.py:550-565 | each initialisation line assigns the attribute the serializers read on `self` |
| Supports.ObjectSupport.FromName | pyxfer/type_support.py:452-462 | a support made from a name has that name and has recorded nothing |
| Supports.ObjectSupport.FromClass | pyxfer/type_support.py:452-462 | a support made from a class is named "Copy" + the class name in pyxfer, and the class name in montgomery (`prefix` "") |
| Supports.ObjectSupport.GenReadField | pyxfer/type_support.py:523-525 | emits the attribute read and records the field |
| Supports.ObjectSupport.GenWriteField | montgomery/type_support.py:568-570 | emits the assignment and records the field |
| Supports.ObjectSupport.GenReadRelation | pyxfer/type_support.py:538-540 | emits the read and records the relation once, at its first use |
| Supports.ObjectSupport.GenGlobalCode | montgomery/type_support.py:550-565 | emits the class of `ClassLines`, with the recorded fields in some order, each once: the header first and one `None` initialisation line for every recorded field; the class has exactly two header lines plus one line per distinct recorded field and per distinct recorded relation (or the `# no relations` line) |

## Left out

- SQLAlchemy reflection is not modelled. That covers `sqla_attribute_analysis`, primary keys and `getattr(...).property.collection_class`. Column names and types, key names and the mapped collection class are inputs.
- The import and module machinery of `gen_global_code` is not modelled. That covers `inspect.getmodule`, the package name and the `_sqla_session_add` helper text. The `Serializer` and `CodeWriter` classes (line layout, indentation, `exec`) are not part of this model either.
- `session.add`, `session.merge` and `check_instance_serializer` are left out. They only hand instances to SQLAlchemy and do not change the relation or the cache.
- The child serializer is opaque: only the identity of the element it returns and the run state it leaves are tracked. The fields it copies into an existing element in place are not modelled.
- The key functions of the merge loops are opaque. Computing the key of an item (the emitted key tuple) is not modelled there, and neither are the errors that computation can raise.
- The seed of the keyed merge (`peek(item, cache)` in pyxfer) is an opaque function that cannot fail. The TypeError that `peek` raises on an unhashable `__PYX_REUSE` value (KeyCache.Peek) is therefore not carried into Reconcile.MergeKeyedIntoList.
- Reconcile.MergeCachedIntoList takes the cache lookup as an opaque function of the item and the run state. Errors while computing the cache key are not modelled.
- The leftover removal iterates over `dest_inst_keys.values()`, which Python walks in insertion order. The model picks the order arbitrarily and proves that the resulting relation does not depend on it, so it covers the insertion order as one case.
- Supports.ObjectSupport.GenGlobalCode: the order of the field lines is left unspecified, as the iteration order of a Python set is. Only "every recorded field gets one line" is independent of that order; the exact text depends on it.
- `id()` is a natural number wrapped in `Ref`. It is assumed distinct for distinct live objects.
- KeyCache.ShortFormKeyIdentifies: stated only for two entities that both have a key value set or both have none. In Python `id(source)` is an `int`, so the key `('B', id(x))` of an entity without a key value can equal the key `('B', k)` of an entity whose single key value `k` happens to equal `id(x)`. Because `Ref(n)` differs from `Int(n)`, the model cannot express that collision.
- Python's `1 == True` (and `hash(1) == hash(True)`) is not modelled: `Bool(true)` and `Int(1)` are different values, and so different cache keys, whereas Python treats them as one key.
- Reconcile.KeyedListResult, Reconcile.UsedListResult, Reconcile.FixedMembership: stated for a relation holding each instance once, which SQLAlchemy relations do. For other lists the exact result is still given by the methods' `DropFirstOf` postconditions.
- KeyCache.ShortFormSharesKey: requires a non-empty base name. With an empty base name, `zulu[1:]` would drop the first key value instead of the tag; the generators always pass a base name.
- Builders.ParseRender and the lemmas built on it hold for plain names: no dot, quote or comma in a field, relation or key name. These are Python identifiers in practice.
- The debug `print` in the list branch of the cache-driven merge, `relation_write_code` (which emits a placeholder `zzz`), `serializer_additional_parameters` and `finish_serializer` emit no behaviour worth modelling.
- The constant builders of the dict and object supports (`fields()` and `relations()` returning `[]`, `field_type` returning `str`, `type()`) are not modelled.
- `DictTypeSupport.cache_on_read_update` in montgomery emits nothing, so there is nothing to model.
- Floating-point columns (`cost`) are not modelled.
- Code after a `return` and commented-out code are not modelled.
- `rename_ids`, `canonize_dict` and the database fixture of test.py are not modelled.
- `walker`/`pyxfer.py`, which decides when each hook is called, is not part of this model. So the model does not say which cache the pyxfer merge loop's `peek` seed consults.

## Findings

| source | as written | input that shows it | evidently intended | confidence | as-written member | corrected member |
|---|---|---|---|---|---|---|
| pyxfer/type_support.py:636-641 | `('B',) + v` when `__PYX_REUSE` holds a list | a short form `{'__PYX_REUSE': [12]}` read back from JSON | the list is flattened after the tag like a tuple, as the comment about JSON arrays says | high, not executed | KeyCache.JsonShortFormRaises | KeyCache.CacheKey |
| pyxfer/type_support.py:32-53 | the result is appended only when `cache.get(rck)` missed | an empty relation and one item whose cache lookup hits an element deserialized earlier in the run | the element is appended whenever it is not already in the relation, so the relation ends up holding exactly the `used` elements | medium, not executed | Reconcile.CachedHitOutsideRelationIsLost | Reconcile.FixedMembership |

`peek` looks up the raw `__PYX_REUSE` value, while `cache_key` prefixes it with the base tag (Builders and KeyCache.PeekIgnoresCacheKey). Whether that makes `peek` miss depends on the unmodelled walker, so this is not listed as a finding. On the input of the first finding, `peek` raises as well (KeyCache.JsonShortFormPeekRaises): correcting `cache_key` alone does not make the keyed merge, which calls `peek`, accept a short form read back from JSON.

The expected output in test.py:282-294 writes the second occurrence of operation 12 as `{'operation_id': 12}`. That is what montgomery's hooks cache (ReadCache.OperationWrittenShort). test.py imports pyxfer, whose `cache_on_write` caches `{'__PYX_REUSE': (12,)}` for that operation (KeyCache.OperationShortForm), and `rename_ids` in test.py only rewrites `__PYX_CACHE` entries. Which hook the walker calls for that field is not part of this model, so this disagreement is recorded here, not executed, and not claimed as a finding.
