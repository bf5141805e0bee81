/**
 * The code fragments every type support emits: instance creation, field
 * and relation access, conversions, and the cache key and cache value
 * expressions of the SQLAlchemy-aware supports.
 */
module Builders {
  import opened Wrappers
  import opened Sequences
  import opened PyValues

  /** The three type supports that emit access code: SQLAlchemy mapped classes, dicts, plain objects. */
  datatype Adapter = Sqla(model: string) | Dict | Object(name: string)

  /** A location in emitted code: an attribute (`i.f`) or a string-keyed subscript (`i['f']`). */
  datatype Access = Attr(target: string, name: string) | Item(target: string, key: string)

  /** A field, relation or key name: never contains a dot, a quote or a comma. */
  predicate PlainName(s: string)
  {
    '.' !in s && '\'' !in s && ',' !in s
  }

  function Render(a: Access): (r: string)
    ensures |r| > |a.target| && r[..|a.target|] == a.target
  {
    match a
    case Attr(t, n) => t + "." + n
    case Item(t, k) => t + "['" + k + "']"
  }

  /** The last position of `c` in `s`. */
  function LastIndexOf(s: string, c: char): (r: Option<nat>)
    ensures r.Some? ==> r.value < |s| && s[r.value] == c && c !in s[r.value + 1..]
    ensures r.None? ==> c !in s
  {
    if s == [] then None
    else if s[|s| - 1] == c then Some(|s| - 1)
    else
      var r := LastIndexOf(s[..|s| - 1], c);
      assert r.None? ==> s == s[..|s| - 1] + [s[|s| - 1]];
      assert r.Some? ==> s[r.value + 1..] == s[..|s| - 1][r.value + 1..] + [s[|s| - 1]];
      r
  }

  /** `s` cut around position `p`. */
  lemma CutAt(s: string, p: nat)
    requires p < |s|
    ensures s == s[..p] + [s[p]] + s[p + 1..]
  {
  }

  /** `t['k` read back from the text before a closing `']`. */
  function ParseItem(u: string): (r: Option<Access>)
    ensures r.Some? ==> r.value.Item? && r.value.target + "['" + r.value.key == u
  {
    match LastIndexOf(u, '\'')
    case Some(p) =>
      if p >= 1 && u[p - 1] == '[' then
        CutAt(u, p);
        CutAt(u[..p], p - 1);
        Some(Item(u[..p - 1], u[p + 1..]))
      else None
    case None => None
  }

  /** `t.n` read back from the text. */
  function ParseAttr(s: string): (r: Option<Access>)
    ensures r.Some? ==> r.value.Attr? && Render(r.value) == s
  {
    match LastIndexOf(s, '.')
    case Some(p) =>
      CutAt(s, p);
      Some(Attr(s[..p], s[p + 1..]))
    case None => None
  }

  /** Reads an access path back from the code text; the partner of Render. */
  function ParseAccess(s: string): (r: Option<Access>)
    ensures r.Some? ==> Render(r.value) == s
  {
    if |s| >= 2 && s[|s| - 2..] == "']" then
      var u := s[..|s| - 2];
      assert s == u + "']";
      ParseItem(u)
    else ParseAttr(s)
  }

  lemma {:induction false} LastIndexOfSplit(a: string, c: char, b: string)
    requires c !in b
    ensures LastIndexOf(a + [c] + b, c) == Some(|a|)
  {
    var s := a + [c] + b;
    if b != [] {
      assert s[..|s| - 1] == a + [c] + b[..|b| - 1];
      assert s[|s| - 1] == b[|b| - 1];
      LastIndexOfSplit(a, c, b[..|b| - 1]);
    }
  }

  lemma ParseRenderAttr(t: string, n: string)
    requires PlainName(n)
    ensures ParseAccess(Render(Attr(t, n))) == Some(Attr(t, n))
  {
    var s := Render(Attr(t, n));
    assert s == t + ['.'] + n;
    assert |s| < 2 || s[|s| - 2] != '\'' || s[|s| - 1] != ']' by {
      if |n| >= 2 {
        assert s[|s| - 2] == n[|n| - 2];
      } else if |n| == 1 {
        assert s[|s| - 2] == '.';
      } else {
        assert s[|s| - 1] == '.';
      }
    }
    LastIndexOfSplit(t, '.', n);
    assert s[..|t|] == t && s[|t| + 1..] == n;
  }

  lemma ParseRenderItem(t: string, k: string)
    requires PlainName(k)
    ensures ParseAccess(Render(Item(t, k))) == Some(Item(t, k))
  {
    var s := Render(Item(t, k));
    var u := s[..|s| - 2];
    assert s[|s| - 2..] == "']";
    assert u == (t + "[") + ['\''] + k;
    LastIndexOfSplit(t + "[", '\'', k);
    assert u[|t|] == '[' && u[..|t|] == t && u[|t| + 2..] == k;
  }

  /** Render is inverted by ParseAccess whenever the last name is plain. */
  lemma ParseRender(a: Access)
    requires PlainName(if a.Attr? then a.name else a.key)
    ensures ParseAccess(Render(a)) == Some(a)
  {
    match a
    case Attr(t, n) => ParseRenderAttr(t, n);
    case Item(t, k) => ParseRenderItem(t, k);
  }

  /** The location the supports read or write for a field or a relation. */
  function FieldAccess(a: Adapter, inst: string, f: string): Access
  {
    if a.Dict? then Item(inst, f) else Attr(inst, f)
  }

  /** `gen_read_field` and `field_read_code` of the three supports. */
  function ReadField(a: Adapter, inst: string, f: string): (r: string)
    ensures |r| > |inst| && r[..|inst|] == inst
  {
    Render(FieldAccess(a, inst, f))
  }

  /** `gen_write_field`: an assignment whose left-hand side is the read location. */
  function WriteField(a: Adapter, inst: string, f: string, v: string): (r: string)
    ensures |r| > |inst| + |v| && r[..|inst|] == inst && r[|r| - |v|..] == v
  {
    ReadField(a, inst, f) + " = " + v
  }

  /** `gen_read_relation`. */
  function ReadRelation(a: Adapter, inst: string, r: string): string
  {
    Render(FieldAccess(a, inst, r))
  }

  /** `gen_is_single_relation_present`. */
  function IsSingleRelationPresent(a: Adapter, inst: string, rel: string): string
  {
    if a.Dict? then "('" + rel + "' in " + inst + " and " + ReadRelation(a, inst, rel) + " is not None)"
    else ReadRelation(a, inst, rel)
  }

  /** `gen_init_relation` of the SQLAlchemy support. */
  function InitRelation(inst: string, rel: string): (r: string)
    ensures |r| > |inst| && r[..|inst|] == inst
  {
    ReadRelation(Sqla(""), inst, rel) + " = []"
  }

  function TypeName(a: Adapter): string
  {
    match a
    case Sqla(m) => m
    case Dict => "dict"
    case Object(n) => n
  }

  /** `make_instance_code`: a call of the type's constructor. */
  function MakeInstanceCode(a: Adapter): (r: string)
    ensures |r| >= 2 && r[|r| - 2..] == "()" && r[..|r| - 2] == TypeName(a)
  {
    TypeName(a) + "()"
  }

  /** `gen_create_instance`: for SQLAlchemy the new instance is added to the session. */
  function CreateInstance(a: Adapter): string
  {
    if a.Sqla? then "_sqla_session_add( session, " + MakeInstanceCode(a) + ")"
    else MakeInstanceCode(a)
  }

  /** `gen_basetype_to_type_conversion`: the SQLAlchemy support parenthesises, the others copy. */
  function BasetypeToType(a: Adapter, code: string): string
  {
    if a.Sqla? then "( " + code + ")" else code
  }

  /** `gen_type_to_basetype_conversion`: every support emits the code unchanged. */
  function TypeToBasetype(a: Adapter, code: string): (r: string)
    ensures r == code
  {
    code
  }

  /** The emitted field read names exactly the instance and the field it was built from. */
  lemma ReadFieldRoundTrip(a: Adapter, inst: string, f: string)
    requires PlainName(f)
    ensures ParseAccess(ReadField(a, inst, f)) == Some(FieldAccess(a, inst, f))
    ensures a.Dict? <==> ParseAccess(ReadField(a, inst, f)).value.Item?
  {
    ParseRender(FieldAccess(a, inst, f));
  }

  /** Two field reads of one support are the same text only when they read the same field of the same instance. */
  lemma ReadFieldInjective(a: Adapter, inst1: string, f1: string, inst2: string, f2: string)
    requires PlainName(f1) && PlainName(f2)
    requires ReadField(a, inst1, f1) == ReadField(a, inst2, f2)
    ensures inst1 == inst2 && f1 == f2
  {
    ReadFieldRoundTrip(a, inst1, f1);
    ReadFieldRoundTrip(a, inst2, f2);
  }

  /** The write assigns to the location the read reads, and to nothing else. */
  lemma WriteTargetsReadLocation(a: Adapter, inst: string, f: string, v: string)
    requires PlainName(f)
    ensures exists lhs :: WriteField(a, inst, f, v) == lhs + " = " + v && ParseAccess(lhs) == Some(FieldAccess(a, inst, f))
  {
    ReadFieldRoundTrip(a, inst, f);
    assert WriteField(a, inst, f, v) == ReadField(a, inst, f) + " = " + v;
  }

  /**
   * Relations are read with the field syntax of each support, and the
   * presence test of a single relation reads that same location (the dict
   * support first checks that the key is there).
   */
  lemma RelationAccessAgrees(a: Adapter, inst: string, rel: string)
    requires PlainName(rel)
    ensures ReadRelation(a, inst, rel) == ReadField(a, inst, rel)
    ensures ParseAccess(ReadRelation(a, inst, rel)) == Some(FieldAccess(a, inst, rel))
    ensures !a.Dict? ==> IsSingleRelationPresent(a, inst, rel) == ReadRelation(a, inst, rel)
    ensures a.Dict? ==> exists pre, post :: IsSingleRelationPresent(a, inst, rel) == pre + ReadRelation(a, inst, rel) + post
  {
    ReadFieldRoundTrip(a, inst, rel);
    if a.Dict? {
      var pre := "('" + rel + "' in " + inst + " and ";
      assert IsSingleRelationPresent(a, inst, rel) == pre + ReadRelation(a, inst, rel) + " is not None)";
    }
  }

  /** The relation initialisation assigns an empty list to the location the relation is read from. */
  lemma InitRelationAssigns(inst: string, rel: string)
    requires PlainName(rel)
    ensures exists lhs :: InitRelation(inst, rel) == lhs + " = []" && ParseAccess(lhs) == Some(Attr(inst, rel))
  {
    RelationAccessAgrees(Sqla(""), inst, rel);
    assert InitRelation(inst, rel) == ReadRelation(Sqla(""), inst, rel) + " = []";
  }

  /**
   * Creating an instance calls the type's constructor; only the SQLAlchemy
   * support wraps the new instance in a session add.
   */
  lemma CreateInstanceConstructs(a: Adapter)
    ensures exists pre, post :: CreateInstance(a) == pre + MakeInstanceCode(a) + post
    ensures !a.Sqla? <==> CreateInstance(a) == MakeInstanceCode(a)
  {
    if a.Sqla? {
      var pre := "_sqla_session_add( session, ";
      assert CreateInstance(a) == pre + MakeInstanceCode(a) + ")";
      assert |CreateInstance(a)| > |MakeInstanceCode(a)|;
    } else {
      assert CreateInstance(a) == "" + MakeInstanceCode(a) + "";
    }
  }

  /** Reads converted code back: the parentheses the SQLAlchemy support adds are taken off. */
  function Unconvert(a: Adapter, s: string): (r: Option<string>)
    ensures r.Some? ==> BasetypeToType(a, r.value) == s
  {
    if !a.Sqla? then Some(s)
    else if |s| >= 3 && s[..2] == "( " && s[|s| - 1] == ')' then
      assert s == s[..2] + s[2..|s| - 1] + [s[|s| - 1]];
      Some(s[2..|s| - 1])
    else None
  }

  /**
   * The conversion into a support's type keeps the converted code whole:
   * reading it back gives the code, and a converted field read still reads
   * the same field; converting back to the base type changes nothing.
   */
  lemma ConversionRoundTrip(a: Adapter, inst: string, f: string, code: string)
    requires PlainName(f)
    ensures Unconvert(a, BasetypeToType(a, code)) == Some(code)
    ensures ParseAccess(Unconvert(a, BasetypeToType(a, ReadField(a, inst, f))).value) == Some(FieldAccess(a, inst, f))
    ensures TypeToBasetype(a, BasetypeToType(a, code)) == BasetypeToType(a, code)
  {
    if a.Sqla? {
      var s := BasetypeToType(a, code);
      assert s[..2] == "( " && s[|s| - 1] == ')';
      assert s[2..|s| - 1] == code;
      var r := BasetypeToType(a, ReadField(a, inst, f));
      assert r[..2] == "( " && r[|r| - 1] == ')';
      assert r[2..|r| - 1] == ReadField(a, inst, f);
    }
    ReadFieldRoundTrip(a, inst, f);
  }

  // ---- cache key and cache value expressions ----

  function Quote(s: string): string
  {
    "'" + s + "'"
  }

  /** The read of each key field, in key order. */
  function KeyReads(a: Adapter, inst: string, keys: seq<string>): (r: seq<string>)
    ensures |r| == |keys|
    ensures forall i :: 0 <= i < |keys| ==> r[i] == ReadField(a, inst, keys[i])
  {
    if keys == [] then [] else [ReadField(a, inst, keys[0])] + KeyReads(a, inst, keys[1..])
  }

  /** `'k' : read` for each key field, in key order. */
  function KeyEntries(a: Adapter, inst: string, keys: seq<string>): (r: seq<string>)
    ensures |r| == |keys|
    ensures forall i :: 0 <= i < |keys| ==> r[i] == Quote(keys[i]) + " : " + ReadField(a, inst, keys[i])
  {
    if keys == [] then [] else [Quote(keys[0]) + " : " + ReadField(a, inst, keys[0])] + KeyEntries(a, inst, keys[1..])
  }

  predicate CommaFree(s: string)
  {
    ',' !in s
  }

  lemma ReadFieldCommaFree(a: Adapter, inst: string, f: string)
    requires CommaFree(inst) && PlainName(f)
    ensures CommaFree(ReadField(a, inst, f))
  {
  }

  lemma KeyPartsCommaFree(a: Adapter, inst: string, keys: seq<string>)
    requires CommaFree(inst)
    requires forall i :: 0 <= i < |keys| ==> PlainName(keys[i])
    ensures forall i :: 0 <= i < |keys| ==> CommaFree(KeyReads(a, inst, keys)[i])
    ensures forall i :: 0 <= i < |keys| ==> CommaFree(KeyEntries(a, inst, keys)[i])
  {
    forall i | 0 <= i < |keys|
      ensures CommaFree(KeyReads(a, inst, keys)[i]) && CommaFree(KeyEntries(a, inst, keys)[i])
    {
      ReadFieldCommaFree(a, inst, keys[i]);
    }
  }

  /**
   * montgomery `make_cache_key_expression`: a tuple of the quoted base name
   * and the key reads; an empty key list or instance name fails the
   * generator's assertions.
   */
  function MakeCacheKeyExpression(keys: seq<string>, base: string, a: Adapter, inst: string): (r: Result<string, PyError>)
    ensures r.Err? <==> keys == [] || inst == ""
    ensures r.Ok? ==> |r.value| >= 2 && r.value[0] == '(' && r.value[|r.value| - 1] == ')'
  {
    if keys == [] then Err(GenerationAssert("Wrong keys"))
    else if inst == "" then Err(GenerationAssert("instance name"))
    else Ok("(" + Join([Quote(base)] + KeyReads(a, inst, keys), ',') + ")")
  }

  /**
   * pyxfer `_make_cache_key_expression`: the quoted base name only when the
   * base name is not empty, then the key reads, with a trailing comma so that
   * the expression is a tuple even with a single component.
   */
  function MakeTaggedKeyExpression(keys: seq<string>, base: string, a: Adapter, inst: string): (r: Result<string, PyError>)
    ensures r.Err? <==> keys == [] || inst == ""
    ensures r.Ok? ==> |r.value| >= 3 && r.value[0] == '(' && r.value[|r.value| - 2..] == ",)"
  {
    if keys == [] then Err(GenerationAssert("Wrong keys"))
    else if inst == "" then Err(GenerationAssert("instance name"))
    else
      var tag := if base != "" then [Quote(base)] else [];
      Ok("(" + Join(tag + KeyReads(a, inst, keys), ',') + ",)")
  }

  /** `make_cache_value_expression` (montgomery) and `_make_cache_value_expression` (pyxfer, with leading parts). */
  function MakeCacheValueExpression(baseParts: seq<string>, keys: seq<string>, a: Adapter, inst: string): (r: string)
    ensures |r| >= 4 && r[..2] == "{ " && r[|r| - 2..] == " }"
  {
    "{ " + Join(baseParts + KeyEntries(a, inst, keys), ',') + " }"
  }

  /** The components of the emitted key tuple, read back by splitting at commas: the base name, then one read per key. */
  lemma CacheKeyComponents(keys: seq<string>, base: string, a: Adapter, inst: string)
    requires keys != [] && inst != ""
    requires CommaFree(base) && CommaFree(inst)
    requires forall i :: 0 <= i < |keys| ==> PlainName(keys[i])
    ensures var e := MakeCacheKeyExpression(keys, base, a, inst).value;
      Split(e[1..|e| - 1], ',') == [Quote(base)] + KeyReads(a, inst, keys)
  {
    var keyReads := KeyReads(a, inst, keys);
    var parts := [Quote(base)] + keyReads;
    KeyPartsCommaFree(a, inst, keys);
    assert forall i :: 0 <= i < |parts| ==> ',' !in parts[i] by {
      assert forall i :: 1 <= i < |parts| ==> parts[i] == keyReads[i - 1];
    }
    SplitJoin(parts, ',');
    var e := MakeCacheKeyExpression(keys, base, a, inst).value;
    assert e[1..|e| - 1] == Join(parts, ',');
  }

  lemma PartsCommaFree(tag: seq<string>, keyReads: seq<string>)
    requires forall i :: 0 <= i < |tag| ==> CommaFree(tag[i])
    requires forall i :: 0 <= i < |keyReads| ==> CommaFree(keyReads[i])
    ensures forall i :: 0 <= i < |tag + keyReads| ==> ',' !in (tag + keyReads)[i]
  {
  }

  /** A tuple display with a trailing comma, split back into its components. */
  lemma TupleDisplaySplit(parts: seq<string>)
    requires |parts| >= 1
    requires forall i :: 0 <= i < |parts| ==> ',' !in parts[i]
    ensures var e := "(" + Join(parts, ',') + ",)";
      Split(e[1..|e| - 1], ',') == parts + [""]
  {
    var j := Join(parts, ',');
    var e := "(" + j + ",)";
    assert e[1..|e| - 1] == j + [','];
    SplitJoinTrailing(parts, ',');
  }

  /**
   * The pyxfer key tuple: splitting at commas gives the optional tag, one
   * read per key, and the empty piece after the trailing comma.
   */
  lemma TaggedKeyComponents(keys: seq<string>, base: string, a: Adapter, inst: string)
    requires keys != [] && inst != ""
    requires CommaFree(base) && CommaFree(inst)
    requires forall i :: 0 <= i < |keys| ==> PlainName(keys[i])
    ensures var e := MakeTaggedKeyExpression(keys, base, a, inst).value;
      Split(e[1..|e| - 1], ',') == (if base != "" then [Quote(base)] else []) + KeyReads(a, inst, keys) + [""]
  {
    var tag := if base != "" then [Quote(base)] else [];
    var keyReads := KeyReads(a, inst, keys);
    KeyPartsCommaFree(a, inst, keys);
    PartsCommaFree(tag, keyReads);
    TupleDisplaySplit(tag + keyReads);
  }

  /** The emitted dict display has one entry per leading part and per key field, in order. */
  lemma CacheValueEntries(baseParts: seq<string>, keys: seq<string>, a: Adapter, inst: string)
    requires CommaFree(inst)
    requires forall i :: 0 <= i < |baseParts| ==> CommaFree(baseParts[i])
    requires forall i :: 0 <= i < |keys| ==> PlainName(keys[i])
    requires |baseParts| + |keys| >= 1
    ensures var e := MakeCacheValueExpression(baseParts, keys, a, inst);
      Split(e[2..|e| - 2], ',') == baseParts + KeyEntries(a, inst, keys)
  {
    var entries := KeyEntries(a, inst, keys);
    var parts := baseParts + entries;
    KeyPartsCommaFree(a, inst, keys);
    assert forall i :: 0 <= i < |parts| ==> ',' !in parts[i] by {
      assert forall i :: |baseParts| <= i < |parts| ==> parts[i] == entries[i - |baseParts|];
    }
    SplitJoin(parts, ',');
    var e := MakeCacheValueExpression(baseParts, keys, a, inst);
    assert e[2..|e| - 2] == Join(parts, ',');
  }
}
