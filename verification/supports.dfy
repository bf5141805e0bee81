/**
 * The state the type supports keep between generator calls: the field
 * table a SQLAlchemy support builds from its mapped columns, and the
 * attributes an object support collects while serializers are generated,
 * from which it then emits the destination class.
 */
module Supports {
  import opened Wrappers
  import opened Sequences
  import opened PyValues
  import opened Builders

  // ---- SQLAlchemy support: the field table ----

  datatype ColumnKind = StringKind | IntegerKind | SmallIntegerKind | BigIntegerKind | OtherKind(name: string)

  /**
   * A mapped column's type as the attribute analysis reports it: the type
   * class itself (`String`) or an instance of it (`Integer()`).
   */
  datatype ColumnType = TypeClass(kind: ColumnKind) | TypeInstance(kind: ColumnKind)

  /** The Python type a field is given: `str` or `int`. */
  datatype FieldKind = StrField | IntField

  /** `Integer` and its subclasses. */
  predicate IntegerFamily(k: ColumnKind)
  {
    k == IntegerKind || k == SmallIntegerKind || k == BigIntegerKind
  }

  /**
   * `t == String` keeps the `String` class itself as a `str` field;
   * `isinstance(t, Integer)` keeps instances of the integer types as `int`
   * fields; every other column is not a field.
   */
  function FieldKindOf(t: ColumnType): (r: Option<FieldKind>)
    ensures r == Some(StrField) <==> t == TypeClass(StringKind)
    ensures r == Some(IntField) <==> t.TypeInstance? && IntegerFamily(t.kind)
  {
    if t == TypeClass(StringKind) then Some(StrField)
    else if t.TypeInstance? && IntegerFamily(t.kind) then Some(IntField)
    else None
  }

  /** The columns of a mapped class, each name once (they come from a dict). */
  predicate DistinctNames(cols: seq<(string, ColumnType)>)
  {
    forall i, j :: 0 <= i < j < |cols| ==> cols[i].0 != cols[j].0
  }

  /** The field table of a column list. */
  function FieldTable(cols: seq<(string, ColumnType)>): (r: map<string, FieldKind>)
    requires DistinctNames(cols)
    ensures forall i :: 0 <= i < |cols| ==> (cols[i].0 in r <==> FieldKindOf(cols[i].1).Some?)
    ensures forall i :: 0 <= i < |cols| && cols[i].0 in r ==> r[cols[i].0] == FieldKindOf(cols[i].1).value
    ensures forall f :: f in r ==> exists i :: 0 <= i < |cols| && cols[i].0 == f
  {
    if cols == [] then map[]
    else
      var n := |cols| - 1;
      var r := FieldTable(cols[..n]);
      assert forall i :: 0 <= i < n ==> cols[..n][i] == cols[i];
      match FieldKindOf(cols[n].1)
      case Some(k) => r[cols[n].0 := k]
      case None => r
  }

  class SqlaSupport {
    const model: string
    var fieldTypes: map<string, FieldKind>

    /** `SQLATypeSupport.__init__`: filters the mapped columns into the field table. */
    constructor (model: string, cols: seq<(string, ColumnType)>)
      requires DistinctNames(cols)
      ensures this.model == model && fieldTypes == FieldTable(cols)
    {
      this.model := model;
      var fields: map<string, FieldKind> := map[];
      var j := 0;
      while j < |cols|
        invariant 0 <= j <= |cols|
        invariant fields == FieldTable(cols[..j])
      {
        assert cols[..j + 1][..j] == cols[..j];
        var kind := FieldKindOf(cols[j].1);
        if kind.Some? {
          fields := fields[cols[j].0 := kind.value];
        }
        j := j + 1;
      }
      assert cols[..j] == cols;
      fieldTypes := fields;
    }

    /** `fields()`. */
    function Fields(): (r: set<string>)
      reads this
      ensures forall f :: f in r <==> f in fieldTypes
    {
      fieldTypes.Keys
    }

    /** `field_type`: a column that is not a field raises KeyError. */
    function FieldType(f: string): (r: Result<FieldKind, PyError>)
      reads this
      ensures r.Ok? <==> f in Fields()
      ensures r.Ok? ==> r.value == fieldTypes[f]
      ensures r.Err? ==> r.error == MissingField(f)
    {
      if f in fieldTypes then Ok(fieldTypes[f]) else Err(MissingField(f))
    }
  }

  /**
   * Which columns the SQLAlchemy support treats as fields: a string column
   * only when reported as the class, an integer column only when reported as
   * an instance.
   */
  lemma FieldFilterCases(name: string)
    ensures FieldTable([(name, TypeClass(StringKind))]) == map[name := StrField]
    ensures FieldTable([(name, TypeInstance(StringKind))]) == map[]
    ensures FieldTable([(name, TypeInstance(IntegerKind))]) == map[name := IntField]
    ensures FieldTable([(name, TypeClass(IntegerKind))]) == map[]
  {
    assert [(name, TypeClass(StringKind))][..0] == [];
    assert [(name, TypeInstance(StringKind))][..0] == [];
    assert [(name, TypeInstance(IntegerKind))][..0] == [];
    assert [(name, TypeClass(IntegerKind))][..0] == [];
  }

  // ---- Object support: collected attributes and the emitted class ----

  /** `self.f = None` for a field, `self.r = []` for a relation, inside `__init__`. */
  function InitLine(attr: string, initial: string): string
  {
    "        " + WriteField(Object(""), "self", attr, initial)
  }

  function InitLines(attrs: seq<string>, initial: string): (r: seq<string>)
    ensures |r| == |attrs|
    ensures forall i :: 0 <= i < |attrs| ==> r[i] == InitLine(attrs[i], initial)
  {
    if attrs == [] then [] else [InitLine(attrs[0], initial)] + InitLines(attrs[1..], initial)
  }

  /** The class the object support emits, with its fields in the order given. */
  function ClassLines(name: string, fieldOrder: seq<string>, relations: seq<string>): seq<string>
  {
    ["class " + name + ":", "    def __init__(self):"]
    + InitLines(fieldOrder, "None")
    + (if relations != [] then InitLines(relations, "[]") else ["        # no relations"])
  }

  /**
   * Every collected field is initialised to None and every collected
   * relation to an empty list, each by one line, after the class header.
   */
  lemma ClassLinesDeclareAll(name: string, fieldOrder: seq<string>, relations: seq<string>)
    ensures var lines := ClassLines(name, fieldOrder, relations);
      && |lines| == 2 + |fieldOrder| + (if relations == [] then 1 else |relations|)
      && lines[0] == "class " + name + ":"
      && (forall f :: f in fieldOrder ==> InitLine(f, "None") in lines)
      && (forall r :: r in relations ==> InitLine(r, "[]") in lines)
  {
    var lines := ClassLines(name, fieldOrder, relations);
    var head := ["class " + name + ":", "    def __init__(self):"];
    forall f | f in fieldOrder ensures InitLine(f, "None") in lines {
      var i :| 0 <= i < |fieldOrder| && fieldOrder[i] == f;
      assert lines[2 + i] == InitLines(fieldOrder, "None")[i];
    }
    forall r | r in relations ensures InitLine(r, "[]") in lines {
      var i :| 0 <= i < |relations| && relations[i] == r;
      assert lines[2 + |fieldOrder| + i] == InitLines(relations, "[]")[i];
    }
  }

  /** The line that initialises an attribute assigns the location the serializers read. */
  lemma InitLineAssignsRead(attr: string, initial: string)
    requires PlainName(attr)
    ensures var lhs := ReadField(Object(""), "self", attr);
      && InitLine(attr, initial) == "        " + lhs + " = " + initial
      && ParseAccess(lhs) == Some(Attr("self", attr))
  {
    ReadFieldRoundTrip(Object(""), "self", attr);
  }

  class ObjectSupport {
    const typeName: string
    var fields: set<string>
    var relations: seq<string>   // the keys of `_relations`, in insertion order

    /** `ObjectTypeSupport(name)` with a name. */
    constructor FromName(name: string)
      ensures typeName == name && fields == {} && relations == []
    {
      typeName := name;
      fields := {};
      relations := [];
    }

    /**
     * `ObjectTypeSupport(cls)` with a class: pyxfer names the copy
     * "Copy" + the class name (prefix "Copy"), montgomery keeps the class
     * name (empty prefix).
     */
    constructor FromClass(className: string, prefix: string)
      ensures typeName == prefix + className && fields == {} && relations == []
    {
      typeName := prefix + className;
      fields := {};
      relations := [];
    }

    ghost predicate Valid()
      reads this
    {
      NoDup(relations)
    }

    /** `gen_read_field`: records the field. */
    method GenReadField(inst: string, f: string) returns (code: string)
      modifies this
      ensures code == ReadField(Object(typeName), inst, f)
      ensures fields == old(fields) + {f} && relations == old(relations)
    {
      fields := fields + {f};
      code := ReadField(Object(typeName), inst, f);
    }

    /** `gen_write_field`: records the field. */
    method GenWriteField(inst: string, f: string, v: string) returns (code: string)
      modifies this
      ensures code == WriteField(Object(typeName), inst, f, v)
      ensures fields == old(fields) + {f} && relations == old(relations)
    {
      fields := fields + {f};
      code := WriteField(Object(typeName), inst, f, v);
    }

    /** `gen_read_relation`: records the relation, once, at its first use. */
    method GenReadRelation(inst: string, r: string) returns (code: string)
      requires Valid()
      modifies this
      ensures Valid()
      ensures code == ReadRelation(Object(typeName), inst, r)
      ensures Elems(relations) == Elems(old(relations)) + {r}
      ensures r in old(relations) ==> relations == old(relations)
      ensures fields == old(fields)
    {
      if r !in relations {
        relations := relations + [r];
      }
      code := ReadRelation(Object(typeName), inst, r);
    }

    /** `gen_global_code`: the class with one attribute per recorded field and relation. */
    method GenGlobalCode() returns (lines: seq<string>, ghost fieldOrder: seq<string>)
      requires Valid()
      ensures NoDup(fieldOrder) && Elems(fieldOrder) == fields
      ensures lines == ClassLines(typeName, fieldOrder, relations)
      ensures lines[0] == "class " + typeName + ":"
      ensures forall f :: f in fields ==> InitLine(f, "None") in lines
      ensures |lines| == 2 + |fields| + (if relations == [] then 1 else |Elems(relations)|)
    {
      lines := ["class " + typeName + ":", "    def __init__(self):"];
      fieldOrder := [];
      var rest := fields;
      while rest != {}
        invariant rest <= fields
        invariant NoDup(fieldOrder) && Elems(fieldOrder) == fields - rest
        invariant lines == ["class " + typeName + ":", "    def __init__(self):"] + InitLines(fieldOrder, "None")
        decreases rest
      {
        var f :| f in rest;
        RecordFieldStep(fieldOrder, f, rest, fields);
        lines := lines + [InitLine(f, "None")];
        InitLinesSnoc(fieldOrder, f, "None");
        fieldOrder := fieldOrder + [f];
        rest := rest - {f};
      }
      if relations != [] {
        lines := lines + InitLines(relations, "[]");
      } else {
        lines := lines + ["        # no relations"];
      }
      ClassLinesDeclareAll(typeName, fieldOrder, relations);
      NoDupElemsCount(fieldOrder);
      NoDupElemsCount(relations);
    }
  }

  /** One more field taken from the set not yet emitted. */
  lemma RecordFieldStep(fieldOrder: seq<string>, f: string, rest: set<string>, fields: set<string>)
    requires NoDup(fieldOrder) && Elems(fieldOrder) == fields - rest && f in rest && rest <= fields
    ensures NoDup(fieldOrder + [f]) && Elems(fieldOrder + [f]) == fields - (rest - {f})
  {
    assert Elems(fieldOrder + [f]) == Elems(fieldOrder) + {f};
    assert f !in fieldOrder;
  }

  lemma InitLinesSnoc(attrs: seq<string>, a: string, initial: string)
    ensures InitLines(attrs + [a], initial) == InitLines(attrs, initial) + [InitLine(a, initial)]
  {
  }
}
