/**
 * The Python values that the emitted serializer code computes with: key
 * parts, cache keys, short-form dicts. `Ref(n)` stands for the integer that
 * `id(x)` returns for an object `x`; it is never 0, so it is truthy.
 */
module PyValues {
  import opened Wrappers

  datatype Value =
    | PyNone
    | Bool(b: bool)
    | Int(i: int)
    | Str(s: string)
    | Tuple(elems: seq<Value>)
    | List(elems: seq<Value>)
    | Dict(entries: map<string, Value>)
    | Ref(id: nat)

  /** The exceptions the generators and the emitted code can raise. */
  datatype PyError =
    | GenerationAssert(what: string)   // an `assert` in a generator fails at generation time
    | MissingField(name: string)       // KeyError / AttributeError when reading a field
    | TypeError(what: string)
    | UnrecognizedCollection           // `raise Exception("Unrecognized collection type")`

  /** Python truthiness. */
  predicate Truthy(v: Value)
  {
    match v
    case PyNone => false
    case Bool(b) => b
    case Int(i) => i != 0
    case Str(s) => s != ""
    case Tuple(xs) => xs != []
    case List(xs) => xs != []
    case Dict(m) => m != map[]
    case Ref(_) => true
  }

  /** Whether Python can hash the value (use it as a dict key): lists and dicts cannot, nor tuples holding one. */
  predicate Hashable(v: Value)
  {
    match v
    case Tuple(xs) => forall i :: 0 <= i < |xs| ==> Hashable(xs[i])
    case List(_) => false
    case Dict(_) => false
    case _ => true
  }

  /** Python's builtin `any` over a tuple. */
  function Any(vs: seq<Value>): (r: bool)
    ensures r <==> exists i :: 0 <= i < |vs| && Truthy(vs[i])
  {
    if vs == [] then false
    else Truthy(vs[0]) || Any(vs[1..])
  }

  /**
   * Reads the named fields of an instance in order (`inst['k']` on a dict,
   * `inst.k` on an object); the first missing one raises.
   */
  function ReadFields(inst: map<string, Value>, names: seq<string>): (r: Result<seq<Value>, PyError>)
    ensures r.Ok? <==> forall i :: 0 <= i < |names| ==> names[i] in inst
    ensures r.Ok? ==> |r.value| == |names| && forall i :: 0 <= i < |names| ==> r.value[i] == inst[names[i]]
    ensures r.Err? ==> r.error.MissingField? && r.error.name !in inst && r.error.name in names
  {
    if names == [] then Ok([])
    else if names[0] !in inst then Err(MissingField(names[0]))
    else
      match ReadFields(inst, names[1..])
      case Ok(rest) => Ok([inst[names[0]]] + rest)
      case Err(e) => Err(e)
  }

  /**
   * The dict display `{ n0 : v0, n1 : v1, ... }`: a name given twice keeps
   * its last value.
   */
  function DictDisplay(names: seq<string>, vals: seq<Value>): (r: map<string, Value>)
    requires |names| == |vals|
    ensures r.Keys == set i | 0 <= i < |names| :: names[i]
    ensures forall i :: 0 <= i < |names| && (forall j :: i < j < |names| ==> names[j] != names[i]) ==> r[names[i]] == vals[i]
  {
    if names == [] then map[]
    else
      var n := |names| - 1;
      var r := DictDisplay(names[..n], vals[..n]);
      DisplayStep(names, vals, names[..n], vals[..n], r);
      r[names[n] := vals[n]]
  }

  /** One more entry at the end of a dict display. */
  lemma DisplayStep(names: seq<string>, vals: seq<Value>, pre: seq<string>, preVals: seq<Value>, r: map<string, Value>)
    requires |names| == |vals| >= 1
    requires pre == names[..|names| - 1] && preVals == vals[..|vals| - 1]
    requires r.Keys == set i | 0 <= i < |pre| :: pre[i]
    requires forall i :: 0 <= i < |pre| && (forall j :: i < j < |pre| ==> pre[j] != pre[i]) ==> r[pre[i]] == preVals[i]
    ensures var r' := r[names[|names| - 1] := vals[|names| - 1]];
      && r'.Keys == (set i | 0 <= i < |names| :: names[i])
      && forall i :: 0 <= i < |names| && (forall j :: i < j < |names| ==> names[j] != names[i]) ==> r'[names[i]] == vals[i]
  {
    var n := |names| - 1;
    var r' := r[names[n] := vals[n]];
    assert forall i :: 0 <= i < n ==> pre[i] == names[i];
    assert (set i | 0 <= i < |names| :: names[i]) == (set i | 0 <= i < n :: pre[i]) + {names[n]};
    forall i | 0 <= i < |names| && (forall j :: i < j < |names| ==> names[j] != names[i])
      ensures r'[names[i]] == vals[i]
    {
      if i < n {
        assert names[n] != names[i];
        assert r[pre[i]] == preVals[i];
      }
    }
  }

  /** Reading the displayed names back gives the displayed values. */
  lemma ReadDisplay(names: seq<string>, vals: seq<Value>)
    requires |names| == |vals|
    requires forall i, j :: 0 <= i < j < |names| ==> names[i] != names[j]
    ensures ReadFields(DictDisplay(names, vals), names) == Ok(vals)
  {
    var d := DictDisplay(names, vals);
    forall i | 0 <= i < |names| ensures names[i] in d && d[names[i]] == vals[i] {
      assert names[i] in d.Keys;
    }
    var r := ReadFields(d, names);
    assert r.Ok?;
    assert r.value == vals;
  }
}
