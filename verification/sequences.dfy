/**
 * Sequence facts behind Python's `list.remove` (first occurrence) and
 * behind `",".join(...)` in the generated expressions.
 */
module Sequences {

  predicate NoDup<T(==)>(s: seq<T>)
  {
    forall i, j :: 0 <= i < j < |s| ==> s[i] != s[j]
  }

  /** `set(s)` */
  function Elems<T(==)>(s: seq<T>): set<T>
  {
    set x | x in s
  }

  /** A list without duplicates has as many distinct elements as entries. */
  lemma {:induction false} NoDupElemsCount<T>(s: seq<T>)
    requires NoDup(s)
    ensures |Elems(s)| == |s|
  {
    if s != [] {
      assert Elems(s) == {s[0]} + Elems(s[1..]);
      assert s[0] !in Elems(s[1..]);
      assert NoDup(s[1..]);
      NoDupElemsCount(s[1..]);
    }
  }

  /** `list.remove(x)` on a list holding `x`; the list unchanged otherwise. */
  function RemoveFirst<T(==)>(s: seq<T>, x: T): (r: seq<T>)
    ensures x in s ==> multiset(r) == multiset(s) - multiset{x}
    ensures x !in s ==> r == s
  {
    if s == [] then []
    else if s[0] == x then
      assert s == [s[0]] + s[1..];
      s[1..]
    else
      assert s == [s[0]] + s[1..];
      [s[0]] + RemoveFirst(s[1..], x)
  }

  /** The list left after `remove(x)` for each `x` of `R`, in any order. */
  function DropFirstOf<T(==)>(s: seq<T>, R: set<T>): seq<T>
  {
    if s == [] then []
    else if s[0] in R then DropFirstOf(s[1..], R - {s[0]})
    else [s[0]] + DropFirstOf(s[1..], R)
  }

  /** The elements of `s` that are not in `R`, in order. */
  function Without<T(==)>(s: seq<T>, R: set<T>): (r: seq<T>)
    ensures forall x :: x in r ==> x in s && x !in R
    ensures forall x :: x in s && x !in R ==> x in r
  {
    if s == [] then []
    else if s[0] in R then Without(s[1..], R)
    else [s[0]] + Without(s[1..], R)
  }

  lemma {:induction false} DropFirstOfNothing<T>(s: seq<T>)
    ensures DropFirstOf(s, {}) == s
  {
    if s != [] {
      DropFirstOfNothing(s[1..]);
    }
  }

  /**
   * Removing one more element `x` that is still present: the order in which
   * the elements of a set are removed does not change the result.
   */
  lemma {:induction false} DropFirstOfStep<T>(s: seq<T>, R: set<T>, x: T)
    requires x in s && x !in R
    ensures x in DropFirstOf(s, R)
    ensures RemoveFirst(DropFirstOf(s, R), x) == DropFirstOf(s, R + {x})
  {
    if s[0] in R {
      assert s[0] != x;
      assert R + {x} - {s[0]} == (R - {s[0]}) + {x};
      DropFirstOfStep(s[1..], R - {s[0]}, x);
    } else if s[0] == x {
      assert R + {x} - {x} == R;
    } else {
      DropFirstOfStep(s[1..], R, x);
    }
  }

  /** An element that is not to be removed survives. */
  lemma {:induction false} DropFirstOfKeeps<T>(s: seq<T>, R: set<T>, x: T)
    requires x in s && x !in R
    ensures x in DropFirstOf(s, R)
  {
    if s[0] != x {
      DropFirstOfKeeps(s[1..], if s[0] in R then R - {s[0]} else R, x);
    }
  }

  /** On a duplicate-free list, removing first occurrences removes every occurrence. */
  lemma {:induction false} DropFirstOfNoDup<T>(s: seq<T>, R: set<T>)
    requires NoDup(s)
    ensures DropFirstOf(s, R) == Without(s, R)
  {
    if s != [] {
      assert NoDup(s[1..]);
      if s[0] in R {
        assert s[0] !in s[1..];
        DropFirstOfNoDup(s[1..], R - {s[0]});
        WithoutIgnoresAbsent(s[1..], R, s[0]);
      } else {
        DropFirstOfNoDup(s[1..], R);
      }
    }
  }

  lemma {:induction false} WithoutIgnoresAbsent<T>(s: seq<T>, R: set<T>, x: T)
    requires x !in s
    ensures Without(s, R - {x}) == Without(s, R)
  {
    if s != [] {
      WithoutIgnoresAbsent(s[1..], R, x);
    }
  }

  /** When every element to remove already occurs in `s`, what follows `s` is untouched. */
  lemma {:induction false} DropFirstOfAppend<T>(s: seq<T>, t: seq<T>, R: set<T>)
    requires forall x :: x in R ==> x in s
    ensures DropFirstOf(s + t, R) == DropFirstOf(s, R) + t
  {
    if s == [] {
      assert R == {} && s + t == t;
      DropFirstOfNothing(t);
    } else {
      assert (s + t)[0] == s[0] && (s + t)[1..] == s[1..] + t;
      if s[0] in R {
        DropFirstOfAppend(s[1..], t, R - {s[0]});
      } else {
        DropFirstOfAppend(s[1..], t, R);
      }
    }
  }

  // ---- Splitting and joining on a separator character ----

  /** `sep.join(parts)` */
  function Join(parts: seq<string>, sep: char): string
  {
    if parts == [] then ""
    else if |parts| == 1 then parts[0]
    else parts[0] + [sep] + Join(parts[1..], sep)
  }

  /** `s.split(sep)`: always at least one piece. */
  function Split(s: string, sep: char): (r: seq<string>)
    ensures |r| >= 1
  {
    if s == [] then [""]
    else if s[0] == sep then [""] + Split(s[1..], sep)
    else
      var rest := Split(s[1..], sep);
      [[s[0]] + rest[0]] + rest[1..]
  }

  lemma {:induction false} SplitPlain(a: string, sep: char)
    requires sep !in a
    ensures Split(a, sep) == [a]
  {
    if a != [] {
      SplitPlain(a[1..], sep);
      assert [a[0]] + a[1..] == a;
    }
  }

  lemma {:induction false} SplitPrefix(a: string, rest: string, sep: char)
    requires sep !in a
    ensures Split(a + [sep] + rest, sep) == [a] + Split(rest, sep)
  {
    if a == [] {
      assert a + [sep] + rest == [sep] + rest;
    } else {
      var s := a + [sep] + rest;
      assert s[0] == a[0] && s[1..] == a[1..] + [sep] + rest;
      SplitPrefix(a[1..], rest, sep);
      assert [a[0]] + a[1..] == a;
    }
  }

  /** Splitting undoes joining when no piece holds the separator. */
  lemma {:induction false} SplitJoin(parts: seq<string>, sep: char)
    requires |parts| >= 1
    requires forall i :: 0 <= i < |parts| ==> sep !in parts[i]
    ensures Split(Join(parts, sep), sep) == parts
  {
    if |parts| == 1 {
      SplitPlain(parts[0], sep);
    } else {
      SplitJoin(parts[1..], sep);
      SplitPrefix(parts[0], Join(parts[1..], sep), sep);
    }
  }

  lemma {:induction false} JoinSnoc(parts: seq<string>, x: string, sep: char)
    requires |parts| >= 1
    ensures Join(parts + [x], sep) == Join(parts, sep) + [sep] + x
  {
    if |parts| > 1 {
      JoinSnoc(parts[1..], x, sep);
      assert (parts + [x])[1..] == parts[1..] + [x];
    }
  }

  /** A trailing separator adds one empty piece. */
  lemma SplitJoinTrailing(parts: seq<string>, sep: char)
    requires |parts| >= 1
    requires forall i :: 0 <= i < |parts| ==> sep !in parts[i]
    ensures Split(Join(parts, sep) + [sep], sep) == parts + [""]
  {
    JoinSnoc(parts, "", sep);
    assert Join(parts, sep) + [sep] + "" == Join(parts, sep) + [sep];
    SplitJoin(parts + [""], sep);
  }

  lemma {:induction false} WithoutNoDup<T>(s: seq<T>, R: set<T>)
    requires NoDup(s)
    ensures NoDup(Without(s, R))
  {
    if s != [] {
      assert NoDup(s[1..]);
      WithoutNoDup(s[1..], R);
      assert s[0] !in s[1..];
    }
  }

  lemma {:induction false} WithoutEverything<T>(s: seq<T>, R: set<T>)
    requires forall i :: 0 <= i < |s| ==> s[i] in R
    ensures Without(s, R) == []
  {
    if s != [] {
      WithoutEverything(s[1..], R);
    }
  }
}
