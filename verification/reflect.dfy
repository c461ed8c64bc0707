/** The part of Go's `reflect` package the updaters use: the value passed as
    `interface{}`, the check that it is a pointer to a struct, and
    `Value.FieldByName`, which also finds fields promoted from embedded
    structs.

    A struct field is reached by a path of field indices; every step but the
    last goes into an embedded struct.  `FieldByName` follows Go's rule for
    promoted fields: a direct field wins; otherwise the embedded structs are
    searched breadth first, and the name resolves only when exactly one field
    carries it at the shallowest depth where it occurs.
 */
module Reflect {
  import opened Base
  import opened Widgets

  /** A Go value as the updaters see it.  `key.Binding` and `lipgloss.Style`
      are leaves; `OtherVal` is any value of another type. */
  datatype Value =
    | BindingVal(binding: Binding)
    | StyleVal(style: Style)
    | StructVal(typeName: string, fields: seq<Field>)
    | OtherVal(typeName: string)

  /** A struct field; an embedded field is named after its type. */
  datatype Field = Field(name: string, embedded: bool, val: Value)

  /** What an applier hands to the change callback as `interface{}`. */
  datatype Target = NonPointer(typeName: string) | PointerTo(pointee: Value)

  type Path = seq<nat>

  /** What `%T` prints for a value. */
  function TypeName(v: Value): string {
    match v
    case BindingVal(_) => "key.Binding"
    case StyleVal(_) => "lipgloss.Style"
    case StructVal(t, _) => t
    case OtherVal(t) => t
  }

  /** What `%T` prints for the value handed to a change callback. */
  function TargetTypeName(t: Target): string {
    match t
    case NonPointer(tn) => tn
    case PointerTo(v) => "*" + TypeName(v)
  }

  /** `p` leads through embedded structs of `v` to a field named `name`. */
  predicate IsFieldPath(v: Value, p: Path, name: string)
    decreases |p|
  {
    && v.StructVal? && |p| >= 1 && p[0] < |v.fields|
    && if |p| == 1 then v.fields[p[0]].name == name
       else v.fields[p[0]].embedded && IsFieldPath(v.fields[p[0]].val, p[1..], name)
  }

  /** The field at the end of a path, if the path leads to one. */
  function GetAt(v: Value, p: Path): Option<Field>
    decreases |p|
  {
    if !v.StructVal? || |p| == 0 || p[0] >= |v.fields| then None
    else if |p| == 1 then Some(v.fields[p[0]])
    else GetAt(v.fields[p[0]].val, p[1..])
  }

  /** `v` with the value of the field at `p` replaced by `x` (an assignment
      through the field's address). */
  function SetAt(v: Value, p: Path, x: Value): Value
    decreases |p|
  {
    if !v.StructVal? || |p| == 0 || p[0] >= |v.fields| then v
    else
      var f := v.fields[p[0]];
      var g := if |p| == 1 then f.(val := x) else f.(val := SetAt(f.val, p[1..], x));
      v.(fields := v.fields[p[0] := g])
  }

  /** A path to a named field leads to a field of that name. */
  lemma {:induction false} FieldPathGet(v: Value, p: Path, name: string)
    requires IsFieldPath(v, p, name)
    ensures GetAt(v, p).Some? && GetAt(v, p).value.name == name
    decreases |p|
  {
    if |p| > 1 {
      FieldPathGet(v.fields[p[0]].val, p[1..], name);
    }
  }

  /** Reading a field just written gives the written value. */
  lemma {:induction false} GetSetSame(v: Value, p: Path, x: Value)
    requires GetAt(v, p).Some?
    ensures GetAt(SetAt(v, p, x), p) == Some(GetAt(v, p).value.(val := x))
    decreases |p|
  {
    if |p| > 1 {
      GetSetSame(v.fields[p[0]].val, p[1..], x);
    }
  }

  /** Two paths that differ at some position they both have. */
  predicate Diverge(p: Path, q: Path) {
    exists k :: 0 <= k < |p| && k < |q| && p[k] != q[k]
  }

  /** Writing one field leaves every field on a diverging path untouched. */
  lemma {:induction false} GetSetOther(v: Value, p: Path, x: Value, q: Path)
    requires Diverge(p, q)
    ensures GetAt(SetAt(v, p, x), q) == GetAt(v, q)
    decreases |p|
  {
    if v.StructVal? && p[0] < |v.fields| && q[0] == p[0] {
      var k :| 0 <= k < |p| && k < |q| && p[k] != q[k];
      assert p[1..][k - 1] != q[1..][k - 1];
      GetSetOther(v.fields[p[0]].val, p[1..], x, q[1..]);
    }
  }

  /** Every path of `ps`, with `i` in front. */
  function Prefixed(i: nat, ps: seq<Path>): (r: seq<Path>)
    ensures |r| == |ps|
  {
    seq(|ps|, j requires 0 <= j < |ps| => [i] + ps[j])
  }

  lemma InPrefixed(i: nat, ps: seq<Path>, p: Path)
    ensures p in Prefixed(i, ps) <==> |p| >= 1 && p[0] == i && p[1..] in ps
  {
    if p in Prefixed(i, ps) {
      var j :| 0 <= j < |ps| && Prefixed(i, ps)[j] == p;
      assert p[1..] == ps[j];
    }
    if |p| >= 1 && p[0] == i && p[1..] in ps {
      var j :| 0 <= j < |ps| && ps[j] == p[1..];
      assert Prefixed(i, ps)[j] == p;
    }
  }

  /** The paths, in field order from field `i` on, of the fields named `name`
      that lie `depth` embedded structs below `v`. */
  function PathsFrom(v: Value, name: string, depth: nat, i: nat): seq<Path>
    decreases v, if v.StructVal? && i < |v.fields| then |v.fields| - i else 0
  {
    if !v.StructVal? || i >= |v.fields| then []
    else
      var f := v.fields[i];
      var here :=
        if depth == 0 then (if f.name == name then [[i]] else [])
        else if f.embedded then Prefixed(i, PathsFrom(f.val, name, depth - 1, 0))
        else [];
      here + PathsFrom(v, name, depth, i + 1)
  }

  /** The paths of the fields named `name` at a given depth, in field order. */
  function PathsAt(v: Value, name: string, depth: nat): seq<Path> {
    PathsFrom(v, name, depth, 0)
  }

  /** `PathsFrom` lists exactly the field paths of length `depth + 1` that
      start at field `i` or later. */
  lemma {:induction false} PathsFromExact(v: Value, name: string, depth: nat, i: nat, p: Path)
    ensures p in PathsFrom(v, name, depth, i) <==>
      |p| == depth + 1 && IsFieldPath(v, p, name) && p[0] >= i
    decreases v, if v.StructVal? && i < |v.fields| then |v.fields| - i else 0
  {
    if v.StructVal? && i < |v.fields| {
      var f := v.fields[i];
      PathsFromExact(v, name, depth, i + 1, p);
      if depth > 0 && f.embedded {
        var below := PathsFrom(f.val, name, depth - 1, 0);
        InPrefixed(i, below, p);
        if |p| >= 1 {
          PathsFromExact(f.val, name, depth - 1, 0, p[1..]);
        }
      }
      if |p| == depth + 1 && IsFieldPath(v, p, name) && p[0] == i && depth == 0 {
        assert p == [i];
      }
    }
  }

  /** `PathsAt` lists exactly the field paths of length `depth + 1`. */
  lemma PathsAtExact(v: Value, name: string, depth: nat, p: Path)
    ensures p in PathsAt(v, name, depth) <==> |p| == depth + 1 && IsFieldPath(v, p, name)
  {
    PathsFromExact(v, name, depth, 0, p);
  }

  /** The largest element of a sequence of naturals, 0 when empty. */
  function Max(s: seq<nat>): (m: nat)
    ensures forall i :: 0 <= i < |s| ==> s[i] <= m
  {
    if |s| == 0 then 0
    else
      var rest := Max(s[1..]);
      assert forall i :: 1 <= i < |s| ==> s[i] == s[1..][i - 1];
      if s[0] > rest then s[0] else rest
  }

  /** Number of levels of struct nesting through embedded fields, counting
      `v` itself when it is a struct. */
  function Height(v: Value): nat
    decreases v
  {
    match v
    case StructVal(_, fs) =>
      1 + Max(seq(|fs|, i requires 0 <= i < |fs| => if fs[i].embedded then Height(fs[i].val) else 0))
    case _ => 0
  }

  /** No field path is longer than the embedding is deep. */
  lemma {:induction false} FieldPathHeight(v: Value, p: Path, name: string)
    requires IsFieldPath(v, p, name)
    ensures |p| <= Height(v)
    decreases |p|
  {
    var fs := v.fields;
    var hs := seq(|fs|, i requires 0 <= i < |fs| => if fs[i].embedded then Height(fs[i].val) else 0);
    assert Height(v) == 1 + Max(hs);
    if |p| > 1 {
      FieldPathHeight(fs[p[0]].val, p[1..], name);
      assert hs[p[0]] == Height(fs[p[0]].val);
    }
  }

  /** The first direct field of that name, the one Go's fast path finds. */
  function DirectField(fs: seq<Field>, name: string, from: nat): (r: Option<nat>)
    requires from <= |fs|
    ensures r.Some? ==> from <= r.value < |fs| && fs[r.value].name == name
    ensures r.Some? ==> forall j :: from <= j < r.value ==> fs[j].name != name
    ensures r.None? ==> forall j :: from <= j < |fs| ==> fs[j].name != name
    decreases |fs| - from
  {
    if from == |fs| then None
    else if fs[from].name == name then Some(from)
    else DirectField(fs, name, from + 1)
  }

  /** Breadth-first search of the embedded structs, from `depth` down: the
      first depth holding a field of that name decides; more than one such
      field there makes the name ambiguous. */
  function SearchFrom(v: Value, name: string, depth: nat): (r: Option<Path>)
    ensures r.Some? ==> IsFieldPath(v, r.value, name)
    decreases Height(v) - depth
  {
    if depth >= Height(v) then None
    else
      var ps := PathsAt(v, name, depth);
      if |ps| == 0 then SearchFrom(v, name, depth + 1)
      else if forall j :: 0 <= j < |ps| ==> ps[j] == ps[0] then
        PathsAtExact(v, name, depth, ps[0]);
        Some(ps[0])
      else None
  }

  /** `reflect.Value.FieldByName` on a struct value. */
  function FieldByName(v: Value, name: string): (r: Option<Path>)
    requires v.StructVal?
    ensures r.Some? ==> IsFieldPath(v, r.value, name)
  {
    match DirectField(v.fields, name, 0)
    case Some(i) => Some([i])
    case None => SearchFrom(v, name, 1)
  }

  /** The field Go resolves a name to: a field path to a field of that name
      such that every other path to such a field is strictly deeper. */
  ghost predicate Resolves(v: Value, name: string, p: Path) {
    && IsFieldPath(v, p, name)
    && forall q :: IsFieldPath(v, q, name) && |q| <= |p| ==> q == p
  }

  /** Go struct types have distinct direct field names. */
  ghost predicate DistinctNames(v: Value) {
    v.StructVal? ==>
      forall i, j :: 0 <= i < j < |v.fields| ==> v.fields[i].name != v.fields[j].name
  }

  /** `SearchFrom` finds a path exactly when it resolves the name, given that
      no shallower depth holds one. */
  lemma {:induction false} SearchFromResolves(v: Value, name: string, depth: nat, p: Path)
    requires forall q :: IsFieldPath(v, q, name) ==> |q| > depth
    ensures SearchFrom(v, name, depth) == Some(p) <==> Resolves(v, name, p)
    decreases Height(v) - depth
  {
    if depth >= Height(v) {
      if Resolves(v, name, p) {
        FieldPathHeight(v, p, name);
      }
    } else {
      var ps := PathsAt(v, name, depth);
      if |ps| == 0 {
        forall q | IsFieldPath(v, q, name)
          ensures |q| > depth + 1
        {
          PathsAtExact(v, name, depth, q);
        }
        SearchFromResolves(v, name, depth + 1, p);
      } else {
        PathsAtExact(v, name, depth, ps[0]);
        if forall j :: 0 <= j < |ps| ==> ps[j] == ps[0] {
          // The only field at this depth is the resolved one.
          forall q | IsFieldPath(v, q, name) && |q| <= |ps[0]|
            ensures q == ps[0]
          {
            PathsAtExact(v, name, depth, q);
          }
          if Resolves(v, name, p) {
            assert p == ps[0];
          }
        } else {
          var j :| 0 <= j < |ps| && ps[j] != ps[0];
          PathsAtExact(v, name, depth, ps[j]);
        }
      }
    }
  }

  /** `FieldByName` finds exactly the field the name resolves to. */
  lemma FieldByNameResolves(v: Value, name: string, p: Path)
    requires v.StructVal? && DistinctNames(v)
    ensures FieldByName(v, name) == Some(p) <==> Resolves(v, name, p)
  {
    match DirectField(v.fields, name, 0)
    case Some(i) =>
      assert IsFieldPath(v, [i], name);
      if Resolves(v, name, p) {
        assert p == [i];
      }
    case None =>
      forall q | IsFieldPath(v, q, name)
        ensures |q| > 1
      {
      }
      SearchFromResolves(v, name, 1, p);
  }

  /** Replacing a leaf field by a leaf moves no field: the same names sit at
      the same paths. */
  lemma {:induction false} SetLeafKeepsPaths(v: Value, p: Path, x: Value, name: string, depth: nat, i: nat)
    requires GetAt(v, p).Some? && !GetAt(v, p).value.val.StructVal? && !x.StructVal?
    ensures PathsFrom(SetAt(v, p, x), name, depth, i) == PathsFrom(v, name, depth, i)
    decreases v, if v.StructVal? && i < |v.fields| then |v.fields| - i else 0
  {
    if i < |v.fields| {
      SetLeafKeepsBelow(v, p, x, name, depth, i);
      SetLeafKeepsPaths(v, p, x, name, depth, i + 1);
    }
  }

  /** Field `i` keeps its name, its embedding and, below it, its paths when
      the leaf is replaced. */
  lemma {:induction false} SetLeafKeepsBelow(v: Value, p: Path, x: Value, name: string, depth: nat, i: nat)
    requires GetAt(v, p).Some? && !GetAt(v, p).value.val.StructVal? && !x.StructVal?
    requires i < |v.fields|
    ensures var w := SetAt(v, p, x);
      && w.StructVal? && |w.fields| == |v.fields|
      && w.fields[i].name == v.fields[i].name && w.fields[i].embedded == v.fields[i].embedded
      && (depth > 0 ==> PathsFrom(w.fields[i].val, name, depth - 1, 0) == PathsFrom(v.fields[i].val, name, depth - 1, 0))
    decreases v, 0
  {
    var w := SetAt(v, p, x);
    var f, g := v.fields[i], w.fields[i];
    if depth > 0 && i == p[0] {
      if |p| == 1 {
        assert g.val == x;
      } else {
        assert g.val == SetAt(f.val, p[1..], x);
        SetLeafKeepsPaths(f.val, p[1..], x, name, depth - 1, 0);
      }
    }
  }

  /** Replacing a leaf field by a leaf keeps the embedding depth. */
  lemma {:induction false} SetLeafKeepsHeight(v: Value, p: Path, x: Value)
    requires GetAt(v, p).Some? && !GetAt(v, p).value.val.StructVal? && !x.StructVal?
    ensures Height(SetAt(v, p, x)) == Height(v)
    decreases |p|
  {
    var w := SetAt(v, p, x);
    var fs, gs := v.fields, w.fields;
    if |p| > 1 {
      SetLeafKeepsHeight(fs[p[0]].val, p[1..], x);
    }
    var hs := seq(|fs|, i requires 0 <= i < |fs| => if fs[i].embedded then Height(fs[i].val) else 0);
    var ks := seq(|gs|, i requires 0 <= i < |gs| => if gs[i].embedded then Height(gs[i].val) else 0);
    assert hs == ks;
  }

  /** Replacing a leaf field by a leaf does not change what any name
      resolves to. */
  lemma SetLeafKeepsLookup(v: Value, p: Path, x: Value, name: string)
    requires v.StructVal?
    requires GetAt(v, p).Some? && !GetAt(v, p).value.val.StructVal? && !x.StructVal?
    ensures SetAt(v, p, x).StructVal?
    ensures FieldByName(SetAt(v, p, x), name) == FieldByName(v, name)
  {
    var w := SetAt(v, p, x);
    assert forall j :: 0 <= j < |v.fields| ==> w.fields[j].name == v.fields[j].name;
    DirectFieldSameNames(w.fields, v.fields, name, 0);
    SetLeafKeepsHeight(v, p, x);
    SetLeafKeepsSearch(v, p, x, name, 1);
  }

  lemma {:induction false} DirectFieldSameNames(fs: seq<Field>, gs: seq<Field>, name: string, from: nat)
    requires |fs| == |gs| && from <= |fs|
    requires forall j :: 0 <= j < |fs| ==> fs[j].name == gs[j].name
    ensures DirectField(fs, name, from) == DirectField(gs, name, from)
    decreases |fs| - from
  {
    if from < |fs| {
      DirectFieldSameNames(fs, gs, name, from + 1);
    }
  }

  lemma {:induction false} SetLeafKeepsSearch(v: Value, p: Path, x: Value, name: string, depth: nat)
    requires GetAt(v, p).Some? && !GetAt(v, p).value.val.StructVal? && !x.StructVal?
    requires Height(SetAt(v, p, x)) == Height(v)
    ensures SearchFrom(SetAt(v, p, x), name, depth) == SearchFrom(v, name, depth)
    decreases Height(v) - depth
  {
    if depth < Height(v) {
      SetLeafKeepsPaths(v, p, x, name, depth, 0);
      SetLeafKeepsSearch(v, p, x, name, depth + 1);
    }
  }
}
