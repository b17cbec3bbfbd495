/** JSON and YAML document trees, with Python's truthiness and equality on them. */
module JsonTree {
  import opened Common

  datatype Json =
    | Null
    | Bool(b: bool)
    | Num(n: real)
    | Str(s: string)
    | Arr(items: seq<Json>)
    | Obj(fields: map<string, Json>)

  predicate Container(j: Json) {
    j.Arr? || j.Obj?
  }

  predicate Truthy(j: Json) {
    match j
    case Null => false
    case Bool(b) => b
    case Num(n) => n != 0.0
    case Str(s) => s != ""
    case Arr(items) => items != []
    case Obj(fields) => fields != map[]
  }

  /** `d.get(k)` on a mapping. */
  function Get(j: Json, k: string): (v: Json)
    requires j.Obj?
  {
    if k in j.fields then j.fields[k] else Null
  }

  function Numeric(j: Json): (v: Option<real>) {
    match j
    case Bool(b) => Some(if b then 1.0 else 0.0)
    case Num(n) => Some(n)
    case _ => None
  }

  /** Python equality when one side is a scalar: booleans compare as numbers. */
  predicate ScalarEq(a: Json, b: Json) {
    && !Container(a) && !Container(b)
    && (if Numeric(a).Some? && Numeric(b).Some? then Numeric(a) == Numeric(b) else a == b)
  }

  /** What that means, kind by kind: texts and nulls equal themselves alone, and true and false are one and zero. */
  lemma {:induction false} ScalarEqMeans(a: Json, b: Json)
    ensures ScalarEq(a, b) == ScalarEq(b, a)
    ensures a.Str? || a.Null? ==> (ScalarEq(a, b) <==> a == b)
    ensures a.Num? ==>
              (ScalarEq(a, b) <==> a == b || (b == Bool(true) && a.n == 1.0) || (b == Bool(false) && a.n == 0.0))
    ensures a.Bool? && b.Bool? ==> (ScalarEq(a, b) <==> a == b)
    ensures a.Arr? || a.Obj? ==> !ScalarEq(a, b)
  {
  }

  /** A list item that can be looked up by name. */
  predicate Named(j: Json) {
    j.Obj? && Truthy(Get(j, "name"))
  }

  predicate AllNamed(items: seq<Json>) {
    forall i :: 0 <= i < |items| ==> Named(items[i])
  }

  /**
   `b` is `a` with additions only: extra keys in mappings and extra items at the end of
   lists, at any depth. This is what defaulting by the cluster does to an object.
   */
  predicate Extends(a: Json, b: Json)
    decreases a
  {
    match a
    case Obj(m) => b.Obj? && forall k :: k in m ==> k in b.fields && Extends(m[k], b.fields[k])
    case Arr(xs) =>
      b.Arr? && |xs| <= |b.items| && forall i :: 0 <= i < |xs| ==> Extends(xs[i], b.items[i])
    case _ => a == b
  }

  /** The names within one list are scalars, and no two items share one. */
  predicate DistinctNames(items: seq<Json>) {
    && (forall i :: 0 <= i < |items| && Named(items[i]) ==> !Container(Get(items[i], "name")))
    && (forall i, j :: 0 <= i < j < |items| && Named(items[i]) && Named(items[j]) ==>
          !ScalarEq(Get(items[i], "name"), Get(items[j], "name")))
  }

  lemma {:induction false} ExtendsRefl(a: Json)
    ensures Extends(a, a)
    decreases a
  {
    match a
    case Obj(m) => forall k | k in m ensures Extends(m[k], m[k]) { ExtendsRefl(m[k]); }
    case Arr(xs) => forall i | 0 <= i < |xs| ensures Extends(xs[i], xs[i]) { ExtendsRefl(xs[i]); }
    case _ =>
  }

  lemma {:induction false} ExtendsTruthy(a: Json, b: Json)
    requires Extends(a, b) && Truthy(a)
    ensures Truthy(b) && (Container(a) <==> Container(b))
  {
    if a.Obj? {
      var k :| k in a.fields;
      assert k in b.fields;
    }
  }
}
