/** The structural comparison of a desired tree with a live one. */
module Match {
  import opened Common
  import opened JsonTree

  /** The dictionary of named items: a later item replaces an earlier one of the same name. */
  function LastNamed(items: seq<Json>, name: Json): (hit: Option<Json>)
  {
    if items == [] then None
    else
      var last := items[|items| - 1];
      if Named(last) && ScalarEq(Get(last, "name"), name) then Some(last)
      else LastNamed(items[..|items| - 1], name)
  }

  predicate SubsetMatches(desired: Json, actual: Json)
    decreases desired
  {
    match desired
    case Obj(m) =>
      actual.Obj? && forall k :: k in m ==> k in actual.fields && SubsetMatches(m[k], actual.fields[k])
    case Arr(xs) =>
      && actual.Arr? && |xs| <= |actual.items|
      && (if AllNamed(xs)
          then forall i :: 0 <= i < |xs| ==>
                 var hit := LastNamed(actual.items, Get(xs[i], "name"));
                 hit.Some? && SubsetMatches(xs[i], hit.value)
          else forall i :: 0 <= i < |xs| ==> SubsetMatches(xs[i], actual.items[i]))
    case _ => ScalarEq(desired, actual)
  }

  // ---------------------------------------------------------------- lookup by name

  lemma {:induction false} LastNamedSound(items: seq<Json>, name: Json) returns (j: nat)
    requires LastNamed(items, name).Some?
    ensures j < |items| && LastNamed(items, name) == Some(items[j])
    ensures Named(items[j]) && ScalarEq(Get(items[j], "name"), name)
  {
    j := |items| - 1;
    if !(Named(items[j]) && ScalarEq(Get(items[j], "name"), name)) {
      j := LastNamedSound(items[..j], name);
    }
  }

  lemma {:induction false} LastNamedFinds(items: seq<Json>, j: nat, name: Json)
    requires DistinctNames(items) && j < |items|
    requires Named(items[j]) && ScalarEq(Get(items[j], "name"), name)
    ensures LastNamed(items, name) == Some(items[j])
    decreases |items|
  {
    var n := |items| - 1;
    if j < n {
      assert !(Named(items[n]) && ScalarEq(Get(items[n], "name"), name));
      assert DistinctNames(items[..n]);
      LastNamedFinds(items[..n], j, name);
    }
  }

  // ---------------------------------------------------------------- growth of the live tree

  /** Names are distinct in every list of the live tree in which the desired tree looks items up by name. */
  predicate LookupsDistinct(d: Json, b: Json)
    decreases d
  {
    match d
    case Obj(m) => b.Obj? ==> forall k :: k in m && k in b.fields ==> LookupsDistinct(m[k], b.fields[k])
    case Arr(xs) =>
      b.Arr? ==>
        && (AllNamed(xs) ==> DistinctNames(b.items))
        && forall i, j :: 0 <= i < |xs| && 0 <= j < |b.items| && ComparedWith(xs, b.items, i, j) ==>
             LookupsDistinct(xs[i], b.items[j])
    case _ => true
  }

  /** Item `j` of the live list is the one that item `i` of the desired list is compared with. */
  predicate ComparedWith(xs: seq<Json>, items: seq<Json>, i: nat, j: nat)
    requires i < |xs| && j < |items|
  {
    if AllNamed(xs) then Named(items[j]) && ScalarEq(Get(items[j], "name"), Get(xs[i], "name")) else i == j
  }

  /** A match survives every addition that keeps names distinct where they are looked up. */
  lemma {:induction false} MatchSurvivesAdditions(d: Json, a: Json, b: Json)
    requires SubsetMatches(d, a) && Extends(a, b) && LookupsDistinct(d, b)
    ensures SubsetMatches(d, b)
    decreases d
  {
    match d
    case Obj(m) =>
      forall k | k in m
        ensures k in b.fields && SubsetMatches(m[k], b.fields[k])
      {
        MatchSurvivesAdditions(m[k], a.fields[k], b.fields[k]);
      }
    case Arr(xs) =>
      forall i | 0 <= i < |xs|
        ensures if AllNamed(xs)
                then var hit := LastNamed(b.items, Get(xs[i], "name"));
                     hit.Some? && SubsetMatches(xs[i], hit.value)
                else SubsetMatches(xs[i], b.items[i])
      {
        if AllNamed(xs) {
          var name := Get(xs[i], "name");
          var j := LastNamedSound(a.items, name);
          assert Extends(a.items[j], b.items[j]);
          assert Extends(Get(a.items[j], "name"), Get(b.items[j], "name"));
          assert ComparedWith(xs, b.items, i, j);
          LastNamedFinds(b.items, j, name);
          MatchSurvivesAdditions(xs[i], a.items[j], b.items[j]);
        } else {
          assert ComparedWith(xs, b.items, i, i);
          MatchSurvivesAdditions(xs[i], a.items[i], b.items[i]);
        }
      }
    case _ =>
  }

  // ---------------------------------------------------------------- a tree against its own extension

  /**
   No item of a fully named list is hidden by a later item of the same name, unless it
   matches that one as well. Other lists are compared by position, so names do not matter
   there.
   */
  predicate Unshadowed(d: Json, b: Json)
    requires Extends(d, b)
    decreases d
  {
    match d
    case Obj(m) => forall k :: k in m ==> Unshadowed(m[k], b.fields[k])
    case Arr(xs) =>
      if AllNamed(xs) then
        forall i :: 0 <= i < |xs| ==>
          var hit := LastNamed(b.items, Get(xs[i], "name"));
          && hit.Some?
          && (if hit.value == b.items[i] then Unshadowed(xs[i], b.items[i]) else SubsetMatches(xs[i], hit.value))
      else forall i :: 0 <= i < |xs| ==> Unshadowed(xs[i], b.items[i])
    case _ => true
  }

  /** Of a tree and an extension of it: they match if and only if no named item is shadowed. */
  lemma {:induction false} ExtensionMatchesExactly(d: Json, b: Json)
    requires Extends(d, b)
    ensures SubsetMatches(d, b) <==> Unshadowed(d, b)
    decreases d
  {
    match d
    case Obj(m) =>
      forall k | k in m ensures SubsetMatches(m[k], b.fields[k]) <==> Unshadowed(m[k], b.fields[k]) {
        ExtensionMatchesExactly(m[k], b.fields[k]);
      }
    case Arr(xs) =>
      forall i | 0 <= i < |xs| ensures SubsetMatches(xs[i], b.items[i]) <==> Unshadowed(xs[i], b.items[i]) {
        ExtensionMatchesExactly(xs[i], b.items[i]);
      }
    case _ =>
  }

  /** The comparison is reflexive exactly on trees in which no named item is shadowed. */
  lemma {:induction false} MatchesItselfExactly(t: Json)
    ensures Extends(t, t) && (SubsetMatches(t, t) <==> Unshadowed(t, t))
  {
    ExtendsRefl(t);
    ExtensionMatchesExactly(t, t);
  }

  /** Every fully named list of `d` has distinct names in the extension `b`. */
  predicate NamesDistinct(d: Json, b: Json)
    requires Extends(d, b)
    decreases d
  {
    match d
    case Obj(m) => forall k :: k in m ==> NamesDistinct(m[k], b.fields[k])
    case Arr(xs) =>
      && (AllNamed(xs) ==> DistinctNames(b.items))
      && forall i :: 0 <= i < |xs| ==> NamesDistinct(xs[i], b.items[i])
    case _ => true
  }

  /** A named item keeps its name in an extension. */
  lemma {:induction false} ExtensionKeepsName(x: Json, y: Json)
    requires Extends(x, y) && Named(x)
    ensures Named(y) && (Container(Get(y, "name")) || Get(y, "name") == Get(x, "name"))
  {
    assert Extends(Get(x, "name"), Get(y, "name"));
    ExtendsTruthy(Get(x, "name"), Get(y, "name"));
  }

  /** With distinct names nothing is shadowed: the usual case, in which an extension matches. */
  lemma {:induction false} DistinctNamesUnshadowed(d: Json, b: Json)
    requires Extends(d, b) && NamesDistinct(d, b)
    ensures Unshadowed(d, b)
    decreases d
  {
    match d
    case Obj(m) =>
      forall k | k in m ensures Unshadowed(m[k], b.fields[k]) { DistinctNamesUnshadowed(m[k], b.fields[k]); }
    case Arr(xs) =>
      forall i | 0 <= i < |xs|
        ensures Unshadowed(xs[i], b.items[i])
        ensures AllNamed(xs) ==> LastNamed(b.items, Get(xs[i], "name")) == Some(b.items[i])
      {
        DistinctNamesUnshadowed(xs[i], b.items[i]);
        if AllNamed(xs) {
          assert Named(xs[i]);
          ExtensionKeepsName(xs[i], b.items[i]);
          LastNamedFinds(b.items, i, Get(xs[i], "name"));
        }
      }
    case _ =>
  }

  /** The comparison is reflexive on trees whose fully named lists have distinct names. */
  lemma {:induction false} MatchesItself(t: Json)
    ensures Extends(t, t) && (NamesDistinct(t, t) ==> SubsetMatches(t, t))
  {
    MatchesItselfExactly(t);
    if NamesDistinct(t, t) { DistinctNamesUnshadowed(t, t); }
  }

  /**
   One name twice: the list matches itself if and only if its first item matches its second
   (and the second matches itself).
   */
  lemma {:induction false} RepeatedNameMatches(x: Json, y: Json)
    requires Named(x) && Named(y) && ScalarEq(Get(x, "name"), Get(y, "name"))
    ensures SubsetMatches(Arr([x, y]), Arr([x, y])) <==> SubsetMatches(x, y) && SubsetMatches(y, y)
  {
    var items := [x, y];
    assert AllNamed(items);
    assert LastNamed(items, Get(x, "name")) == Some(y);
    assert LastNamed(items, Get(y, "name")) == Some(y);
    assert Arr(items).items == items;
    if SubsetMatches(Arr(items), Arr(items)) {
      assert SubsetMatches(items[0], y) && SubsetMatches(items[1], y);
    }
  }

  lemma {:induction false} OtherTextDoesNotMatch(x: Json, y: Json, key: string)
    requires x.Obj? && y.Obj? && key in x.fields && key in y.fields
    requires x.fields[key].Str? && y.fields[key].Str? && x.fields[key] != y.fields[key]
    ensures !SubsetMatches(x, y)
  {
    assert !SubsetMatches(x.fields[key], y.fields[key]);
  }

  /** So one volume that is mounted at two paths hides its first mount. */
  lemma {:induction false} DuplicateNameHidesItem(volume: string, path: string, other: string)
    requires volume != "" && path != other
    ensures var first := Obj(map["name" := Str(volume), "mountPath" := Str(path)]);
            var second := Obj(map["name" := Str(volume), "mountPath" := Str(other)]);
            !SubsetMatches(Arr([first, second]), Arr([first, second]))
  {
    var first := Obj(map["name" := Str(volume), "mountPath" := Str(path)]);
    var second := Obj(map["name" := Str(volume), "mountPath" := Str(other)]);
    OtherTextDoesNotMatch(first, second, "mountPath");
    RepeatedNameMatches(first, second);
  }

  // ---------------------------------------------------------------- reference meaning

  /** One hop of an address: a key, a position, or an item called by its name. */
  datatype Hop = Key(k: string) | At(i: nat) | ByName(name: Json)

  /** `sub` sits at `path` in the desired tree, where fully named lists are addressed by name. */
  ghost predicate Reaches(t: Json, path: seq<Hop>, sub: Json)
    decreases |path|
  {
    if path == [] then sub == t
    else match path[0]
      case Key(k) => t.Obj? && k in t.fields && Reaches(t.fields[k], path[1..], sub)
      case At(i) => t.Arr? && !AllNamed(t.items) && i < |t.items| && Reaches(t.items[i], path[1..], sub)
      case ByName(name) =>
        && t.Arr? && AllNamed(t.items)
        && exists i :: 0 <= i < |t.items| && Get(t.items[i], "name") == name && Reaches(t.items[i], path[1..], sub)
  }

  /** What the live tree holds at an address. */
  function Follow(t: Json, path: seq<Hop>): (sub: Option<Json>)
    decreases |path|
  {
    if path == [] then Some(t)
    else match path[0]
      case Key(k) => if t.Obj? && k in t.fields then Follow(t.fields[k], path[1..]) else None
      case At(i) => if t.Arr? && i < |t.items| then Follow(t.items[i], path[1..]) else None
      case ByName(name) =>
        if t.Arr? && LastNamed(t.items, name).Some?
        then Follow(LastNamed(t.items, name).value, path[1..]) else None
  }

  /** The two trees agree at one address, not looking below it. */
  predicate Agrees(d: Json, a: Json) {
    match d
    case Obj(_) => a.Obj?
    case Arr(xs) => a.Arr? && |xs| <= |a.items|
    case _ => ScalarEq(d, a)
  }

  ghost predicate CoversAt(d: Json, a: Json, path: seq<Hop>, sub: Json) {
    Reaches(d, path, sub) ==> Follow(a, path).Some? && Agrees(sub, Follow(a, path).value)
  }

  /** Everything addressable in the desired tree is present, and agrees, in the live one. */
  ghost predicate Covers(d: Json, a: Json) {
    forall path, sub :: CoversAt(d, a, path, sub)
  }

  lemma {:induction false} MatchCoversAt(d: Json, a: Json, path: seq<Hop>, sub: Json)
    requires SubsetMatches(d, a)
    ensures CoversAt(d, a, path, sub)
    decreases |path|
  {
    if path != [] && Reaches(d, path, sub) {
      match path[0]
      case Key(k) => MatchCoversAt(d.fields[k], a.fields[k], path[1..], sub);
      case At(i) => MatchCoversAt(d.items[i], a.items[i], path[1..], sub);
      case ByName(name) =>
        var i :| 0 <= i < |d.items| && Get(d.items[i], "name") == name && Reaches(d.items[i], path[1..], sub);
        MatchCoversAt(d.items[i], LastNamed(a.items, name).value, path[1..], sub);
    }
  }

  lemma {:induction false} CoverageMatches(d: Json, a: Json)
    requires Covers(d, a)
    ensures SubsetMatches(d, a)
    decreases d
  {
    assert CoversAt(d, a, [], d);
    match d
    case Obj(m) =>
      forall k | k in m
        ensures k in a.fields && SubsetMatches(m[k], a.fields[k])
      {
        assert Reaches(d, [Key(k)], m[k]) by { assert [Key(k)][1..] == []; }
        assert CoversAt(d, a, [Key(k)], m[k]);
        CoverageStep(d, a, Key(k), m[k]);
        CoverageMatches(m[k], a.fields[k]);
      }
    case Arr(xs) =>
      if AllNamed(xs) {
        forall i | 0 <= i < |xs|
          ensures var hit := LastNamed(a.items, Get(xs[i], "name"));
                  hit.Some? && SubsetMatches(xs[i], hit.value)
        {
          var hop := ByName(Get(xs[i], "name"));
          assert Reaches(d, [hop], xs[i]) by { assert [hop][1..] == []; }
          assert CoversAt(d, a, [hop], xs[i]);
          CoverageStep(d, a, hop, xs[i]);
          CoverageMatches(xs[i], LastNamed(a.items, hop.name).value);
        }
      } else {
        forall i: nat | 0 <= i < |xs|
          ensures SubsetMatches(xs[i], a.items[i])
        {
          CoverageStep(d, a, At(i), xs[i]);
          CoverageMatches(xs[i], a.items[i]);
        }
      }
    case _ =>
  }

  /** The part behind one hop of the live tree. */
  function Behind(a: Json, hop: Hop): (part: Option<Json>) {
    match hop
    case Key(k) => if a.Obj? && k in a.fields then Some(a.fields[k]) else None
    case At(i) => if a.Arr? && i < |a.items| then Some(a.items[i]) else None
    case ByName(name) => if a.Arr? then LastNamed(a.items, name) else None
  }

  lemma {:induction false} FollowHop(a: Json, hop: Hop, path: seq<Hop>)
    ensures Follow(a, [hop] + path)
         == if Behind(a, hop).Some? then Follow(Behind(a, hop).value, path) else None
  {
    var p := [hop] + path;
    assert p[0] == hop && p[1..] == path;
  }

  /** Coverage passes to the part of the tree behind one hop. */
  lemma {:induction false} CoverageStep(d: Json, a: Json, hop: Hop, d': Json)
    requires Covers(d, a) && Reaches(d, [hop], d')
    ensures Behind(a, hop).Some? && Covers(d', Behind(a, hop).value)
  {
    assert [hop] + [] == [hop] && [hop][1..] == [];
    FollowHop(a, hop, []);
    assert CoversAt(d, a, [hop], d');
    forall path, sub
      ensures CoversAt(d', Behind(a, hop).value, path, sub)
    {
      var p := [hop] + path;
      assert p[0] == hop && p[1..] == path;
      FollowHop(a, hop, path);
      assert CoversAt(d, a, p, sub);
    }
  }

  /** The comparison means coverage, exactly. */
  lemma {:induction false} MatchMeansCoverage(d: Json, a: Json)
    ensures SubsetMatches(d, a) <==> Covers(d, a)
  {
    if SubsetMatches(d, a) {
      forall path, sub ensures CoversAt(d, a, path, sub) { MatchCoversAt(d, a, path, sub); }
    }
    if Covers(d, a) {
      CoverageMatches(d, a);
    }
  }
}
