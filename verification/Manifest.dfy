/**
 Manifests as sequences of document trees: extracting verification targets, and stamping
 the reconciliation markers. `text` stands for Python's `str(v or "").strip()`.
 */
module Manifest {
  import opened Common
  import opened JsonTree

  const OPERATION_MARKER := "skyflo.ai/operation-id"
  const DESIRED_MARKER := "skyflo.ai/desired-state-hmac"

  datatype Target = Target(kind: string, name: string, namespace: string, desired: Option<Json>)

  function LowerChar(c: char): char {
    if 'A' <= c <= 'Z' then c + 32 as char else c
  }

  function Lower(s: string): (t: string) {
    seq(|s|, i requires 0 <= i < |s| => LowerChar(s[i]))
  }

  function MetadataOf(doc: Json): (m: Json)
    requires doc.Obj?
    ensures m.Obj?
  {
    if Get(doc, "metadata").Obj? then Get(doc, "metadata") else Obj(map[])
  }

  /** The target that one document contributes, if any. */
  function TargetOf(doc: Json, defaultNamespace: string, text: Json -> string): (t: Option<Target>) {
    if !doc.Obj? then None else
    var metadata := MetadataOf(doc);
    var kind := text(Get(doc, "kind"));
    var name := text(Get(metadata, "name"));
    if kind == "" || name == "" then None else
    var ns := Get(metadata, "namespace");
    var spec := Get(doc, "spec");
    Some(Target(kind, name, text(if Truthy(ns) then ns else Str(defaultNamespace)),
                if Lower(kind) != "secret" && spec.Obj? then Some(spec) else None))
  }

  // What a target is, without reference to how it is computed.

  /** Equal but for the case of ASCII letters; `lower` is in lower case. */
  predicate SameIgnoringCase(s: string, lower: string) {
    && |s| == |lower|
    && forall i :: 0 <= i < |s| ==> s[i] == lower[i] || ('A' <= s[i] <= 'Z' && s[i] + 32 as char == lower[i])
  }

  lemma {:induction false} LowerIgnoresCase(s: string, lower: string)
    requires forall i :: 0 <= i < |lower| ==> 'a' <= lower[i] <= 'z'
    ensures Lower(s) == lower <==> SameIgnoringCase(s, lower)
  {
    if SameIgnoringCase(s, lower) { assert Lower(s) == lower; }
    if Lower(s) == lower {
      forall i | 0 <= i < |s| ensures s[i] == lower[i] || ('A' <= s[i] <= 'Z' && s[i] + 32 as char == lower[i]) {
        assert Lower(s)[i] == lower[i];
      }
    }
  }

  /** The `metadata` entry `key`, read from mappings only. */
  function MetadataEntry(doc: Json, key: string): (v: Json)
    requires doc.Obj?
  {
    if "metadata" in doc.fields && doc.fields["metadata"].Obj? && key in doc.fields["metadata"].fields
    then doc.fields["metadata"].fields[key] else Null
  }

  /** A document that says what it is: a mapping with a kind and a name. */
  predicate Plannable(doc: Json, text: Json -> string) {
    && doc.Obj?
    && text(Get(doc, "kind")) != "" && text(MetadataEntry(doc, "name")) != ""
  }

  /** The spec of the document is looked at: it is a mapping, and the document is no secret. */
  predicate SpecIsCompared(doc: Json, text: Json -> string)
    requires doc.Obj?
  {
    && "spec" in doc.fields && doc.fields["spec"].Obj?
    && !SameIgnoringCase(text(Get(doc, "kind")), "secret")
  }

  /** The target says what its document says. */
  predicate Plans(t: Target, doc: Json, defaultNamespace: string, text: Json -> string) {
    && Plannable(doc, text) && t.kind == text(Get(doc, "kind")) && t.name == text(MetadataEntry(doc, "name"))
    && t.namespace == text(if Truthy(MetadataEntry(doc, "namespace")) then MetadataEntry(doc, "namespace")
                           else Str(defaultNamespace))
    && t.desired == if SpecIsCompared(doc, text) then Some(doc.fields["spec"]) else None
  }

  lemma {:induction false} TargetPlans(doc: Json, ns: string, text: Json -> string)
    ensures TargetOf(doc, ns, text).Some? <==> Plannable(doc, text)
    ensures TargetOf(doc, ns, text).Some? ==> Plans(TargetOf(doc, ns, text).value, doc, ns, text)
  {
    if doc.Obj? {
      LowerIgnoresCase(text(Get(doc, "kind")), "secret");
      assert Get(MetadataOf(doc), "name") == MetadataEntry(doc, "name");
      assert Get(MetadataOf(doc), "namespace") == MetadataEntry(doc, "namespace");
    }
  }

  /** The documents that say what they are, in order. */
  function PlannableDocs(docs: seq<Json>, text: Json -> string): (ds: seq<Json>) {
    if docs == [] then []
    else
      var rest := PlannableDocs(docs[..|docs| - 1], text);
      if Plannable(docs[|docs| - 1], text) then rest + [docs[|docs| - 1]] else rest
  }

  lemma {:induction false} TargetsPlan(docs: seq<Json>, ns: string, text: Json -> string)
    ensures |Targets(docs, ns, text)| == |PlannableDocs(docs, text)|
    ensures forall i :: 0 <= i < |Targets(docs, ns, text)| ==>
              Plans(Targets(docs, ns, text)[i], PlannableDocs(docs, text)[i], ns, text)
  {
    if docs != [] {
      TargetsPlan(docs[..|docs| - 1], ns, text);
      TargetPlans(docs[|docs| - 1], ns, text);
    }
  }

  function Targets(docs: seq<Json>, defaultNamespace: string, text: Json -> string): (ts: seq<Target>) {
    if docs == [] then []
    else
      var rest := Targets(docs[..|docs| - 1], defaultNamespace, text);
      var last := TargetOf(docs[|docs| - 1], defaultNamespace, text);
      if last.Some? then rest + [last.value] else rest
  }

  method ParseManifestTargets(docs: seq<Json>, defaultNamespace: string, text: Json -> string)
    returns (targets: seq<Target>)
    ensures targets == Targets(docs, defaultNamespace, text)
    ensures |targets| == |PlannableDocs(docs, text)|
    ensures forall i :: 0 <= i < |targets| ==> Plans(targets[i], PlannableDocs(docs, text)[i], defaultNamespace, text)
    ensures forall t :: t in targets <==>
              exists i :: 0 <= i < |docs| && TargetOf(docs[i], defaultNamespace, text) == Some(t)
  {
    targets := [];
    for n := 0 to |docs|
      invariant targets == Targets(docs[..n], defaultNamespace, text)
    {
      assert docs[..n + 1][..n] == docs[..n];
      var t := TargetOf(docs[n], defaultNamespace, text);
      if t.Some? {
        targets := targets + [t.value];
      }
    }
    assert docs[..|docs|] == docs;
    TargetsPlan(docs, defaultNamespace, text);
    forall t ensures t in targets <==>
              exists i :: 0 <= i < |docs| && TargetOf(docs[i], defaultNamespace, text) == Some(t)
    {
      TargetsAreFromDocuments(docs, defaultNamespace, text, t);
    }
  }

  lemma {:induction false} TargetsAreFromDocuments(docs: seq<Json>, ns: string, text: Json -> string, t: Target)
    ensures t in Targets(docs, ns, text) <==>
            exists i :: 0 <= i < |docs| && TargetOf(docs[i], ns, text) == Some(t)
  {
    if docs != [] {
      var n := |docs| - 1;
      TargetsAreFromDocuments(docs[..n], ns, text, t);
      if t in Targets(docs[..n], ns, text) {
        var i :| 0 <= i < n && TargetOf(docs[..n][i], ns, text) == Some(t);
        assert TargetOf(docs[i], ns, text) == Some(t);
      }
      if i :| 0 <= i < |docs| && TargetOf(docs[i], ns, text) == Some(t) {
        if i < n {
          assert docs[..n][i] == docs[i];
        }
      }
    }
  }

  // ---------------------------------------------------------------- stamping

  /** `setdefault(key, {})` followed by attribute access: `None` when Python raises. */
  function SetDefault(doc: Json, key: string): (inner: Option<Json>)
    requires doc.Obj?
    ensures inner.Some? ==> inner.value.Obj?
  {
    if key !in doc.fields then Some(Obj(map[]))
    else if doc.fields[key].Obj? then Some(doc.fields[key])
    else None
  }

  function StampDocument(doc: Json, operation: string, hmac: string): (stamped: Option<Json>)
    requires doc.Obj?
    ensures stamped.Some? ==> stamped.value.Obj?
  {
    var metadata :- SetDefault(doc, "metadata");
    var annotations :- SetDefault(metadata, "annotations");
    var marked := annotations.fields[OPERATION_MARKER := Str(operation)][DESIRED_MARKER := Str(hmac)];
    Some(Obj(doc.fields["metadata" := Obj(metadata.fields["annotations" := Obj(marked)])]))
  }

  // What stamping does, without reference to how it is done.

  /** `b` is the mapping `a` except for the entry `key`. */
  predicate SameBut(a: Json, b: Json, key: string) {
    a.Obj? && b.Obj? && key in b.fields && b.fields - {key} == a.fields - {key}
  }

  /** The entry `key` of a mapping; an absent one is an empty mapping. */
  function Inner(doc: Json, key: string): (inner: Json)
    requires doc.Obj?
  {
    if key in doc.fields then doc.fields[key] else Obj(map[])
  }

  /** The document with both markers among its annotations, and otherwise as it was. */
  predicate Marked(doc: Json, stamped: Json, operation: string, hmac: string) {
    && SameBut(doc, stamped, "metadata")
    && var before, after := Inner(doc, "metadata"), stamped.fields["metadata"];
       && SameBut(before, after, "annotations")
       && var old_, new_ := Inner(before, "annotations"), after.fields["annotations"];
          && old_.Obj? && new_.Obj?
          && var markers := {"skyflo.ai/operation-id", "skyflo.ai/desired-state-hmac"};
             && new_.fields - markers == old_.fields - markers && markers <= new_.fields.Keys
             && new_.fields["skyflo.ai/operation-id"] == Str(operation)
             && new_.fields["skyflo.ai/desired-state-hmac"] == Str(hmac)
  }

  /** The metadata, or the annotations in it, are there and no mapping. */
  predicate Unmarkable(doc: Json)
    requires doc.Obj?
  {
    !Inner(doc, "metadata").Obj? || !Inner(Inner(doc, "metadata"), "annotations").Obj?
  }

  lemma {:induction false} StampMarks(doc: Json, operation: string, hmac: string)
    requires doc.Obj?
    ensures StampDocument(doc, operation, hmac).None? <==> Unmarkable(doc)
    ensures StampDocument(doc, operation, hmac).Some? ==>
              Marked(doc, StampDocument(doc, operation, hmac).value, operation, hmac)
  {
  }

  function Mappings(docs: seq<Json>): (ms: seq<Json>) {
    if docs == [] then []
    else
      var rest := Mappings(docs[..|docs| - 1]);
      if docs[|docs| - 1].Obj? then rest + [docs[|docs| - 1]] else rest
  }

  lemma {:induction false} StampMarksAll(docs: seq<Json>, operation: string, hmac: string)
    requires Stamp(docs, operation, hmac).Some?
    ensures var stamped := Stamp(docs, operation, hmac).value;
            |stamped| == |Mappings(docs)|
            && forall i :: 0 <= i < |stamped| ==> Marked(Mappings(docs)[i], stamped[i], operation, hmac)
  {
    if docs != [] {
      StampMarksAll(docs[..|docs| - 1], operation, hmac);
      if docs[|docs| - 1].Obj? { StampMarks(docs[|docs| - 1], operation, hmac); }
    }
  }

  /** The manifest that is sent: mappings stamped in order, other documents dropped. */
  function Stamp(docs: seq<Json>, operation: string, hmac: string): (stamped: Option<seq<Json>>) {
    if docs == [] then Some([])
    else
      var rest :- Stamp(docs[..|docs| - 1], operation, hmac);
      var last := docs[|docs| - 1];
      if !last.Obj? then Some(rest)
      else
        var s :- StampDocument(last, operation, hmac);
        Some(rest + [s])
  }

  method AttachOperationMetadata(docs: seq<Json>, operation: string, hmac: string)
    returns (prepared: Option<seq<Json>>)
    ensures prepared == Stamp(docs, operation, hmac)
    ensures prepared.None? <==> exists i :: 0 <= i < |docs| && docs[i].Obj? && Unmarkable(docs[i])
    ensures prepared.Some? ==> |prepared.value| == |Mappings(docs)|
    ensures prepared.Some? ==>
              forall i :: 0 <= i < |prepared.value| ==> Marked(Mappings(docs)[i], prepared.value[i], operation, hmac)
  {
    var documents: seq<Json> := [];
    for n := 0 to |docs|
      invariant Stamp(docs[..n], operation, hmac) == Some(documents)
      invariant forall i :: 0 <= i < n && docs[i].Obj? ==> !Unmarkable(docs[i])
    {
      assert docs[..n + 1][..n] == docs[..n];
      if docs[n].Obj? {
        StampMarks(docs[n], operation, hmac);
        var s := StampDocument(docs[n], operation, hmac);
        if s.None? {
          StampFailureSticks(docs, n + 1, operation, hmac);
          return None;
        }
        documents := documents + [s.value];
      }
    }
    assert docs[..|docs|] == docs;
    StampMarksAll(docs, operation, hmac);
    prepared := Some(documents);
  }

  lemma {:induction false} StampFailureSticks(docs: seq<Json>, n: nat, operation: string, hmac: string)
    requires n <= |docs| && Stamp(docs[..n], operation, hmac).None?
    ensures Stamp(docs, operation, hmac).None?
    decreases |docs|
  {
    if n < |docs| {
      var m := |docs| - 1;
      assert docs[..m][..n] == docs[..n];
      StampFailureSticks(docs[..m], n, operation, hmac);
    } else {
      assert docs[..n] == docs;
    }
  }

  lemma {:induction false} StampKeepsTarget(
    doc: Json, operation: string, hmac: string, ns: string, text: Json -> string)
    requires doc.Obj? && StampDocument(doc, operation, hmac).Some?
    ensures TargetOf(StampDocument(doc, operation, hmac).value, ns, text) == TargetOf(doc, ns, text)
  {
    var s := StampDocument(doc, operation, hmac).value;
    assert Get(s, "kind") == Get(doc, "kind") && Get(s, "spec") == Get(doc, "spec");
    assert Get(MetadataOf(s), "name") == Get(MetadataOf(doc), "name");
    assert Get(MetadataOf(s), "namespace") == Get(MetadataOf(doc), "namespace");
  }

  /** Stamping changes no target: what the plan verifies is what is sent. */
  lemma {:induction false} StampKeepsTargets(
    docs: seq<Json>, operation: string, hmac: string, ns: string, text: Json -> string)
    requires Stamp(docs, operation, hmac).Some?
    ensures Targets(Stamp(docs, operation, hmac).value, ns, text) == Targets(docs, ns, text)
  {
    if docs != [] {
      var n := |docs| - 1;
      StampKeepsTargets(docs[..n], operation, hmac, ns, text);
      if docs[n].Obj? {
        var stamped := Stamp(docs, operation, hmac).value;
        var rest := Stamp(docs[..n], operation, hmac).value;
        assert stamped[..|stamped| - 1] == rest;
        StampKeepsTarget(docs[n], operation, hmac, ns, text);
      }
    }
  }
}
