/** Memory documents and their version chains. */
module MemoryChain {
  import opened Common

  type DocId = nat

  /** SHA-256, as a constructor: injective and otherwise opaque. */
  datatype Digest = Digest(content: string)

  datatype Operation = CREATE | UPDATE | PATCH | DELETE

  /** Versions are numbered in the order of their creation: a version's id is its position. */
  datatype Version = Version(doc: DocId, op: Operation, content: Option<string>, prev: Option<nat>)

  datatype Doc = Doc(store: string, path: string, content: string, sha: Digest, current: nat, deleted: bool)

  datatype Memory = Memory(docs: map<DocId, Doc>, log: seq<Version>)

  /** The calls that write, each taken as one atomic step. */
  datatype Write =
    | Create(id: DocId, store: string, path: string, content: string)
    | Update(id: DocId, expected: Digest, newContent: Option<string>)
    | Patch(id: DocId, expected: Digest, content: string)
    | Remember(id: DocId, store: string, path: string, content: string, expectedSha: Option<Digest>)
    | Delete(id: DocId)
    | Redact(version: nat)

  // ---------------------------------------------------------------- chains

  predicate LinksBack(log: seq<Version>) {
    forall i :: 0 <= i < |log| && log[i].prev.Some? ==> log[i].prev.value < i
  }

  /** Following previous-version links from `v`. */
  function Chain(log: seq<Version>, v: nat): (ids: seq<nat>)
    requires LinksBack(log) && v < |log|
    decreases v
  {
    if log[v].prev.None? then [v] else [v] + Chain(log, log[v].prev.value)
  }

  /** The versions of a document among the first `n`, newest first. */
  function VersionsOf(log: seq<Version>, n: nat, d: DocId): (ids: seq<nat>)
    requires n <= |log|
  {
    if n == 0 then []
    else if log[n - 1].doc == d then [n - 1] + VersionsOf(log, n - 1, d)
    else VersionsOf(log, n - 1, d)
  }

  /** `VersionsOf` is what it is meant to be: every version once, in decreasing order. */
  lemma {:induction false} VersionsOfIsAll(log: seq<Version>, n: nat, d: DocId)
    requires n <= |log|
    ensures forall i :: i in VersionsOf(log, n, d) <==> 0 <= i < n && log[i].doc == d
    ensures Decreasing(VersionsOf(log, n, d))
  {
    if n > 0 {
      VersionsOfIsAll(log, n - 1, d);
      var rest := VersionsOf(log, n - 1, d);
      forall a | 0 <= a < |rest| ensures rest[a] < n - 1 { assert rest[a] in rest; }
      assert Decreasing([n - 1] + rest);
    }
  }

  predicate Decreasing(ids: seq<nat>) {
    forall a, b :: 0 <= a < b < |ids| ==> ids[a] > ids[b]
  }

  /** The links and owners of two logs agree; contents may differ. */
  predicate SameLinks(a: seq<Version>, b: seq<Version>) {
    |a| <= |b| && forall i :: 0 <= i < |a| ==> a[i].prev == b[i].prev && a[i].doc == b[i].doc && a[i].op == b[i].op
  }

  lemma {:induction false} ChainDependsOnLinks(a: seq<Version>, b: seq<Version>, v: nat)
    requires LinksBack(a) && LinksBack(b) && SameLinks(a, b) && v < |a|
    ensures Chain(a, v) == Chain(b, v)
    decreases v
  {
    if a[v].prev.Some? { ChainDependsOnLinks(a, b, a[v].prev.value); }
  }

  lemma {:induction false} VersionsDependOnLinks(a: seq<Version>, b: seq<Version>, n: nat, d: DocId)
    requires SameLinks(a, b) && n <= |a|
    ensures VersionsOf(a, n, d) == VersionsOf(b, n, d)
  {
    if n > 0 { VersionsDependOnLinks(a, b, n - 1, d); }
  }

  // ---------------------------------------------------------------- invariant

  /** Every version belongs to a document, and exactly the create versions have no predecessor. */
  predicate LogInv(log: seq<Version>, owners: set<DocId>) {
    && LinksBack(log)
    && forall i :: 0 <= i < |log| ==> log[i].doc in owners && (log[i].prev.None? <==> log[i].op == CREATE)
  }

  /** From the current version, the links visit all versions, newest first. */
  predicate ChainInv(log: seq<Version>, d: DocId, doc: Doc)
    requires LinksBack(log)
  {
    doc.current < |log| && Chain(log, doc.current) == VersionsOf(log, |log|, d)
  }

  /** The digest is the content's, and so is the current version's text while it has one. */
  predicate DocInv(log: seq<Version>, doc: Doc) {
    && doc.sha == Digest(doc.content)
    && doc.current < |log|
    && (log[doc.current].content.Some? ==> log[doc.current].content.value == doc.content)
  }

  predicate SamePlace(a: Doc, b: Doc) {
    !a.deleted && !b.deleted && a.store == b.store && a.path == b.path
  }

  /** The table's unique index on the store and path of live documents. */
  predicate PathsAreUnique(docs: map<DocId, Doc>) {
    forall d, e :: d in docs && e in docs && d != e ==> !SamePlace(docs[d], docs[e])
  }

  ghost predicate Inv(m: Memory) {
    && PathsAreUnique(m.docs)
    && LogInv(m.log, m.docs.Keys)
    && (forall d {:trigger ChainInv(m.log, d, m.docs[d])} :: d in m.docs ==> ChainInv(m.log, d, m.docs[d]))
    && (forall d {:trigger DocInv(m.log, m.docs[d])} :: d in m.docs ==> DocInv(m.log, m.docs[d]))
  }

  /** Appends a version that links to the document's current one, and makes it current. */
  function Append(m: Memory, d: DocId, doc: Doc, op: Operation, content: Option<string>): (m': Memory)
    requires d in m.docs
  {
    Memory(m.docs[d := doc.(current := |m.log|)],
           m.log + [Version(d, op, content, Some(m.docs[d].current))])
  }

  lemma {:induction false} LogGrows(log: seq<Version>, v: Version, owners: set<DocId>)
    requires LogInv(log, owners) && (v.prev.Some? ==> v.prev.value < |log|) && (v.prev.None? <==> v.op == CREATE)
    ensures LogInv(log + [v], owners + {v.doc})
  {
  }

  /** A document's chain does not notice versions appended for another. */
  lemma {:induction false} OtherChainKept(log: seq<Version>, v: Version, e: DocId, doc: Doc)
    requires LinksBack(log) && LinksBack(log + [v]) && ChainInv(log, e, doc) && v.doc != e
    ensures ChainInv(log + [v], e, doc)
  {
    VersionsDependOnLinks(log, log + [v], |log|, e);
    ChainDependsOnLinks(log, log + [v], doc.current);
  }

  /** A new current version links either to nothing, for a new document, or to the old one. */
  lemma {:induction false} OwnChainGrows(log: seq<Version>, v: Version, doc: Doc)
    requires LinksBack(log) && LinksBack(log + [v]) && doc.current == |log|
    requires v.prev.Some? ==> v.prev.value < |log| && Chain(log, v.prev.value) == VersionsOf(log, |log|, v.doc)
    requires v.prev.None? ==> VersionsOf(log, |log|, v.doc) == []
    ensures ChainInv(log + [v], v.doc, doc)
  {
    VersionsDependOnLinks(log, log + [v], |log|, v.doc);
    if v.prev.Some? { ChainDependsOnLinks(log, log + [v], v.prev.value); }
  }

  lemma {:induction false} AppendKeepsInv(m: Memory, d: DocId, doc: Doc, op: Operation, content: Option<string>)
    requires Inv(m) && d in m.docs && op != CREATE && doc.sha == Digest(doc.content)
    requires doc.store == m.docs[d].store && doc.path == m.docs[d].path && (m.docs[d].deleted ==> doc.deleted)
    requires content.Some? ==> content.value == doc.content
    ensures Inv(Append(m, d, doc, op, content))
  {
    var m' := Append(m, d, doc, op, content);
    var v := Version(d, op, content, Some(m.docs[d].current));
    assert ChainInv(m.log, d, m.docs[d]);
    LogGrows(m.log, v, m.docs.Keys);
    assert m'.docs.Keys == m.docs.Keys + {d};
    OwnChainGrows(m.log, v, m'.docs[d]);
    assert forall e :: e in m.docs && e != d ==> ChainInv(m.log, e, m.docs[e]) && DocInv(m.log, m.docs[e]);
    AppendKeepsChains(m.log, v, m.docs, m'.docs);
    AppendKeepsDocs(m.log, v, m.docs, m'.docs);
    AppendKeepsPaths(m.docs, d, m'.docs[d]);
  }

  lemma {:induction false} AppendKeepsChains(
    log: seq<Version>, v: Version, docs: map<DocId, Doc>, docs': map<DocId, Doc>)
    requires LinksBack(log) && LinksBack(log + [v]) && v.doc in docs' && docs' == docs[v.doc := docs'[v.doc]]
    requires forall e :: e in docs && e != v.doc ==> ChainInv(log, e, docs[e])
    requires ChainInv(log + [v], v.doc, docs'[v.doc])
    ensures forall e :: e in docs' ==> ChainInv(log + [v], e, docs'[e])
  {
    forall e | e in docs' ensures ChainInv(log + [v], e, docs'[e]) {
      if e != v.doc { OtherChainKept(log, v, e, docs[e]); }
    }
  }

  lemma {:induction false} AppendKeepsPaths(docs: map<DocId, Doc>, d: DocId, doc: Doc)
    requires PathsAreUnique(docs) && d in docs
    requires doc.store == docs[d].store && doc.path == docs[d].path && (docs[d].deleted ==> doc.deleted)
    ensures PathsAreUnique(docs[d := doc])
  {
    forall e | e in docs && e != d ensures !SamePlace(docs[e], doc) && !SamePlace(doc, docs[e]) {
      assert !SamePlace(docs[e], docs[d]);
    }
  }

  /** Documents other than the one written keep agreeing with the log. */
  lemma {:induction false} AppendKeepsDocs(log: seq<Version>, v: Version, docs: map<DocId, Doc>, docs': map<DocId, Doc>)
    requires v.doc in docs' && docs' == docs[v.doc := docs'[v.doc]]
    requires forall e :: e in docs && e != v.doc ==> DocInv(log, docs[e])
    requires DocInv(log + [v], docs'[v.doc])
    ensures forall e :: e in docs' ==> DocInv(log + [v], docs'[e])
  {
  }

  lemma {:induction false} NewDocHasNoVersions(log: seq<Version>, n: nat, d: DocId)
    requires n <= |log| && forall i :: 0 <= i < n ==> log[i].doc != d
    ensures VersionsOf(log, n, d) == []
  {
    if n > 0 { NewDocHasNoVersions(log, n - 1, d); }
  }

  function Created(m: Memory, d: DocId, store: string, path: string, content: string): (m': Memory) {
    Memory(m.docs[d := Doc(store, path, content, Digest(content), |m.log|, false)],
           m.log + [Version(d, CREATE, Some(content), None)])
  }

  lemma {:induction false} CreateKeepsInv(m: Memory, d: DocId, store: string, path: string, content: string)
    requires Inv(m) && d !in m.docs && At(m, store, path) == {}
    ensures Inv(Created(m, d, store, path, content))
  {
    var m' := Created(m, d, store, path, content);
    var v := Version(d, CREATE, Some(content), None);
    NewDocHasNoVersions(m.log, |m.log|, d);
    LogGrows(m.log, v, m.docs.Keys);
    assert m'.docs.Keys == m.docs.Keys + {d};
    OwnChainGrows(m.log, v, m'.docs[d]);
    forall e | e in m'.docs ensures ChainInv(m'.log, e, m'.docs[e]) {
      if e != d { OtherChainKept(m.log, v, e, m.docs[e]); }
    }
    assert forall e :: e in m.docs && e != v.doc ==> DocInv(m.log, m.docs[e]);
    AppendKeepsDocs(m.log, v, m.docs, m'.docs);
    CreateKeepsPaths(m, d, m'.docs[d]);
  }

  lemma {:induction false} CreateKeepsPaths(m: Memory, d: DocId, doc: Doc)
    requires PathsAreUnique(m.docs) && At(m, doc.store, doc.path) == {}
    ensures PathsAreUnique(m.docs[d := doc])
  {
    forall e | e in m.docs ensures !SamePlace(m.docs[e], doc) {
      assert e !in At(m, doc.store, doc.path);
    }
  }

  function Redacted(m: Memory, v: nat): (m': Memory)
    requires v < |m.log|
  {
    m.(log := m.log[v := m.log[v].(content := None)])
  }

  /** Redaction touches no link. */
  lemma {:induction false} RedactKeepsLinks(log: seq<Version>, v: nat, owners: set<DocId>)
    requires LogInv(log, owners) && v < |log|
    ensures var log' := log[v := log[v].(content := None)];
            LogInv(log', owners) && SameLinks(log, log')
  {
  }

  lemma {:induction false} RedactKeepsDoc(log: seq<Version>, v: nat, d: DocId, doc: Doc)
    requires LinksBack(log) && v < |log| && ChainInv(log, d, doc) && DocInv(log, doc)
    ensures var log' := log[v := log[v].(content := None)];
            LinksBack(log') && ChainInv(log', d, doc) && DocInv(log', doc)
  {
    var log' := log[v := log[v].(content := None)];
    assert SameLinks(log, log') && LinksBack(log');
    ChainDependsOnLinks(log, log', doc.current);
    VersionsDependOnLinks(log, log', |log|, d);
  }

  lemma {:induction false} RedactKeepsInv(m: Memory, v: nat)
    requires Inv(m) && v < |m.log|
    ensures Inv(Redacted(m, v))
  {
    RedactKeepsLinks(m.log, v, m.docs.Keys);
    var m' := Redacted(m, v);
    forall e | e in m'.docs ensures ChainInv(m'.log, e, m'.docs[e]) && DocInv(m'.log, m'.docs[e]) {
      assert ChainInv(m.log, e, m.docs[e]);
      RedactKeepsDoc(m.log, v, e, m.docs[e]);
    }
  }

  // ---------------------------------------------------------------- the writes

  predicate Live(m: Memory, d: DocId) {
    d in m.docs && !m.docs[d].deleted
  }

  /** The live documents at a path of a store. */
  function At(m: Memory, store: string, path: string): (ids: set<DocId>) {
    set d | d in m.docs && !m.docs[d].deleted && m.docs[d].store == store && m.docs[d].path == path
  }

  function Rewritten(doc: Doc, content: string): (doc': Doc)
    ensures doc'.sha == Digest(doc'.content) && doc'.content == content
  {
    doc.(content := content, sha := Digest(content))
  }

  /** Whether a write goes through. A create needs a new id; the rest fail as the service does. */
  ghost predicate Succeeds(m: Memory, w: Write) {
    match w
    case Create(id, store, path, _) => id !in m.docs && At(m, store, path) == {}
    case Update(id, expected, _) => Live(m, id) && m.docs[id].sha == expected
    case Patch(id, expected, _) => Live(m, id) && m.docs[id].sha == expected
    case Remember(id, store, path, _, expectedSha) =>
      if At(m, store, path) == {} then id !in m.docs
      else At(m, store, path) == {id} && (expectedSha.Some? ==> m.docs[id].sha == expectedSha.value)
    case Delete(id) => Live(m, id)
    case Redact(v) => v < |m.log|
  }

  ghost function Apply(m: Memory, w: Write): (m': Memory)
  {
    if !Succeeds(m, w) then m else
    match w
    case Create(id, store, path, content) => Created(m, id, store, path, content)
    case Update(id, _, newContent) =>
      var doc := Rewritten(m.docs[id], newContent.GetOr(m.docs[id].content));
      Append(m, id, doc, UPDATE, Some(doc.content))
    case Patch(id, _, content) => Append(m, id, Rewritten(m.docs[id], content), PATCH, Some(content))
    case Remember(id, store, path, content, _) =>
      if At(m, store, path) == {} then Created(m, id, store, path, content)
      else assert id in At(m, store, path); Append(m, id, Rewritten(m.docs[id], content), UPDATE, Some(content))
    case Delete(id) => Append(m, id, m.docs[id].(deleted := true), DELETE, None)
    case Redact(v) => Redacted(m, v)
  }

  lemma {:induction false} WriteKeepsInv(m: Memory, w: Write)
    requires Inv(m)
    ensures Inv(Apply(m, w))
  {
    if Succeeds(m, w) {
      match w
      case Create(id, store, path, content) => CreateKeepsInv(m, id, store, path, content);
      case Update(id, _, newContent) =>
        var doc := Rewritten(m.docs[id], newContent.GetOr(m.docs[id].content));
        AppendKeepsInv(m, id, doc, UPDATE, Some(doc.content));
      case Patch(id, _, content) => AppendKeepsInv(m, id, Rewritten(m.docs[id], content), PATCH, Some(content));
      case Remember(id, store, path, content, _) =>
        if At(m, store, path) == {} {
          CreateKeepsInv(m, id, store, path, content);
        } else {
          assert id in At(m, store, path);
          AppendKeepsInv(m, id, Rewritten(m.docs[id], content), UPDATE, Some(content));
        }
      case Delete(id) =>
        assert DocInv(m.log, m.docs[id]);
        AppendKeepsInv(m, id, m.docs[id].(deleted := true), DELETE, None);
      case Redact(v) => RedactKeepsInv(m, v);
    }
  }

  ghost function ApplyAll(m: Memory, ws: seq<Write>): (m': Memory)
    decreases |ws|
  {
    if ws == [] then m else ApplyAll(Apply(m, ws[0]), ws[1..])
  }

  lemma {:induction false} WritesKeepInv(m: Memory, ws: seq<Write>)
    requires Inv(m)
    ensures Inv(ApplyAll(m, ws))
    decreases |ws|
  {
    if ws != [] {
      WriteKeepsInv(m, ws[0]);
      WritesKeepInv(Apply(m, ws[0]), ws[1..]);
    }
  }

  /** A write of `text` under `op`: one version more, linked to the last one, and no other document changed. */
  ghost predicate Wrote(m: Memory, m': Memory, d: DocId, op: Operation, text: Option<string>) {
    && d in m'.docs && m'.docs[d].current == |m.log| && m'.docs[d].deleted == (op == DELETE)
    && (d in m.docs ==> m'.docs[d].store == m.docs[d].store && m'.docs[d].path == m.docs[d].path)
    && (text.Some? ==> m'.docs[d].content == text.value)
    && (text.None? && d in m.docs ==> m'.docs[d].content == m.docs[d].content)
    && m'.docs[d].sha == Digest(m'.docs[d].content)
    && m'.log == m.log + [Version(d, op, text, if d in m.docs then Some(m.docs[d].current) else None)]
    && m'.docs.Keys == m.docs.Keys + {d}
    && forall e :: e in m.docs && e != d ==> m'.docs[e] == m.docs[e]
  }

  lemma {:induction false} RewriteWrites(m: Memory, d: DocId, content: string)
    requires d in m.docs && !m.docs[d].deleted
    ensures Wrote(m, Append(m, d, Rewritten(m.docs[d], content), UPDATE, Some(content)), d, UPDATE, Some(content))
  {
  }

  lemma {:induction false} WriteKeepsLog(m: Memory, w: Write, i: nat)
    requires i < |m.log|
    ensures var m' := Apply(m, w);
            && i < |m'.log| && m'.log[i].doc == m.log[i].doc
            && m'.log[i].op == m.log[i].op && m'.log[i].prev == m.log[i].prev
            && m'.log[i].content == if w == Redact(i) then None else m.log[i].content
  {
  }

  /** The log is append-only: a version keeps owner, operation and link, and loses its text only by redaction. */
  lemma {:induction false} LogIsAppendOnly(m: Memory, ws: seq<Write>, i: nat)
    requires i < |m.log|
    ensures var m' := ApplyAll(m, ws);
            && i < |m'.log| && m'.log[i].doc == m.log[i].doc
            && m'.log[i].op == m.log[i].op && m'.log[i].prev == m.log[i].prev
            && m'.log[i].content == if Redact(i) in ws then None else m.log[i].content
    decreases |ws|
  {
    if ws != [] {
      WriteKeepsLog(m, ws[0], i);
      LogIsAppendOnly(Apply(m, ws[0]), ws[1..], i);
      assert ws == [ws[0]] + ws[1..];
    }
  }

  lemma {:induction false} ChainEndsAtCreate(log: seq<Version>, v: nat)
    requires LinksBack(log) && v < |log|
    ensures var ids := Chain(log, v);
            && |ids| > 0 && ids[0] == v && (forall i :: 0 <= i < |ids| ==> ids[i] < |log|)
            && log[ids[|ids| - 1]].prev.None?
            && forall i :: 0 <= i < |ids| - 1 ==> log[ids[i]].prev == Some(ids[i + 1])
    decreases v
  {
    if log[v].prev.Some? { ChainEndsAtCreate(log, log[v].prev.value); }
  }

  /** `ids` are all the versions of `d`, newest first; the oldest, and only it, is the create. */
  ghost predicate FullHistory(log: seq<Version>, d: DocId, ids: seq<nat>) {
    && (forall i :: i in ids <==> 0 <= i < |log| && log[i].doc == d)
    && Decreasing(ids)
    && |ids| > 0
    && forall a :: 0 <= a < |ids| && 0 <= ids[a] < |log| ==> (log[ids[a]].op == CREATE <==> a == |ids| - 1)
  }

  lemma {:induction false} ChainIsFullHistory(log: seq<Version>, owners: set<DocId>, d: DocId, doc: Doc)
    requires LogInv(log, owners) && ChainInv(log, d, doc)
    ensures FullHistory(log, d, Chain(log, doc.current))
  {
    VersionsOfIsAll(log, |log|, d);
    ChainEndsAtCreate(log, doc.current);
    var ids := Chain(log, doc.current);
    forall a | 0 <= a < |ids| && 0 <= ids[a] < |log|
      ensures log[ids[a]].op == CREATE <==> a == |ids| - 1
    {
      assert a == |ids| - 1 || log[ids[a]].prev == Some(ids[a + 1]);
    }
  }

  /**
   Under any sequence of atomic writes, the links from a document's current version visit
   all its versions exactly once, newest first, and end at its only create version; and the
   current version tells the document's text unless it is a deletion or was redacted.
   */
  lemma {:induction false} HistoryIsComplete(ws: seq<Write>, d: DocId)
    ensures var m := ApplyAll(Memory(map[], []), ws);
            LinksBack(m.log) && (d in m.docs ==>
              && m.docs[d].current < |m.log|
              && FullHistory(m.log, d, Chain(m.log, m.docs[d].current))
              && m.docs[d].sha == Digest(m.docs[d].content)
              && m.log[m.docs[d].current].content.GetOr(m.docs[d].content) == m.docs[d].content)
  {
    var start := Memory(map[], []);
    assert Inv(start);
    WritesKeepInv(start, ws);
    var m := ApplyAll(start, ws);
    if d in m.docs {
      assert ChainInv(m.log, d, m.docs[d]) && DocInv(m.log, m.docs[d]);
      ChainIsFullHistory(m.log, m.docs.Keys, d, m.docs[d]);
    }
  }

  // ---------------------------------------------------------------- why atomicity matters

  /**
   The writes to one document as they reach the database, each with the earlier read that it
   was made from. Remembering commits its version and its row together; deleting writes the
   version first and saves the row in a second statement, which may never come.
   */
  datatype Act =
    | Commit(read: Doc, content: string)
    | DeleteVersion(read: Doc)
    | DeleteSave(read: Doc, version: nat)

  /** A save writes back every column of the row that was read. */
  function Do(m: Memory, d: DocId, a: Act): (m': Memory) {
    match a
    case Commit(read, content) =>
      Memory(m.docs[d := Rewritten(read, content).(current := |m.log|)],
             m.log + [Version(d, UPDATE, Some(content), Some(read.current))])
    case DeleteVersion(read) => m.(log := m.log + [Version(d, DELETE, None, Some(read.current))])
    case DeleteSave(read, version) => m.(docs := m.docs[d := read.(deleted := true, current := version)])
  }

  /** The newest version of a document that has one. */
  function Newest(log: seq<Version>, d: DocId): (v: nat)
    requires VersionsOf(log, |log|, d) != []
    ensures v < |log|
  {
    VersionsOfIsAll(log, |log|, d);
    assert VersionsOf(log, |log|, d)[0] in VersionsOf(log, |log|, d);
    VersionsOf(log, |log|, d)[0]
  }

  predicate Recorded(m: Memory, d: DocId) {
    LinksBack(m.log) && d in m.docs && VersionsOf(m.log, |m.log|, d) != []
  }

  /** From the newest version, the links visit all versions. */
  predicate Linear(log: seq<Version>, d: DocId)
    requires LinksBack(log) && VersionsOf(log, |log|, d) != []
  {
    Chain(log, Newest(log, d)) == VersionsOf(log, |log|, d)
  }

  /** The history is complete: the links from the current version visit all versions. */
  predicate Complete(m: Memory, d: DocId)
    requires Recorded(m, d)
  {
    ChainInv(m.log, d, m.docs[d])
  }

  lemma {:induction false} CompleteMeansLinear(m: Memory, d: DocId)
    requires Recorded(m, d)
    ensures Complete(m, d) <==> Linear(m.log, d) && m.docs[d].current == Newest(m.log, d)
  {
    if m.docs[d].current < |m.log| {
      assert Chain(m.log, m.docs[d].current)[0] == m.docs[d].current;
    }
  }

  /** A new version keeps the line of versions exactly if it links to the newest one. */
  lemma {:induction false} VersionKeepsLine(log: seq<Version>, d: DocId, v: Version)
    requires LinksBack(log) && VersionsOf(log, |log|, d) != [] && v.doc == d && v.prev.Some? && v.prev.value < |log|
    ensures LinksBack(log + [v]) && VersionsOf(log + [v], |log| + 1, d) != [] && Newest(log + [v], d) == |log|
    ensures Linear(log + [v], d) <==> Linear(log, d) && v.prev.value == Newest(log, d)
  {
    var log', n, prev := log + [v], |log|, v.prev.value;
    assert LinksBack(log');
    VersionsDependOnLinks(log, log', n, d);
    ChainDependsOnLinks(log, log', prev);
    var links, versions := Chain(log, prev), VersionsOf(log, n, d);
    assert Chain(log', n) == [n] + links && VersionsOf(log', n + 1, d) == [n] + versions;
    assert ([n] + links)[1..] == links && ([n] + versions)[1..] == versions;
    assert links[0] == prev;
  }

  /** The read shows a version that exists, and a save names one. */
  predicate Possible(m: Memory, a: Act) {
    a.read.current < |m.log| && (a.DeleteSave? ==> a.version < |m.log|)
  }

  /** The read was not overtaken: a version is linked to the newest one. */
  predicate Fresh(m: Memory, d: DocId, a: Act)
    requires Recorded(m, d)
  {
    a.DeleteSave? || a.read.current == Newest(m.log, d)
  }

  /** The act leaves the row at the newest version: no delete is half-way, and no late save goes back. */
  predicate Finished(m: Memory, d: DocId, a: Act)
    requires Recorded(m, d)
  {
    a.Commit? || (a.DeleteSave? && a.version == Newest(m.log, d))
  }

  /** The row points at a version that exists. */
  predicate CurrentExists(m: Memory, d: DocId)
    requires d in m.docs
  {
    m.docs[d].current < |m.log|
  }

  lemma {:induction false} ActStep(m: Memory, d: DocId, a: Act)
    requires Recorded(m, d) && Possible(m, a)
    ensures var m' := Do(m, d, a);
            && Recorded(m', d) && (CurrentExists(m, d) ==> CurrentExists(m', d))
            && (Linear(m'.log, d) <==> Linear(m.log, d) && Fresh(m, d, a))
            && (CurrentExists(m, d) ==> (m'.docs[d].current == Newest(m'.log, d) <==> Finished(m, d, a)))
  {
    if a.Commit? {
      VersionKeepsLine(m.log, d, Version(d, UPDATE, Some(a.content), Some(a.read.current)));
    } else if a.DeleteVersion? {
      VersionKeepsLine(m.log, d, Version(d, DELETE, None, Some(a.read.current)));
    }
  }

  function DoAll(m: Memory, d: DocId, acts: seq<Act>): (m': Memory)
    decreases |acts|
  {
    if acts == [] then m else DoAll(Do(m, d, acts[0]), d, acts[1..])
  }

  ghost predicate AllPossible(m: Memory, d: DocId, acts: seq<Act>)
    decreases |acts|
  {
    acts == [] || (Possible(m, acts[0]) && AllPossible(Do(m, d, acts[0]), d, acts[1..]))
  }

  /** No version was written from an overtaken read, and the last act left the row at the newest version. */
  ghost predicate Undisturbed(m: Memory, d: DocId, acts: seq<Act>)
    requires Recorded(m, d) && AllPossible(m, d, acts)
    decreases |acts|
  {
    acts == [] ||
    (ActStep(m, d, acts[0]);
     && Fresh(m, d, acts[0])
     && (|acts| == 1 ==> Finished(m, d, acts[0]))
     && Undisturbed(Do(m, d, acts[0]), d, acts[1..]))
  }

  /**
   Over any sequence of such writes to a document, its history is complete at the end if and
   only if it was in one line before, no version was written from an overtaken read, and the
   last write left the row at the newest version: it is not a delete that stopped half-way,
   nor the late save of one. A version that is cut out is lost for good.
   */
  lemma {:induction false} HistoryCompleteIff(m: Memory, d: DocId, acts: seq<Act>)
    requires Recorded(m, d) && CurrentExists(m, d) && AllPossible(m, d, acts) && acts != []
    ensures Recorded(DoAll(m, d, acts), d)
    ensures Complete(DoAll(m, d, acts), d) <==> Linear(m.log, d) && Undisturbed(m, d, acts)
    decreases |acts|
  {
    var m' := Do(m, d, acts[0]);
    ActStep(m, d, acts[0]);
    CompleteMeansLinear(m', d);
    if |acts| > 1 {
      HistoryCompleteIff(m', d, acts[1..]);
    } else {
      assert DoAll(m', d, acts[1..]) == m';
    }
  }

  /** A commit from an earlier read keeps the history complete exactly if no other write came in between. */
  lemma {:induction false} StaleCommitKeepsChainIff(m: Memory, d: DocId, read: Doc, content: string)
    requires Inv(m) && d in m.docs && read.current < |m.log|
    ensures var m' := Do(m, d, Commit(read, content));
            Recorded(m', d) && (Complete(m', d) <==> read.current == m.docs[d].current)
  {
    InvIsComplete(m, d);
    ActStep(m, d, Commit(read, content));
    CompleteMeansLinear(Do(m, d, Commit(read, content)), d);
  }

  lemma {:induction false} InvIsComplete(m: Memory, d: DocId)
    requires Inv(m) && d in m.docs
    ensures Recorded(m, d) && Complete(m, d) && Linear(m.log, d) && m.docs[d].current == Newest(m.log, d)
  {
    assert ChainInv(m.log, d, m.docs[d]);
    assert Chain(m.log, m.docs[d].current)[0] == m.docs[d].current;
    CompleteMeansLinear(m, d);
  }

  /** A delete that stops between its statements leaves a version that no link reaches; the second one repairs that. */
  lemma {:induction false} HalfDeleteHidesVersion(m: Memory, d: DocId)
    requires Inv(m) && d in m.docs
    ensures var half := Do(m, d, DeleteVersion(m.docs[d]));
            var done := Do(half, d, DeleteSave(m.docs[d], |m.log|));
            && Recorded(half, d) && !Complete(half, d)
            && Recorded(done, d) && Complete(done, d) && done.docs[d].deleted
  {
    InvIsComplete(m, d);
    var half := Do(m, d, DeleteVersion(m.docs[d]));
    var done := Do(half, d, DeleteSave(m.docs[d], |m.log|));
    assert DocInv(m.log, m.docs[d]);
    ActStep(m, d, DeleteVersion(m.docs[d]));
    CompleteMeansLinear(half, d);
    ActStep(half, d, DeleteSave(m.docs[d], |m.log|));
    CompleteMeansLinear(done, d);
  }

  // ---------------------------------------------------------------- the service

  datatype WriteError = NotFound | Conflict | PathTaken

  class MemoryService {
    var docs: map<DocId, Doc>
    var versions: seq<Version>

    ghost function State(): (m: Memory)
      reads this
    {
      Memory(docs, versions)
    }

    ghost predicate Valid()
      reads this
    {
      Inv(State())
    }

    constructor ()
      ensures Valid() && State() == Memory(map[], [])
    {
      docs, versions := map[], [];
    }

    method CreateDocument(id: DocId, store: string, path: string, content: string) returns (error: Option<WriteError>)
      requires Valid() && id !in docs
      modifies this
      ensures Valid() && State() == Apply(old(State()), Create(id, store, path, content))
      ensures error.None? <==>
                forall d :: Live(old(State()), d) ==> old(docs)[d].store != store || old(docs)[d].path != path
      ensures error.None? ==> Wrote(old(State()), State(), id, CREATE, Some(content))
      ensures error.None? ==> docs[id].store == store && docs[id].path == path
      ensures error.Some? ==> error.value == PathTaken && State() == old(State())
    {
      var found := set d | d in docs && !docs[d].deleted && docs[d].store == store && docs[d].path == path;
      assert found == At(State(), store, path);
      if found != {} {
        ghost var d :| d in found;
        assert Live(State(), d);
        return Some(PathTaken);
      }
      assert forall d :: Live(State(), d) ==> d !in found;
      WriteKeepsInv(State(), Create(id, store, path, content));
      docs := docs[id := Doc(store, path, content, Digest(content), |versions|, false)];
      versions := versions + [Version(id, CREATE, Some(content), None)];
      error := None;
    }

    method UpdateDocument(id: DocId, expected: Digest, newContent: Option<string>) returns (error: Option<WriteError>)
      requires Valid()
      modifies this
      ensures Valid() && State() == Apply(old(State()), Update(id, expected, newContent))
      ensures error.None? <==> Live(old(State()), id) && old(docs)[id].sha == expected
      ensures error == Some(Conflict) <==> Live(old(State()), id) && old(docs)[id].sha != expected
      ensures error.None? ==>
                Wrote(old(State()), State(), id, UPDATE, Some(newContent.GetOr(old(docs)[id].content)))
      ensures error.Some? ==> error.value != PathTaken && State() == old(State())
    {
      WriteKeepsInv(State(), Update(id, expected, newContent));
      if id !in docs || docs[id].deleted { return Some(NotFound); }
      if docs[id].sha != expected { return Some(Conflict); }
      var doc := docs[id];
      var content := newContent.GetOr(doc.content);
      var previous := doc.current;
      doc := doc.(content := content, sha := Digest(content), current := |versions|);
      versions := versions + [Version(id, UPDATE, Some(content), Some(previous))];
      docs := docs[id := doc];
      error := None;
    }

    method PatchDocument(id: DocId, expected: Digest, content: string) returns (error: Option<WriteError>)
      requires Valid()
      modifies this
      ensures Valid() && State() == Apply(old(State()), Patch(id, expected, content))
      ensures error.None? <==> Live(old(State()), id) && old(docs)[id].sha == expected
      ensures error == Some(Conflict) <==> Live(old(State()), id) && old(docs)[id].sha != expected
      ensures error.None? ==> Wrote(old(State()), State(), id, PATCH, Some(content))
      ensures error.Some? ==> error.value != PathTaken && State() == old(State())
    {
      WriteKeepsInv(State(), Patch(id, expected, content));
      if id !in docs || docs[id].deleted { return Some(NotFound); }
      if docs[id].sha != expected { return Some(Conflict); }
      var doc := docs[id];
      var previous := doc.current;
      doc := doc.(content := content, sha := Digest(content), current := |versions|);
      versions := versions + [Version(id, PATCH, Some(content), Some(previous))];
      docs := docs[id := doc];
      error := None;
    }

    /** `id` is the id a new document would get; an empty expected digest asks for no check. */
    method AgentRemember(id: DocId, store: string, path: string, content: string, expectedSha: Option<Digest>)
      returns (result: Result<DocId, WriteError>)
      requires Valid() && id !in docs
      modifies this
      ensures Valid()
      ensures var was := old(State());
              var found := At(was, store, path);
              if found == {} then
                && result == Ok(id) && State() == Apply(was, Remember(id, store, path, content, expectedSha))
                && Wrote(was, State(), id, CREATE, Some(content)) && At(State(), store, path) == {id}
              else
                exists d :: (
                  && found == {d} && State() == Apply(was, Remember(d, store, path, content, expectedSha))
                  && if expectedSha.Some? && was.docs[d].sha != expectedSha.value
                     then result == Err(Conflict) && State() == was
                     else result == Ok(d) && Wrote(was, State(), d, UPDATE, Some(content)))
    {
      var d := FindAt(store, path);
      if d.None? {
        var _ := CreateDocument(id, store, path, content);
        return Ok(id);
      }
      if expectedSha.Some? && docs[d.value].sha != expectedSha.value { return Err(Conflict); }
      Rewrite(d.value, content);
      result := Ok(d.value);
    }

    /** Replaces the text of a document and appends the version that says so. */
    method Rewrite(d: DocId, content: string)
      requires Valid() && d in docs
      modifies this
      ensures Valid() && (!old(docs)[d].deleted ==> Wrote(old(State()), State(), d, UPDATE, Some(content)))
      ensures State() == Append(old(State()), d, Rewritten(old(docs)[d], content), UPDATE, Some(content))
    {
      AppendKeepsInv(State(), d, Rewritten(docs[d], content), UPDATE, Some(content));
      if !docs[d].deleted { RewriteWrites(State(), d, content); }
      ghost var after := Append(State(), d, Rewritten(docs[d], content), UPDATE, Some(content));
      var existing := docs[d];
      versions := versions + [Version(d, UPDATE, Some(content), Some(existing.current))];
      docs := docs[d := existing.(content := content, sha := Digest(content), current := |versions| - 1)];
      assert State() == after;
    }

    /** The live document at a path; the index on paths leaves at most one. */
    method FindAt(store: string, path: string) returns (d: Option<DocId>)
      requires Valid()
      ensures At(State(), store, path) == if d.None? then {} else {d.value}
      ensures d.Some? ==> d.value in docs
    {
      var found := set d | d in docs && !docs[d].deleted && docs[d].store == store && docs[d].path == path;
      assert found == At(State(), store, path);
      if found == {} { return None; }
      var x :| x in found;
      assert forall y :: y in found ==> SamePlace(docs[x], docs[y]);
      assert found == {x};
      d := Some(x);
    }

    method DeleteDocument(id: DocId) returns (done: bool)
      requires Valid()
      modifies this
      ensures Valid() && State() == Apply(old(State()), Delete(id))
      ensures done <==> Live(old(State()), id)
      ensures done ==> Wrote(old(State()), State(), id, DELETE, None)
      ensures !done ==> State() == old(State())
    {
      WriteKeepsInv(State(), Delete(id));
      if id !in docs || docs[id].deleted { return false; }
      assert DocInv(versions, docs[id]);
      versions := versions + [Version(id, DELETE, None, Some(docs[id].current))];
      docs := docs[id := docs[id].(deleted := true, current := |versions| - 1)];
      done := true;
    }

    method RedactVersion(v: nat) returns (found: bool)
      requires Valid()
      modifies this
      ensures Valid() && State() == Apply(old(State()), Redact(v)) && docs == old(docs)
      ensures found <==> v < |old(versions)|
      ensures found ==> versions == old(versions)[v := old(versions)[v].(content := None)]
      ensures !found ==> State() == old(State())
    {
      WriteKeepsInv(State(), Redact(v));
      if v >= |versions| { return false; }
      versions := versions[v := versions[v].(content := None)];
      found := true;
    }
  }
}
