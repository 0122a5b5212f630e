/** The shared Chroma collection `personal_brain` as seen by `add_memory`
    and `query_memory`. Embedding and similarity search are opaque: a search
    is given by the ranked positions of the records it hits. */
module Memory {

  import opened PyText
  import PyCall

  /** One stored entry: its id, its document and its metadata. */
  datatype Record = Record(id: string, document: string, metadata: map<string, string>)

  /** The Python values a query result holds. */
  datatype PyValue = Str(s: string) | List(items: seq<PyValue>) | NoneValue

  /** The id `add_memory` gives when the collection holds `count` ids:
      `f"mem_{count + 1}"`. */
  function MemId(count: nat): string {
    "mem_" + IntToString(count + 1)
  }

  lemma MemIdInjective(a: nat, b: nat)
    requires MemId(a) == MemId(b)
    ensures a == b
  {
    assert MemId(a)[4..] == IntToString(a + 1);
    assert MemId(b)[4..] == IntToString(b + 1);
    IntToStringInjective(a + 1, b + 1);
  }

  /** The ids of a collection written only by `add_memory`: the i-th record
      (from 0) is `mem_{i + 1}`. */
  predicate Numbered(records: seq<Record>) {
    forall i :: 0 <= i < |records| ==> records[i].id == MemId(i)
  }

  /** With count-derived ids, no two records share an id. */
  lemma NumberedIdsDistinct(records: seq<Record>)
    requires Numbered(records)
    ensures forall i, j :: 0 <= i < j < |records| ==> records[i].id != records[j].id
  {
    forall i, j | 0 <= i < j < |records|
      ensures records[i].id != records[j].id
    {
      if records[i].id == records[j].id {
        MemIdInjective(i, j);
      }
    }
  }

  /** The collection as a shared mutable object. */
  class Collection {
    var records: seq<Record>

    constructor ()
      ensures records == []
    {
      records := [];
    }

    /** `add_memory(document, meta)`: one record appended, its id numbered
        from the current id count. */
    method AddMemory(document: string, meta: map<string, string>)
      modifies this
      ensures records == old(records) + [Record(MemId(|old(records)|), document, meta)]
      ensures Numbered(old(records)) ==> Numbered(records)
      ensures |records| == |old(records)| + 1
    {
      var id := MemId(|records|);
      records := records + [Record(id, document, meta)];
    }
  }

  /** Python truthiness of a value. */
  predicate Truthy(v: PyValue) {
    match v
    case Str(s) => s != []
    case List(xs) => xs != []
    case NoneValue => false
  }

  /** `query_memory` after the store's search returned `results`: take
      `results.get("documents", [])` and, when it is a non-empty list whose
      first element is a list, return that first list. */
  function QueryMemory(results: map<string, PyValue>): (r: PyValue)
    ensures "documents" !in results ==> r == List([])
    ensures "documents" in results ==>
      r == results["documents"]
      || (results["documents"].List? && results["documents"].items != [] && r == results["documents"].items[0])
    ensures "documents" in results && results["documents"].List? ==> r.List?
  {
    var docs := if "documents" in results then results["documents"] else List([]);
    if Truthy(docs) && docs.List? && docs.items[0].List? then docs.items[0] else docs
  }

  function Strs(docs: seq<string>): seq<PyValue> {
    seq(|docs|, i requires 0 <= i < |docs| => Str(docs[i]))
  }

  /** The nested shape Chroma returns for one query text, `[[d1, d2, ...]]`,
      is flattened to the inner list. */
  lemma QueryFlattensNested(docs: seq<string>, others: seq<PyValue>)
    ensures QueryMemory(map["documents" := List([List(Strs(docs))] + others)]) == List(Strs(docs))
  {
  }

  /** A flat list of documents is returned unchanged. */
  lemma QueryKeepsFlat(docs: seq<string>)
    ensures QueryMemory(map["documents" := List(Strs(docs))]) == List(Strs(docs))
  {
    if docs != [] {
      assert Strs(docs)[0] == Str(docs[0]);
    }
  }

  /** Without a `documents` key the result is the empty list. */
  lemma QueryWithoutDocuments(results: map<string, PyValue>)
    requires "documents" !in results
    ensures QueryMemory(results) == List([])
  {
  }

  /** What the store's similarity search returns for one query text whose
      ranked hits are the records at positions `hits`. */
  function SearchResults(records: seq<Record>, hits: seq<nat>): map<string, PyValue>
    requires forall k :: 0 <= k < |hits| ==> hits[k] < |records|
  {
    map["ids" := List([List(seq(|hits|, k requires 0 <= k < |hits| => Str(records[hits[k]].id)))]),
        "documents" := List([List(seq(|hits|, k requires 0 <= k < |hits| => Str(records[hits[k]].document)))])]
  }

  /** `query_memory` returns the documents of the hits, in rank order,
      whatever namespace their metadata names: no metadata filter is
      applied. */
  lemma QueryReturnsHitDocuments(records: seq<Record>, hits: seq<nat>)
    requires forall k :: 0 <= k < |hits| ==> hits[k] < |records|
    ensures var r := QueryMemory(SearchResults(records, hits));
      r.List? && |r.items| == |hits|
      && forall k :: 0 <= k < |hits| ==> r.items[k] == Str(records[hits[k]].document)
  {
  }

  /** Two collections that differ only in metadata give the same answer to
      the same search: a record tagged with another namespace is returned
      like any other. */
  lemma QueryIgnoresMetadata(records: seq<Record>, records': seq<Record>, hits: seq<nat>)
    requires |records| == |records'|
    requires forall i :: 0 <= i < |records| ==>
      records[i].id == records'[i].id && records[i].document == records'[i].document
    requires forall k :: 0 <= k < |hits| ==> hits[k] < |records|
    ensures QueryMemory(SearchResults(records, hits)) == QueryMemory(SearchResults(records', hits))
  {
    var ids := seq(|hits|, k requires 0 <= k < |hits| => Str(records[hits[k]].id));
    var ids' := seq(|hits|, k requires 0 <= k < |hits| => Str(records'[hits[k]].id));
    var docs := seq(|hits|, k requires 0 <= k < |hits| => Str(records[hits[k]].document));
    var docs' := seq(|hits|, k requires 0 <= k < |hits| => Str(records'[hits[k]].document));
    assert ids == ids';
    assert docs == docs';
  }

  /** `def query_memory(query: str, n_results: int = 5)`. */
  function QueryMemorySignature(): PyCall.Signature {
    PyCall.Signature("query_memory", [PyCall.Param("query", false), PyCall.Param("n_results", true)])
  }

  /** `def add_memory(document: str, meta: dict = {})`. */
  function AddMemorySignature(): PyCall.Signature {
    PyCall.Signature("add_memory", [PyCall.Param("document", false), PyCall.Param("meta", true)])
  }
}
