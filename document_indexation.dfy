/** Indexer.do_indexation: argument validation (including the index-name pattern), then
    split, embed and create-or-append against a vector store. The store (Pinecone) is an
    abstract state: the set of named indexes, their records per namespace, and the calls made. */
module DocumentIndexation {
  import opened PyValues

  /** Chunking parameters handed to the text splitter. */
  const ChunkSize: nat := 1000
  const ChunkOverlap: nat := 200

  // ---------------------------------------------------------------------------------------
  // The index-name pattern ^[a-z0-9][a-z0-9-]*[a-z0-9]$ as Python's re.match applies it

  predicate IsLowerAlnum(c: char) {
    'a' <= c <= 'z' || '0' <= c <= '9'
  }

  predicate IsNameChar(c: char) {
    IsLowerAlnum(c) || c == '-'
  }

  /** What Python's `$` accepts after the last matched character: the end of the string,
      or a single newline that ends it. */
  predicate AtEnd(rest: string) {
    rest == "" || rest == "\n"
  }

  /** `[a-z0-9-]*[a-z0-9]$` matched at the start of `t`, the starred class trying every length. */
  predicate MatchesTail(t: string)
    decreases |t|
  {
    && |t| > 0
    && ((IsLowerAlnum(t[0]) && AtEnd(t[1..])) || (IsNameChar(t[0]) && MatchesTail(t[1..])))
  }

  /** re.match(r"^[a-z0-9][a-z0-9-]*[a-z0-9]$", name) finds a match. */
  predicate NamePatternMatches(name: string) {
    |name| > 0 && IsLowerAlnum(name[0]) && MatchesTail(name[1..])
  }

  /** The rule the error message states: lower-case alphanumerics or '-', starting and
      ending with an alphanumeric (so at least two characters). */
  predicate WellFormedIndexName(name: string) {
    && |name| >= 2
    && (forall k :: 0 <= k < |name| ==> IsNameChar(name[k]))
    && IsLowerAlnum(name[0])
    && IsLowerAlnum(name[|name| - 1])
  }

  /** What `[a-z0-9-]*[a-z0-9]` matches in full. */
  predicate WellFormedTail(t: string) {
    && |t| >= 1
    && (forall k :: 0 <= k < |t| ==> IsNameChar(t[k]))
    && IsLowerAlnum(t[|t| - 1])
  }

  lemma {:induction false} MatchesTailIff(t: string)
    ensures MatchesTail(t) <==>
            || WellFormedTail(t)
            || (|t| >= 1 && t[|t| - 1] == '\n' && WellFormedTail(t[..|t| - 1]))
    decreases |t|
  {
    if |t| > 0 {
      var r := t[1..];
      MatchesTailIff(r);
      // a well-formed tail is one name character followed by a well-formed tail, or a lone alphanumeric
      assert WellFormedTail(t) <==> (|t| == 1 && IsLowerAlnum(t[0])) || (IsNameChar(t[0]) && WellFormedTail(r)) by {
        if IsNameChar(t[0]) && WellFormedTail(r) {
          forall k | 0 <= k < |t| ensures IsNameChar(t[k]) {
            if k > 0 { assert t[k] == r[k - 1]; }
          }
        }
        if WellFormedTail(t) && |t| > 1 {
          forall k | 0 <= k < |r| ensures IsNameChar(r[k]) {
            assert r[k] == t[k + 1];
          }
        }
      }
      if |t| >= 2 {
        var u, v := t[..|t| - 1], r[..|r| - 1];
        assert u[1..] == v;
        assert WellFormedTail(u) <==> (|u| == 1 && IsLowerAlnum(u[0])) || (IsNameChar(u[0]) && WellFormedTail(v)) by {
          if IsNameChar(u[0]) && WellFormedTail(v) {
            forall k | 0 <= k < |u| ensures IsNameChar(u[k]) {
              if k > 0 { assert u[k] == v[k - 1]; }
            }
          }
          if WellFormedTail(u) && |u| > 1 {
            forall k | 0 <= k < |v| ensures IsNameChar(v[k]) {
              assert v[k] == u[k + 1];
            }
          }
        }
      }
    }
  }

  /** The pattern accepts exactly the well-formed names, plus each of them followed by one
      newline, because `$` also matches just before a final newline. */
  lemma NamePatternIff(name: string)
    ensures NamePatternMatches(name) <==>
            || WellFormedIndexName(name)
            || (|name| >= 1 && name[|name| - 1] == '\n' && WellFormedIndexName(name[..|name| - 1]))
  {
    if |name| > 0 {
      var t := name[1..];
      MatchesTailIff(t);
      assert WellFormedIndexName(name) <==> IsLowerAlnum(name[0]) && WellFormedTail(t) by {
        if IsLowerAlnum(name[0]) && WellFormedTail(t) {
          forall k | 0 <= k < |name| ensures IsNameChar(name[k]) {
            if k > 0 { assert name[k] == t[k - 1]; }
          }
        }
        if WellFormedIndexName(name) {
          forall k | 0 <= k < |t| ensures IsNameChar(t[k]) {
            assert t[k] == name[k + 1];
          }
        }
      }
      if |name| >= 2 {
        var u := name[..|name| - 1];
        assert u[1..] == t[..|t| - 1];
        assert WellFormedIndexName(u) <==> IsLowerAlnum(u[0]) && WellFormedTail(u[1..]) by {
          if IsLowerAlnum(u[0]) && WellFormedTail(u[1..]) {
            forall k | 0 <= k < |u| ensures IsNameChar(u[k]) {
              if k > 0 { assert u[k] == u[1..][k - 1]; }
            }
          }
          if WellFormedIndexName(u) {
            forall k | 0 <= k < |u[1..]| ensures IsNameChar(u[1..][k]) {
              assert u[1..][k] == u[k + 1];
            }
          }
        }
      }
    }
  }

  /** Names from the application and from the error cases it guards against. */
  lemma NamePatternExamples()
    ensures NamePatternMatches("index-risk") && NamePatternMatches("index")
    ensures NamePatternMatches("ab\n")
    ensures !NamePatternMatches("Bad_Name!") && !NamePatternMatches("a") && !NamePatternMatches("")
    ensures !NamePatternMatches("-ab") && !NamePatternMatches("ab-") && !NamePatternMatches("ab\n\n")
  {
    NamePatternIff("ab\n");
    assert "ab\n"[..2] == "ab";
    NamePatternIff("ab\n\n");
    NamePatternIff("Bad_Name!");
    assert !IsNameChar("Bad_Name!"[0]);
    NamePatternIff("-ab");
    NamePatternIff("ab-");
  }

  // ---------------------------------------------------------------------------------------
  // Argument validation

  /** `isinstance(documents, Sequence) and all(isinstance(doc, Document) for doc in documents)`.
      A str is a Sequence too, whose elements are one-character strings: only "" passes. */
  predicate DocumentsOk(documents: Value) {
    || (documents.List? && forall k :: 0 <= k < |documents.items| ==> documents.items[k].Doc?)
    || (documents.Str? && documents.s == "")
  }

  /** The page contents handed to the splitter. */
  function DocumentTexts(documents: Value): (texts: seq<string>)
    requires DocumentsOk(documents)
    ensures documents.List? ==> |texts| == |documents.items|
    ensures forall k :: 0 <= k < |texts| ==> documents.List? && texts[k] == documents.items[k].pageContent
  {
    if documents.Str? then []
    else seq(|documents.items|, k requires 0 <= k < |documents.items| => documents.items[k].pageContent)
  }

  /** The checks do_indexation makes, in order, before it touches anything external. */
  function ValidateIndexation(documents: Value, namespace: Value, indexName: Value, metric: Value, podType: Value): (r: Outcome)
    ensures r == Pass <==>
            && DocumentsOk(documents) && namespace.Str? && indexName.Str? && NamePatternMatches(indexName.s)
            && metric.Str? && podType.Str?
    ensures r.Raise? ==> r.error == ValueError || r.error == TypeError
  {
    if !DocumentsOk(documents) then Raise(ValueError)
    else if !namespace.Str? then Raise(TypeError)
    else if !indexName.Str? then Raise(ValueError)
    else if !NamePatternMatches(indexName.s) then Raise(ValueError)
    else if !metric.Str? then Raise(TypeError)
    else if !podType.Str? then Raise(TypeError)
    else Pass
  }

  /** Which argument problems raise TypeError and which raise ValueError, first failure first. */
  lemma ValidationErrorKinds(documents: Value, namespace: Value, indexName: Value, metric: Value, podType: Value)
    ensures ValidateIndexation(documents, namespace, indexName, metric, podType) == Raise(ValueError) <==>
            || !DocumentsOk(documents)
            || (namespace.Str? && (!indexName.Str? || !NamePatternMatches(indexName.s)))
    ensures ValidateIndexation(documents, namespace, indexName, metric, podType) == Raise(TypeError) <==>
            && DocumentsOk(documents)
            && (|| !namespace.Str?
                || (indexName.Str? && NamePatternMatches(indexName.s) && (!metric.Str? || !podType.Str?)))
  {
  }

  /** namespace defaults to None, and None is not a str: the default call always raises,
      with TypeError once the documents are acceptable. */
  lemma DefaultNamespaceRaises(documents: Value, indexName: Value, metric: Value, podType: Value)
    ensures ValidateIndexation(documents, None, indexName, metric, podType).Raise?
    ensures DocumentsOk(documents) ==> ValidateIndexation(documents, None, indexName, metric, podType) == Raise(TypeError)
  {
  }

  /** all() over an empty sequence is true: an empty document list passes the first check. */
  lemma EmptyDocumentListAccepted(namespace: string, indexName: string, metric: string, podType: string)
    requires NamePatternMatches(indexName)
    ensures ValidateIndexation(List([]), Str(namespace), Str(indexName), Str(metric), Str(podType)) == Pass
  {
  }

  /** The splitter's parameters are fixed, and the overlap is below the chunk size. */
  lemma ChunkParametersFixed()
    ensures ChunkSize == 1000 && ChunkOverlap == 200 && ChunkOverlap < ChunkSize
  {
  }

  // ---------------------------------------------------------------------------------------
  // The vector store (Pinecone) as abstract state

  /** An embedding vector; only its length is used (as the index dimension). */
  type Embedding = seq<real>

  /** A named index: its creation parameters and the chunk texts stored per namespace. */
  datatype Index = Index(dimension: nat, metric: string, podType: string, namespaces: map<string, seq<string>>)

  /** The store operations do_indexation can issue, in the order issued. */
  datatype StoreCall =
    | ListIndexes
    | CreateIndex(name: string, dimension: nat, metric: string, podType: string)
    /** Pinecone.from_documents on a freshly created index */
    | WriteDocuments(index: string, namespace: string, chunks: seq<string>)
    /** add_documents on an index opened with from_existing_index */
    | AddDocuments(index: string, namespace: string, chunks: seq<string>)

  /** The records of an index after `chunks` are upserted under `namespace`. */
  function WithChunks(namespaces: map<string, seq<string>>, namespace: string, chunks: seq<string>): (m: map<string, seq<string>>)
    ensures m.Keys == namespaces.Keys + {namespace}
    ensures namespace in namespaces ==> m[namespace] == namespaces[namespace] + chunks
    ensures namespace !in namespaces ==> m[namespace] == chunks
    ensures forall other :: other in namespaces && other != namespace ==> m[other] == namespaces[other]
  {
    namespaces[namespace := (if namespace in namespaces then namespaces[namespace] else []) + chunks]
  }

  class VectorStore {
    var indexes: map<string, Index>
    var calls: seq<StoreCall>

    constructor ()
      ensures indexes == map[] && calls == []
    {
      indexes := map[];
      calls := [];
    }

    /** pinecone.list_indexes() */
    method ListIndexNames() returns (names: set<string>)
      modifies this
      ensures names == indexes.Keys
      ensures indexes == old(indexes) && calls == old(calls) + [ListIndexes]
    {
      names := indexes.Keys;
      calls := calls + [ListIndexes];
    }

    /** pinecone.create_index(...) for a name that is not yet taken */
    method Create(name: string, dimension: nat, metric: string, podType: string)
      requires name !in indexes
      modifies this
      ensures indexes == old(indexes)[name := Index(dimension, metric, podType, map[])]
      ensures calls == old(calls) + [CreateIndex(name, dimension, metric, podType)]
    {
      indexes := indexes[name := Index(dimension, metric, podType, map[])];
      calls := calls + [CreateIndex(name, dimension, metric, podType)];
    }

    /** Pinecone.from_documents(...) into an existing index */
    method FromDocuments(name: string, namespace: string, chunks: seq<string>)
      requires name in indexes
      modifies this
      ensures indexes == old(indexes)[name := old(indexes)[name].(namespaces := WithChunks(old(indexes)[name].namespaces, namespace, chunks))]
      ensures calls == old(calls) + [WriteDocuments(name, namespace, chunks)]
    {
      var ix := indexes[name];
      indexes := indexes[name := ix.(namespaces := WithChunks(ix.namespaces, namespace, chunks))];
      calls := calls + [WriteDocuments(name, namespace, chunks)];
    }

    /** Pinecone.from_existing_index(...).add_documents(...) */
    method Add(name: string, namespace: string, chunks: seq<string>)
      requires name in indexes
      modifies this
      ensures indexes == old(indexes)[name := old(indexes)[name].(namespaces := WithChunks(old(indexes)[name].namespaces, namespace, chunks))]
      ensures calls == old(calls) + [AddDocuments(name, namespace, chunks)]
    {
      var ix := indexes[name];
      indexes := indexes[name := ix.(namespaces := WithChunks(ix.namespaces, namespace, chunks))];
      calls := calls + [AddDocuments(name, namespace, chunks)];
    }
  }

  /** Indexer.do_indexation. `split` stands for the recursive character splitter (texts, chunk
      size, overlap) and `embed` for the embedding model. A rejected argument leaves the store
      untouched; otherwise the index is created when absent (sized by the first embedding) and
      written, or appended to when present. An empty chunk list on the create path fails at
      `res[0]` with IndexError, which the `except ValueError` does not catch. */
  method DoIndexation(store: VectorStore, documents: Value, namespace: Value, indexName: Value,
                      metric: Value, podType: Value,
                      split: (seq<string>, nat, nat) -> seq<string>, embed: string -> Embedding)
    returns (r: Outcome)
    modifies store
    ensures var v := ValidateIndexation(documents, namespace, indexName, metric, podType);
            v.Raise? ==> r == v && unchanged(store)
    ensures ValidateIndexation(documents, namespace, indexName, metric, podType) == Pass ==>
            var name, ns := indexName.s, namespace.s;
            var chunks := split(DocumentTexts(documents), ChunkSize, ChunkOverlap);
            if name !in old(store.indexes) then
              if |chunks| == 0 then
                r == Raise(IndexError) && store.indexes == old(store.indexes) &&
                store.calls == old(store.calls) + [ListIndexes]
              else
                var dim := |embed(chunks[0])|;
                r == Pass &&
                store.indexes == old(store.indexes)[name := Index(dim, metric.s, podType.s, map[ns := chunks])] &&
                store.calls == old(store.calls) + [ListIndexes, CreateIndex(name, dim, metric.s, podType.s), WriteDocuments(name, ns, chunks)]
            else
              r == Pass &&
              store.indexes.Keys == old(store.indexes).Keys &&
              store.indexes == old(store.indexes)[name := old(store.indexes)[name].(namespaces := WithChunks(old(store.indexes)[name].namespaces, ns, chunks))] &&
              store.calls == old(store.calls) + [ListIndexes, AddDocuments(name, ns, chunks)]
    ensures r == Pass ==> indexName.Str? && indexName.s in store.indexes
  {
    r := ValidateIndexation(documents, namespace, indexName, metric, podType);
    if r.Raise? {
      return;
    }
    var chunks := split(DocumentTexts(documents), ChunkSize, ChunkOverlap);
    var res := seq(|chunks|, k requires 0 <= k < |chunks| => embed(chunks[k]));
    var existing := store.ListIndexNames();
    if indexName.s !in existing {
      if |res| == 0 {
        r := Raise(IndexError);
        return;
      }
      store.Create(indexName.s, |res[0]|, metric.s, podType.s);
      store.FromDocuments(indexName.s, namespace.s, chunks);
      assert WithChunks(map[], namespace.s, chunks) == map[namespace.s := chunks];
    } else {
      store.Add(indexName.s, namespace.s, chunks);
    }
  }
}
