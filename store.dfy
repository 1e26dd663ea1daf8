/**
 * The ArangoDB side, reduced to what the adapters observe: the documents a
 * collection query returns, and the batches handed to `import_bulk`, kept as a
 * log of flushes. The per-collection buffers of the import pipelines
 * (`adb_documents`, a defaultdict of lists) are a class of their own.
 */
module Store {
  import opened PyValues

  /** One `collection(col).import_bulk(docs)` call. */
  datatype Flush = Flush(col: string, docs: seq<Json>)

  /** Everything sent to collection col, in order. */
  function Sent(log: seq<Flush>, col: string): seq<Json>
    decreases |log|
  {
    if log == [] then []
    else
      var last := log[|log| - 1];
      Sent(log[..|log| - 1], col) + (if last.col == col then last.docs else [])
  }

  /** Appending a batch adds its documents to that collection only. */
  lemma SentSnoc(log: seq<Flush>, f: Flush, col: string)
    ensures Sent(log + [f], col) == Sent(log, col) + (if f.col == col then f.docs else [])
  {
    assert (log + [f])[..|log|] == log;
  }

  /** Sending two logs one after the other sends the documents of both. */
  lemma {:induction false} SentAppend(a: seq<Flush>, b: seq<Flush>, col: string)
    ensures Sent(a + b, col) == Sent(a, col) + Sent(b, col)
    decreases |b|
  {
    if b == [] {
      assert a + b == a;
    } else {
      var init := b[..|b| - 1];
      var last := b[|b| - 1];
      assert a + b == (a + init) + [last];
      assert b == init + [last];
      SentAppend(a, init, col);
      SentSnoc(a + init, last, col);
      SentSnoc(init, last, col);
    }
  }

  /** The documents routed to collection col, in order. */
  function DocsFor(routed: seq<(string, Json)>, col: string): seq<Json>
    decreases |routed|
  {
    if routed == [] then []
    else
      var last := routed[|routed| - 1];
      DocsFor(routed[..|routed| - 1], col) + (if last.0 == col then [last.1] else [])
  }

  /** Bookkeeping of an import in progress: what has been sent since the log
      stood at log0, followed by what is waiting, is exactly what has been routed,
      collection by collection. */
  ghost predicate Accounted(log0: seq<Flush>, log: seq<Flush>, buffers: map<string, seq<Json>>, routed: seq<(string, Json)>) {
    forall c :: Sent(log, c) + Waiting(buffers, c) == Sent(log0, c) + DocsFor(routed, c)
  }

  lemma DocsForSnoc(routed: seq<(string, Json)>, col: string, doc: Json, c: string)
    ensures DocsFor(routed + [(col, doc)], c) == DocsFor(routed, c) + (if col == c then [doc] else [])
  {
    assert (routed + [(col, doc)])[..|routed|] == routed;
  }

  /** The database as the adapters use it. */
  class Database {
    /** `__fetch_adb_docs(col, attributes, is_keep)`: the documents the
        collection query returns. */
    const fetch: (string, set<string>, bool) -> seq<Json>
    /** Every `import_bulk` call so far. */
    ghost var flushes: seq<Flush>

    constructor (fetch: (string, set<string>, bool) -> seq<Json>)
      ensures this.fetch == fetch && flushes == []
    {
      this.fetch := fetch;
      flushes := [];
    }

    /** `self.__db.collection(col).import_bulk(docs, on_duplicate="replace")`. */
    method ImportBulk(col: string, docs: seq<Json>)
      modifies this
      ensures flushes == old(flushes) + [Flush(col, docs)]
    {
      flushes := flushes + [Flush(col, docs)];
    }
  }

  // ---------------------------------------------------------------------------
  // The batch buffers.

  /** The documents waiting in col's buffer. */
  function Waiting(buffers: map<string, seq<Json>>, col: string): seq<Json> {
    if col in buffers then buffers[col] else []
  }

  /** `__insert_adb_docs` on pure values: append doc to col's buffer, and once
      the buffer holds batchSize documents or more, send it and empty it. Gives
      the flush log and the buffers afterwards. */
  function InsertStep(log: seq<Flush>, buffers: map<string, seq<Json>>, col: string, doc: Json, batchSize: int)
    : (r: (seq<Flush>, map<string, seq<Json>>))
    ensures r.1.Keys == buffers.Keys + {col}
  {
    var docs := Waiting(buffers, col) + [doc];
    if |docs| >= batchSize then (log + [Flush(col, docs)], buffers[col := []])
    else (log, buffers[col := docs])
  }

  /** Nothing is dropped or duplicated: what has been sent plus what is waiting
      grows by exactly the new document, in col, and stays the same elsewhere. */
  lemma InsertStepDelivers(log: seq<Flush>, buffers: map<string, seq<Json>>, col: string, doc: Json, batchSize: int, c: string)
    ensures var (log', buffers') := InsertStep(log, buffers, col, doc, batchSize);
      Sent(log', c) + Waiting(buffers', c) == Sent(log, c) + Waiting(buffers, c) + (if c == col then [doc] else [])
  {
    var docs := Waiting(buffers, col) + [doc];
    if |docs| >= batchSize {
      FlushDelivers(log, buffers, col, docs, c);
    } else {
      assert InsertStep(log, buffers, col, doc, batchSize) == (log, buffers[col := docs]);
    }
  }

  /** Sending col's buffer with the new document and emptying it moves those
      documents from waiting to sent. */
  lemma FlushDelivers(log: seq<Flush>, buffers: map<string, seq<Json>>, col: string, docs: seq<Json>, c: string)
    ensures Sent(log + [Flush(col, docs)], c) + Waiting(buffers[col := []], c)
      == Sent(log, c) + (if c == col then docs else Waiting(buffers, c))
  {
    SentSnoc(log, Flush(col, docs), c);
  }

  /** With batchSize >= 1, a buffer shorter than batchSize stays shorter, and a
      flush sends exactly batchSize documents. */
  lemma InsertStepBounded(log: seq<Flush>, buffers: map<string, seq<Json>>, col: string, doc: Json, batchSize: int)
    requires batchSize >= 1 && |Waiting(buffers, col)| < batchSize
    ensures var (log', buffers') := InsertStep(log, buffers, col, doc, batchSize);
      |Waiting(buffers', col)| < batchSize
      && (log' == log || (log' == log + [Flush(col, Waiting(buffers, col) + [doc])] && |Waiting(buffers, col)| + 1 == batchSize && Waiting(buffers', col) == []))
  {
  }

  /** Buffering one more routed document keeps the bookkeeping. */
  lemma InsertKeepsAccounted(log0: seq<Flush>, log: seq<Flush>, buffers: map<string, seq<Json>>,
                             routed: seq<(string, Json)>, col: string, doc: Json, batchSize: int)
    requires Accounted(log0, log, buffers, routed)
    ensures var (log', buffers') := InsertStep(log, buffers, col, doc, batchSize);
      Accounted(log0, log', buffers', routed + [(col, doc)])
  {
    var (log', buffers') := InsertStep(log, buffers, col, doc, batchSize);
    forall c
      ensures Sent(log', c) + Waiting(buffers', c) == Sent(log0, c) + DocsFor(routed + [(col, doc)], c)
    {
      InsertStepDelivers(log, buffers, col, doc, batchSize, c);
      DocsForSnoc(routed, col, doc, c);
    }
  }

  /** While documents wait, every collection has received a prefix of what was
      routed to it. */
  lemma AccountedPrefix(log0: seq<Flush>, log: seq<Flush>, buffers: map<string, seq<Json>>, routed: seq<(string, Json)>, c: string)
    requires Accounted(log0, log, buffers, routed)
    ensures Sent(log, c) <= Sent(log0, c) + DocsFor(routed, c)
  {
    assert Sent(log, c) + Waiting(buffers, c) == Sent(log0, c) + DocsFor(routed, c);
  }

  /** The final loop over `adb_documents.items()`: one flush per buffer, in the
      order the buffers were created. */
  function FinalFlushes(order: seq<string>, buffers: map<string, seq<Json>>): (r: seq<Flush>)
    requires forall k :: 0 <= k < |order| ==> order[k] in buffers
    ensures |r| == |order|
    ensures forall k :: 0 <= k < |order| ==> r[k] == Flush(order[k], buffers[order[k]])
  {
    seq(|order|, k requires 0 <= k < |order| => Flush(order[k], buffers[order[k]]))
  }

  /** The final flushes send each buffer's waiting documents to its collection
      exactly once. */
  lemma {:induction false} FinalFlushesDeliver(order: seq<string>, buffers: map<string, seq<Json>>, c: string)
    requires Distinct(order)
    requires forall k :: 0 <= k < |order| ==> order[k] in buffers
    ensures Sent(FinalFlushes(order, buffers), c) == if c in order then buffers[c] else []
    decreases |order|
  {
    if order != [] {
      var init := order[..|order| - 1];
      var last := order[|order| - 1];
      assert FinalFlushes(order, buffers)[..|order| - 1] == FinalFlushes(init, buffers);
      FinalFlushesDeliver(init, buffers, c);
      assert c in order <==> c in init || c == last;
      assert c == last ==> c !in init;
    }
  }

  /** After the final flushes, every routed document has reached its
      collection exactly once and in order, and nothing else has been sent. */
  lemma FinalFlushesComplete(log0: seq<Flush>, log: seq<Flush>, order: seq<string>,
                             buffers: map<string, seq<Json>>, routed: seq<(string, Json)>)
    requires Accounted(log0, log, buffers, routed)
    requires Distinct(order) && buffers.Keys == set c | c in order
    ensures forall c :: Sent(log + FinalFlushes(order, buffers), c) == Sent(log0, c) + DocsFor(routed, c)
  {
    forall c
      ensures Sent(log + FinalFlushes(order, buffers), c) == Sent(log0, c) + DocsFor(routed, c)
    {
      SentAppend(log, FinalFlushes(order, buffers), c);
      FinalFlushesDeliver(order, buffers, c);
      assert Sent(log, c) + Waiting(buffers, c) == Sent(log0, c) + DocsFor(routed, c);
    }
  }

  /** `adb_documents`: a buffer per collection, created on first use. */
  class DocumentBuffers {
    const db: Database
    /** The collections in the order their buffers were created. */
    var order: seq<string>
    var buffers: map<string, seq<Json>>

    ghost predicate Valid()
      reads this
    {
      Distinct(order) && buffers.Keys == set c | c in order
    }

    constructor (db: Database)
      ensures Valid() && this.db == db && order == [] && buffers == map[]
    {
      this.db := db;
      order := [];
      buffers := map[];
    }

    /** `__insert_adb_docs(col, adb_documents[col], doc, batch_size)`. */
    method InsertAdbDocs(col: string, doc: Json, batchSize: int)
      requires Valid()
      modifies this, db
      ensures Valid()
      ensures order == old(order) + (if col in old(buffers) then [] else [col])
      ensures (db.flushes, buffers) == InsertStep(old(db.flushes), old(buffers), col, doc, batchSize)
    {
      var docs := Waiting(buffers, col) + [doc];
      if col !in buffers {
        order := order + [col];
      }
      if |docs| >= batchSize {
        db.ImportBulk(col, docs);
        buffers := buffers[col := []];
      } else {
        buffers := buffers[col := docs];
      }
    }

    /** `for col, doc_list in adb_documents.items(): import_bulk(doc_list)`. */
    method FlushRemaining()
      requires Valid()
      modifies db
      ensures db.flushes == old(db.flushes) + FinalFlushes(order, buffers)
    {
      for k := 0 to |order|
        invariant db.flushes == old(db.flushes) + FinalFlushes(order[..k], buffers)
      {
        assert FinalFlushes(order[..k + 1], buffers) == FinalFlushes(order[..k], buffers) + [Flush(order[k], buffers[order[k]])];
        db.ImportBulk(order[k], buffers[order[k]]);
      }
      assert order[..|order|] == order;
    }
  }
}
