/** How a rebuild cuts the stream of documents into the batches it puts. */
module SearchBatches {
  datatype Document = Document(id: int, bytes: nat)

  function Concat(batches: seq<seq<Document>>): seq<Document> {
    if batches == [] then [] else Concat(batches[..|batches| - 1]) + batches[|batches| - 1]
  }

  function Bytes(batch: seq<Document>): nat {
    if batch == [] then 0 else Bytes(batch[..|batch| - 1]) + batch[|batch| - 1].bytes
  }

  /** By the counts: a batch of several documents keeps both limits, and each batch but the
      last is full or leaves no room for the document the next one begins with. */
  lemma GreedyMeans(puts: seq<seq<Document>>, batchSize: nat, maxBytes: nat, i: nat)
    requires Greedy(puts, batchSize, maxBytes) && i < |puts|
    ensures |puts[i]| > 0 && (|puts[i]| > 1 ==> |puts[i]| <= batchSize && Bytes(puts[i]) <= maxBytes)
    ensures i + 1 < |puts| ==>
              |puts[i + 1]| > 0 && (|puts[i]| >= batchSize || Bytes(puts[i]) + puts[i + 1][0].bytes > maxBytes)
  {
    if i + 1 < |puts| {
      assert Fits(puts[i + 1], batchSize, maxBytes) && Forced(puts[i + 1 - 1], puts[i + 1][0], batchSize, maxBytes);
    }
  }

  lemma {:induction false} BytesAdd(a: seq<Document>, b: seq<Document>)
    ensures Bytes(a + b) == Bytes(a) + Bytes(b)
    ensures |a| == 1 ==> Bytes(a) == a[0].bytes
  {
    if b == [] {
      assert a + b == a;
    } else {
      assert (a + b)[..|a + b| - 1] == a + b[..|b| - 1];
      BytesAdd(a, b[..|b| - 1]);
    }
    if |a| == 1 {
      assert a[..0] == [];
    }
  }

  predicate Fits(batch: seq<Document>, batchSize: nat, maxBytes: nat) {
    && 0 < |batch|
    && (|batch| <= batchSize || |batch| == 1)
    && (Bytes(batch) <= maxBytes || |batch| == 1)
  }

  /** The batch was cut because it was full or the next document did not fit. */
  predicate Forced(batch: seq<Document>, next: Document, batchSize: nat, maxBytes: nat) {
    |batch| >= batchSize || Bytes(batch) + next.bytes > maxBytes
  }

  /** Every put fits its limits, and none was cut before it had to be. */
  predicate Greedy(puts: seq<seq<Document>>, batchSize: nat, maxBytes: nat) {
    && (forall i | 0 <= i < |puts| :: Fits(puts[i], batchSize, maxBytes))
    && (forall i | 0 < i < |puts| :: Forced(puts[i - 1], puts[i][0], batchSize, maxBytes))
  }

  /** Batches put so far, and the one being filled, hold `seen` in order. */
  predicate Filling(
    puts: seq<seq<Document>>, batch: seq<Document>, seen: seq<Document>, batchSize: nat, maxBytes: nat)
  {
    && Greedy(puts, batchSize, maxBytes)
    && Concat(puts) + batch == seen
    && (batch != [] ==> Fits(batch, batchSize, maxBytes))
    && (puts != [] && batch != [] ==> Forced(puts[|puts| - 1], batch[0], batchSize, maxBytes))
  }

  lemma PutKeeps(
    puts: seq<seq<Document>>, batch: seq<Document>, seen: seq<Document>, batchSize: nat, maxBytes: nat)
    requires Filling(puts, batch, seen, batchSize, maxBytes) && batch != []
    ensures Filling(puts + [batch], [], seen, batchSize, maxBytes)
  {
    assert (puts + [batch])[..|puts|] == puts;
  }

  lemma AppendKeeps(
    puts: seq<seq<Document>>, batch: seq<Document>, document: Document, seen: seq<Document>, batchSize: nat, maxBytes: nat)
    requires Filling(puts, batch, seen, batchSize, maxBytes)
    requires batch != [] ==> |batch| < batchSize && Bytes(batch) + document.bytes <= maxBytes
    requires batch == [] && puts != [] ==> Forced(puts[|puts| - 1], document, batchSize, maxBytes)
    ensures Filling(puts, batch + [document], seen + [document], batchSize, maxBytes)
    ensures Bytes(batch + [document]) == Bytes(batch) + document.bytes
  {
    hide Greedy, Concat;
    assert (batch + [document])[..|batch|] == batch;
    assert Concat(puts) + (batch + [document]) == (Concat(puts) + batch) + [document];
  }

  lemma Start(batchSize: nat, maxBytes: nat)
    ensures Filling([], [], [], batchSize, maxBytes) && Bytes([]) == 0
  {
  }

  lemma FilledUp(puts: seq<seq<Document>>, seen: seq<Document>, batchSize: nat, maxBytes: nat)
    requires Filling(puts, [], seen, batchSize, maxBytes)
    ensures Concat(puts) == seen && Greedy(puts, batchSize, maxBytes)
  {
  }

  method ReplaceAll(documents: seq<Document>, batchSize: nat, maxBytes: nat)
    returns (puts: seq<seq<Document>>, count: nat)
    ensures Concat(puts) == documents && count == |documents|
    ensures Greedy(puts, batchSize, maxBytes)
  {
    hide Filling, Bytes, Concat, Greedy;
    Start(batchSize, maxBytes);
    puts, count := [], 0;
    var batch: seq<Document> := [];
    var batchBytes := 0;
    while count < |documents|
      invariant count <= |documents| && batchBytes == Bytes(batch)
      invariant Filling(puts, batch, documents[..count], batchSize, maxBytes)
      invariant batch != [] ==> |batch| < batchSize
      invariant puts != [] && batch == [] ==> |puts[|puts| - 1]| >= batchSize
    {
      var document := documents[count];
      if batch != [] && batchBytes + document.bytes > maxBytes {
        PutKeeps(puts, batch, documents[..count], batchSize, maxBytes);
        puts := puts + [batch];
        batch, batchBytes := [], 0;
      }
      AppendKeeps(puts, batch, document, documents[..count], batchSize, maxBytes);
      batch := batch + [document];
      batchBytes := batchBytes + document.bytes;
      count := count + 1;
      assert documents[..count] == documents[..count - 1] + [document];
      if |batch| >= batchSize {
        PutKeeps(puts, batch, documents[..count], batchSize, maxBytes);
        puts := puts + [batch];
        batch, batchBytes := [], 0;
      }
    }
    if batch != [] {
      PutKeeps(puts, batch, documents[..count], batchSize, maxBytes);
      puts := puts + [batch];
    }
    assert documents[..count] == documents;
    FilledUp(puts, documents, batchSize, maxBytes);
  }
}
