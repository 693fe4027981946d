/** The client-side upload loop of scripts/addFiles.ts: documents, already
    split into chunks, are packed in load order into `addBatch` calls. A
    document joins the pending batch unless that would reach
    `ChunkBatchSize` chunks, in which case the pending batch is sent first;
    the last batch is sent at the end. Loading, splitting and the calls
    themselves are outside the model: the split documents are the input and
    the batches sent, in order, the output. */
module Upload {
  import opened Store
  import opened Sources

  /** `ChunkBatchSize`. */
  const ChunkBatchSize: nat := 100

  /** One piece produced by the text splitter: `pageContent` and
      `metadata.loc.lines`. */
  datatype Split = Split(pageContent: string, lines: Lines)

  /** A loaded document: the base name of its path and its splitter output. */
  datatype Document = Document(name: string, splits: seq<Split>)

  /** The batch entry for a document, `{ name, chunks }`: one chunk per split,
      in the splitter's order, with its text and its lines. */
  function Entry(doc: Document): (e: SourceInput)
    ensures e.name == doc.name
    ensures |e.chunks| == |doc.splits|
    ensures forall i :: 0 <= i < |doc.splits| ==>
      e.chunks[i] == ChunkInput(doc.splits[i].pageContent, doc.splits[i].lines)
  {
    SourceInput(doc.name, seq(|doc.splits|, i requires 0 <= i < |doc.splits| =>
      ChunkInput(doc.splits[i].pageContent, doc.splits[i].lines)))
  }

  /** The entries of all documents, in load order. */
  function Entries(docs: seq<Document>): (r: seq<SourceInput>)
    ensures |r| == |docs|
    ensures forall i :: 0 <= i < |docs| ==> r[i] == Entry(docs[i])
  {
    seq(|docs|, i requires 0 <= i < |docs| => Entry(docs[i]))
  }

  /** The batches laid end to end. */
  function Flatten(sent: seq<seq<SourceInput>>): seq<SourceInput>
  {
    if |sent| == 0 then [] else sent[0] + Flatten(sent[1..])
  }

  lemma {:induction false} FlattenSnoc(sent: seq<seq<SourceInput>>, batch: seq<SourceInput>)
    ensures Flatten(sent + [batch]) == Flatten(sent) + batch
    decreases |sent|
  {
    if |sent| == 0 {
      assert sent + [batch] == [batch];
      assert Flatten([batch]) == batch + Flatten([]);
    } else {
      assert (sent + [batch])[0] == sent[0];
      assert (sent + [batch])[1..] == sent[1..] + [batch];
      FlattenSnoc(sent[1..], batch);
    }
  }

  /** The send test before a document with `n` chunks: the batch is not empty
      and its chunk count is at least `ChunkBatchSize - n`. */
  predicate Flushes(batch: seq<SourceInput>, n: nat)
  {
    |batch| > 0 && ChunkCount(batch) >= ChunkBatchSize - n
  }

  /** Every document after the first of a batch joined it without
      reaching `ChunkBatchSize`. */
  ghost predicate Joined(batch: seq<SourceInput>)
  {
    forall k :: 1 <= k < |batch| ==> ChunkCount(batch[..k]) + |batch[k].chunks| < ChunkBatchSize
  }

  /** `next` was started because its first document would have brought `prev`
      to `ChunkBatchSize` chunks or more. */
  ghost predicate Full(prev: seq<SourceInput>, next: seq<SourceInput>)
  {
    |next| > 0 && ChunkCount(prev) + |next[0].chunks| >= ChunkBatchSize
  }

  /** The batches an upload of `entries` sends, described without the loop:
      together they are the entries in order, none is empty, each document
      joined its batch without reaching the limit, and each new batch was
      started only because the limit would have been reached. */
  ghost predicate Packing(entries: seq<SourceInput>, sent: seq<seq<SourceInput>>)
  {
    && Flatten(sent) == entries
    && (forall i :: 0 <= i < |sent| ==> |sent[i]| > 0 && Joined(sent[i]))
    && (forall i :: 0 <= i < |sent| - 1 ==> Full(sent[i], sent[i + 1]))
  }

  /** The state of the loop after the documents whose entries are `done`:
      the batches sent and the pending batch hold them in order, and every
      batch, the pending one included, was formed as the loop forms them. */
  ghost predicate Pending(done: seq<SourceInput>, sent: seq<seq<SourceInput>>, batch: seq<SourceInput>)
  {
    && Flatten(sent) + batch == done
    && (forall i :: 0 <= i < |sent| ==> |sent[i]| > 0 && Joined(sent[i]))
    && (forall i :: 0 <= i < |sent| - 1 ==> Full(sent[i], sent[i + 1]))
    && Joined(batch)
    && (|sent| > 0 ==> Full(sent[|sent| - 1], batch))
    && (|done| > 0 ==> |batch| > 0)
  }

  /** `uploadDocuments` after loading: the batches sent to `addBatch`, in
      order. */
  method UploadDocuments(docs: seq<Document>) returns (sent: seq<seq<SourceInput>>)
    ensures Packing(Entries(docs), sent)
    ensures Flatten(sent) == Entries(docs)
    ensures forall i :: 0 <= i < |sent| ==> |sent[i]| > 0
  {
    sent := [];
    var batch: seq<SourceInput> := [];
    for k := 0 to |docs|
      invariant Pending(Entries(docs[..k]), sent, batch)
    {
      var e := Entry(docs[k]);
      NextDocument(docs, k, sent, batch);
      if Flushes(batch, |e.chunks|) {
        sent := sent + [batch];
        batch := [e];
      } else {
        batch := batch + [e];
      }
    }
    PendingFinish(docs, sent, batch);
    if |batch| > 0 {
      sent := sent + [batch];
    }
  }

  /** Sending the pending batch and starting a new one with the next
      document keeps the loop's state. */
  lemma {:induction false} FlushThenStart(done: seq<SourceInput>, sent: seq<seq<SourceInput>>, batch: seq<SourceInput>,
                                          e: SourceInput)
    requires Pending(done, sent, batch)
    requires Flushes(batch, |e.chunks|)
    ensures Pending(done + [e], sent + [batch], [e])
  {
    SendPending(done, sent, batch);
    assert Full(batch, [e]);
  }

  /** Sending a non-empty pending batch leaves a packing of what is done. */
  lemma {:induction false} SendPending(done: seq<SourceInput>, sent: seq<seq<SourceInput>>, batch: seq<SourceInput>)
    requires Pending(done, sent, batch)
    requires |batch| > 0
    ensures Packing(done, sent + [batch])
  {
    FlattenSnoc(sent, batch);
    var s := sent + [batch];
    forall i | 0 <= i < |s|
      ensures |s[i]| > 0 && Joined(s[i])
    {
      if i < |sent| {
        assert s[i] == sent[i];
      }
    }
    forall i | 0 <= i < |s| - 1
      ensures Full(s[i], s[i + 1])
    {
      if i < |sent| - 1 {
        assert s[i] == sent[i] && s[i + 1] == sent[i + 1];
      }
    }
  }

  /** Adding the next document to the pending batch, when it does not reach
      the limit, keeps the loop's state. */
  lemma {:induction false} JoinPending(done: seq<SourceInput>, sent: seq<seq<SourceInput>>, batch: seq<SourceInput>,
                                       e: SourceInput)
    requires Pending(done, sent, batch)
    requires !Flushes(batch, |e.chunks|)
    ensures Pending(done + [e], sent, batch + [e])
  {
    JoinedSnoc(batch, e);
    if |sent| > 0 {
      assert (batch + [e])[0] == batch[0];
    }
  }

  /** One turn of the loop keeps its state, whichever way the test goes. */
  lemma {:induction false} NextDocument(docs: seq<Document>, k: nat, sent: seq<seq<SourceInput>>, batch: seq<SourceInput>)
    requires k < |docs|
    requires Pending(Entries(docs[..k]), sent, batch)
    ensures var e := Entry(docs[k]);
      && (Flushes(batch, |e.chunks|) ==> Pending(Entries(docs[..k + 1]), sent + [batch], [e]))
      && (!Flushes(batch, |e.chunks|) ==> Pending(Entries(docs[..k + 1]), sent, batch + [e]))
  {
    var e := Entry(docs[k]);
    assert Entries(docs[..k + 1]) == Entries(docs[..k]) + [e];
    if Flushes(batch, |e.chunks|) {
      FlushThenStart(Entries(docs[..k]), sent, batch, e);
    } else {
      JoinPending(Entries(docs[..k]), sent, batch, e);
    }
  }

  /** Sending the pending batch, if any, at the end completes the packing. */
  lemma {:induction false} PendingFinish(docs: seq<Document>, sent: seq<seq<SourceInput>>, batch: seq<SourceInput>)
    requires Pending(Entries(docs[..|docs|]), sent, batch)
    ensures Packing(Entries(docs), if |batch| > 0 then sent + [batch] else sent)
  {
    assert docs[..|docs|] == docs;
    if |batch| > 0 {
      SendPending(Entries(docs), sent, batch);
    } else {
      assert Flatten(sent) + batch == Flatten(sent);
    }
  }

  /** Adding a document that does not reach the limit keeps a batch joined. */
  lemma {:induction false} JoinedSnoc(batch: seq<SourceInput>, e: SourceInput)
    requires Joined(batch)
    requires |batch| > 0 ==> ChunkCount(batch) + |e.chunks| < ChunkBatchSize
    ensures Joined(batch + [e])
  {
    var b := batch + [e];
    forall k | 1 <= k < |b|
      ensures ChunkCount(b[..k]) + |b[k].chunks| < ChunkBatchSize
    {
      if k < |batch| {
        assert b[..k] == batch[..k];
      } else {
        assert b[..k] == batch;
      }
    }
  }

  /** A batch holding two documents or more stays below `ChunkBatchSize`
      chunks; only a batch of one document can reach it. */
  lemma {:induction false} PackingBounds(entries: seq<SourceInput>, sent: seq<seq<SourceInput>>, i: nat)
    requires Packing(entries, sent)
    requires i < |sent| && |sent[i]| >= 2
    ensures ChunkCount(sent[i]) < ChunkBatchSize
  {
    var b := sent[i];
    assert Joined(b);
    assert ChunkCount(b[..|b| - 1]) + |b[|b| - 1].chunks| < ChunkBatchSize;
  }

  /** The packing is determined by the entries: the loop's batches are the
      only ones meeting the description. */
  lemma {:induction false} PackingUnique(entries: seq<SourceInput>, a: seq<seq<SourceInput>>, b: seq<seq<SourceInput>>)
    requires Packing(entries, a) && Packing(entries, b)
    ensures a == b
    decreases |entries|
  {
    if |a| == 0 || |b| == 0 {
      PackingEmpty(entries, a);
      PackingEmpty(entries, b);
    } else {
      var L := |a[0]|;
      FirstBatchLength(entries, a);
      FirstBatchLength(entries, b);
      assert |b[0]| == L;
      assert a[0] == entries[..L] == b[0];
      PackingTail(entries, a);
      PackingTail(entries, b);
      PackingUnique(entries[L..], a[1..], b[1..]);
      assert a == [a[0]] + a[1..];
      assert b == [b[0]] + b[1..];
    }
  }

  /** Packings of nothing send nothing, and a packing that sends nothing
      packs nothing. */
  lemma {:induction false} PackingEmpty(entries: seq<SourceInput>, sent: seq<seq<SourceInput>>)
    requires Packing(entries, sent)
    ensures |sent| == 0 <==> |entries| == 0
  {
    if |sent| > 0 {
      assert |sent[0]| > 0;
      assert |entries| >= |sent[0]|;
    }
  }

  /** The first batch starts the entries, and the rest is a packing of what
      follows it. */
  lemma {:induction false} PackingTail(entries: seq<SourceInput>, sent: seq<seq<SourceInput>>)
    requires Packing(entries, sent) && |sent| > 0
    ensures |sent[0]| <= |entries|
    ensures sent[0] == entries[..|sent[0]|]
    ensures Packing(entries[|sent[0]|..], sent[1..])
  {
    var rest := sent[1..];
    assert entries == sent[0] + Flatten(rest);
    assert entries[|sent[0]|..] == Flatten(rest);
    forall i | 0 <= i < |rest|
      ensures |rest[i]| > 0 && Joined(rest[i])
    {
      assert rest[i] == sent[i + 1];
    }
    forall i | 0 <= i < |rest| - 1
      ensures Full(rest[i], rest[i + 1])
    {
      assert rest[i] == sent[i + 1] && rest[i + 1] == sent[i + 2];
    }
  }

  /** The first batch is as long as the limit allows: each of its documents
      after the first joined without reaching `ChunkBatchSize`, and the
      document after it, if any, would have reached it. */
  lemma {:induction false} FirstBatchLength(entries: seq<SourceInput>, sent: seq<seq<SourceInput>>)
    requires Packing(entries, sent) && |sent| > 0
    ensures 1 <= |sent[0]| <= |entries|
    ensures forall k :: 1 <= k < |sent[0]| ==> ChunkCount(entries[..k]) + |entries[k].chunks| < ChunkBatchSize
    ensures |sent[0]| < |entries| ==>
      ChunkCount(entries[..|sent[0]|]) + |entries[|sent[0]|].chunks| >= ChunkBatchSize
  {
    var L := |sent[0]|;
    PackingTail(entries, sent);
    forall k | 1 <= k < L
      ensures ChunkCount(entries[..k]) + |entries[k].chunks| < ChunkBatchSize
    {
      assert sent[0][..k] == entries[..k];
      assert sent[0][k] == entries[k];
    }
    if L < |entries| {
      PackingEmpty(entries[L..], sent[1..]);
      assert Full(sent[0], sent[1]);
      PackingTail(entries[L..], sent[1..]);
      assert sent[1][0] == entries[L];
    }
  }

  function Pieces(n: nat): (r: seq<Split>)
    ensures |r| == n
  {
    seq(n, i => Split("x", Lines(i + 1, i + 1)))
  }

  /** A document of 150 chunks after one of 30: the first goes alone because
      the two would reach the limit, and the second goes alone with more
      than `ChunkBatchSize` chunks, since nothing splits a document. */
  lemma {:induction false} OversizedDocumentSentAlone()
    ensures var a := Document("a.md", Pieces(30));
      var b := Document("b.md", Pieces(150));
      && Packing(Entries([a, b]), [[Entry(a)], [Entry(b)]])
      && ChunkCount([Entry(b)]) == 150
  {
    var a := Document("a.md", Pieces(30));
    var b := Document("b.md", Pieces(150));
    var sent := [[Entry(a)], [Entry(b)]];
    assert ChunkCount([Entry(a)]) == 30 by {
      assert [Entry(a)][..0] == [];
    }
    assert ChunkCount([Entry(b)]) == 150 by {
      assert [Entry(b)][..0] == [];
    }
    assert Full(sent[0], sent[1]);
    assert Flatten(sent) == [Entry(a)] + Flatten([[Entry(b)]]);
    assert Flatten([[Entry(b)]]) == [Entry(b)] + Flatten([]);
    assert Entries([a, b]) == [Entry(a), Entry(b)];
  }
}
