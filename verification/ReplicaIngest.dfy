/** The follower's decoder loop: whole records are batched and handed over in order. */
module ReplicaIngest {
  import opened Basics
  import opened LogServer
  import opened Records
  import opened Replica

  /** One handoff: a batch of transactions, or one other record. */
  datatype Message = Transactions(batch: seq<Record>) | Boundary(record: Record)

  function Flatten(messages: seq<Message>): seq<Record> {
    if messages == [] then []
    else
      var last := messages[|messages| - 1];
      Flatten(messages[..|messages| - 1]) + (if last.Transactions? then last.batch else [last.record])
  }

  lemma FlattenAdds(messages: seq<Message>, m: Message)
    ensures Flatten(messages + [m]) == Flatten(messages) + (if m.Transactions? then m.batch else [m.record])
  {
  }

  /** A handed-over batch is nonempty, holds only transactions, and was not full
      before its last one. */
  ghost predicate BatchSound(batch: seq<Record>) {
    && batch != [] && (forall i :: 0 <= i < |batch| ==> batch[i].Tx?)
    && !IsFull(batch[..|batch| - 1])
  }

  ghost predicate MessageSound(m: Message) {
    if m.Transactions? then BatchSound(m.batch) else !m.record.Tx?
  }

  /** Two batches follow each other only when the first was full. */
  ghost predicate OnlySplitWhenFull(messages: seq<Message>, i: nat)
    requires i + 1 < |messages|
  {
    messages[i].Transactions? && messages[i + 1].Transactions? ==> IsFull(messages[i].batch)
  }

  /** So far every batch was split off when full, the last one included. */
  ghost predicate SplitsSound(messages: seq<Message>) {
    && (forall i :: 0 <= i < |messages| - 1 ==> OnlySplitWhenFull(messages, i))
    && (messages != [] && messages[|messages| - 1].Transactions? ==> IsFull(messages[|messages| - 1].batch))
  }

  lemma SplitsExtend(messages: seq<Message>, m: Message)
    requires SplitsSound(messages)
    ensures forall i :: 0 <= i < |messages| ==> OnlySplitWhenFull(messages + [m], i)
  {
    var more := messages + [m];
    forall i | 0 <= i < |messages| ensures OnlySplitWhenFull(more, i) {
      assert i < |messages| - 1 ==> OnlySplitWhenFull(messages, i);
    }
  }

  /** The payload bytes of a batch, one after another. */
  function Payload(batch: seq<Record>): seq<Byte> {
    if batch == [] then []
    else Payload(batch[..|batch| - 1]) + (if batch[|batch| - 1].Tx? then batch[|batch| - 1].payload else [])
  }

  lemma {:induction false} SizeIsPayload(batch: seq<Record>)
    ensures Size(batch) == |Payload(batch)|
  {
    if batch != [] {
      SizeIsPayload(batch[..|batch| - 1]);
    }
  }

  /** A batch is at most 128 transactions, with less than 128 KiB before the last; two
      follow each other only when the first reached one of these limits. */
  ghost predicate Bounded(messages: seq<Message>, i: nat)
    requires i < |messages|
  {
    messages[i].Transactions? ==>
      var batch := messages[i].batch;
      && 0 < |batch| <= 128 && |Payload(batch[..|batch| - 1])| < 131072
      && (i + 1 < |messages| && messages[i + 1].Transactions? ==> |batch| == 128 || |Payload(batch)| >= 131072)
  }

  lemma SoundIsBounded(messages: seq<Message>, i: nat)
    requires i < |messages| && MessageSound(messages[i])
    requires i + 1 < |messages| ==> OnlySplitWhenFull(messages, i)
    ensures Bounded(messages, i)
  {
    hide Size, Payload;
    if messages[i].Transactions? {
      var batch := messages[i].batch;
      SizeIsPayload(batch);
      SizeIsPayload(batch[..|batch| - 1]);
    }
  }

  /** Decodes a connection's bytes until they end inside a record. Every whole
      record is handed over in order, in bounded batches that never cross another
      record; the incomplete tail is dropped. */
  method Ingest(c: Codec, stream: seq<Byte>) returns (messages: seq<Message>, rest: seq<Byte>)
    requires Lawful(c)
    ensures stream == EncodeAll(c, Flatten(messages)) + rest && c.decode(rest).None?
    ensures forall i :: 0 <= i < |messages| ==> MessageSound(messages[i])
    ensures forall i :: 0 <= i < |messages| - 1 ==> OnlySplitWhenFull(messages, i)
    ensures forall i :: 0 <= i < |messages| ==> Bounded(messages, i)
  {
    hide MessageSound, OnlySplitWhenFull, SplitsSound, Flatten, EncodeAll, IsFull, Bounded;
    messages, rest := [], stream;
    var batch: seq<Record> := [];
    NothingIngested(c);
    while c.decode(rest).Some?
      invariant stream == EncodeAll(c, Flatten(messages) + batch) + rest
      invariant (forall i :: 0 <= i < |messages| ==> MessageSound(messages[i])) && SplitsSound(messages)
      invariant (forall i :: 0 <= i < |batch| ==> batch[i].Tx?) && !IsFull(batch)
      decreases |rest|
    {
      var r := c.decode(rest).value;
      ghost var before, tail := Flatten(messages) + batch, rest;
      messages, batch := Accept(messages, batch, r);
      rest := rest[|c.encode(r)|..];
      assert tail == c.encode(r) + rest;
      TakesOneMore(c, before, r, rest);
    }
    BatchIsSound(batch);
    messages, batch := Flush(messages, batch);
    forall i | 0 <= i < |messages| ensures Bounded(messages, i) {
      SoundIsBounded(messages, i);
    }
  }

  lemma NothingIngested(c: Codec)
    ensures Flatten([]) == [] && EncodeAll(c, [] + []) == [] && !IsFull([]) && SplitsSound([])
  {
  }

  /** The decoded record's bytes move over to the encoding of what was taken. */
  lemma TakesOneMore(c: Codec, before: seq<Record>, r: Record, rest: seq<Byte>)
    ensures EncodeAll(c, before) + (c.encode(r) + rest) == EncodeAll(c, before + [r]) + rest
  {
    hide EncodeAll;
    EncodeJoins(c, before, [r]);
    EncodeOne(c, r);
  }

  lemma BatchIsSound(batch: seq<Record>)
    requires (forall i :: 0 <= i < |batch| ==> batch[i].Tx?) && !IsFull(batch)
    ensures batch != [] ==> BatchSound(batch)
  {
    NotFullPrefix(batch);
  }

  /** Takes one decoded record. */
  method Accept(messages0: seq<Message>, batch0: seq<Record>, r: Record)
    returns (messages: seq<Message>, batch: seq<Record>)
    requires (forall i :: 0 <= i < |batch0| ==> batch0[i].Tx?) && !IsFull(batch0)
    requires (forall i :: 0 <= i < |messages0| ==> MessageSound(messages0[i])) && SplitsSound(messages0)
    ensures Flatten(messages) + batch == Flatten(messages0) + batch0 + [r]
    ensures (forall i :: 0 <= i < |batch| ==> batch[i].Tx?) && !IsFull(batch)
    ensures (forall i :: 0 <= i < |messages| ==> MessageSound(messages[i])) && SplitsSound(messages)
  {
    hide MessageSound, OnlySplitWhenFull, SplitsSound, Flatten, IsFull, BatchSound;
    NothingIsNotFull();
    if r.Tx? {
      messages, batch := messages0, batch0 + [r];
      if IsFull(batch) {
        BatchGrew(batch0, r);
        messages, batch := Flush(messages, batch);
      }
    } else {
      BatchIsSound(batch0);
      messages, batch := Flush(messages0, batch0);
      FlattenAdds(messages, Boundary(r));
      BoundaryClosesSplit(messages, r);
      BoundarySound(r);
      messages := messages + [Boundary(r)];
    }
  }

  lemma NothingIsNotFull()
    ensures !IsFull([])
  {
  }

  lemma BoundarySound(r: Record)
    requires !r.Tx?
    ensures MessageSound(Boundary(r))
  {
  }

  lemma BatchGrew(batch: seq<Record>, r: Record)
    requires (forall i :: 0 <= i < |batch| ==> batch[i].Tx?) && !IsFull(batch) && r.Tx?
    ensures BatchSound(batch + [r])
  {
    hide IsFull;
    assert (batch + [r])[..|batch|] == batch;
  }

  lemma BoundaryClosesSplit(messages: seq<Message>, r: Record)
    requires forall i :: 0 <= i < |messages| - 1 ==> OnlySplitWhenFull(messages, i)
    ensures SplitsSound(messages + [Boundary(r)])
  {
    var more := messages + [Boundary(r)];
    forall i | 0 <= i < |more| - 1 ensures OnlySplitWhenFull(more, i) {
      assert i < |messages| - 1 ==> OnlySplitWhenFull(messages, i);
    }
  }

  /** A batch that is not full was not full before its last transaction. */
  lemma NotFullPrefix(batch: seq<Record>)
    requires !IsFull(batch)
    ensures batch != [] ==> !IsFull(batch[..|batch| - 1])
  {
  }

  /** Hands over the batch, if there is one. */
  method Flush(messages0: seq<Message>, batch0: seq<Record>) returns (messages: seq<Message>, batch: seq<Record>)
    requires batch0 != [] ==> BatchSound(batch0)
    requires (forall i :: 0 <= i < |messages0| ==> MessageSound(messages0[i])) && SplitsSound(messages0)
    ensures batch == [] && Flatten(messages) == Flatten(messages0) + batch0
    ensures forall i :: 0 <= i < |messages| ==> MessageSound(messages[i])
    ensures forall i :: 0 <= i < |messages| - 1 ==> OnlySplitWhenFull(messages, i)
    ensures IsFull(batch0) ==> SplitsSound(messages)
  {
    messages, batch := messages0, [];
    if batch0 != [] {
      FlattenAdds(messages0, Transactions(batch0));
      SplitsExtend(messages0, Transactions(batch0));
      messages := messages + [Transactions(batch0)];
    }
  }
}
