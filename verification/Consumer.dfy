/** The consumer's own loop: the buffer it grows and hands over, and the offsets it commits. */
module Consumer {
  import opened Options
  import opened LedgerTables
  import opened Delivery
  import opened DeliverySafety

  class KafkaEventConsumer {
    const batchSize: nat
    var buffered: seq<Consumed>

    constructor (batchSize: nat)
      ensures this.batchSize == batchSize && buffered == []
    {
      this.batchSize := batchSize;
      buffered := [];
    }

    /** One turn of the loop after a poll: the decoded records join the buffer, which may become a batch. */
    method Accept(decoded: seq<Consumed>, timedOut: bool) returns (batch: Option<seq<Consumed>>)
      modifies this
      ensures var all := old(buffered) + decoded;
        match AfterPoll(batchSize, old(buffered), decoded, timedOut)
        case Projecting => batch == Some(all) && buffered == []
        case _ => batch == None && buffered == all
    {
      buffered := buffered + decoded;
      var barrierSeen := false;
      for k := 0 to |decoded|
        invariant barrierSeen == BarrierIn(decoded[..k])
        invariant buffered == old(buffered) + decoded
      {
        BarrierSnoc(decoded, k);
        barrierSeen := barrierSeen || decoded[k].event.kind.FinalizationBarrier?;
      }
      assert decoded[..|decoded|] == decoded;
      if buffered == [] || !(barrierSeen || timedOut || |buffered| >= batchSize) {
        return None;
      }
      batch := Some(buffered);
      buffered := [];
    }

    /** The loop that fills the offsets to commit: for each partition of the batch, the record to read next. */
    method CommitBatch(batch: seq<Consumed>) returns (offsets: Offsets)
      ensures offsets == CommitOffsets(batch)
      ensures forall k :: 0 <= k < |batch| ==>
        batch[k].partition in offsets && batch[k].offset < offsets[batch[k].partition]
      ensures forall p :: p in offsets ==> offsets[p] == Next(Advance(map[], batch), p)
    {
      offsets := map[];
      for k := 0 to |batch|
        invariant offsets == CommitOffsets(batch[..k])
        invariant forall j :: 0 <= j < k ==>
          batch[j].partition in offsets && batch[j].offset < offsets[batch[j].partition]
      {
        assert batch[..k + 1][..k] == batch[..k];
        var p := batch[k].partition;
        offsets := offsets[p := MaxNat(if p in offsets then offsets[p] else 0, batch[k].offset + 1)];
      }
      assert batch[..|batch|] == batch;
      CommitsWhatItReached(batch);
    }
  }

  lemma {:induction false} BarrierSnoc(xs: seq<Consumed>, k: nat)
    requires k < |xs|
    ensures BarrierIn(xs[..k + 1]) <==> BarrierIn(xs[..k]) || xs[k].event.kind.FinalizationBarrier?
  {
    assert xs[..k + 1] == xs[..k] + [xs[k]];
  }
}
