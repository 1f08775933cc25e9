/** The counting set builder (src/set/builder/counting.rs): every shard
    counts the items it is given and sends its count once, when dropped;
    `finish` adds up the counts. */
module Counting {
  import opened Channels

  /** The total of the counts. */
  function Sum(xs: seq<nat>): nat
  {
    if xs == [] then 0 else Sum(xs[..|xs| - 1]) + xs[|xs| - 1]
  }

  /** Adding up two runs of counts one after the other. */
  lemma {:induction false} SumConcat(xs: seq<nat>, ys: seq<nat>)
    ensures Sum(xs + ys) == Sum(xs) + Sum(ys)
    decreases |ys|
  {
    if ys == [] {
      assert xs + ys == xs;
    } else {
      var zs := xs + ys;
      assert zs[..|zs| - 1] == xs + ys[..|ys| - 1];
      SumConcat(xs, ys[..|ys| - 1]);
    }
  }

  /** `CountingShardBuilder`: an optional sender and a count. */
  class CountingShard<T> {
    var tx: Channel?<nat>
    var count: nat

    /** A shard with the given sender and nothing counted: the body of
        `new_shard`, and of `clone`, which does not copy the count. */
    constructor (tx: Channel?<nat>)
      ensures this.tx == tx && count == 0
    {
      this.tx := tx;
      count := 0;
    }

    /** `insert`: the item is counted and not kept. */
    method Insert(item: T)
      modifies this
      ensures tx == old(tx) && count == old(count) + 1
    {
      count := count + 1;
    }

    /** `clone`: the same sender, and a count of zero. */
    method Clone() returns (c: CountingShard<T>)
      ensures fresh(c) && c.tx == tx && c.count == 0
    {
      c := new CountingShard(tx);
    }

    /** `drop`: the sender is taken, so the count is sent at most once. */
    method Drop()
      modifies this, tx
      ensures tx == null && count == old(count)
      ensures old(tx) != null ==> old(tx).sent == old(tx.sent) + [old(count)]
    {
      if tx != null {
        tx.Send(count);
        tx := null;
      }
    }
  }

  /** `CountingSetBuilder`: both ends of one channel. */
  class CountingSetBuilder<T> {
    const channel: Channel<nat>

    /** `CountingSetBuilder::new`. */
    constructor ()
      ensures fresh(channel) && channel.sent == []
    {
      channel := new Channel();
    }

    /** `new_shard`: a shard holding a clone of the sender. */
    method NewShard() returns (shard: CountingShard<T>)
      ensures fresh(shard) && shard.tx == channel && shard.count == 0
    {
      shard := new CountingShard(channel);
    }

    /** `finish`: the total of every count received. */
    method Finish() returns (count: nat)
      ensures count == Sum(channel.sent)
    {
      count := 0;
      for k := 0 to |channel.sent|
        invariant count == Sum(channel.sent[..k])
      {
        assert channel.sent[..k + 1][..k] == channel.sent[..k];
        count := count + channel.sent[k];
      }
      assert channel.sent[..|channel.sent|] == channel.sent;
    }
  }

  /** A shard fed one chunk of the stream, then dropped: it sends the
      chunk's length. */
  method FeedChunk<T>(shard: CountingShard<T>, chunk: seq<T>)
    requires shard.tx != null && shard.count == 0
    modifies shard, shard.tx
    ensures shard.tx == null
    ensures old(shard.tx).sent == old(shard.tx.sent) + [|chunk|]
  {
    for j := 0 to |chunk|
      invariant shard.tx == old(shard.tx) && shard.count == j
      invariant shard.tx.sent == old(shard.tx.sent)
    {
      shard.Insert(chunk[j]);
    }
    shard.Drop();
  }

  /** The builder as the joins drive it: the seed shard is cloned for
      every chunk of the stream, each clone counts its chunk and is
      dropped, the seed is dropped last, and `finish` adds up. The result
      is the number of items in the stream, however it was split. */
  method CountChunks<T>(chunks: seq<seq<T>>) returns (count: nat)
    ensures count == |Flatten(chunks)|
  {
    var builder := new CountingSetBuilder<T>();
    var seed := builder.NewShard();
    for k := 0 to |chunks|
      invariant seed.tx == builder.channel && seed.count == 0
      invariant Sum(builder.channel.sent) == |Flatten(chunks[..k])|
    {
      var worker := seed.Clone();
      ghost var before := builder.channel.sent;
      FeedChunk(worker, chunks[k]);
      SumConcat(before, [|chunks[k]|]);
      assert Sum([|chunks[k]|]) == |chunks[k]| by {
        assert [|chunks[k]|][..0] == [];
      }
      FlattenStep(chunks, k);
    }
    ghost var before := builder.channel.sent;
    seed.Drop();
    SumConcat(before, [0]);
    assert Sum([0]) == 0 by {
      assert [0][..0] == [];
    }
    count := builder.Finish();
    assert chunks[..|chunks|] == chunks;
  }
}
