/** The in-memory square set builder
    (src/set/builder/in_memory_square_mosaic.rs): every shard collects
    its mosaics in a set of its own and sends that set once, when
    dropped; `finish` extends one fresh set with every set received. */
module InMemorySquare {
  import opened Mosaics
  import opened Channels
  import SS = SquareSets

  /** Every set is a valid set of `n` by `n` mosaics. */
  ghost predicate AllValid(sets: seq<SS.SquareMosaicSet>, n: int)
    reads sets
  {
    forall i :: 0 <= i < |sets| ==> sets[i].Valid() && sets[i].n == n
  }

  /** The members of the sets, set after set. */
  ghost function Members(sets: seq<SS.SquareMosaicSet>): seq<Mosaic>
    reads sets
  {
    if sets == [] then [] else Members(sets[..|sets| - 1]) + sets[|sets| - 1].mosaics
  }

  /** One more set puts its members after those of the earlier ones. */
  lemma MembersStep(sets: seq<SS.SquareMosaicSet>, s: SS.SquareMosaicSet)
    ensures Members(sets + [s]) == Members(sets) + s.mosaics
  {
    assert (sets + [s])[..|sets|] == sets;
  }

  /** `InMemorySquareMosaicShardBuilder`: a sender and the set being
      filled, which is taken when the shard is dropped. */
  class SquareShard {
    const n: int
    const tx: Channel<SS.SquareMosaicSet>
    var pending: SS.SquareMosaicSet?

    /** A shard with the given sender and a new empty set: the body of
        `new_shard` and of `clone`. */
    constructor (n: int, tx: Channel<SS.SquareMosaicSet>)
      requires 1 <= n
      ensures this.n == n && this.tx == tx && pending != null && fresh(pending)
      ensures pending.Valid() && pending.n == n && pending.mosaics == []
    {
      this.n := n;
      this.tx := tx;
      pending := new SS.SquareMosaicSet(n);
    }

    /** `insert`: the mosaic joins the shard's set; a shard whose set was
        already taken is not used. */
    method Insert(item: Mosaic)
      requires pending != null && pending.Valid() && pending.n == n && Shape(item, n, n)
      modifies pending
      ensures pending.Valid() && pending.mosaics == old(pending.mosaics) + [item]
    {
      pending.Insert(item);
    }

    /** `clone`: the same sender and a new empty set; nothing collected so
        far is copied. */
    method Clone() returns (c: SquareShard)
      requires 1 <= n
      ensures fresh(c) && c.n == n && c.tx == tx && c.pending != null && fresh(c.pending)
      ensures c.pending.Valid() && c.pending.n == n && c.pending.mosaics == []
    {
      c := new SquareShard(n, tx);
    }

    /** `drop`: the set, if still there, is taken and sent, so it is sent
        at most once. */
    method Drop()
      modifies this, tx
      ensures pending == null
      ensures old(pending) != null ==> tx.sent == old(tx.sent) + [old(pending)]
      ensures old(pending) == null ==> tx.sent == old(tx.sent)
    {
      if pending != null {
        tx.Send(pending);
        pending := null;
      }
    }
  }

  /** `InMemorySquareMosaicSetBuilder`: both ends of one channel, for
      mosaics of side `n`. */
  class SquareSetBuilder {
    const n: int
    const channel: Channel<SS.SquareMosaicSet>

    /** `InMemorySquareMosaicSetBuilder::new`. */
    constructor (n: int)
      requires 1 <= n
      ensures this.n == n && fresh(channel) && channel.sent == []
    {
      this.n := n;
      channel := new Channel();
    }

    /** `new_shard`: a shard holding a clone of the sender and a new empty
        set. */
    method NewShard() returns (shard: SquareShard)
      requires 1 <= n
      ensures fresh(shard) && shard.n == n && shard.tx == channel && shard.pending != null && fresh(shard.pending)
      ensures shard.pending.Valid() && shard.pending.n == n && shard.pending.mosaics == []
    {
      shard := new SquareShard(n, channel);
    }

    /** `finish`: a new set extended with every set received, in arrival
        order. */
    method Finish() returns (result: SS.SquareMosaicSet)
      requires 1 <= n && AllValid(channel.sent, n)
      ensures fresh(result) && result.Valid() && result.n == n
      ensures result.mosaics == Members(channel.sent)
    {
      result := new SS.SquareMosaicSet(n);
      for k := 0 to |channel.sent|
        invariant fresh(result) && result.Valid() && result.n == n
        invariant result.mosaics == Members(channel.sent[..k])
      {
        MembersStep(channel.sent[..k], channel.sent[k]);
        assert channel.sent[..k + 1] == channel.sent[..k] + [channel.sent[k]];
        result.Extend(channel.sent[k]);
      }
      assert channel.sent[..|channel.sent|] == channel.sent;
    }
  }

  /** A shard fed one chunk of the stream, then dropped: it sends a set
      holding exactly the chunk. */
  method FeedChunk(shard: SquareShard, chunk: seq<Mosaic>)
    requires shard.pending != null && shard.pending.Valid() && shard.pending.n == shard.n && shard.pending.mosaics == []
    requires forall i :: 0 <= i < |chunk| ==> Shape(chunk[i], shard.n, shard.n)
    modifies shard, shard.pending, shard.tx
    ensures shard.pending == null && shard.tx.sent == old(shard.tx.sent) + [old(shard.pending)]
    ensures old(shard.pending).Valid() && old(shard.pending).n == shard.n && old(shard.pending).mosaics == chunk
  {
    for j := 0 to |chunk|
      invariant shard.pending == old(shard.pending) && shard.pending.Valid() && shard.pending.mosaics == chunk[..j]
      invariant shard.tx.sent == old(shard.tx.sent)
    {
      assert chunk[..j + 1] == chunk[..j] + [chunk[j]];
      shard.Insert(chunk[j]);
    }
    assert chunk[..|chunk|] == chunk;
    shard.Drop();
  }

  /** Validity is kept by one more valid set. */
  lemma AllValidStep(sets: seq<SS.SquareMosaicSet>, s: SS.SquareMosaicSet, n: int)
    requires AllValid(sets, n) && s.Valid() && s.n == n
    ensures AllValid(sets + [s], n)
  {
    assert forall i :: 0 <= i < |sets| ==> (sets + [s])[i] == sets[i];
  }

  /** The seed shard dropped once the loop is over: its set, still
      empty, is sent last and adds no member. */
  method DropSeed(seed: SquareShard)
    requires seed.pending != null && seed.pending.Valid() && seed.pending.n == seed.n && seed.pending.mosaics == []
    requires AllValid(seed.tx.sent, seed.n)
    modifies seed, seed.tx
    ensures AllValid(seed.tx.sent, seed.n) && Members(seed.tx.sent) == old(Members(seed.tx.sent))
  {
    MembersStep(seed.tx.sent, seed.pending);
    AllValidStep(seed.tx.sent, seed.pending, seed.n);
    seed.Drop();
  }

  /** One worker of the parallel loop: a clone of the seed shard is fed
      the chunk and dropped. Only the channel changes among the objects
      that existed before, and the set it gains holds exactly the chunk. */
  method RunWorker(seed: SquareShard, chunk: seq<Mosaic>) returns (ghost sent: SS.SquareMosaicSet)
    requires 1 <= seed.n
    requires forall i :: 0 <= i < |chunk| ==> Shape(chunk[i], seed.n, seed.n)
    modifies seed.tx
    ensures fresh(sent) && sent.Valid() && sent.n == seed.n && sent.mosaics == chunk
    ensures seed.tx.sent == old(seed.tx.sent) + [sent]
  {
    var worker := seed.Clone();
    sent := worker.pending;
    FeedChunk(worker, chunk);
  }

  /** The parallel loop: one worker per chunk, against a seed shard that
      has sent nothing yet. The sets sent hold the stream, chunk after
      chunk. */
  method RunWorkers(seed: SquareShard, chunks: seq<seq<Mosaic>>)
    requires 1 <= seed.n && seed.tx.sent == []
    requires forall k, i :: 0 <= k < |chunks| && 0 <= i < |chunks[k]| ==> Shape(chunks[k][i], seed.n, seed.n)
    modifies seed.tx
    ensures AllValid(seed.tx.sent, seed.n) && Members(seed.tx.sent) == Flatten(chunks)
  {
    for k := 0 to |chunks|
      invariant AllValid(seed.tx.sent, seed.n)
      invariant Members(seed.tx.sent) == Flatten(chunks[..k])
    {
      ghost var before := seed.tx.sent;
      ghost var s := RunWorker(seed, chunks[k]);
      MembersStep(before, s);
      AllValidStep(before, s, seed.n);
      FlattenStep(chunks, k);
    }
    assert chunks[..|chunks|] == chunks;
  }

  /** The builder as the joins drive it: the parallel loop over the
      chunks, the seed shard dropped last, then `finish`. The result holds
      every mosaic of the stream, in stream order, however the stream was
      split. */
  method CollectSquares(n: int, chunks: seq<seq<Mosaic>>) returns (result: SS.SquareMosaicSet)
    requires 1 <= n
    requires forall k, i :: 0 <= k < |chunks| && 0 <= i < |chunks[k]| ==> Shape(chunks[k][i], n, n)
    ensures result.Valid() && result.n == n && result.mosaics == Flatten(chunks)
  {
    var builder := new SquareSetBuilder(n);
    var seed := builder.NewShard();
    RunWorkers(seed, chunks);
    DropSeed(seed);
    result := builder.Finish();
  }
}
