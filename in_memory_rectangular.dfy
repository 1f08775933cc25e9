/** The in-memory rectangular set builder
    (src/set/builder/in_memory_rectangular_mosaic.rs): every shard collects
    its mosaics in a set of its own and sends that set once, when
    dropped; `finish` extends one fresh set with every set received. */
module InMemoryRectangular {
  import opened Mosaics
  import opened Channels
  import RS = RectangleSets

  /** Every set is a valid set of `w` by `h` mosaics. */
  ghost predicate AllValid(sets: seq<RS.RectangularMosaicSet>, w: int, h: int)
    reads sets
  {
    forall i :: 0 <= i < |sets| ==> sets[i].Valid() && sets[i].w == w && sets[i].h == h
  }

  /** The members of the sets, set after set. */
  ghost function Members(sets: seq<RS.RectangularMosaicSet>): seq<Mosaic>
    reads sets
  {
    if sets == [] then [] else Members(sets[..|sets| - 1]) + sets[|sets| - 1].mosaics
  }

  /** One more set puts its members after those of the earlier ones. */
  lemma MembersStep(sets: seq<RS.RectangularMosaicSet>, s: RS.RectangularMosaicSet)
    ensures Members(sets + [s]) == Members(sets) + s.mosaics
  {
    assert (sets + [s])[..|sets|] == sets;
  }

  /** `InMemoryRectangularMosaicShardBuilder`: a sender and the set being
      filled, which is taken when the shard is dropped. */
  class RectangleShard {
    const w: int
    const h: int
    const tx: Channel<RS.RectangularMosaicSet>
    var pending: RS.RectangularMosaicSet?

    /** A shard with the given sender and a new empty set: the body of
        `new_shard` and of `clone`. */
    constructor (w: int, h: int, tx: Channel<RS.RectangularMosaicSet>)
      requires 1 <= w && 1 <= h
      ensures this.w == w && this.h == h && this.tx == tx && pending != null && fresh(pending)
      ensures pending.Valid() && pending.w == w && pending.h == h && pending.mosaics == []
    {
      this.w, this.h := w, h;
      this.tx := tx;
      pending := new RS.RectangularMosaicSet(w, h);
    }

    /** `insert`: the mosaic joins the shard's set; a shard whose set was
        already taken is not used. */
    method Insert(item: Mosaic)
      requires pending != null && pending.Valid() && pending.w == w && pending.h == h && Shape(item, w, h)
      modifies pending
      ensures pending.Valid() && pending.mosaics == old(pending.mosaics) + [item]
    {
      pending.Insert(item);
    }

    /** `clone`: the same sender and a new empty set; nothing collected so
        far is copied. */
    method Clone() returns (c: RectangleShard)
      requires 1 <= w && 1 <= h
      ensures fresh(c) && c.w == w && c.h == h && c.tx == tx && c.pending != null && fresh(c.pending)
      ensures c.pending.Valid() && c.pending.w == w && c.pending.h == h && c.pending.mosaics == []
    {
      c := new RectangleShard(w, h, tx);
    }

    /** `drop`: the set, if still there, is taken and sent, so it is sent
        at most once. */
    method Drop()
      modifies this, tx
      ensures pending == null
      ensures old(pending) != null ==> tx.sent == old(tx.sent) + [old(pending)]
      ensures old(pending) == null ==> tx.sent == old(tx.sent)
    {
      if pending != null {
        tx.Send(pending);
        pending := null;
      }
    }
  }

  /** `InMemoryRectangularMosaicSetBuilder`: both ends of one channel, for
      mosaics of width `w` and height `h`. */
  class RectangleSetBuilder {
    const w: int
    const h: int
    const channel: Channel<RS.RectangularMosaicSet>

    /** `InMemoryRectangularMosaicSetBuilder::new`. */
    constructor (w: int, h: int)
      requires 1 <= w && 1 <= h
      ensures this.w == w && this.h == h && fresh(channel) && channel.sent == []
    {
      this.w, this.h := w, h;
      channel := new Channel();
    }

    /** `new_shard`: a shard holding a clone of the sender and a new empty
        set. */
    method NewShard() returns (shard: RectangleShard)
      requires 1 <= w && 1 <= h
      ensures fresh(shard) && shard.w == w && shard.h == h && shard.tx == channel && shard.pending != null && fresh(shard.pending)
      ensures shard.pending.Valid() && shard.pending.w == w && shard.pending.h == h && shard.pending.mosaics == []
    {
      shard := new RectangleShard(w, h, channel);
    }

    /** `finish`: a new set extended with every set received, in arrival
        order. */
    method Finish() returns (result: RS.RectangularMosaicSet)
      requires 1 <= w && 1 <= h && AllValid(channel.sent, w, h)
      ensures fresh(result) && result.Valid() && result.w == w && result.h == h
      ensures result.mosaics == Members(channel.sent)
    {
      result := new RS.RectangularMosaicSet(w, h);
      for k := 0 to |channel.sent|
        invariant fresh(result) && result.Valid() && result.w == w && result.h == h
        invariant result.mosaics == Members(channel.sent[..k])
      {
        MembersStep(channel.sent[..k], channel.sent[k]);
        assert channel.sent[..k + 1] == channel.sent[..k] + [channel.sent[k]];
        result.Extend(channel.sent[k]);
      }
      assert channel.sent[..|channel.sent|] == channel.sent;
    }
  }

  /** A shard fed one chunk of the stream, then dropped: it sends a set
      holding exactly the chunk. */
  method FeedChunk(shard: RectangleShard, chunk: seq<Mosaic>)
    requires shard.pending != null && shard.pending.Valid() && shard.pending.w == shard.w && shard.pending.h == shard.h && shard.pending.mosaics == []
    requires forall i :: 0 <= i < |chunk| ==> Shape(chunk[i], shard.w, shard.h)
    modifies shard, shard.pending, shard.tx
    ensures shard.pending == null && shard.tx.sent == old(shard.tx.sent) + [old(shard.pending)]
    ensures old(shard.pending).Valid() && old(shard.pending).w == shard.w && old(shard.pending).h == shard.h && old(shard.pending).mosaics == chunk
  {
    for j := 0 to |chunk|
      invariant shard.pending == old(shard.pending) && shard.pending.Valid() && shard.pending.mosaics == chunk[..j]
      invariant shard.tx.sent == old(shard.tx.sent)
    {
      assert chunk[..j + 1] == chunk[..j] + [chunk[j]];
      shard.Insert(chunk[j]);
    }
    assert chunk[..|chunk|] == chunk;
    shard.Drop();
  }

  /** Validity is kept by one more valid set. */
  lemma AllValidStep(sets: seq<RS.RectangularMosaicSet>, s: RS.RectangularMosaicSet, w: int, h: int)
    requires AllValid(sets, w, h) && s.Valid() && s.w == w && s.h == h
    ensures AllValid(sets + [s], w, h)
  {
    assert forall i :: 0 <= i < |sets| ==> (sets + [s])[i] == sets[i];
  }

  /** The seed shard dropped once the loop is over: its set, still
      empty, is sent last and adds no member. */
  method DropSeed(seed: RectangleShard)
    requires seed.pending != null && seed.pending.Valid() && seed.pending.w == seed.w && seed.pending.h == seed.h && seed.pending.mosaics == []
    requires AllValid(seed.tx.sent, seed.w, seed.h)
    modifies seed, seed.tx
    ensures AllValid(seed.tx.sent, seed.w, seed.h) && Members(seed.tx.sent) == old(Members(seed.tx.sent))
  {
    MembersStep(seed.tx.sent, seed.pending);
    AllValidStep(seed.tx.sent, seed.pending, seed.w, seed.h);
    seed.Drop();
  }

  /** One worker of the parallel loop: a clone of the seed shard is fed
      the chunk and dropped. Only the channel changes among the objects
      that existed before, and the set it gains holds exactly the chunk. */
  method RunWorker(seed: RectangleShard, chunk: seq<Mosaic>) returns (ghost sent: RS.RectangularMosaicSet)
    requires 1 <= seed.w && 1 <= seed.h
    requires forall i :: 0 <= i < |chunk| ==> Shape(chunk[i], seed.w, seed.h)
    modifies seed.tx
    ensures fresh(sent) && sent.Valid() && sent.w == seed.w && sent.h == seed.h && sent.mosaics == chunk
    ensures seed.tx.sent == old(seed.tx.sent) + [sent]
  {
    var worker := seed.Clone();
    sent := worker.pending;
    FeedChunk(worker, chunk);
  }

  /** The parallel loop: one worker per chunk, against a seed shard that
      has sent nothing yet. The sets sent hold the stream, chunk after
      chunk. */
  method RunWorkers(seed: RectangleShard, chunks: seq<seq<Mosaic>>)
    requires 1 <= seed.w && 1 <= seed.h && seed.tx.sent == []
    requires forall k, i :: 0 <= k < |chunks| && 0 <= i < |chunks[k]| ==> Shape(chunks[k][i], seed.w, seed.h)
    modifies seed.tx
    ensures AllValid(seed.tx.sent, seed.w, seed.h) && Members(seed.tx.sent) == Flatten(chunks)
  {
    for k := 0 to |chunks|
      invariant AllValid(seed.tx.sent, seed.w, seed.h)
      invariant Members(seed.tx.sent) == Flatten(chunks[..k])
    {
      ghost var before := seed.tx.sent;
      ghost var s := RunWorker(seed, chunks[k]);
      MembersStep(before, s);
      AllValidStep(before, s, seed.w, seed.h);
      FlattenStep(chunks, k);
    }
    assert chunks[..|chunks|] == chunks;
  }

  /** The builder as the joins drive it: the parallel loop over the
      chunks, the seed shard dropped last, then `finish`. The result holds
      every mosaic of the stream, in stream order, however the stream was
      split. */
  method CollectRectangles(w: int, h: int, chunks: seq<seq<Mosaic>>) returns (result: RS.RectangularMosaicSet)
    requires 1 <= w && 1 <= h
    requires forall k, i :: 0 <= k < |chunks| && 0 <= i < |chunks[k]| ==> Shape(chunks[k][i], w, h)
    ensures result.Valid() && result.w == w && result.h == h && result.mosaics == Flatten(chunks)
  {
    var builder := new RectangleSetBuilder(w, h);
    var seed := builder.NewShard();
    RunWorkers(seed, chunks);
    DropSeed(seed);
    result := builder.Finish();
  }
}
