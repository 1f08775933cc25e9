/** The counting and sampling set builder
    (src/set/builder/counting_sampling.rs): every shard counts its items
    and keeps the first one, and sends both once, when dropped; `finish`
    adds up the counts and keeps the sample of the earliest message that
    has one. */
module CountingSampling {
  import opened Tiles
  import opened Channels

  /** What one shard sends: its count and its sample. */
  type Report<T> = (nat, Option<T>)

  /** The first item of a stream, if it has one. */
  function First<T>(s: seq<T>): Option<T>
  {
    if s == [] then None else Some(s[0])
  }

  /** The first item of two streams one after the other. */
  lemma FirstConcat<T>(a: seq<T>, b: seq<T>)
    ensures First(a + b) == if a == [] then First(b) else First(a)
  {
    if a == [] {
      assert a + b == b;
    } else {
      assert (a + b)[0] == a[0];
    }
  }

  /** The total of the counts in the reports. */
  function TotalCount<T>(reports: seq<Report<T>>): nat
  {
    if reports == [] then 0 else TotalCount(reports[..|reports| - 1]) + reports[|reports| - 1].0
  }

  /** The sample `finish` keeps: that of the earliest report with one. */
  function FirstSample<T>(reports: seq<Report<T>>): Option<T>
  {
    if reports == [] then None
    else
      var earlier := FirstSample(reports[..|reports| - 1]);
      if earlier.None? then reports[|reports| - 1].1 else earlier
  }

  /** One more report adds its count, and its sample if none came before. */
  lemma ReportStep<T>(reports: seq<Report<T>>, r: Report<T>)
    ensures TotalCount(reports + [r]) == TotalCount(reports) + r.0
    ensures FirstSample(reports + [r]) == if FirstSample(reports).None? then r.1 else FirstSample(reports)
  {
    assert (reports + [r])[..|reports|] == reports;
  }

  /** The sample `finish` keeps is the sample of some report, and it is
      missing only when no report has one. */
  lemma {:induction false} FirstSampleIsSent<T>(reports: seq<Report<T>>)
    ensures FirstSample(reports).Some? ==> exists i :: 0 <= i < |reports| && reports[i].1 == FirstSample(reports)
    ensures FirstSample(reports).None? <==> forall i :: 0 <= i < |reports| ==> reports[i].1.None?
  {
    if reports != [] {
      var init := reports[..|reports| - 1];
      FirstSampleIsSent(init);
      if FirstSample(init).Some? {
        var i :| 0 <= i < |init| && init[i].1 == FirstSample(init);
        assert reports[i] == init[i];
      }
      assert forall i :: 0 <= i < |init| ==> init[i] == reports[i];
    }
  }

  /** `CountingSamplingShardBuilder`: an optional sender, a count and the
      first item inserted. */
  class SamplingShard<T> {
    var tx: Channel?<Report<T>>
    var count: nat
    var sample: Option<T>

    /** A sample is kept only once something has been counted. */
    predicate SampleCounted()
      reads this
    {
      sample.Some? ==> count >= 1
    }

    /** A shard with the given sender, nothing counted and no sample: the
        body of `new_shard` and of `clone`. */
    constructor (tx: Channel?<Report<T>>)
      ensures this.tx == tx && count == 0 && sample == None && SampleCounted()
    {
      this.tx := tx;
      count := 0;
      sample := None;
    }

    /** `insert`: the item is counted, and kept if it is the first. */
    method Insert(item: T)
      modifies this
      ensures tx == old(tx) && count == old(count) + 1
      ensures sample == if old(sample).None? then Some(item) else old(sample)
      ensures SampleCounted()
    {
      count := count + 1;
      if sample.None? {
        sample := Some(item);
      }
    }

    /** `clone`: the same sender, and nothing counted or kept. */
    method Clone() returns (c: SamplingShard<T>)
      ensures fresh(c) && c.tx == tx && c.count == 0 && c.sample == None && c.SampleCounted()
    {
      c := new SamplingShard(tx);
    }

    /** `drop`: the sender and the sample are taken, so the report is sent
        at most once. */
    method Drop()
      requires SampleCounted()
      modifies this, tx
      ensures tx == null && count == old(count) && SampleCounted()
      ensures old(tx) != null ==> sample == None && old(tx).sent == old(tx.sent) + [(old(count), old(sample))]
      ensures old(tx) == null ==> sample == old(sample)
    {
      if tx != null {
        tx.Send((count, sample));
        sample := None;
        tx := null;
      }
    }
  }

  /** `CountingSamplingSetBuilder`: both ends of one channel. */
  class SamplingSetBuilder<T> {
    const channel: Channel<Report<T>>

    /** `CountingSamplingSetBuilder::new`. */
    constructor ()
      ensures fresh(channel) && channel.sent == []
    {
      channel := new Channel();
    }

    /** `new_shard`: a shard holding a clone of the sender. */
    method NewShard() returns (shard: SamplingShard<T>)
      ensures fresh(shard) && shard.tx == channel && shard.count == 0 && shard.sample == None
    {
      shard := new SamplingShard(channel);
    }

    /** `finish`: the total count, and the sample of the earliest report
        that has one. */
    method Finish() returns (count: nat, value: Option<T>)
      ensures count == TotalCount(channel.sent) && value == FirstSample(channel.sent)
    {
      count, value := 0, None;
      for k := 0 to |channel.sent|
        invariant count == TotalCount(channel.sent[..k]) && value == FirstSample(channel.sent[..k])
      {
        ReportStep(channel.sent[..k], channel.sent[k]);
        assert channel.sent[..k + 1] == channel.sent[..k] + [channel.sent[k]];
        count := count + channel.sent[k].0;
        if value.None? {
          value := channel.sent[k].1;
        }
      }
      assert channel.sent[..|channel.sent|] == channel.sent;
    }
  }

  /** A shard fed one chunk of the stream, then dropped: it reports the
      chunk's length and its first item. */
  method FeedChunk<T>(shard: SamplingShard<T>, chunk: seq<T>)
    requires shard.tx != null && shard.count == 0 && shard.sample == None
    modifies shard, shard.tx
    ensures shard.tx == null
    ensures old(shard.tx).sent == old(shard.tx.sent) + [(|chunk|, First(chunk))]
  {
    for j := 0 to |chunk|
      invariant shard.tx == old(shard.tx) && shard.count == j && shard.sample == First(chunk[..j])
      invariant shard.tx.sent == old(shard.tx.sent)
    {
      FirstConcat(chunk[..j], [chunk[j]]);
      assert chunk[..j + 1] == chunk[..j] + [chunk[j]];
      shard.Insert(chunk[j]);
    }
    assert chunk[..|chunk|] == chunk;
    shard.Drop();
  }

  /** The builder as the joins drive it: a clone of the seed shard per
      chunk, each dropped after its chunk, the seed dropped last, then
      `finish`. The result counts every item of the stream, and its sample
      is the stream's first item, however the stream was split. */
  method SampleChunks<T>(chunks: seq<seq<T>>) returns (count: nat, sample: Option<T>)
    ensures count == |Flatten(chunks)| && sample == First(Flatten(chunks))
  {
    var builder := new SamplingSetBuilder<T>();
    var seed := builder.NewShard();
    for k := 0 to |chunks|
      invariant seed.tx == builder.channel && seed.count == 0 && seed.sample == None
      invariant TotalCount(builder.channel.sent) == |Flatten(chunks[..k])|
      invariant FirstSample(builder.channel.sent) == First(Flatten(chunks[..k]))
    {
      var worker := seed.Clone();
      ghost var before := builder.channel.sent;
      FeedChunk(worker, chunks[k]);
      ReportStep(before, (|chunks[k]|, First(chunks[k])));
      FlattenStep(chunks, k);
      FirstConcat(Flatten(chunks[..k]), chunks[k]);
    }
    ReportStep(builder.channel.sent, (0, None));
    seed.Drop();
    count, sample := builder.Finish();
    assert chunks[..|chunks|] == chunks;
  }
}
