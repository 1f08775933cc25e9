/** The mpsc channel every set builder collects its shards' results
    through, and the stream of items the shards are fed.

    A channel is modelled by what has been sent on it so far, in arrival
    order; `finish` drops its own sender and receives until every shard
    has dropped its sender, so it sees exactly that sequence. The
    parallel loop of the joins hands each chunk of the item stream to
    its own clone of the seed shard. */
module Channels {
  /** One mpsc channel: the messages sent on it, in arrival order. */
  class Channel<T> {
    var sent: seq<T>

    /** `channel()`: nothing sent yet. */
    constructor ()
      ensures sent == []
    {
      sent := [];
    }

    /** `Sender::send`: the message arrives after every earlier one. */
    method Send(x: T)
      modifies this
      ensures sent == old(sent) + [x]
    {
      sent := sent + [x];
    }
  }

  /** The items of all chunks, chunk after chunk. */
  function Flatten<T>(chunks: seq<seq<T>>): seq<T>
  {
    if chunks == [] then [] else Flatten(chunks[..|chunks| - 1]) + chunks[|chunks| - 1]
  }

  /** One more chunk puts its items after those of the earlier ones. */
  lemma FlattenStep<T>(chunks: seq<seq<T>>, k: int)
    requires 0 <= k < |chunks|
    ensures Flatten(chunks[..k + 1]) == Flatten(chunks[..k]) + chunks[k]
  {
    assert chunks[..k + 1][..k] == chunks[..k];
  }

  /** An item is in the flattened stream exactly when it is an item of
      some chunk. */
  lemma {:induction false} FlattenMembers<T>(chunks: seq<seq<T>>, x: T)
    ensures x in Flatten(chunks) <==> exists k :: 0 <= k < |chunks| && x in chunks[k]
  {
    if chunks != [] {
      var init := chunks[..|chunks| - 1];
      var last := chunks[|chunks| - 1];
      FlattenMembers(init, x);
      assert Flatten(chunks) == Flatten(init) + last;
      if x in Flatten(init) {
        var k :| 0 <= k < |init| && x in init[k];
        assert chunks[k] == init[k];
      } else if x !in last {
        forall k | 0 <= k < |chunks|
          ensures x !in chunks[k]
        {
          if k < |init| {
            assert chunks[k] == init[k];
          }
        }
      }
    }
  }
}
