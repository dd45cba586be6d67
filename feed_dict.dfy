/** What prepare_feed_dict leaves in the runner's feed mapping: both feed
    sources folded in, pending tensors evaluated, the sequential source
    written second. */
module FeedDict {
  import opened Engine

  /** The value stored for one feed entry: a tensor is evaluated, a concrete
      value is copied. */
  function Resolve(v: FeedValue, eval: Op -> Value): Value {
    match v
    case Pending(op) => eval(op)
    case Ready(x) => x
  }

  /** The entry a source holds for key k: the last one written. */
  function Lookup(src: FeedSource, k: Op): Option<FeedValue> {
    if src == [] then None
    else if src[|src| - 1].0 == k then Some(src[|src| - 1].1)
    else Lookup(src[..|src| - 1], k)
  }

  predicate DistinctKeys(src: FeedSource) {
    forall i, j :: 0 <= i < j < |src| ==> src[i].0 != src[j].0
  }

  /** One pass of the loop over a source, writing each entry into feed. */
  function Folded(feed: Feed, src: FeedSource, eval: Op -> Value): Feed {
    if src == [] then feed
    else Folded(feed, src[..|src| - 1], eval)[src[|src| - 1].0 := Resolve(src[|src| - 1].1, eval)]
  }

  /** Both passes of prepare_feed_dict: feed_dict_pre first, then feed_dict_seq. */
  function Prepared(feed: Feed, pre: FeedSource, sequential: FeedSource, eval: Op -> Value): Feed {
    Folded(Folded(feed, pre, eval), sequential, eval)
  }

  /** A source holds an entry for k exactly when some pair has key k. */
  lemma {:induction false} LookupFound(src: FeedSource, k: Op)
    ensures Lookup(src, k).Some? <==> exists i :: 0 <= i < |src| && src[i].0 == k
  {
    if src != [] {
      LookupFound(src[..|src| - 1], k);
      if Lookup(src, k).Some? && src[|src| - 1].0 != k {
        var i :| 0 <= i < |src| - 1 && src[..|src| - 1][i].0 == k;
        assert src[i].0 == k;
      }
    }
  }

  /** In a dict (distinct keys) the entry found for a key is its pair's value. */
  lemma {:induction false} LookupDistinct(src: FeedSource, i: int)
    requires DistinctKeys(src)
    requires 0 <= i < |src|
    ensures Lookup(src, src[i].0) == Some(src[i].1)
  {
    if i < |src| - 1 {
      LookupDistinct(src[..|src| - 1], i);
    }
  }

  /** One pass: a key is present afterwards when it was before or the source
      holds it; the source's entry is resolved; any other key keeps its value. */
  lemma {:induction false} FoldedAt(feed: Feed, src: FeedSource, eval: Op -> Value, k: Op)
    ensures k in Folded(feed, src, eval) <==> k in feed || Lookup(src, k).Some?
    ensures Lookup(src, k).Some? ==>
      Folded(feed, src, eval)[k] == Resolve(Lookup(src, k).value, eval)
    ensures Lookup(src, k).None? && k in feed ==> Folded(feed, src, eval)[k] == feed[k]
  {
    if src != [] {
      FoldedAt(feed, src[..|src| - 1], eval, k);
    }
  }

  /** prepare_feed_dict as a whole: every key of either source is present;
      the sequential entry wins on a shared key; a pre-computed entry holds
      otherwise; a key of neither source keeps its earlier value. */
  lemma PreparedAt(feed: Feed, pre: FeedSource, sequential: FeedSource, eval: Op -> Value, k: Op)
    ensures k in Prepared(feed, pre, sequential, eval) <==>
      k in feed || Lookup(pre, k).Some? || Lookup(sequential, k).Some?
    ensures Lookup(sequential, k).Some? ==>
      Prepared(feed, pre, sequential, eval)[k] == Resolve(Lookup(sequential, k).value, eval)
    ensures Lookup(sequential, k).None? && Lookup(pre, k).Some? ==>
      Prepared(feed, pre, sequential, eval)[k] == Resolve(Lookup(pre, k).value, eval)
    ensures Lookup(sequential, k).None? && Lookup(pre, k).None? && k in feed ==>
      Prepared(feed, pre, sequential, eval)[k] == feed[k]
  {
    FoldedAt(feed, pre, eval, k);
    FoldedAt(Folded(feed, pre, eval), sequential, eval, k);
  }

  /** Re-running the initial pass with the same engine yields the same mapping. */
  lemma PreparedIdempotent(feed: Feed, pre: FeedSource, sequential: FeedSource, eval: Op -> Value)
    ensures Prepared(Prepared(feed, pre, sequential, eval), pre, sequential, eval)
         == Prepared(feed, pre, sequential, eval)
  {
    var once := Prepared(feed, pre, sequential, eval);
    var twice := Prepared(once, pre, sequential, eval);
    forall k | k in twice || k in once
      ensures k in twice && k in once && twice[k] == once[k]
    {
      PreparedAt(feed, pre, sequential, eval, k);
      PreparedAt(once, pre, sequential, eval, k);
    }
  }
}
