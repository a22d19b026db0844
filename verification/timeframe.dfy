/** Which timeframe the analyze route fetches a series for, and the cache
    key it looks up for it in the ensure reply. */
module Timeframe {
  import opened Js

  /** The timeframe preferred whenever it was requested. */
  const Preferred := "H1"

  /** `tf.includes("H1") ? "H1" : tf[0]`; None stands for the undefined
      `tf[0]` of an empty list. */
  function Pick(tf: seq<string>): (p: Option<string>)
    ensures Preferred in tf ==> p == Some(Preferred)
    ensures Preferred !in tf && |tf| > 0 ==> p == Some(tf[0])
    ensures |tf| == 0 ==> p == None
    ensures p.Some? ==> p.value in tf
  {
    if Includes(tf, Preferred) then Some(Preferred)
    else if |tf| > 0 then Some(tf[0])
    else None
  }

  /** `cache_keys[tfPick]`: undefined (None) when the upstream map has no
      entry under the picked name; an empty list looks up "undefined". */
  function CacheKey(cacheKeys: map<string, string>, tf: seq<string>): (k: Option<string>)
    ensures Preferred in tf ==>
              k == (if Preferred in cacheKeys then Some(cacheKeys[Preferred]) else None)
    ensures Preferred !in tf && |tf| > 0 ==>
              k == (if tf[0] in cacheKeys then Some(cacheKeys[tf[0]]) else None)
    ensures |tf| == 0 ==>
              k == (if "undefined" in cacheKeys then Some(cacheKeys["undefined"]) else None)
  {
    var name := PropertyKey(Pick(tf));
    if name in cacheKeys then Some(cacheKeys[name]) else None
  }

  /** The preferred timeframe wins wherever it appears in the request. */
  lemma PreferredWinsAnywhere(before: seq<string>, after: seq<string>)
    ensures Pick(before + [Preferred] + after) == Some(Preferred)
  {
  }

  /** The pick only depends on the requested set and, without the preferred
      timeframe, on the first entry: reordering the tail changes nothing. */
  lemma PickIgnoresTailOrder(tf: seq<string>, tf': seq<string>)
    requires |tf| > 0 && |tf'| > 0 && tf[0] == tf'[0]
    requires multiset(tf) == multiset(tf')
    ensures Pick(tf) == Pick(tf')
  {
    assert Preferred in tf <==> Preferred in multiset(tf);
    assert Preferred in tf' <==> Preferred in multiset(tf');
  }
}
