/** Folding the result channel's messages into the output map. */
module Aggregation {
  import opened Types

  /** The URLs that occur in a list of messages. */
  function PairUrls(pairs: seq<Pair>): set<string>
  {
    set p | p in pairs :: p.url
  }

  /**
   * The map built by writing the messages in arrival order: each URL is a
   * key, and the body kept for it is one that arrived with it.
   */
  function PairsToMap(pairs: seq<Pair>): (m: map<string, string>)
    ensures m.Keys == PairUrls(pairs)
    ensures forall u :: u in m ==> Pair(u, m[u]) in pairs
  {
    if pairs == [] then map[]
    else
      var front, last := pairs[..|pairs| - 1], pairs[|pairs| - 1];
      assert pairs == front + [last];
      PairsToMap(front)[last.url := last.body]
  }

  /** Every message for the same URL carries the same body. */
  ghost predicate Consistent(pairs: seq<Pair>)
  {
    forall p, q :: p in pairs && q in pairs && p.url == q.url ==> p.body == q.body
  }

  /**
   * The arrival order does not matter: two lists holding the same messages
   * (in any order, any number of times each) give the same map.
   */
  lemma OrderIrrelevant(a: seq<Pair>, b: seq<Pair>)
    requires forall p :: p in a <==> p in b
    requires Consistent(a)
    ensures PairsToMap(a) == PairsToMap(b)
  {
    var ma, mb := PairsToMap(a), PairsToMap(b);
    assert ma.Keys == mb.Keys by {
      forall u | u in ma ensures u in mb {
        assert Pair(u, ma[u]) in b;
      }
      forall u | u in mb ensures u in ma {
        assert Pair(u, mb[u]) in a;
      }
    }
    forall u | u in ma ensures ma[u] == mb[u] {
      assert Pair(u, ma[u]) in a && Pair(u, mb[u]) in a;
    }
  }

  /**
   * The end of doAllWork: a kept error is the answer and the results are
   * dropped; otherwise the answer is the map of the results.
   */
  function Aggregate(kept: seq<FetchError>, pairs: seq<Pair>): (r: Outcome)
    ensures r.Failure? <==> kept != []
    ensures r.Failure? ==> r.error == kept[0]
    ensures r.Success? ==> r.output.Keys == PairUrls(pairs)
    ensures r.Success? ==> forall u :: u in r.output ==> Pair(u, r.output[u]) in pairs
  {
    if kept != [] then Failure(kept[0]) else Success(PairsToMap(pairs))
  }
}
