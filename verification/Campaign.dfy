/**
 A campaign: every strategy on every domain, minus the domains and keys to skip. This module builds the
 queue for it and drops what an earlier session finished.
 */
module Campaign {
  import opened Wrappers
  import opened Genetics
  import opened QueueSpec
  import opened AdaptiveQueue

  ghost predicate InMatrix(items: seq<Item>, domains: seq<Domain>, skipDomains: set<Domain>, skipKeys: set<Key>,
                           k: Key) {
    ItemFor(items, k.tag).Some? && k.domain in domains && k.domain !in skipDomains && k !in skipKeys
  }

  /** A waiting job is the first strategy with its label, on a campaign domain. */
  ghost predicate Genuine(items: seq<Item>, v: View, k: Key) {
    k in v.pending ==> ItemFor(items, k.tag) == Some(v.pending[k].item) && k.domain in v.domains
  }

  ghost predicate AllGenuine(items: seq<Item>, v: View) {
    forall k :: Genuine(items, v, k)
  }

  /** The state right after the queue is built. */
  ghost predicate JustBuilt(items: seq<Item>, domains: seq<Domain>, skipDomains: set<Domain>, skipKeys: set<Key>,
                            v: View) {
    && v.excluded == skipDomains && v.domains == domains
    && (forall k :: k in v.pending <==> InMatrix(items, domains, skipDomains, skipKeys, k))
    && (forall k :: k in v.pending ==> !v.pending[k].fanout)
    && (forall k :: k in v.done <==> InMatrix(items, domains, {}, {}, k) && k in skipKeys)
    && AllGenuine(items, v)
  }

  /** The rows of the first `i` strategies are packed, and the row of the next one up to domain `j`. */
  ghost predicate PackedUpTo(items: seq<Item>, domains: seq<Domain>, skipDomains: set<Domain>, skipKeys: set<Key>,
                             v: View, i: nat, j: nat)
    requires i <= |items| && j <= |domains| && (i == |items| ==> j == 0)
  {
    && forall k :: Packed(items, domains, skipDomains, skipKeys, v, i, j, k)
  }

  ghost predicate Packed(items: seq<Item>, domains: seq<Domain>, skipDomains: set<Domain>, skipKeys: set<Key>,
                         v: View, i: nat, j: nat, k: Key)
    requires i <= |items| && j <= |domains| && (i == |items| ==> j == 0)
  {
    && (k in v.pending <==> InMatrix(items[..i], domains, skipDomains, skipKeys, k)
                            || (j > 0 && k.tag == items[i].tag && k.domain in domains[..j] &&
                                k.domain !in skipDomains && k !in skipKeys))
    && (k in v.pending ==>
          ItemFor(items, k.tag).Some? && v.pending[k] == Job(ItemFor(items, k.tag).value, k.domain, false))
  }

  lemma PackOne(items: seq<Item>, domains: seq<Domain>, skipDomains: set<Domain>, skipKeys: set<Key>,
                v: View, i: nat, j: nat)
    requires i < |items| && j < |domains| && v.done <= skipKeys
    requires PackedUpTo(items, domains, skipDomains, skipKeys, v, i, j)
    ensures var d := domains[j];
      var packs := d !in skipDomains && Key(items[i].tag, d) !in skipKeys;
      var w := if packs then Enqueue(v, Job(items[i], d, false)) else v;
      PackedUpTo(items, domains, skipDomains, skipKeys, w, i, j + 1)
  {
    var d := domains[j];
    var key := Key(items[i].tag, d);
    var w := if d !in skipDomains && key !in skipKeys then Enqueue(v, Job(items[i], d, false)) else v;
    assert items[..i + 1][..i] == items[..i];
    ItemForFinds(items[..i + 1], items[i].tag);
    ItemForStays(items, i + 1, items[i].tag);
    var next := j + 1;
    forall k
      ensures Packed(items, domains, skipDomains, skipKeys, w, i, next, k)
    {
      assert Packed(items, domains, skipDomains, skipKeys, v, i, j, k);
      assert k.domain in domains[..j + 1] <==> k.domain in domains[..j] || k.domain == d;
      assert k == key <==> k.tag == items[i].tag && k.domain == d;
    }
  }

  lemma NextRow(items: seq<Item>, domains: seq<Domain>, skipDomains: set<Domain>, skipKeys: set<Key>, v: View, i: nat)
    requires i < |items| && PackedUpTo(items, domains, skipDomains, skipKeys, v, i, |domains|)
    ensures PackedUpTo(items, domains, skipDomains, skipKeys, v, i + 1, 0)
  {
    assert items[..i + 1][..i] == items[..i];
    assert domains[..|domains|] == domains;
    var next := i + 1;
    forall k
      ensures Packed(items, domains, skipDomains, skipKeys, v, next, 0, k)
    {
      assert Packed(items, domains, skipDomains, skipKeys, v, i, |domains|, k);
    }
  }

  /** The keys of the matrix among those to skip. */
  function Finished(items: seq<Item>, domains: seq<Domain>, skipKeys: set<Key>): set<Key> {
    set i, d | i in items && d in domains && Key(i.tag, d) in skipKeys :: Key(i.tag, d)
  }

  lemma AllPacked(items: seq<Item>, domains: seq<Domain>, skipDomains: set<Domain>, skipKeys: set<Key>, v: View)
    requires PackedUpTo(items, domains, skipDomains, skipKeys, v, |items|, 0)
    requires v.excluded == skipDomains && v.domains == domains
    requires v.done == Finished(items, domains, skipKeys)
    ensures JustBuilt(items, domains, skipDomains, skipKeys, v)
  {
    assert items[..|items|] == items;
    forall k
      ensures Genuine(items, v, k)
      ensures k in v.pending <==> InMatrix(items, domains, skipDomains, skipKeys, k)
      ensures k in v.pending ==> !v.pending[k].fanout
      ensures k in v.done <==> InMatrix(items, domains, {}, {}, k) && k in skipKeys
    {
      assert Packed(items, domains, skipDomains, skipKeys, v, |items|, 0, k);
      ItemForFinds(items, k.tag);
      assert k == Key(k.tag, k.domain);
    }
  }

  /** Packs the next cell of the matrix. */
  method PackNext(q: AdaptiveJobQueue, items: seq<Item>, skipDomains: set<Domain>, skipKeys: set<Key>, i: nat, j: nat)
    requires q.Valid() && i < |items| && j < |q.allDomains| && q.done <= skipKeys
    requires PackedUpTo(items, q.allDomains, skipDomains, skipKeys, q.Contents(), i, j)
    modifies q`pending, q`order, q`byLabel, q`heap, q`serial, q`catalog
    ensures q.Valid() && PackedUpTo(items, q.allDomains, skipDomains, skipKeys, q.Contents(), i, j + 1)
    ensures old(q.catalog) == Some(items) ==> q.catalog == Some(items)
  {
    var d := q.allDomains[j];
    PackOne(items, q.allDomains, skipDomains, skipKeys, q.Contents(), i, j);
    if d !in skipDomains && Key(items[i].tag, d) !in skipKeys {
      var _ := q.Enqueue(Job(items[i], d, false));
      assert Packed(items, q.allDomains, skipDomains, skipKeys, q.Contents(), i, j + 1, Key(items[i].tag, d));
    }
  }

  /** Packs one strategy on every domain. */
  method PackRow(q: AdaptiveJobQueue, items: seq<Item>, skipDomains: set<Domain>, skipKeys: set<Key>, i: nat)
    requires q.Valid() && i < |items| && q.done <= skipKeys
    requires PackedUpTo(items, q.allDomains, skipDomains, skipKeys, q.Contents(), i, 0)
    modifies q`pending, q`order, q`byLabel, q`heap, q`serial, q`catalog
    ensures q.Valid() && PackedUpTo(items, q.allDomains, skipDomains, skipKeys, q.Contents(), i + 1, 0)
    ensures old(q.catalog) == Some(items) ==> q.catalog == Some(items)
  {
    for j := 0 to |q.allDomains|
      invariant q.Valid() && PackedUpTo(items, q.allDomains, skipDomains, skipKeys, q.Contents(), i, j)
      invariant old(q.catalog) == Some(items) ==> q.catalog == Some(items)
    {
      PackNext(q, items, skipDomains, skipKeys, i, j);
    }
    NextRow(items, q.allDomains, skipDomains, skipKeys, q.Contents(), i);
  }

  /** Packs the matrix into a new queue. */
  method Build(items: seq<Item>, domains: seq<Domain>, weights: ScanWeights, epsilon: real,
               skipDomains: set<Domain>, skipKeys: set<Key>)
    returns (q: AdaptiveJobQueue)
    ensures fresh(q) && q.Valid() && q.weights == weights && q.boosts == 0
    ensures q.epsilon == Clamped(epsilon)
    ensures Capped(weights.Weights()) ==> q.catalog == Some(items)
    ensures JustBuilt(items, domains, skipDomains, skipKeys, q.Contents())
  {
    q := new AdaptiveJobQueue(weights, epsilon, domains, skipDomains, items);
    q.Resume(Finished(items, domains, skipKeys));
    for i := 0 to |items|
      invariant fresh(q) && q.Valid() && q.weights == weights && q.boosts == 0 && q.done <= skipKeys
      invariant q.epsilon == Clamped(epsilon)
      invariant Capped(weights.Weights()) ==> q.catalog == Some(items)
      invariant q.excludedDomains == skipDomains && q.allDomains == domains &&
                q.done == Finished(items, domains, skipKeys)
      invariant PackedUpTo(items, domains, skipDomains, skipKeys, q.Contents(), i, 0)
    {
      PackRow(q, items, skipDomains, skipKeys, i);
    }
    AllPacked(items, domains, skipDomains, skipKeys, q.Contents());
  }
}
