/**
 Second hand-outs on the queue itself: what the step system says of any order of pops, carried over to the order that
 the queue chooses, exploring or not.
 */
module SecondHandout {
  import opened Wrappers
  import opened Genetics
  import opened QueueSpec
  import opened Reservoir
  import opened AdaptiveQueue
  import opened QueueInterleaving

  /** Pops until `k` comes out: at most once for each eligible key, whatever is rolled and drawn. */
  method PopUntil(q: AdaptiveJobQueue, soft: set<Domain>, k: Key, roll: nat -> Roll, draw: nat -> nat -> nat)
    returns (job: Job, turns: nat)
    requires q.Valid() && Eligible(q.Contents(), k) && forall t: nat :: CanDraw(draw(t))
    modifies q`pending, q`order, q`byLabel, q`heap, q`serial, q`done
    ensures q.Valid() && job == old(q.pending)[k] && turns <= |old(EligibleKeys(q.Contents()))|
  {
    turns := 0;
    while true
      invariant q.Valid() && k in EligibleKeys(q.Contents()) && q.pending[k] == old(q.pending)[k]
      invariant turns + |EligibleKeys(q.Contents())| <= |old(EligibleKeys(q.Contents()))|
      decreases |EligibleKeys(q.Contents())|
    {
      var r := PopOnce(q, soft, roll(turns), draw(turns));
      turns := turns + 1;
      if r.value.JobKey() == k {
        return r.value, turns;
      }
    }
  }

  /** One pop while something is eligible. */
  method PopOnce(q: AdaptiveJobQueue, soft: set<Domain>, roll: Roll, draw: nat -> nat) returns (r: Option<Job>)
    requires q.Valid() && EligibleKeys(q.Contents()) != {} && CanDraw(draw)
    modifies q`pending, q`order, q`byLabel, q`heap, q`serial, q`done
    ensures q.Valid() && Popped(old(q.Contents()), soft, q.Contents(), r)
    ensures r.Some? && r.value.JobKey() in old(EligibleKeys(q.Contents())) &&
            r.value == old(q.pending)[r.value.JobKey()]
    ensures EligibleKeys(q.Contents()) == old(EligibleKeys(q.Contents())) - {r.value.JobKey()}
    ensures forall k :: k in EligibleKeys(q.Contents()) ==> q.pending[k] == old(q.pending)[k]
    ensures q.excludedDomains == {} ==> q.done == old(q.done)
  {
    ghost var from;
    r, from := q.Pop(soft, roll, Draws(draw, |q.order|));
    ghost var k :| k in old(EligibleKeys(q.Contents()));
    assert Eligible(old(q.Contents()), k);
    if q.excludedDomains == {} {
      NothingDiscarded(old(q.Contents()), soft, q.Contents(), r);
    }
  }

  lemma NothingDiscarded(v: View, soft: set<Domain>, w: View, r: Option<Job>)
    requires Popped(v, soft, w, r) && v.excluded == {}
    ensures w.done == v.done
  {
    if r.Some? {
      var u :| Discarded(v, u) && w == Drop(u, r.value.JobKey());
      assert forall k :: k in u.done ==> k in v.done || k in u.done - v.done;
      assert u.done == v.done;
    } else {
      assert forall k :: k in w.done ==> k in v.done || k in w.done - v.done;
    }
  }

  /** Exploring can choose any allowed job: with the right draws the next pop gives `k`. */
  method ExploreFor(q: AdaptiveJobQueue, soft: set<Domain>, roll: Roll, k: Key) returns (r: Option<Job>)
    requires q.Valid() && roll < q.epsilon && |q.pending| > 1 && Allowed(q.Contents(), soft, k)
    modifies q`pending, q`order, q`byLabel, q`heap, q`serial, q`done
    ensures q.Valid() && r == Some(old(q.pending)[k])
  {
    IsCandidate(q, soft, k);
    var candidates := Outside(q.order, soft + q.excludedDomains);
    if candidates == [] {
      candidates := Outside(q.order, q.excludedDomains);
    }
    var j := IndexOf(candidates, k);
    DrawsForPick(candidates, |q.order|, j);
    ghost var from;
    r, from := q.Pop(soft, roll, DrawsFor(|q.order|, j));
  }

  lemma IsCandidate(q: AdaptiveJobQueue, soft: set<Domain>, k: Key)
    requires q.Valid() && Allowed(q.Contents(), soft, k)
    ensures k in if Outside(q.order, soft + q.excludedDomains) != [] then Outside(q.order, soft + q.excludedDomains)
                 else Outside(q.order, q.excludedDomains)
  {
    q.OrderListsPending();
    OutsideHas(q.order, soft + q.excludedDomains);
    OutsideHas(q.order, q.excludedDomains);
    var candidates := Outside(q.order, soft + q.excludedDomains);
    if candidates != [] {
      assert candidates[0] in candidates && Eligible(q.Contents(), candidates[0]);
    }
  }

  method IndexOf(keys: seq<Key>, k: Key) returns (j: nat)
    requires k in keys
    ensures j < |keys| && keys[j] == k
  {
    j := 0;
    while keys[j] != k
      invariant j < |keys| && k !in keys[..j]
      decreases |keys| - j
    {
      j := j + 1;
    }
  }

  /** With one of two sibling jobs passing while the other is out, the other one is all that can come next. */
  lemma PassRevivesOther(v: View, job: Job, other: Key)
    requires EligibleKeys(v) == {} && v.excluded == {} && v.done == {} && other.domain in v.domains
    requires other.tag == job.item.tag && other.domain != job.domain && other.domain.cluster == job.domain.cluster
    requires forall d :: d in v.domains ==> d == job.domain || d == other.domain
    ensures EligibleKeys(MarkDone(v, job, true)) == {other}
  {
    MarkDoneMeans(v, job, true);
    assert forall k :: k in v.pending ==> k in EligibleKeys(v);
    assert Key(job.item.tag, other.domain) == other;
    forall k | k in MarkDone(v, job, true).pending
      ensures k == other
    {
      assert k.domain == job.domain ==> k == job.JobKey();
    }
  }

  /** Both jobs are taken out, in the order that the queue chooses. */
  method TakeBoth(q: AdaptiveJobQueue, ghost k1: Key, ghost k2: Key, roll: nat -> Roll, draw: nat -> nat -> nat)
    returns (first: Job, second: Job)
    requires q.Valid() && q.excludedDomains == {} && q.done == {} && EligibleKeys(q.Contents()) == {k1, k2} && k1 != k2
    requires forall t: nat :: CanDraw(draw(t))
    modifies q`pending, q`order, q`byLabel, q`heap, q`serial, q`done
    ensures q.Valid() && EligibleKeys(q.Contents()) == {} && q.done == {} &&
            {first.JobKey(), second.JobKey()} == {k1, k2}
    ensures first == old(q.pending)[first.JobKey()] && second == old(q.pending)[second.JobKey()]
  {
    var one := PopOnce(q, {}, roll(0), draw(0));
    var two := PopOnce(q, {one.value.domain}, roll(1), draw(1));
    return one.value, two.value;
  }

  /** A queue with the same strategy on two domains of a cluster. */
  method TwoSiblings(item: Item, d1: Domain, d2: Domain, epsilon: real) returns (q: AdaptiveJobQueue)
    requires d1 != d2
    ensures fresh(q) && fresh(q.weights) && q.Valid() && q.Contents() == View(q.pending, {}, {}, [d1, d2])
    ensures EligibleKeys(q.Contents()) == {Key(item.tag, d1), Key(item.tag, d2)}
    ensures q.pending[Key(item.tag, d1)] == Job(item, d1, false) && q.pending[Key(item.tag, d2)] == Job(item, d2, false)
  {
    var weights := new ScanWeights();
    q := new AdaptiveJobQueue(weights, epsilon, [d1, d2], {}, [item]);
    var _ := q.Enqueue(Job(item, d1, false));
    var _ := q.Enqueue(Job(item, d2, false));
  }

  /**
   Two workers on a new queue, one strategy on two domains of a cluster. Both jobs are out; the first passes; and the
   next pop gives the second one again, exploring or not.
   */
  method HandsOutTwice(item: Item, d1: Domain, d2: Domain, epsilon: real, roll: nat -> Roll, draw: nat -> nat -> nat)
    returns (q: AdaptiveJobQueue, first: Job, second: Job, third: Option<Job>)
    requires d1 != d2 && d1.cluster == d2.cluster && forall t: nat :: CanDraw(draw(t))
    ensures first.JobKey() != second.JobKey() && third.Some? && third.value.JobKey() == second.JobKey()
  {
    q := TwoSiblings(item, d1, d2, epsilon);
    first, second := TakeBoth(q, Key(item.tag, d1), Key(item.tag, d2), roll, draw);
    PassRevivesOther(q.Contents(), first, second.JobKey());
    var _ := q.MarkDone(first, true);
    third := PopOnce(q, {second.domain}, roll(2), draw(2));
  }
}
