/**
 Why a popped job can be worse than another one, and by how much: priorities recorded before a PASS stay on the heap
 until they surface.
 */
module StalePriority {
  import opened Wrappers
  import opened Genetics
  import opened Heapq
  import opened QueueSpec
  import opened Reservoir
  import opened AdaptiveQueue

  /** The first of entries with equal priority and growing serial numbers is in front of the heap. */
  lemma FirstIsInFront<K>(h: seq<Entry<K>>, entries: seq<Entry<K>>)
    requires IsHeap(h) && multiset(h) == multiset(entries) && entries != []
    requires forall j :: 0 < j < |entries| ==> entries[j].neg == entries[0].neg && entries[0].serial < entries[j].serial
    ensures h != [] && h[0] == entries[0]
  {
    assert entries[0] in multiset(h);
    var i :| 0 <= i < |h| && h[i] == entries[0];
    RootIsLeast(h, i);
    assert h[0] in multiset(entries);
    var j :| 0 <= j < |entries| && entries[j] == h[0];
  }

  /** The entries of `jobs` enqueued in order while every strategy has its first priority. */
  ghost function FirstEntries(jobs: seq<Job>): (r: seq<Entry<Key>>)
    ensures |r| == |jobs| && forall j :: 0 <= j < |r| ==> r[j] == Entry(-1.0, j + 1, jobs[j].JobKey())
  {
    seq(|jobs|, j requires 0 <= j < |jobs| => Entry(-1.0, j + 1, jobs[j].JobKey()))
  }

  ghost predicate Waiting(v: View, jobs: seq<Job>, j: nat)
    requires j < |jobs|
  {
    jobs[j].JobKey() in v.pending && v.pending[jobs[j].JobKey()] == jobs[j]
  }

  /** Of `jobs` those from `lo` to `hi` wait, and theirs are the entries of the heap. */
  ghost predicate Lined(v: View, heap: multiset<Entry<Key>>, jobs: seq<Job>, lo: nat, hi: nat) {
    && lo <= hi <= |jobs| && v.excluded == {} && heap == multiset(FirstEntries(jobs)[lo..hi])
    && (forall j :: lo <= j < hi ==> Waiting(v, jobs, j))
    && (forall k :: k in v.pending ==> HasPlace(jobs, lo, hi, k))
  }

  ghost predicate HasPlace(jobs: seq<Job>, lo: nat, hi: nat, k: Key) {
    exists j :: lo <= j < hi && j < |jobs| && jobs[j].JobKey() == k
  }

  ghost predicate DistinctKeys(jobs: seq<Job>) {
    forall i, j :: 0 <= i < j < |jobs| ==> jobs[i].JobKey() != jobs[j].JobKey()
  }

  lemma NotYetQueued(v: View, heap: multiset<Entry<Key>>, jobs: seq<Job>, i: nat)
    requires i < |jobs| && DistinctKeys(jobs) && Lined(v, heap, jobs, 0, i)
    ensures jobs[i].JobKey() !in v.pending
  {
    assert jobs[i].JobKey() in v.pending ==> HasPlace(jobs, 0, i, jobs[i].JobKey());
  }

  lemma AfterEnqueue(v: View, heap: multiset<Entry<Key>>, jobs: seq<Job>, i: nat)
    requires i < |jobs| && DistinctKeys(jobs) && Lined(v, heap, jobs, 0, i) && v.done == {}
    ensures Lined(Enqueue(v, jobs[i]), heap + multiset{Entry(-1.0, i + 1, jobs[i].JobKey())}, jobs, 0, i + 1)
  {
    var entries, w := FirstEntries(jobs), Enqueue(v, jobs[i]);
    NotYetQueued(v, heap, jobs, i);
    assert entries[0..i + 1] == entries[0..i] + [entries[i]];
    forall j | 0 <= j < i + 1
      ensures Waiting(w, jobs, j)
    {
      assert j < i ==> Waiting(v, jobs, j);
    }
    forall k | k in w.pending
      ensures HasPlace(jobs, 0, i + 1, k)
    {
      if k == jobs[i].JobKey() {
        assert HasPlace(jobs, 0, i + 1, k);
      } else {
        assert HasPlace(jobs, 0, i, k);
      }
    }
  }

  lemma AfterServe(v: View, w: View, before: multiset<Entry<Key>>, after: multiset<Entry<Key>>, jobs: seq<Job>, i: nat,
                   r: Option<Job>, from: Entry<Key>)
    requires i < |jobs| && DistinctKeys(jobs) && Lined(v, before, jobs, i, |jobs|)
    requires FrontServed(FirstEntries(jobs)[i], v, w, before, after, r, from)
    ensures Lined(w, after, jobs, i + 1, |jobs|) && r == Some(jobs[i])
  {
    var entries := FirstEntries(jobs);
    assert Waiting(v, jobs, i);
    assert entries[i..|jobs|] == [entries[i]] + entries[i + 1..|jobs|];
    assert multiset(entries[i..|jobs|]) == multiset{entries[i]} + multiset(entries[i + 1..|jobs|]);
    OneGone(after, multiset(entries[i + 1..|jobs|]), entries[i]);
    forall j | i + 1 <= j < |jobs|
      ensures Waiting(w, jobs, j)
    {
      assert Waiting(v, jobs, j);
    }
    forall k | k in w.pending
      ensures HasPlace(jobs, i + 1, |jobs|, k)
    {
      assert HasPlace(jobs, i, |jobs|, k);
    }
  }

  lemma OneGone<T>(a: multiset<T>, b: multiset<T>, e: T)
    requires a + multiset{e} == multiset{e} + b
    ensures a == b
  {
    assert a == (a + multiset{e}) - multiset{e} && b == (multiset{e} + b) - multiset{e};
  }

  lemma FrontIsNext(h: seq<Entry<Key>>, v: View, jobs: seq<Job>, i: nat)
    requires i < |jobs| && IsHeap(h) && Lined(v, multiset(h), jobs, i, |jobs|)
    ensures h != [] && h[0] == FirstEntries(jobs)[i] && Waiting(v, jobs, i) && v.excluded == {}
  {
    FirstIsInFront(h, FirstEntries(jobs)[i..|jobs|]);
  }

  /** Enqueues a new job of a strategy with its first priority. */
  method EnqueueNew(q: AdaptiveJobQueue, job: Job)
    requires q.Valid() && job.JobKey() !in q.pending && q.done == {} && Score(q.weights.Weights(), job.item) == 1.0
    modifies q`pending, q`order, q`byLabel, q`heap, q`serial, q`catalog
    ensures q.Valid() && q.serial == old(q.serial) + 1 && q.Contents() == Enqueue(old(q.Contents()), job)
    ensures multiset(q.heap) == old(multiset(q.heap)) + multiset{Entry(-1.0, old(q.serial) + 1, job.JobKey())}
  {
    var added := q.Enqueue(job);
  }

  method EnqueueNext(q: AdaptiveJobQueue, jobs: seq<Job>, i: nat)
    requires q.Valid() && i < |jobs| && q.serial == i && DistinctKeys(jobs) && q.done == {}
    requires Lined(q.Contents(), multiset(q.heap), jobs, 0, i) && Score(q.weights.Weights(), jobs[i].item) == 1.0
    modifies q`pending, q`order, q`byLabel, q`heap, q`serial, q`catalog
    ensures q.Valid() && q.serial == i + 1 && q.done == {} && Lined(q.Contents(), multiset(q.heap), jobs, 0, i + 1)
  {
    NotYetQueued(q.Contents(), multiset(q.heap), jobs, i);
    AfterEnqueue(q.Contents(), multiset(q.heap), jobs, i);
    EnqueueNew(q, jobs[i]);
  }

  method PopNext(q: AdaptiveJobQueue, jobs: seq<Job>, i: nat) returns (r: Option<Job>)
    requires q.Valid() && q.epsilon == 0.0 && i < |jobs| && DistinctKeys(jobs)
    requires Lined(q.Contents(), multiset(q.heap), jobs, i, |jobs|) && Score(q.weights.Weights(), jobs[i].item) == 1.0
    modifies q`pending, q`order, q`byLabel, q`heap, q`serial, q`done
    ensures q.Valid() && Lined(q.Contents(), multiset(q.heap), jobs, i + 1, |jobs|) && r == Some(jobs[i])
  {
    FrontIsNext(q.heap, q.Contents(), jobs, i);
    ghost var v, before := q.Contents(), multiset(q.heap);
    ghost var from;
    r, from := q.Pop({}, 0.0, seq(|q.order|, j => 1));
    AfterServe(v, q.Contents(), before, multiset(q.heap), jobs, i, r, from);
  }

  lemma AfterQuietPass(v: View, heap: multiset<Entry<Key>>, jobs: seq<Job>, i: nat, n: nat)
    requires i < n <= |jobs| && DistinctKeys(jobs) && Lined(v, heap, jobs, n, |jobs|) &&
             Siblings(jobs[i].domain, v.domains) == []
    ensures Lined(MarkDone(v, jobs[i], true), heap, jobs, n, |jobs|)
    ensures |heap| == |jobs| - n
  {
    var w := MarkDone(v, jobs[i], true);
    forall j | n <= j < |jobs|
      ensures Waiting(w, jobs, j)
    {
      assert Waiting(v, jobs, j);
    }
    forall k | k in w.pending
      ensures HasPlace(jobs, n, |jobs|, k)
    {
      assert HasPlace(jobs, n, |jobs|, k);
    }
    assert |multiset(FirstEntries(jobs)[n..|jobs|])| == |jobs| - n;
  }

  method PassNext(q: AdaptiveJobQueue, ghost better: Item, jobs: seq<Job>, i: nat, n: nat)
    requires q.Valid() && i < n <= |jobs| <= n + 2 && DistinctKeys(jobs) && q.rebuildEvery == 0
    requires Lined(q.Contents(), multiset(q.heap), jobs, n, |jobs|) && Siblings(jobs[i].domain, q.allDomains) == []
    requires jobs[i].item == better && q.boosts == i && q.weights.Weights() == Boosts(NO_WEIGHTS, better, i)
    modifies q, q.weights
    ensures q.Valid() && q.rebuildEvery == 0 && q.boosts == i + 1
    ensures Lined(q.Contents(), multiset(q.heap), jobs, n, |jobs|)
    ensures q.weights.Weights() == Boosts(NO_WEIGHTS, better, i + 1)
  {
    AfterQuietPass(q.Contents(), multiset(q.heap), jobs, i, n);
    assert |q.heap| == |multiset(q.heap)|;
    var _ := q.MarkDone(jobs[i], true);
  }

  /** A strategy that passes on `others`, then two strategies on `d`: the jobs of the example below. */
  function Line(worse: Item, better: Item, d: Domain, others: seq<Domain>): (jobs: seq<Job>)
    ensures |jobs| == |others| + 2
    ensures forall i :: 0 <= i < |others| ==> jobs[i] == Job(better, others[i], false)
    ensures jobs[|others|] == Job(worse, d, false) && jobs[|others| + 1] == Job(better, d, false)
  {
    seq(|others|, i requires 0 <= i < |others| => Job(better, others[i], false)) +
        [Job(worse, d, false), Job(better, d, false)]
  }

  ghost predicate Unrelated(worse: Item, better: Item, d: Domain, others: seq<Domain>) {
    && worse.blobs == [] && worse.traits == [] && worse.family != better.family && worse.tag != better.tag
    && (forall i, j :: 0 <= i < j < |others| ==> others[i].cluster != others[j].cluster)
    && (forall i :: 0 <= i < |others| ==> others[i].cluster != d.cluster)
  }

  lemma LineIsDistinct(worse: Item, better: Item, d: Domain, others: seq<Domain>)
    requires Unrelated(worse, better, d, others)
    ensures DistinctKeys(Line(worse, better, d, others))
  {
  }

  lemma NobodyElse(worse: Item, better: Item, d: Domain, others: seq<Domain>)
    requires Unrelated(worse, better, d, others)
    ensures forall i :: 0 <= i < |others| ==> Siblings(others[i], [d] + others) == []
  {
    forall i | 0 <= i < |others|
      ensures Siblings(others[i], [d] + others) == []
    {
      Alone(worse, better, d, others, i);
      NoSiblings(others[i], [d] + others);
    }
  }

  lemma Alone(worse: Item, better: Item, d: Domain, others: seq<Domain>, i: nat)
    requires Unrelated(worse, better, d, others) && i < |others|
    ensures forall x :: x in [d] + others && x != others[i] ==> x.cluster != others[i].cluster
  {
    forall x | x in [d] + others && x != others[i]
      ensures x.cluster != others[i].cluster
    {
      if x != d {
        var j :| 0 <= j < |others| && others[j] == x;
        assert j < i || i < j;
      }
    }
  }

  lemma NoSiblings(d: Domain, all: seq<Domain>)
    requires forall x :: x in all && x != d ==> x.cluster != d.cluster
    ensures Siblings(d, all) == []
  {
    SiblingsAre(d, all);
    assert forall x :: x !in Siblings(d, all);
  }

  method EnqueueAll(q: AdaptiveJobQueue, jobs: seq<Job>)
    requires q.Valid() && q.Contents() == View(map[], {}, {}, q.allDomains) && q.heap == [] && q.serial == 0
    requires DistinctKeys(jobs) && forall i :: 0 <= i < |jobs| ==> Score(q.weights.Weights(), jobs[i].item) == 1.0
    modifies q`pending, q`order, q`byLabel, q`heap, q`serial, q`catalog
    ensures q.Valid() && Lined(q.Contents(), multiset(q.heap), jobs, 0, |jobs|)
  {
    for i := 0 to |jobs|
      invariant q.Valid() && q.serial == i && q.done == {} && Lined(q.Contents(), multiset(q.heap), jobs, 0, i)
    {
      EnqueueNext(q, jobs, i);
    }
  }

  /** A queue on which `others` have been served, and have not reported yet. */
  method Prepare(worse: Item, better: Item, d: Domain, others: seq<Domain>) returns (q: AdaptiveJobQueue)
    requires Unrelated(worse, better, d, others)
    ensures fresh(q) && fresh(q.weights) && q.Valid() && q.epsilon == 0.0 && q.boosts == 0 && q.rebuildEvery == 0
    ensures q.weights.Weights() == NO_WEIGHTS && q.allDomains == [d] + others
    ensures Lined(q.Contents(), multiset(q.heap), Line(worse, better, d, others), |others|, |others| + 2)
  {
    var weights := new ScanWeights();
    q := new AdaptiveJobQueue(weights, 0.0, [d] + others, {}, [worse, better]);
    var jobs := Line(worse, better, d, others);
    LineIsDistinct(worse, better, d, others);
    ScoreAtFirst(worse, better, d, others);
    EnqueueAll(q, jobs);
    for i := 0 to |others|
      invariant fresh(q) && q.weights == weights && fresh(weights) && q.Valid() && q.boosts == 0 && q.rebuildEvery == 0
      invariant q.weights.Weights() == NO_WEIGHTS
      invariant Lined(q.Contents(), multiset(q.heap), jobs, i, |jobs|)
    {
      var _ := PopNext(q, jobs, i);
    }
  }

  lemma ScoreAtFirst(worse: Item, better: Item, d: Domain, others: seq<Domain>)
    requires Unrelated(worse, better, d, others)
    ensures forall i :: 0 <= i < |others| + 2 ==> Score(NO_WEIGHTS, Line(worse, better, d, others)[i].item) == 1.0
  {
    ScoreAfterBoosts(better, worse, 0);
    assert Boosts(NO_WEIGHTS, better, 0) == NO_WEIGHTS;
  }

  /** The first `n` jobs, which are out, all pass. */
  method PassAll(q: AdaptiveJobQueue, better: Item, jobs: seq<Job>, n: nat)
    requires q.Valid() && q.boosts == 0 && q.rebuildEvery == 0 && q.weights.Weights() == NO_WEIGHTS
    requires n <= |jobs| <= n + 2 && DistinctKeys(jobs) && Lined(q.Contents(), multiset(q.heap), jobs, n, |jobs|)
    requires forall i :: 0 <= i < n ==> jobs[i].item == better && Siblings(jobs[i].domain, q.allDomains) == []
    modifies q, q.weights
    ensures q.Valid() && q.boosts == n && q.weights.Weights() == Boosts(NO_WEIGHTS, better, n)
    ensures Lined(q.Contents(), multiset(q.heap), jobs, n, |jobs|)
  {
    for i := 0 to n
      invariant q.Valid() && q.rebuildEvery == 0 && q.boosts == i &&
                q.weights.Weights() == Boosts(NO_WEIGHTS, better, i)
      invariant Lined(q.Contents(), multiset(q.heap), jobs, n, |jobs|)
    {
      PassNext(q, better, jobs, i, n);
    }
  }

  /** So no bound with fewer rises holds. */
  lemma FewerRisesDoNotDo(t: Table, worse: Item, better: Item, k: nat)
    requires k > 0 && Score(t, better) == Score(t, worse) + Steps(Rise(better), k)
    ensures WithinRises(t, k, worse, better) && !WithinRises(t, k - 1, worse, better)
  {
    StepsMultiply(Rise(better), k);
    StepsMultiply(Rise(better), k - 1);
    assert Rise(better) > 0.0;
  }

  /**
   The bound on staleness is attained: after k PASSes of `better` on other clusters, `worse` is served although
   `better`, which waits on the same domain and is eligible, is ahead by exactly k of its rises. Both were enqueued
   with the same priority, `worse` first.
   */
  method StaleIsServedFirst(worse: Item, better: Item, d: Domain, others: seq<Domain>)
    returns (q: AdaptiveJobQueue, r: Option<Job>)
    requires Unrelated(worse, better, d, others) && 1.0 + |others| as real <= MAX_WEIGHT
    ensures fresh(q) && q.Valid() && q.boosts == |others| && r == Some(Job(worse, d, false))
    ensures Eligible(q.Contents(), Key(better.tag, d)) && q.pending[Key(better.tag, d)] == Job(better, d, false)
    ensures q.weights.Weights() == Boosts(NO_WEIGHTS, better, q.boosts)
    ensures Score(q.weights.Weights(), better) == Score(q.weights.Weights(), worse) + Steps(Rise(better), q.boosts)
  {
    q := Prepare(worse, better, d, others);
    var jobs, n := Line(worse, better, d, others), |others|;
    LineIsDistinct(worse, better, d, others);
    NobodyElse(worse, better, d, others);
    PassAll(q, better, jobs, n);
    ScoreAfterBoosts(better, worse, n);
    r := PopNext(q, jobs, n);
    assert Waiting(q.Contents(), jobs, n + 1);
  }
}
