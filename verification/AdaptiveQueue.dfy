/**
 The online job queue of an adaptive campaign: a heap with lazy deletion over a dictionary of
 waiting jobs. An entry whose key no longer waits is a tombstone; an entry whose recorded
 priority differs from the current one is stale and is replaced when it surfaces.
 */
module AdaptiveQueue {
  import opened Wrappers
  import opened Genetics
  import opened Heapq
  import opened QueueSpec
  import opened Reservoir

  /** A number that the random generator can return. */
  type Roll = r: real | 0.0 <= r < 1.0

  function Clamped(epsilon: real): (r: real)
    ensures 0.0 <= r <= 1.0 && (0.0 <= epsilon <= 1.0 ==> r == epsilon)
    ensures (epsilon < 0.0 ==> r == 0.0) && (epsilon > 1.0 ==> r == 1.0)
  {
    if epsilon < 0.0 then 0.0 else if epsilon > 1.0 then 1.0 else epsilon
  }

  predicate Explores(epsilon: real, roll: real, waiting: nat) {
    epsilon > 0.0 && roll < epsilon && waiting > 1
  }

  function EvenRoll(i: nat, n: nat): (r: Roll)
    requires i < n
  {
    EvenlySpaced(i, i, n);
    i as real / n as real
  }

  /** Which of the rolls 0, 1/n, 2/n, ... below 1 make the queue explore. */
  ghost function RollsExploring(n: nat, epsilon: real, waiting: nat): set<nat> {
    set i: nat | i < n && Explores(epsilon, EvenRoll(i, n), waiting)
  }

  /**
   With more than one job waiting exactly the rolls below `epsilon` explore: so a lower roll or a higher `epsilon` never
   turns exploring off, and of `n` evenly spaced rolls exactly `m` explore when `epsilon` is `m / n`.
   */
  lemma ExploringIsAsLikely(n: nat, m: nat, waiting: nat)
    requires m <= n && n > 0
    ensures forall epsilon: real, roll: Roll :: Explores(epsilon, roll, waiting) <==> waiting > 1 && roll < epsilon
    ensures |RollsExploring(n, m as real / n as real, waiting)| == if waiting > 1 then m else 0
  {
    var epsilon := m as real / n as real;
    forall i: nat | i < n
      ensures EvenRoll(i, n) < epsilon <==> i < m
    {
      EvenlySpaced(i, m, n);
    }
    assert RollsExploring(n, epsilon, waiting) == if waiting > 1 then FirstNumbers(m) else {};
  }

  lemma EvenlySpaced(i: nat, m: nat, n: nat)
    requires n > 0
    ensures i as real / n as real < m as real / n as real <==> i < m
    ensures 0.0 <= i as real / n as real && (i < n ==> i as real / n as real < 1.0)
  {
    var unit := n as real;
    assert (i as real / unit) * unit == i as real && (m as real / unit) * unit == m as real;
  }

  ghost function FirstNumbers(n: nat): (s: set<nat>)
    ensures |s| == n && forall i: nat :: i in s <==> i < n
  {
    if n == 0 then {} else FirstNumbers(n - 1) + {n - 1}
  }

  class AdaptiveJobQueue {
    const weights: ScanWeights
    const epsilon: real
    const allDomains: seq<Domain>
    var serial: nat
    var heap: seq<Entry<Key>>
    var pending: map<Key, Job>
    var order: seq<Key>  // the keys of `pending` in insertion order
    var byLabel: map<string, set<Key>>
    var done: set<Key>
    var clusterIndex: map<string, seq<Domain>>
    var excludedDomains: set<Domain>
    var rebuildEvery: nat
    var rebuildCounter: nat
    ghost var boosts: nat  // PASS boosts since the heap was last rebuilt
    // What labels name, as long as every job agrees with it and no weight exceeds the cap.
    ghost var catalog: Option<seq<Item>>

    ghost function Contents(): View
      reads this
    {
      View(pending, done, excludedDomains, allDomains)
    }

    /** The state with `entries` for the entries the queue holds. */
    ghost function Holding(entries: multiset<Entry<Key>>): Store
      reads this, weights
    {
      Store(Contents(), order, byLabel, entries, serial, weights.Weights(), boosts, catalog)
    }

    ghost predicate Valid()
      reads this, weights
    {
      && Consistent(Holding(multiset(heap))) && IsHeap(heap)
      && (clusterIndex == map[] || clusterIndex == ClusterIndex(allDomains))
    }

    /** An empty queue over the domains of a campaign with the strategies `items`. */
    constructor (weights: ScanWeights, epsilon: real, domains: seq<Domain>, skipDomains: set<Domain>,
                 ghost items: seq<Item>)
      ensures Valid() && this.weights == weights
      ensures Contents() == View(map[], {}, skipDomains, domains)
      ensures this.epsilon == Clamped(epsilon)
      ensures rebuildEvery == 0 && boosts == 0 && heap == [] && serial == 0
      ensures catalog == if Capped(weights.Weights()) then Some(items) else None
    {
      this.weights := weights;
      this.epsilon := Clamped(epsilon);
      serial, heap := 0, [];
      pending, order, byLabel, done := map[], [], map[], {};
      allDomains, excludedDomains := domains, skipDomains;
      rebuildEvery, rebuildCounter, boosts := 0, 0, 0;
      catalog := if Capped(weights.Weights()) then Some(items) else None;
      new;
      var index := BuildClusterIndex(domains);
      clusterIndex := index;
    }

    static method BuildClusterIndex(domains: seq<Domain>) returns (index: map<string, seq<Domain>>)
      ensures index == ClusterIndex(domains)
    {
      index := map[];
      for i := 0 to |domains|
        invariant index == ClusterIndex(domains[..i])
      {
        assert domains[..i + 1][..i] == domains[..i];
        index := index[domains[i].cluster := Members(index, domains[i].cluster) + [domains[i]]];
      }
      assert domains[..|domains|] == domains;
    }

    method PushHeap(key: Key, priority: real)
      requires IsHeap(heap)
      modifies this`heap, this`serial
      ensures IsHeap(heap) && serial == old(serial) + 1
      ensures multiset(heap) == old(multiset(heap)) + multiset{Entry(-priority, serial, key)}
    {
      serial := serial + 1;
      heap := HeapPush(heap, Entry(-priority, serial, key));
    }

    method DropPending(key: Key) returns (job: Option<Job>)
      requires key in pending ==> key.tag in byLabel
      modifies this`pending, this`order, this`byLabel
      ensures job == if key in old(pending) then Some(old(pending)[key]) else None
      ensures forall entries :: Holding(entries) == DropFrom(old(Holding(entries)), key)
    {
      if key !in pending {
        return None;
      }
      job := Some(pending[key]);
      pending := pending - {key};
      order := Without(order, key);
      byLabel := byLabel[key.tag := byLabel[key.tag] - {key}];
    }

    /** Puts a job whose key is neither waiting nor finished in the dictionary and on the heap. */
    method Insert(job: Job, priority: real)
      requires Valid() && job.JobKey() !in pending && job.JobKey() !in done
      requires priority == Score(weights.Weights(), job.item)
      modifies this`pending, this`order, this`byLabel, this`heap, this`serial, this`catalog
      ensures Valid() && catalog == CatalogWith(old(catalog), job.item)
      ensures Contents() == QueueSpec.Enqueue(old(Contents()), job)
      ensures serial == old(serial) + 1
      ensures multiset(heap) == old(multiset(heap)) + multiset{Entry(-priority, serial, job.JobKey())}
    {
      AddKeeps(Holding(multiset(heap)), job, Entry(-priority, serial + 1, job.JobKey()));
      FileJob(job);
      PushHeap(job.JobKey(), priority);
    }

    method FileJob(job: Job)
      modifies this`pending, this`order, this`byLabel, this`catalog
      ensures catalog == CatalogWith(old(catalog), job.item)
      ensures Contents() == old(Contents()).(pending := old(pending)[job.JobKey() := job])
      ensures order == old(order) + [job.JobKey()] && byLabel == FileUnder(old(byLabel), job.JobKey())
    {
      var key := job.JobKey();
      order, pending := order + [key], pending[key := job];
      byLabel := FileUnder(byLabel, key);
      catalog := CatalogWith(catalog, job.item);
    }

    method Enqueue(job: Job) returns (added: bool)
      requires Valid()
      modifies this`pending, this`order, this`byLabel, this`heap, this`serial, this`catalog
      ensures catalog == if added then CatalogWith(old(catalog), job.item) else old(catalog)
      ensures Valid()
      ensures Contents() == QueueSpec.Enqueue(old(Contents()), job)
      ensures added == (job.JobKey() !in old(pending) && job.JobKey() !in old(done))
      ensures |pending| == |old(pending)| + (if added then 1 else 0)
      ensures added ==>
                && serial == old(serial) + 1
                && multiset(heap) ==
                   old(multiset(heap)) + multiset{Entry(-Score(weights.Weights(), job.item), serial, job.JobKey())}
      ensures !added ==> heap == old(heap) && serial == old(serial)
    {
      var key := job.JobKey();
      if key in pending || key in done {
        return false;
      }
      var priority := weights.Get(job.item);
      Insert(job, priority);
      added := true;
    }

    method CurrentEntries() returns (entries: seq<Entry<Key>>)
      requires forall k :: k in order ==> k in pending
      ensures forall all :: RebuiltFrom(Holding(all), entries)
    {
      entries := [];
      for i := 0 to |order|
        invariant |entries| == i
        invariant forall j :: 0 <= j < i ==>
                    && order[j] in pending
                    && entries[j] == Entry(-Score(weights.Weights(), pending[order[j]].item), serial + j, order[j])
      {
        var priority := weights.Get(pending[order[i]].item);
        entries := entries + [Entry(-priority, serial + i, order[i])];
      }
    }

    method RebuildHeap()
      requires Valid()
      modifies this`heap, this`serial, this`boosts
      ensures Valid() && boosts == 0 && |heap| == |order|
      ensures forall e :: e in multiset(heap) ==> e.key in pending && Fresh(e, pending[e.key], weights.Weights())
    {
      OrderListsPending();
      var entries := CurrentEntries();
      RebuiltAreFresh(Holding(multiset(heap)), entries);
      ReplaceEntries(entries);
    }

    method ReplaceEntries(entries: seq<Entry<Key>>)
      requires Valid() && RebuiltFrom(Holding(multiset(heap)), entries)
      modifies this`heap, this`serial, this`boosts
      ensures Valid() && boosts == 0 && |heap| == |entries| && multiset(heap) == multiset(entries)
    {
      RebuildKeeps(Holding(multiset(heap)), entries);
      heap := Heapify(entries);
      serial := serial + |heap|;
      boosts := 0;
    }

    method MaybeCompactHeap()
      requires Valid()
      modifies this`heap, this`serial, this`boosts
      ensures Valid() && boosts <= old(boosts)
      ensures old(|heap|) <= |pending| * 2 + 512 ==> heap == old(heap) && serial == old(serial) && boosts == old(boosts)
    {
      if |pending| != 0 && |heap| > |pending| * 2 + 512 {
        RebuildHeap();
      }
    }

    /** Rebuilding is on, and the heap lags behind the weights by fewer PASSes than one round between rebuilds. */
    ghost predicate Paced()
      reads this
    {
      boosts <= rebuildCounter < rebuildEvery
    }

    method ConfigureHeapRebuild(every: int)
      requires Valid()
      modifies this`rebuildEvery, this`rebuildCounter
      ensures Valid()
      ensures rebuildEvery == (if every < 0 then 0 else every) && rebuildCounter == 0
      ensures every > 0 && boosts == 0 ==> Paced()
    {
      rebuildEvery := if every < 0 then 0 else every;
      rebuildCounter := 0;
    }

    /** PASSes counted since the last periodic rebuild, one PASS later. */
    function NextCount(counter: nat): nat
      reads this`rebuildEvery
    {
      if rebuildEvery == 0 then counter else if counter + 1 < rebuildEvery then counter + 1 else 0
    }

    method MaybeRebuildHeap()
      requires Valid()
      modifies this`heap, this`serial, this`boosts, this`rebuildCounter
      ensures Valid() && boosts <= old(boosts)
      ensures rebuildEvery > 0 && old(rebuildCounter) + 1 >= rebuildEvery ==> boosts == 0
      ensures rebuildCounter == NextCount(old(rebuildCounter))
      ensures rebuildEvery == 0 || old(rebuildCounter) + 1 < rebuildEvery ==>
                heap == old(heap) && serial == old(serial) && boosts == old(boosts)
      ensures 0 < rebuildEvery <= old(rebuildCounter) + 1 ==>
                forall e :: e in multiset(heap) ==> e.key in pending && Fresh(e, pending[e.key], weights.Weights())
    {
      if rebuildEvery <= 0 {
        return;
      }
      rebuildCounter := rebuildCounter + 1;
      if rebuildCounter >= rebuildEvery {
        RebuildHeap();
        rebuildCounter := 0;
      }
    }

    method FanoutOnPass(job: Job) returns (added: nat)
      requires Valid()
      modifies this`pending, this`order, this`byLabel, this`heap, this`serial, this`clusterIndex, this`catalog
      ensures Valid() && (Listed(old(catalog), job.item) ==> catalog == old(catalog))
      ensures Contents() == FanOut(old(Contents()), job.item, Siblings(job.domain, allDomains))
      ensures added == |pending| - |old(pending)|
      ensures Siblings(job.domain, allDomains) == [] ==> heap == old(heap) && serial == old(serial)
    {
      added := 0;
      if allDomains == [] {
        return;
      }
      if clusterIndex == map[] {
        clusterIndex := BuildClusterIndex(allDomains);
      }
      IndexFindsSiblings(job.domain, allDomains);
      ghost var before := Contents();
      var siblings := Without(Members(clusterIndex, job.domain.cluster), job.domain);
      for i := 0 to |siblings|
        invariant Valid()
        invariant Contents() == FanOut(before, job.item, siblings[..i])
        invariant added == |pending| - |before.pending|
        invariant i == 0 ==> heap == old(heap) && serial == old(serial)
        invariant Listed(old(catalog), job.item) ==> catalog == old(catalog)
      {
        FanOutNext(before, job.item, siblings, i);
        if siblings[i] in excludedDomains {
          continue;
        }
        var isNew := Enqueue(Job(job.item, siblings[i], true));
        added := added + if isNew then 1 else 0;
      }
      assert siblings[..|siblings|] == siblings;
    }

    method Finish(key: Key)
      requires Valid()
      modifies this`pending, this`order, this`byLabel, this`done
      ensures Valid()
      ensures Contents() == Drop(old(Contents()), key).(done := old(done) + {key})
    {
      DropKeeps(Holding(multiset(heap)), key, {key});
      var _ := DropPending(key);
      done := done + {key};
    }

    method ApplyBoost(item: Item)
      requires Valid()
      modifies weights, this`boosts
      ensures Valid()
      ensures weights.Weights() == Boost(old(weights.Weights()), item) && boosts == old(boosts) + 1
    {
      ghost var before := Holding(multiset(heap));
      weights.BoostPass(item);
      boosts := boosts + 1;
      BoostKeeps(before, item);
    }

    method Reward(job: Job) returns (added: nat)
      requires Valid()
      modifies this, weights
      ensures Valid()
      ensures Contents() == FanOut(old(Contents()), job.item, Siblings(job.domain, allDomains))
      ensures weights.Weights() == Boost(old(weights.Weights()), job.item)
      ensures boosts <= old(boosts) + 1 && rebuildEvery == old(rebuildEvery)
      ensures rebuildEvery > 0 && old(rebuildCounter) + 1 >= rebuildEvery ==> boosts == 0
      ensures rebuildCounter == NextCount(old(rebuildCounter)) && (old(Paced()) ==> Paced())
      ensures Listed(old(catalog), job.item) ==> catalog == old(catalog)
      ensures rebuildEvery == 0 && Siblings(job.domain, allDomains) == [] && old(|heap|) <= |old(pending)| * 2 + 512 ==>
                heap == old(heap) && boosts == old(boosts) + 1
    {
      ApplyBoost(job.item);
      MaybeRebuildHeap();
      MaybeCompactHeap();
      added := FanoutOnPass(job);
    }

    /** Marks a job complete; a PASS boosts its relatives and fans its strategy out. */
    method MarkDone(job: Job, passed: bool) returns (added: nat)
      requires Valid()
      modifies this, weights
      ensures Valid()
      ensures Contents() == QueueSpec.MarkDone(old(Contents()), job, passed)
      ensures weights.Weights() == if passed then Boost(old(weights.Weights()), job.item) else old(weights.Weights())
      ensures boosts <= old(boosts) + (if passed then 1 else 0) && rebuildEvery == old(rebuildEvery)
      ensures passed && rebuildEvery > 0 && old(rebuildCounter) + 1 >= rebuildEvery ==> boosts == 0
      ensures rebuildCounter == (if passed then NextCount(old(rebuildCounter)) else old(rebuildCounter))
      ensures !passed || Listed(old(catalog), job.item) ==> catalog == old(catalog)
      ensures old(Paced()) ==> Paced()
      ensures passed && rebuildEvery == 0 && Siblings(job.domain, allDomains) == [] && old(|heap|) <= 512 ==>
                heap == old(heap) && boosts == old(boosts) + 1
    {
      Finish(job.JobKey());
      if passed {
        added := Reward(job);
      } else {
        MaybeCompactHeap();
        added := 0;
      }
    }

    // ---------- pop ----------

    /** One waiting key by reservoir sampling: outside `exclude` if there is one, else outside the hard exclusions. */
    method EpsilonPickKey(exclude: set<Domain>, draws: seq<nat>) returns (chosen: Option<Key>)
      requires ValidDraws(draws) && |order| <= |draws| && (draws != [] ==> draws[0] == 1)
      ensures chosen == if Outside(order, exclude) != [] then Pick(Outside(order, exclude), draws)
                        else Pick(Outside(order, excludedDomains), draws)
    {
      var count;
      chosen, count := Sample(order, exclude, draws);
      if count != 0 {
        return;
      }
      chosen, count := Sample(order, excludedDomains, draws);
    }

    /** Exploring is fair: of the draw sequences for the n candidates of a pop, each candidate is picked by (n-1)!. */
    lemma ExploringIsFair(soft: set<Domain>, k: Key)
      requires Valid() && Eligible(Contents(), k) && k.domain !in soft
      ensures var candidates := Outside(order, soft + excludedDomains);
        && k in candidates && (forall x :: x in candidates <==> Eligible(Contents(), x) && x.domain !in soft)
        && |Picking(candidates, k)| == Factorial(|candidates| - 1)
        && |AllDraws(|candidates|)| == Factorial(|candidates|)
    {
      OrderListsPending();
      OutsideHas(order, soft + excludedDomains);
      OutsideIsDistinct(order, soft + excludedDomains);
      EveryKeyIsFair(Outside(order, soft + excludedDomains), k);
    }

    /**
     In the middle of a pop that began at `v`: `skipped` holds live, fresh entries set aside for soft exclusion,
     `surfaced` the entry just taken from the heap, if any.
     */
    ghost predicate Popping(v: View, soft: set<Domain>, skipped: seq<Entry<Key>>, surfaced: multiset<Entry<Key>>)
      reads this, weights
    {
      && Consistent(Holding(multiset(heap) + multiset(skipped) + surfaced)) && IsHeap(heap)
      && (clusterIndex == map[] || clusterIndex == ClusterIndex(allDomains))
      && Discarded(v, Contents())
      && AllSetAside(Contents(), soft, skipped)
    }

    /** A pop in its loop: no entry surfaced, and on the heap only entries `before` the pop or issued after `top`. */
    ghost predicate Searching(v: View, soft: set<Domain>, skipped: seq<Entry<Key>>, before: multiset<Entry<Key>>,
                              top: nat)
      reads this, weights
    {
      && Popping(v, soft, skipped, multiset{}) && serial >= top
      && forall f :: f in multiset(heap) ==> Known(f, before, top)
    }

    /** `job` is near-best, and `from` its current entry, which no live entry on the heap outside `soft` precedes. */
    ghost predicate ServedFrom(v: View, soft: set<Domain>, job: Job, from: Entry<Key>, before: multiset<Entry<Key>>,
                               top: nat)
      reads this, weights
    {
      && NearBest(v, soft, weights.Weights(), boosts, job)
      && from.key == job.JobKey() && Known(from, before, top)
      && Fresh(from, job, weights.Weights()) && Foremost(from, multiset(heap), Contents(), soft)
    }

    ghost function StaleEntries(): set<Entry<Key>>
      reads this, weights
    {
      StaleIn(multiset(heap), pending, weights.Weights())
    }

    /** A pop that is on course for `k` before the entry `e` surfaces. */
    ghost predicate Heading(k: Key, e: Entry<Key>, skipped: seq<Entry<Key>>, v: View, soft: set<Domain>)
      reads this
    {
      && catalog.Some? && OnCourse(k, multiset(heap) + multiset{e}, skipped, v, soft)
      && forall f :: f in multiset(heap) ==> Leq(e, f) && !Clash(e, f)
    }

    lemma ForgetTombstone(v: View, soft: set<Domain>, skipped: seq<Entry<Key>>, e: Entry<Key>, k: Key)
      requires Popping(v, soft, skipped, multiset{e}) && e.key !in pending
      ensures Popping(v, soft, skipped, multiset{})
      ensures Heading(k, e, skipped, v, soft) ==> OnCourse(k, multiset(heap), skipped, v, soft)
    {
      DiscardingKeepsEligible(v, Contents());
      if Heading(k, e, skipped, v, soft) {
        ForgettingStaysOnCourse(k, multiset(heap), e, skipped, v, soft);
      }
      EntriesLeave(Holding(multiset(heap) + multiset(skipped) + multiset{e}),
                   multiset(heap) + multiset(skipped) + multiset{});
    }

    lemma PutAside(v: View, soft: set<Domain>, skipped: seq<Entry<Key>>, e: Entry<Key>, k: Key)
      requires Popping(v, soft, skipped, multiset{e}) && SetAside(Contents(), soft, e)
      ensures Popping(v, soft, skipped + [e], multiset{})
      ensures Heading(k, e, skipped, v, soft) ==> OnCourse(k, multiset(heap), skipped + [e], v, soft)
    {
      DiscardingKeepsEligible(v, Contents());
      if Heading(k, e, skipped, v, soft) {
        SettingAsideStaysOnCourse(k, multiset(heap), e, skipped, v, soft);
      }
      assert multiset(heap) + multiset(skipped) + multiset{e} == multiset(heap) + multiset(skipped + [e]) + multiset{};
    }

    method RefreshStaleEntry(ghost v: View, ghost soft: set<Domain>, ghost skipped: seq<Entry<Key>>, e: Entry<Key>,
                             priority: real, ghost before: multiset<Entry<Key>>, ghost top: nat)
      requires Popping(v, soft, skipped, multiset{e}) && e.key in pending
      requires serial >= top && forall f :: f in multiset(heap) ==> Known(f, before, top)
      requires priority == Score(weights.Weights(), pending[e.key].item)
      modifies this`heap, this`serial
      ensures Searching(v, soft, skipped, before, top)
      ensures |heap| == old(|heap|) + 1 && StaleEntries() == old(StaleEntries())
      ensures serial == old(serial) + 1
      ensures multiset(heap) == old(multiset(heap)) + multiset{Entry(-priority, serial, e.key)}
    {
      PushFresh(multiset(skipped), multiset{e}, e.key, priority);
    }

    method RefreshOnCourse(ghost v: View, ghost soft: set<Domain>, ghost skipped: seq<Entry<Key>>, e: Entry<Key>,
                           priority: real, ghost before: multiset<Entry<Key>>, ghost top: nat, ghost k: Key)
      requires Popping(v, soft, skipped, multiset{e}) && e.key in pending && e.neg != -priority
      requires serial >= top && forall f :: f in multiset(heap) ==> Known(f, before, top)
      requires priority == Score(weights.Weights(), pending[e.key].item)
      modifies this`heap, this`serial
      ensures Searching(v, soft, skipped, before, top)
      ensures |heap| == old(|heap|) + 1 && StaleEntries() == old(StaleEntries())
      ensures old(Heading(k, e, skipped, v, soft)) ==> OnCourse(k, multiset(heap), skipped, v, soft)
    {
      ghost var refreshed := Entry(-priority, serial + 1, e.key);
      ghost var heading := Heading(k, e, skipped, v, soft);
      if heading {
        RefreshIsOnCourse(v, soft, skipped, e, refreshed, k);
      }
      assert heading ==> OnCourse(k, multiset(heap) + multiset{refreshed}, skipped, v, soft);
      RefreshStaleEntry(v, soft, skipped, e, priority, before, top);
      assert multiset(heap) == old(multiset(heap)) + multiset{refreshed};
    }

    lemma RefreshIsOnCourse(v: View, soft: set<Domain>, skipped: seq<Entry<Key>>, e: Entry<Key>, f: Entry<Key>, k: Key)
      requires Popping(v, soft, skipped, multiset{e}) && e.key in pending && f.key == e.key && e.neg != f.neg
      requires Fresh(f, pending[e.key], weights.Weights()) && Heading(k, e, skipped, v, soft)
      ensures OnCourse(k, multiset(heap) + multiset{f}, skipped, v, soft)
    {
      assert Waits(Contents(), e.key);
      StaleIsTooLow(Holding(multiset(heap) + multiset(skipped) + multiset{e}), e);
      RefreshingStaysOnCourse(k, multiset(heap), e, f, skipped, v, soft);
    }

    /** Pushes an entry with the current priority in the place of `gone`, older entries of the same job. */
    method PushFresh(ghost others: multiset<Entry<Key>>, ghost gone: multiset<Entry<Key>>, key: Key, priority: real)
      requires IsHeap(heap) && Consistent(Holding(multiset(heap) + others + gone))
      requires forall f :: f in gone ==> f.key == key
      requires key in pending && priority == Score(weights.Weights(), pending[key].item)
      modifies this`heap, this`serial
      ensures IsHeap(heap) && Consistent(Holding(multiset(heap) + others + multiset{}))
      ensures |heap| == old(|heap|) + 1 && StaleEntries() == old(StaleEntries())
      ensures serial == old(serial) + 1
      ensures multiset(heap) == old(multiset(heap)) + multiset{Entry(-priority, serial, key)}
    {
      ghost var s := Holding(multiset(heap) + others + gone);
      ghost var fresh_ := Entry(-priority, serial + 1, key);
      RefreshKeeps(s, multiset(heap) + others, fresh_);
      FreshAddsNoStale(multiset(heap), pending, weights.Weights(), fresh_);
      Regrouped(multiset(heap), others, multiset{fresh_});
      PushHeap(key, priority);
      assert |multiset(heap)| == |heap|;
    }

    static lemma Regrouped(inHeap: multiset<Entry<Key>>, skipped: multiset<Entry<Key>>, more: multiset<Entry<Key>>)
      ensures (inHeap + more) + skipped + multiset{} == inHeap + skipped + more
    {
    }

    /** Discards a job under hard exclusion for good. */
    method DropExcluded(ghost v: View, ghost soft: set<Domain>, ghost skipped: seq<Entry<Key>>, e: Entry<Key>,
                        ghost k: Key)
      requires Popping(v, soft, skipped, multiset{e}) && e.key in pending && e.key.domain in excludedDomains
      modifies this`pending, this`order, this`byLabel, this`done
      ensures Popping(v, soft, skipped, multiset{})
      ensures |StaleEntries()| <= old(|StaleEntries()|)
      ensures old(Heading(k, e, skipped, v, soft)) ==> OnCourse(k, multiset(heap), skipped, v, soft)
    {
      ghost var s := Holding(multiset(heap) + multiset(skipped) + multiset{e});
      DropKeeps(s, e.key, {e.key});
      assert Waits(Contents(), e.key);
      DiscardOne(v, Contents(), soft, skipped, e.key);
      done := done + {e.key};
      var _ := DropPending(e.key);
      ForgetTombstone(v, soft, skipped, e, k);
      SubsetIsSmaller(StaleEntries(), old(StaleEntries()));
    }

    /** Pushes every listed entry back. */
    method PushAll(entries: seq<Entry<Key>>)
      requires IsHeap(heap)
      modifies this`heap
      ensures IsHeap(heap) && multiset(heap) == old(multiset(heap)) + multiset(entries)
    {
      for i := 0 to |entries|
        invariant IsHeap(heap) && multiset(heap) == old(multiset(heap)) + multiset(entries[..i])
      {
        assert entries[..i + 1] == entries[..i] + [entries[i]];
        heap := HeapPush(heap, entries[i]);
      }
      assert entries[..|entries|] == entries;
    }

    /** Hands out the job of `e` and restores the entries that were set aside. */
    method Serve(ghost v: View, ghost soft: set<Domain>, skipped: seq<Entry<Key>>, e: Entry<Key>) returns (job: Job)
      requires Popping(v, soft, skipped, multiset{e}) && Eligible(Contents(), e.key)
      modifies this`pending, this`order, this`byLabel, this`heap
      ensures Valid() && job == old(pending)[e.key]
      ensures Contents() == Drop(old(Contents()), e.key)
      ensures multiset(heap) == old(multiset(heap)) + multiset(skipped)
    {
      ghost var s := Holding(multiset(heap) + multiset(skipped) + multiset{e});
      DropKeeps(s, e.key, {});
      var dropped := DropPending(e.key);
      job := dropped.value;
      EntriesLeave(Holding(s.entries), multiset(heap) + multiset(skipped));
      PushAll(skipped);
    }

    method TakeTop(ghost v: View, ghost soft: set<Domain>, ghost skipped: seq<Entry<Key>>,
                   ghost before: multiset<Entry<Key>>, ghost top: nat, ghost k: Key)
      returns (e: Entry<Key>)
      requires Searching(v, soft, skipped, before, top) && heap != []
      modifies this`heap
      ensures Popping(v, soft, skipped, multiset{e})
      ensures |heap| == old(|heap|) - 1 && |StaleEntries()| <= old(|StaleEntries()|)
      ensures e.key in pending && !Fresh(e, pending[e.key], weights.Weights()) ==>
                |StaleEntries()| < old(|StaleEntries()|)
      ensures forall f :: f in multiset(heap) ==> Leq(e, f)
      ensures e == old(heap)[0] && old(multiset(heap)) == multiset(heap) + multiset{e}
      ensures catalog.Some? && old(OnCourse(k, multiset(heap), skipped, v, soft)) ==> Heading(k, e, skipped, v, soft)
      ensures Known(e, before, top) && forall f :: f in multiset(heap) ==> Known(f, before, top)
    {
      ghost var s := Holding(multiset(heap) + multiset(skipped) + multiset{});
      e, heap := HeapPop(heap);
      assert multiset(heap) + multiset(skipped) + multiset{e} == s.entries;
      assert e in old(multiset(heap)) && old(multiset(heap))[e] <= s.entries[e];
      assert IssuedOnce(s.entries, e, s.serial);
      assert multiset(heap) == old(multiset(heap)) - multiset{e};
      assert forall f :: f in multiset(heap) ==> f in s.entries;
      TakingLeavesFewerStale(old(multiset(heap)), pending, weights.Weights(), e);
    }

    /** Serves the entry in front of the heap, which is live, fresh and allowed. */
    method ServeBest(ghost v: View, ghost soft: set<Domain>, skipped: seq<Entry<Key>>, e: Entry<Key>,
                     ghost before: multiset<Entry<Key>>, ghost top: nat, ghost k: Key)
      returns (job: Job)
      requires Known(e, before, top)
      requires Popping(v, soft, skipped, multiset{e}) && Eligible(Contents(), e.key) && e.key.domain !in soft
      requires Fresh(e, pending[e.key], weights.Weights()) && forall f :: f in multiset(heap) ==> Leq(e, f)
      modifies this`pending, this`order, this`byLabel, this`heap
      ensures Valid() && Popped(v, soft, Contents(), Some(job))
      ensures job.domain !in soft && ServedFrom(v, soft, job, e, before, top)
      ensures old(Heading(k, e, skipped, v, soft)) ==> job.JobKey() == k
      ensures FrontServed(e, old(Contents()), Contents(), old(multiset(heap)) + multiset(skipped) + multiset{e},
                          multiset(heap),
                          Some(job), e)
    {
      ghost var s, rest := Holding(multiset(heap) + multiset(skipped) + multiset{e}), multiset(heap);
      LeastServesNearBest(s, v, soft, skipped, rest, e);
      assert Waits(Contents(), e.key);
      DiscardingKeepsEligible(v, Contents());
      if Heading(k, e, skipped, v, soft) {
        ServingIsOnCourse(k, rest, e, skipped, v, soft);
      }
      ServedEagerly(v, Contents(), soft, e.key);
      job := Serve(v, soft, skipped, e);
      ForemostAfterRestore(e, rest, skipped, s.view, Contents(), soft);
    }

    /** The entry in front of the heap is live, fresh and allowed. */
    ghost predicate FrontReady(soft: set<Domain>)
      reads this, weights
    {
      && heap != [] && heap[0].key in pending && Fresh(heap[0], pending[heap[0].key], weights.Weights())
      && heap[0].key.domain !in soft + excludedDomains
    }

    /** One turn of the loop: surfaces the entry in front and serves it, refreshes it, sets it aside or discards it. */
    method SurfaceNext(ghost v: View, soft: set<Domain>, skipped: seq<Entry<Key>>, ghost before: multiset<Entry<Key>>,
                       ghost top: nat, ghost k: Key)
      returns (r: Option<Job>, ghost from: Entry<Key>, skipped': seq<Entry<Key>>)
      requires Searching(v, soft, skipped, before, top) && heap != []
      modifies this`pending, this`order, this`byLabel, this`heap, this`serial, this`done
      ensures r.None? ==> Searching(v, soft, skipped', before, top)
      ensures r.None? ==> |heap| + |StaleEntries()| < old(|heap| + |StaleEntries()|)
      ensures r.Some? ==> Valid() && Popped(v, soft, Contents(), r)
      ensures r.Some? ==> r.value.domain !in soft && ServedFrom(v, soft, r.value, from, before, top)
      ensures old(FrontReady(soft)) ==>
                FrontServed(old(heap)[0], old(Contents()), Contents(), old(multiset(heap)) + multiset(skipped),
                            multiset(heap), r, from)
      ensures catalog.Some? && old(OnCourse(k, multiset(heap), skipped, v, soft)) ==>
                if r.Some? then r.value.JobKey() == k else OnCourse(k, multiset(heap), skipped', v, soft)
    {
      var entry := TakeTop(v, soft, skipped, before, top, k);
      assert old(multiset(heap)) + multiset(skipped) == multiset(heap) + multiset(skipped) + multiset{entry};
      r, from, skipped' := Treat(v, soft, skipped, entry, before, top, k);
    }

    ghost predicate IsStale(e: Entry<Key>)
      reads this, weights
    {
      e.key in pending && !Fresh(e, pending[e.key], weights.Weights())
    }

    /** What becomes of a surfaced entry. */
    method Treat(ghost v: View, soft: set<Domain>, skipped: seq<Entry<Key>>, entry: Entry<Key>,
                 ghost before: multiset<Entry<Key>>, ghost top: nat, ghost k: Key)
      returns (r: Option<Job>, ghost from: Entry<Key>, skipped': seq<Entry<Key>>)
      requires Popping(v, soft, skipped, multiset{entry}) && Known(entry, before, top) && serial >= top
      requires forall f :: f in multiset(heap) ==> Leq(entry, f) && Known(f, before, top)
      modifies this`pending, this`order, this`byLabel, this`heap, this`serial, this`done
      ensures r.None? ==> Searching(v, soft, skipped', before, top)
      ensures r.None? ==> |heap| <= old(|heap|) + old(if IsStale(entry) then 1 else 0)
      ensures r.None? ==> |StaleEntries()| <= old(|StaleEntries()|)
      ensures r.Some? ==> Valid() && Popped(v, soft, Contents(), r)
      ensures r.Some? ==> r.value.domain !in soft && ServedFrom(v, soft, r.value, from, before, top)
      ensures old(entry.key in pending && !IsStale(entry) && entry.key.domain !in soft + excludedDomains) ==>
                FrontServed(entry, old(Contents()), Contents(),
                            old(multiset(heap)) + multiset(skipped) + multiset{entry},
                            multiset(heap), r, from)
      ensures old(Heading(k, entry, skipped, v, soft)) ==>
                if r.Some? then r.value.JobKey() == k else OnCourse(k, multiset(heap), skipped', v, soft)
    {
      from := entry;
      if entry.key !in pending {
        ForgetTombstone(v, soft, skipped, entry, k);
        return None, from, skipped;
      }
      assert Waits(Contents(), entry.key);
      var job := pending[entry.key];
      var priority := weights.Get(job.item);
      if entry.neg != -priority {
        RefreshOnCourse(v, soft, skipped, entry, priority, before, top, k);
        return None, from, skipped;
      }
      if job.domain in excludedDomains {
        DropExcluded(v, soft, skipped, entry, k);
        return None, from, skipped;
      }
      if job.domain in soft + excludedDomains {
        PutAside(v, soft, skipped, entry, k);
        return None, from, skipped + [entry];
      }
      job := ServeBest(v, soft, skipped, entry, before, top, k);
      return Some(job), from, skipped;
    }

    /** The loop of the exploiting branch. A pop that is on course for `k` serves it. */
    method Surface(soft: set<Domain>, ghost k: Key) returns (r: Option<Job>, ghost from: Entry<Key>)
      requires Valid()
      modifies this`pending, this`order, this`byLabel, this`heap, this`serial, this`done
      ensures Valid() && Popped(old(Contents()), soft, Contents(), r)
      ensures r.Some? && r.value.domain !in soft ==>
                ServedFrom(old(Contents()), soft, r.value, from, old(multiset(heap)), old(serial))
      ensures old(FrontReady(soft)) ==>
                FrontServed(old(heap)[0], old(Contents()), Contents(), old(multiset(heap)), multiset(heap), r, from)
      ensures catalog.Some? && old(OnCourse(k, multiset(heap), [], Contents(), soft)) ==>
                r.Some? && r.value.JobKey() == k
    {
      ghost var v := Contents();
      ghost var onCourse := catalog.Some? && OnCourse(k, multiset(heap), [], v, soft);
      var skipped: seq<Entry<Key>> := [];
      assert multiset(heap) + multiset(skipped) + multiset{} == multiset(heap);
      while heap != []
        invariant Searching(v, soft, skipped, old(multiset(heap)), old(serial))
        invariant old(FrontReady(soft)) ==> heap == old(heap) && skipped == [] && Contents() == v
        invariant onCourse ==> catalog.Some? && OnCourse(k, multiset(heap), skipped, v, soft)
        decreases |heap| + |StaleEntries()|
      {
        assert multiset(heap) + multiset([]) == multiset(heap);
        r, from, skipped := SurfaceNext(v, soft, skipped, old(multiset(heap)), old(serial), k);
        if r.Some? {
          return;
        }
      }
      r, from := ServeAside(v, soft, skipped, k);
    }

    /** The end of the loop: all entries are gone from the heap. */
    method ServeAside(ghost v: View, ghost soft: set<Domain>, skipped: seq<Entry<Key>>, ghost k: Key)
      returns (r: Option<Job>, ghost from: Entry<Key>)
      requires Popping(v, soft, skipped, multiset{}) && heap == []
      modifies this`pending, this`order, this`byLabel, this`heap
      ensures Valid() && Popped(v, soft, Contents(), r) && (r.Some? ==> r.value.domain in soft)
      ensures OnCourse(k, multiset{}, skipped, v, soft) ==> r.Some? && r.value.JobKey() == k
    {
      if skipped != [] {
        assert SetAside(Contents(), soft, skipped[0]) && Waits(Contents(), skipped[0].key);
      }
      r, from := FallBack(v, soft, skipped);
    }

    /**
     The exploiting branch: surfaces entries until one is live, fresh and allowed. `from` is that entry: an entry of
     the served key that was on the heap, or one refreshed on the way. If the entry in front is ready, it is the one.
     With a catalog the job served is that of the first entry of an allowed job, whatever else is on the heap.
     */
    method PopBest(soft: set<Domain>) returns (r: Option<Job>, ghost from: Entry<Key>)
      requires Valid()
      modifies this`pending, this`order, this`byLabel, this`heap, this`serial, this`done
      ensures Valid() && Popped(old(Contents()), soft, Contents(), r)
      ensures r.Some? && r.value.domain !in soft ==>
                ServedFrom(old(Contents()), soft, r.value, from, old(multiset(heap)), old(serial))
      ensures old(FrontReady(soft)) ==>
                FrontServed(old(heap)[0], old(Contents()), Contents(), old(multiset(heap)), multiset(heap), r, from)
      ensures catalog.Some? ==> Ruled(old(multiset(heap)), old(Contents()), soft, r)
      ensures catalog.Some? && r.Some? && r.value.domain !in soft ==>
                (Best(old(Contents()), soft, weights.Weights(), r.value) <==>
                 NothingStaleBeats(old(Holding(multiset(heap))), soft, r.value))
    {
      ghost var s := Holding(multiset(heap));
      ghost var k := FirstKey(soft);
      r, from := Surface(soft, k);
      RuledBy(k, s.entries, s.view, soft, r, Contents());
      if catalog.Some? && r.Some? && r.value.domain !in soft {
        BestUnlessStaleBeats(s, soft, r);
      }
    }

    /** The key of the first entry, if there is one. */
    lemma FirstKey(soft: set<Domain>) returns (k: Key)
      requires Valid()
      ensures forall e :: First(e, multiset(heap), Contents(), soft) ==>
                e.key == k && OnCourse(k, multiset(heap), [], Contents(), soft)
    {
      k := Key("", Domain("", ""));
      if lead: Entry<Key> :| First(lead, multiset(heap), Contents(), soft) {
        k := lead.key;
        var e := SomeEntryIsFirst(Holding(multiset(heap)), soft, k);
      }
    }

    /** Everything eligible is under soft exclusion: the entry in front of those set aside is served. */
    method FallBack(ghost v: View, ghost soft: set<Domain>, skipped: seq<Entry<Key>>)
      returns (r: Option<Job>, ghost from: Entry<Key>)
      requires Popping(v, soft, skipped, multiset{}) && heap == []
      modifies this`pending, this`order, this`byLabel, this`heap
      ensures Valid() && Popped(v, soft, Contents(), r)
      ensures r == (if skipped == [] then None else Some(old(pending)[skipped[0].key]))
      ensures r.Some? ==> r.value.domain in soft
    {
      from := Entry(0.0, 0, Key("", Domain("", "")));
      ghost var s := Holding(multiset(heap) + multiset(skipped) + multiset{});
      assert s.entries == multiset(skipped);
      forall k | Eligible(v, k)
        ensures k.domain in soft && skipped != []
      {
        OnlySetAsideLeft(s, v, soft, skipped, k);
      }
      if skipped == [] {
        return None, from;
      }
      var entry, rest := HeapPop(skipped);
      assert SetAside(Contents(), soft, skipped[0]);
      assert Waits(Contents(), entry.key);
      ServedEagerly(v, Contents(), soft, entry.key);
      assert multiset(heap) + multiset(rest) + multiset{entry} == s.entries;
      forall i | 0 <= i < |rest|
        ensures SetAside(Contents(), soft, rest[i])
      {
        assert rest[i] in multiset(rest) && rest[i] in multiset(skipped);
        var j :| 0 <= j < |skipped| && skipped[j] == rest[i];
      }
      var job := Serve(v, soft, rest, entry);
      return Some(job), entry;
    }

    /**
     Pops the next job. `soft` holds the domains other workers probe; `roll` is the random number drawn when
     exploring is on, and `draws` the draws of the sampler.
     */
    method Pop(soft: set<Domain>, roll: Roll, draws: seq<nat>) returns (r: Option<Job>, ghost from: Entry<Key>)
      requires Valid()
      requires ValidDraws(draws) && |order| <= |draws|
      modifies this`pending, this`order, this`byLabel, this`heap, this`serial, this`done
      ensures Valid() && Popped(old(Contents()), soft, Contents(), r)
      ensures roll < epsilon && |old(pending)| > 1 && Outside(old(order), soft + excludedDomains) != [] ==>
                r.Some? && Pick(Outside(old(order), soft + excludedDomains), draws) == Some(r.value.JobKey())
      ensures roll < epsilon && |old(pending)| > 1 && Outside(old(order), soft + excludedDomains) == [] && r.Some? ==>
                Pick(Outside(old(order), excludedDomains), draws) == Some(r.value.JobKey())
      ensures r.Some? && r.value.domain !in soft && (epsilon <= roll || |old(pending)| <= 1) ==>
                && ServedFrom(old(Contents()), soft, r.value, from, old(multiset(heap)), old(serial))
                && (boosts == 0 ==> Best(old(Contents()), soft, weights.Weights(), r.value))
      ensures old(FrontReady(soft)) && (epsilon <= roll || |old(pending)| <= 1) ==>
                FrontServed(old(heap)[0], old(Contents()), Contents(), old(multiset(heap)), multiset(heap), r, from)
      ensures catalog.Some? && (epsilon <= roll || |old(pending)| <= 1) ==>
                && Ruled(old(multiset(heap)), old(Contents()), soft, r)
                && (r.Some? && r.value.domain !in soft ==>
                     (Best(old(Contents()), soft, weights.Weights(), r.value) <==>
                      NothingStaleBeats(old(Holding(multiset(heap))), soft, r.value)))
    {
      from := Entry(0.0, 0, Key("", Domain("", "")));
      ghost var v := Contents();
      if |pending| == 0 {
        assert forall k :: k !in pending;
        assert forall k :: !Allowed(v, soft, k);
        assert Discarded(v, Contents());
        return None, from;
      }
      var exclude := soft + excludedDomains;
      if Explores(epsilon, roll, |pending|) {
        var key := EpsilonPickKey(exclude, draws);
        r := DropPicked(key, exclude, soft);
        return r, from;
      }
      r, from := PopBest(soft);
      if r.Some? && r.value.domain !in soft && boosts == 0 {
        BestWhenRebuilt(v, soft, weights.Weights(), r.value);
      }
    }

    /** Takes the key the sampler chose out of the queue; its entries stay behind as tombstones. */
    method DropPicked(key: Option<Key>, exclude: set<Domain>, ghost soft: set<Domain>) returns (r: Option<Job>)
      requires Valid() && exclude == soft + excludedDomains
      requires key.Some? ==> key.value in Outside(order, exclude) ||
                             (Outside(order, exclude) == [] && key.value in Outside(order, excludedDomains))
      requires key.None? ==> Outside(order, exclude) == [] && Outside(order, excludedDomains) == []
      modifies this`pending, this`order, this`byLabel
      ensures Valid() && Popped(old(Contents()), soft, Contents(), r)
      ensures if key.Some? then r.Some? && r.value.JobKey() == key.value else r.None?
    {
      OutsideHas(order, exclude);
      OutsideHas(order, excludedDomains);
      ghost var v, s := Contents(), Holding(multiset(heap));
      OrderListsPending();
      assert v.pending == v.pending - (v.done - v.done);
      if key.None? {
        forall k
          ensures !Eligible(v, k)
        {
          assert k in v.pending ==> k in order;
        }
        return None;
      }
      assert Waits(v, key.value);
      DropKeeps(s, key.value, {});
      ServedEagerly(v, v, soft, key.value);
      r := DropPending(key.value);
    }

    // ---------- resuming ----------

    /** Records keys that an earlier session finished, before anything waits. */
    method Resume(keys: set<Key>)
      requires Valid() && pending == map[]
      modifies this`done
      ensures Valid()
      ensures Contents() == old(Contents()).(done := old(done) + keys)
    {
      ghost var s := Holding(multiset(heap));
      done := done + keys;
      ResumeKeeps(s, keys);
    }

    /** Drops the waiting jobs that a completed-key check reports, and counts them. */
    method FilterResume(completed: Job -> bool) returns (skipped: nat)
      requires Valid()
      modifies this`pending, this`order, this`byLabel, this`done, this`heap, this`serial, this`boosts
      ensures Valid()
      ensures Contents() == FinishAll(old(Contents()), old(order), completed)
      ensures boosts <= old(boosts)
      ensures skipped == |old(pending)| - |pending|
    {
      ghost var v := Contents();
      var keys := order;
      skipped := 0;
      OrderListsPending();
      for i := 0 to |keys|
        invariant Valid()
        invariant Contents() == FinishAll(v, keys[..i], completed)
        invariant skipped == |v.pending| - |pending| && boosts == old(boosts)
      {
        assert keys[i] in keys;
        FinishAllNext(v, keys, i, completed);
        if completed(pending[keys[i]]) {
          Finish(keys[i]);
          skipped := skipped + 1;
        }
      }
      assert keys[..|keys|] == keys;
      if skipped != 0 {
        MaybeCompactHeap();
      }
    }

    /** Puts a domain under hard exclusion; its waiting jobs are discarded when they surface. */
    method ExcludeDomain(d: Domain)
      requires Valid()
      modifies this`excludedDomains
      ensures Valid() && Contents() == old(Contents()).(excluded := old(excludedDomains) + {d})
    {
      ghost var s := Holding(multiset(heap));
      excludedDomains := excludedDomains + {d};
      ExcludeKeeps(s, excludedDomains);
    }

    lemma OrderListsPending()
      requires Valid()
      ensures Distinct(order) && forall k :: k in order <==> k in pending
    {
      forall k
        ensures k in order <==> k in pending
      {
        assert Filed(Holding(multiset(heap)), k);
      }
    }
  }
}
