/**
 What the job queue means, apart from its heap: the jobs that wait, the keys that are finished,
 the domains under hard exclusion, and the domains of the campaign. Every queue operation is
 specified here on this abstract value; the class in AdaptiveQueue is proved against it.
 */
module QueueSpec {
  import opened Wrappers
  import opened Genetics
  import opened Heapq

  datatype View = View(pending: map<Key, Job>, done: set<Key>, excluded: set<Domain>, domains: seq<Domain>)

  ghost predicate Waits(v: View, k: Key) {
    k in v.pending ==> v.pending[k].JobKey() == k && k !in v.done
  }

  /** Waiting jobs are stored under their own keys, and no finished key waits. */
  ghost predicate WellFormed(v: View) {
    forall k :: Waits(v, k)
  }

  /** A pending job that no hard exclusion forbids. */
  ghost predicate Eligible(v: View, k: Key) {
    k in v.pending && k.domain !in v.excluded
  }

  function Enqueue(v: View, job: Job): View {
    if job.JobKey() in v.pending || job.JobKey() in v.done then v
    else v.(pending := v.pending[job.JobKey() := job])
  }

  /** The other domains of the same cluster, in campaign order. */
  function Siblings(d: Domain, all: seq<Domain>): seq<Domain> {
    if all == [] then []
    else
      var front, last := Siblings(d, all[..|all| - 1]), all[|all| - 1];
      if last != d && last.cluster == d.cluster then front + [last] else front
  }

  function Members(index: map<string, seq<Domain>>, cluster: string): seq<Domain> {
    if cluster in index then index[cluster] else []
  }

  function ClusterIndex(all: seq<Domain>): map<string, seq<Domain>> {
    if all == [] then map[]
    else
      var index, last := ClusterIndex(all[..|all| - 1]), all[|all| - 1];
      index[last.cluster := Members(index, last.cluster) + [last]]
  }

  lemma {:induction false} WithoutAppend(s: seq<Domain>, x: Domain, d: Domain)
    ensures Without(s + [x], d) == if x == d then Without(s, d) else Without(s, d) + [x]
  {
    if s == [] {
      assert s + [x] == [x] && [x][1..] == [];
    } else {
      assert (s + [x])[1..] == s[1..] + [x];
      WithoutAppend(s[1..], x, d);
    }
  }

  /** Looking siblings up in the cluster index finds what scanning all domains finds, in the same order. */
  lemma {:induction false} IndexFindsSiblings(d: Domain, all: seq<Domain>)
    ensures Without(Members(ClusterIndex(all), d.cluster), d) == Siblings(d, all)
  {
    if all != [] {
      var front, last := all[..|all| - 1], all[|all| - 1];
      IndexFindsSiblings(d, front);
      if last.cluster == d.cluster {
        WithoutAppend(Members(ClusterIndex(front), d.cluster), last, d);
      }
    }
  }

  lemma {:induction false} SiblingsAre(d: Domain, all: seq<Domain>)
    ensures forall x :: x in Siblings(d, all) <==> x in all && x != d && x.cluster == d.cluster
  {
    if all != [] {
      var front, last := all[..|all| - 1], all[|all| - 1];
      SiblingsAre(d, front);
      assert all == front + [last];
    }
  }

  /** The same strategy put on each listed domain that is not under hard exclusion. */
  function FanOut(v: View, item: Item, siblings: seq<Domain>): View {
    if siblings == [] then v
    else
      var front, last := FanOut(v, item, siblings[..|siblings| - 1]), siblings[|siblings| - 1];
      if last in v.excluded then front else Enqueue(front, Job(item, last, true))
  }

  lemma FanOutNext(v: View, item: Item, siblings: seq<Domain>, i: nat)
    requires i < |siblings|
    ensures var w := FanOut(v, item, siblings[..i]);
      FanOut(v, item, siblings[..i + 1]) ==
      if siblings[i] in v.excluded then w else Enqueue(w, Job(item, siblings[i], true))
  {
    assert siblings[..i + 1][..i] == siblings[..i];
  }

  ghost predicate Added(v: View, item: Item, siblings: seq<Domain>, k: Key) {
    k.tag == item.tag && k.domain in siblings && k.domain !in v.excluded && k !in v.pending && k !in v.done
  }

  ghost predicate FannedOut(v: View, item: Item, siblings: seq<Domain>, w: View) {
    && w.done == v.done && w.excluded == v.excluded && w.domains == v.domains
    && (forall k :: k in w.pending <==> k in v.pending || Added(v, item, siblings, k))
    && (forall k :: k in v.pending ==> w.pending[k] == v.pending[k])
    && (forall k :: k in w.pending && k !in v.pending ==> w.pending[k] == Job(item, k.domain, true))
  }

  lemma FanOutOneMore(v: View, item: Item, front: seq<Domain>, last: Domain, w: View)
    requires FannedOut(v, item, front, w)
    ensures FannedOut(v, item, front + [last], if last in v.excluded then w else Enqueue(w, Job(item, last, true)))
  {
    var siblings := front + [last];
    var key := Key(item.tag, last);
    forall k
      ensures Added(v, item, siblings, k) <==>
              Added(v, item, front, k) || (k == key && last !in v.excluded && k !in v.pending && k !in v.done)
    {
      assert k.domain in siblings <==> k.domain in front || k.domain == last;
      assert k == key <==> k.tag == item.tag && k.domain == last;
    }
  }

  /** Fan-out adds exactly the missing sibling keys, as fan-out jobs of the same strategy, and nothing else changes. */
  lemma {:induction false} FanOutAdds(v: View, item: Item, siblings: seq<Domain>)
    ensures FannedOut(v, item, siblings, FanOut(v, item, siblings))
    ensures WellFormed(v) ==> WellFormed(FanOut(v, item, siblings))
  {
    if siblings != [] {
      var front, last := siblings[..|siblings| - 1], siblings[|siblings| - 1];
      assert siblings == front + [last];
      FanOutAdds(v, item, front);
      FanOutOneMore(v, item, front, last, FanOut(v, item, front));
    }
    if WellFormed(v) {
      forall k
        ensures Waits(FanOut(v, item, siblings), k)
      {
        assert Waits(v, k);
      }
    }
  }

  function Drop(v: View, k: Key): View {
    v.(pending := v.pending - {k})
  }

  /** Finishes the waiting keys of a list that an earlier session completed. */
  function FinishAll(v: View, keys: seq<Key>, completed: Job -> bool): View
  {
    if keys == [] then v
    else
      var front, last := FinishAll(v, keys[..|keys| - 1], completed), keys[|keys| - 1];
      if last in v.pending && completed(v.pending[last]) then Drop(front, last).(done := front.done + {last}) else front
  }

  /** Exactly the completed keys of the list move from waiting to finished. */
  lemma {:induction false} FinishAllMeans(v: View, keys: seq<Key>, completed: Job -> bool)
    ensures var w := FinishAll(v, keys, completed);
      && w.excluded == v.excluded && w.domains == v.domains
      && (forall k :: k in w.pending <==> k in v.pending && !(k in keys && completed(v.pending[k])))
      && (forall k :: k in w.pending ==> w.pending[k] == v.pending[k])
      && (forall k :: k in w.done <==> k in v.done || (k in v.pending && k in keys && completed(v.pending[k])))
  {
    if keys != [] {
      var front, last := keys[..|keys| - 1], keys[|keys| - 1];
      assert keys == front + [last];
      FinishAllMeans(v, front, completed);
    }
  }

  lemma FinishAllNext(v: View, keys: seq<Key>, i: nat, completed: Job -> bool)
    requires i < |keys| && Distinct(keys) && keys[i] in v.pending
    ensures var w, k := FinishAll(v, keys[..i], completed), keys[i];
      && k in w.pending && w.pending[k] == v.pending[k]
      && FinishAll(v, keys[..i + 1], completed) ==
         if completed(v.pending[k]) then Drop(w, k).(done := w.done + {k}) else w
  {
    FinishAllMeans(v, keys[..i], completed);
    assert keys[..i + 1][..i] == keys[..i];
  }

  /** Marking a job: its key is finished for good; a PASS also fans its strategy out. */
  function MarkDone(v: View, job: Job, passed: bool): View {
    var w := Drop(v, job.JobKey()).(done := v.done + {job.JobKey()});
    if passed then FanOut(w, job.item, Siblings(job.domain, v.domains)) else w
  }

  lemma MarkDoneMeans(v: View, job: Job, passed: bool)
    ensures var w := MarkDone(v, job, passed);
      && w.done == v.done + {job.JobKey()} && w.excluded == v.excluded && w.domains == v.domains
      && job.JobKey() !in w.pending
      && (forall k :: k in v.pending && k != job.JobKey() ==> k in w.pending && w.pending[k] == v.pending[k])
      && (forall k :: k in w.pending && k !in v.pending ==>
            && passed && k.tag == job.item.tag && k.domain in v.domains && k.domain.cluster == job.domain.cluster
            && k.domain !in v.excluded && k !in v.done && w.pending[k] == Job(job.item, k.domain, true))
      && (passed ==> forall d ::
            d in v.domains && d != job.domain && d.cluster == job.domain.cluster && d !in v.excluded ==>
            Key(job.item.tag, d) in w.pending || Key(job.item.tag, d) in w.done)
    ensures WellFormed(v) ==> WellFormed(MarkDone(v, job, passed))
  {
    var w := Drop(v, job.JobKey()).(done := v.done + {job.JobKey()});
    var sibs := Siblings(job.domain, v.domains);
    if WellFormed(v) {
      forall k
        ensures Waits(w, k)
      {
        assert Waits(v, k);
      }
    }
    FanOutAdds(w, job.item, sibs);
    SiblingsAre(job.domain, v.domains);
    if passed {
      forall d | d in v.domains && d != job.domain && d.cluster == job.domain.cluster && d !in v.excluded
        ensures Key(job.item.tag, d) in FanOut(w, job.item, sibs).pending || Key(job.item.tag, d) in w.done
      {
        assert d in sibs;
        assert Added(w, job.item, sibs, Key(job.item.tag, d)) || Key(job.item.tag, d) in w.pending ||
               Key(job.item.tag, d) in w.done;
      }
    }
  }

  /**
   What `pop` may do. `soft` are the domains other workers probe. The job returned is pending and not under
   hard exclusion, and its domain is in `soft` only if that is so of every eligible job; `None` means that no
   job is eligible. Jobs discarded on the way are under hard exclusion and count as finished.
   */
  ghost predicate Popped(v: View, soft: set<Domain>, w: View, r: Option<Job>) {
    match r
    case None =>
      && Discarded(v, w)
      && forall k :: !Eligible(v, k)
    case Some(job) =>
      && Eligible(v, job.JobKey()) && v.pending[job.JobKey()] == job
      && (job.domain in soft ==> forall k :: Eligible(v, k) ==> k.domain in soft)
      && exists u :: Discarded(v, u) && w == Drop(u, job.JobKey())
  }

  /** From `v` to `w` only jobs under hard exclusion left, and they left as finished. */
  ghost predicate Discarded(v: View, w: View) {
    && w.excluded == v.excluded && w.domains == v.domains && v.done <= w.done
    && (forall k :: k in w.done - v.done ==> k in v.pending && k.domain in v.excluded)
    && w.pending == v.pending - (w.done - v.done)
  }

  /**
   `job` is as good as any eligible job outside `soft`, up to one rise of the other job for each of the
   `boosts` PASSes since the heap was rebuilt.
   */
  ghost predicate NearBest(v: View, soft: set<Domain>, t: Table, boosts: nat, job: Job) {
    forall k :: Eligible(v, k) && k.domain !in soft ==> WithinRises(t, boosts, job.item, v.pending[k].item)
  }

  ghost predicate WithinRises(t: Table, boosts: nat, served: Item, other: Item) {
    Score(t, other) <= Score(t, served) + Rise(other) * boosts as real
  }

  lemma MoreRisesDo(v: View, soft: set<Domain>, t: Table, k: nat, m: nat, job: Job)
    requires NearBest(v, soft, t, k, job) && k <= m
    ensures NearBest(v, soft, t, m, job)
  {
    forall x | Eligible(v, x) && x.domain !in soft
      ensures WithinRises(t, m, job.item, v.pending[x].item)
    {
      assert WithinRises(t, k, job.item, v.pending[x].item);
      LargerProduct(Rise(v.pending[x].item), k as real, m as real);
    }
  }

  lemma LargerProduct(rise: real, k: real, m: real)
    requires rise >= 0.0 && k <= m
    ensures rise * k <= rise * m
  {
  }

  /** No live entry outside `soft` comes before `from`: neither by priority nor, among equals, by serial number. */
  ghost predicate Foremost(from: Entry<Key>, entries: multiset<Entry<Key>>, v: View, soft: set<Domain>) {
    forall f :: f in entries && Eligible(v, f.key) && f.key.domain !in soft ==> Leq(from, f)
  }

  /** Nothing eligible outside `soft` has a higher priority. */
  ghost predicate Best(v: View, soft: set<Domain>, t: Table, job: Job) {
    forall k :: Eligible(v, k) && k.domain !in soft ==> Score(t, v.pending[k].item) <= Score(t, job.item)
  }

  /** With no PASS since the last rebuild the job is the best one. */
  lemma BestWhenRebuilt(v: View, soft: set<Domain>, t: Table, job: Job)
    requires NearBest(v, soft, t, 0, job)
    ensures Best(v, soft, t, job)
  {
    forall k | Eligible(v, k) && k.domain !in soft
      ensures Score(t, v.pending[k].item) <= Score(t, job.item)
    {
      assert WithinRises(t, 0, job.item, v.pending[k].item);
    }
  }

  /** An entry of the heap `before`, or one issued after the serial number `top`. */
  ghost predicate Known(e: Entry<Key>, before: multiset<Entry<Key>>, top: nat) {
    e in before || e.serial > top
  }

  /** From `v` to `w` exactly the job of the entry `front` left the queue, and that entry alone the heap. */
  ghost predicate FrontServed(front: Entry<Key>, v: View, w: View, before: multiset<Entry<Key>>,
                              after: multiset<Entry<Key>>, r: Option<Job>, from: Entry<Key>)
  {
    && from == front && front.key in v.pending && r == Some(v.pending[front.key])
    && w == Drop(v, front.key) && before == after + multiset{front}
  }

  // ---------- the heap behind the queue ----------

  /** The whole state of the queue, with its heap seen as a bag of entries. */
  datatype Store = Store(view: View, order: seq<Key>, byLabel: map<string, set<Key>>,
                         entries: multiset<Entry<Key>>, serial: nat, table: Table, boosts: nat,
                         catalog: Option<seq<Item>>)

  /** The insertion order and the index by label list exactly the waiting keys. */
  ghost predicate Filed(s: Store, k: Key) {
    && (k in s.order <==> k in s.view.pending)
    && (k in s.view.pending <==> k.tag in s.byLabel && k in s.byLabel[k.tag])
  }

  ghost predicate OneLabel(byLabel: map<string, set<Key>>, l: string) {
    l in byLabel ==> forall k :: k in byLabel[l] ==> k.tag == l
  }

  /** The dictionary part of the state: waiting jobs, their order, their index. */
  ghost predicate Dictionary(s: Store) {
    && WellFormed(s.view) && Distinct(s.order)
    && (forall k :: Filed(s, k))
    && (forall l :: OneLabel(s.byLabel, l))
  }

  ghost predicate Clash(e: Entry<Key>, f: Entry<Key>) {
    e.serial == f.serial && e != f
  }

  ghost predicate IssuedOnce(entries: multiset<Entry<Key>>, e: Entry<Key>, top: nat) {
    e in entries ==> entries[e] == 1 && e.serial <= top
  }

  ghost predicate UniqueSerials(entries: multiset<Entry<Key>>, top: nat) {
    && (forall e {:trigger IssuedOnce(entries, e, top)} :: IssuedOnce(entries, e, top))
    && (forall e, f {:trigger Clash(e, f)} :: e in entries && f in entries ==> !Clash(e, f))
  }

  /** Some entry stands for the waiting job `k`, recorded at most `boosts` rises below its current priority. */
  ghost predicate Covered(s: Store, k: Key) {
    k in s.view.pending ==>
      exists e :: e in s.entries && e.key == k && InReach(s, e, s.view.pending[k].item)
  }

  ghost predicate InReach(s: Store, e: Entry<Key>, item: Item) {
    Score(s.table, item) <= -e.neg + Steps(Rise(item), s.boosts)
  }

  /** The strategy of a waiting job is the one that its label names. */
  ghost predicate Labelled(s: Store, k: Key) {
    k in s.view.pending ==> Listed(s.catalog, s.view.pending[k].item)
  }

  predicate Listed(catalog: Option<seq<Item>>, item: Item) {
    catalog.Some? && ItemFor(catalog.value, item.tag) == Some(item)
  }

  /** An entry records no more than the strategy of its label is worth now, and at most `k` rises less. */
  ghost predicate RecordedNear(t: Table, items: seq<Item>, e: Entry<Key>, k: nat) {
    match ItemFor(items, e.key.tag)
    case None => false
    case Some(item) => -e.neg <= Score(t, item) <= -e.neg + Steps(Rise(item), k)
  }

  /** Of a waiting job or not. */
  ghost predicate Priced(s: Store, e: Entry<Key>)
    requires s.catalog.Some?
  {
    e in s.entries ==> RecordedNear(s.table, s.catalog.value, e, s.boosts)
  }

  /** With a catalog, which says what strategy a label names, no priority is recorded too high or much too low. */
  ghost predicate Modest(s: Store) {
    s.catalog.Some? ==> Capped(s.table) && (forall k :: Labelled(s, k)) && (forall e :: Priced(s, e))
  }

  ghost predicate Consistent(s: Store) {
    && Dictionary(s)
    && UniqueSerials(s.entries, s.serial)
    && (forall k :: Covered(s, k))
    && Modest(s)
  }

  /** Modesty outlives the loss of jobs and entries, and fresh entries. */
  lemma ModestStays(s: Store, w: Store)
    requires Modest(s) && w.table == s.table && (w.catalog.Some? ==> w.catalog == s.catalog)
    requires forall k :: k in w.view.pending ==> Waits(w.view, k)
    requires w.catalog.Some? ==> forall k :: k in w.view.pending ==>
               (k in s.view.pending && w.view.pending[k] == s.view.pending[k]) ||
                   Listed(w.catalog, w.view.pending[k].item)
    requires forall e :: e in w.entries ==>
               (e in s.entries && w.boosts == s.boosts) ||
                   (e.key in w.view.pending && Fresh(e, w.view.pending[e.key], w.table))
    ensures Modest(w)
  {
    if w.catalog.Some? {
      forall k
        ensures Labelled(w, k)
      {
        assert Labelled(s, k);
      }
      forall e
        ensures Priced(w, e)
      {
        assert Priced(s, e);
        if e in w.entries && !(e in s.entries && w.boosts == s.boosts) {
          assert Labelled(w, e.key) && Waits(w.view, e.key);
          StepsNeverNegative(Rise(w.view.pending[e.key].item), w.boosts);
        }
      }
    }
  }

  predicate Fresh(e: Entry<Key>, job: Job, t: Table) {
    e.neg == -Score(t, job.item)
  }

  lemma {:induction false} StepsNeverNegative(step: real, n: nat)
    requires step >= 0.0
    ensures Steps(step, n) >= 0.0
  {
    if n > 0 {
      StepsNeverNegative(step, n - 1);
    }
  }

  lemma {:induction false} StepsMultiply(step: real, n: nat)
    ensures Steps(step, n) == step * n as real
  {
    if n > 0 {
      StepsMultiply(step, n - 1);
      var below := (n - 1) as real;
      assert step * (below + 1.0) == step * below + step;
    }
  }

  /** A live entry that is passed over because another worker probes its domain. */
  ghost predicate SetAside(v: View, soft: set<Domain>, e: Entry<Key>) {
    Eligible(v, e.key) && e.key.domain in soft
  }

  ghost predicate AllSetAside(v: View, soft: set<Domain>, skipped: seq<Entry<Key>>) {
    forall i :: 0 <= i < |skipped| ==> SetAside(v, soft, skipped[i])
  }

  lemma DiscardOne(v: View, u: View, soft: set<Domain>, skipped: seq<Entry<Key>>, k: Key)
    requires Discarded(v, u) && AllSetAside(u, soft, skipped)
    requires Waits(u, k) && k in u.pending && k.domain in u.excluded
    ensures var w := Drop(u, k).(done := u.done + {k});
      Discarded(v, w) && AllSetAside(w, soft, skipped)
  {
    var w := Drop(u, k).(done := u.done + {k});
    assert w.done - v.done == (u.done - v.done) + {k};
    assert w.pending == v.pending - (w.done - v.done);
  }

  /** Entries of waiting jobs whose recorded priority is out of date. */
  ghost function StaleIn(entries: multiset<Entry<Key>>, pending: map<Key, Job>, t: Table): set<Entry<Key>> {
    set e | e in entries && e.key in pending && !Fresh(e, pending[e.key], t)
  }

  lemma FreshAddsNoStale(entries: multiset<Entry<Key>>, pending: map<Key, Job>, t: Table, e: Entry<Key>)
    requires e.key in pending && Fresh(e, pending[e.key], t)
    ensures StaleIn(entries + multiset{e}, pending, t) == StaleIn(entries, pending, t)
  {
  }

  /** Taking the only occurrence of an entry: the stale ones lose it, if it was one. */
  lemma TakingFromStale(entries: multiset<Entry<Key>>, pending: map<Key, Job>, t: Table, e: Entry<Key>)
    requires e in entries && entries[e] == 1
    ensures StaleIn(entries - multiset{e}, pending, t) == StaleIn(entries, pending, t) - {e}
  {
  }

  /** Taking an entry leaves fewer stale ones if it was stale, and never more. */
  lemma TakingLeavesFewerStale(entries: multiset<Entry<Key>>, pending: map<Key, Job>, t: Table, e: Entry<Key>)
    requires e in entries && entries[e] == 1
    ensures |StaleIn(entries - multiset{e}, pending, t)| <= |StaleIn(entries, pending, t)|
    ensures e.key in pending && !Fresh(e, pending[e.key], t) ==>
              |StaleIn(entries - multiset{e}, pending, t)| < |StaleIn(entries, pending, t)|
  {
    TakingFromStale(entries, pending, t, e);
    SubsetIsSmaller(StaleIn(entries - multiset{e}, pending, t), StaleIn(entries, pending, t));
  }

  lemma {:induction false} SubsetIsSmaller<T>(a: set<T>, b: set<T>)
    requires a <= b
    ensures |a| <= |b|
  {
    if a != {} {
      var x :| x in a;
      SubsetIsSmaller(a - {x}, b - {x});
    }
  }

  lemma WitnessOf(s: Store, k: Key) returns (e: Entry<Key>)
    requires Consistent(s) && k in s.view.pending
    ensures e in s.entries && e.key == k && InReach(s, e, s.view.pending[k].item)
  {
    assert Covered(s, k);
    e :| e in s.entries && e.key == k && InReach(s, e, s.view.pending[k].item);
  }

  lemma FewerSerials(entries: multiset<Entry<Key>>, top: nat, fewer: multiset<Entry<Key>>)
    requires UniqueSerials(entries, top) && fewer <= entries
    ensures UniqueSerials(fewer, top)
  {
    forall e
      ensures IssuedOnce(fewer, e, top)
    {
      assert IssuedOnce(entries, e, top);
    }
  }

  lemma SerialsStayUnique(entries: multiset<Entry<Key>>, top: nat, e: Entry<Key>)
    requires UniqueSerials(entries, top) && e.serial == top + 1
    ensures UniqueSerials(entries + multiset{e}, top + 1)
  {
    forall f
      ensures IssuedOnce(entries + multiset{e}, f, top + 1)
      ensures f in entries ==> !Clash(e, f) && !Clash(f, e)
    {
      assert IssuedOnce(entries, f, top);
    }
  }

  /** Entries of jobs that no longer wait may stay or go. */
  lemma EntriesLeave(s: Store, fewer: multiset<Entry<Key>>)
    requires Consistent(s) && fewer <= s.entries
    requires forall e :: e in s.entries && e.key in s.view.pending ==> e in fewer
    ensures Consistent(s.(entries := fewer))
  {
    var w := s.(entries := fewer);
    FewerSerials(s.entries, s.serial, fewer);
    forall k
      ensures Covered(w, k) && Filed(w, k)
    {
      assert Filed(s, k);
      if k in s.view.pending {
        var e := WitnessOf(s, k);
        assert InReach(w, e, s.view.pending[k].item);
      }
    }
    ModestStays(s, w);
  }

  function DropFrom(s: Store, k: Key): Store
    requires k in s.view.pending ==> k.tag in s.byLabel
  {
    if k in s.view.pending then
      s.(view := Drop(s.view, k), order := Without(s.order, k), byLabel := s.byLabel[k.tag := s.byLabel[k.tag] - {k}])
    else s
  }

  /** Taking a key out of the dictionary, and optionally recording keys that do not wait as finished. */
  lemma DropKeeps(s: Store, k: Key, finished: set<Key>)
    requires Consistent(s) && finished <= {k}
    ensures k in s.view.pending ==> k.tag in s.byLabel
    ensures var w := DropFrom(s, k);
      && w.view == Drop(s.view, k)
      && Consistent(w.(view := w.view.(done := s.view.done + finished)))
      && (finished == {} ==> Consistent(w))
  {
    assert s.view.done + {} == s.view.done;
    assert Filed(s, k) && OneLabel(s.byLabel, k.tag);
    assert k !in s.view.pending ==> s.view.pending - {k} == s.view.pending;
    var d := DropFrom(s, k);
    var w := d.(view := d.view.(done := s.view.done + finished));
    forall l
      ensures OneLabel(w.byLabel, l)
    {
      assert OneLabel(s.byLabel, l);
    }
    forall x
      ensures Waits(w.view, x) && Filed(w, x) && Covered(w, x)
    {
      assert Waits(s.view, x) && Filed(s, x);
      if x in w.view.pending {
        var e := WitnessOf(s, x);
        assert InReach(w, e, s.view.pending[x].item);
      }
    }
    ModestStays(s, w);
  }

  /** With nothing waiting, any keys may be recorded as finished. */
  lemma ResumeKeeps(s: Store, keys: set<Key>)
    requires Consistent(s) && s.view.pending == map[]
    ensures Consistent(s.(view := s.view.(done := s.view.done + keys)))
  {
    var w := s.(view := s.view.(done := s.view.done + keys));
    forall k
      ensures Waits(w.view, k) && Filed(w, k) && Covered(w, k)
    {
      assert Filed(s, k);
    }
    ModestStays(s, w);
  }

  lemma ExcludeKeeps(s: Store, excluded: set<Domain>)
    requires Consistent(s)
    ensures Consistent(s.(view := s.view.(excluded := excluded)))
  {
    var w := s.(view := s.view.(excluded := excluded));
    forall k
      ensures Waits(w.view, k) && Filed(w, k) && Covered(w, k)
    {
      assert Waits(s.view, k) && Filed(s, k);
      if k in s.view.pending {
        var e := WitnessOf(s, k);
        assert InReach(w, e, s.view.pending[k].item);
      }
    }
    ModestStays(s, w);
  }

  /** A new fresh entry for a waiting job, after entries of that job alone have left. */
  lemma RefreshKeeps(s: Store, kept: multiset<Entry<Key>>, e: Entry<Key>)
    requires Consistent(s) && kept <= s.entries
    requires e.key in s.view.pending && e.serial == s.serial + 1 && Fresh(e, s.view.pending[e.key], s.table)
    requires forall f :: f in s.entries && f !in kept ==> f.key == e.key
    ensures Consistent(s.(entries := kept + multiset{e}, serial := e.serial))
  {
    var w := s.(entries := kept + multiset{e}, serial := e.serial);
    FewerSerials(s.entries, s.serial, kept);
    SerialsStayUnique(kept, s.serial, e);
    forall k
      ensures Covered(w, k) && Filed(w, k)
    {
      assert Filed(s, k);
      if k == e.key {
        StepsNeverNegative(Rise(s.view.pending[k].item), s.boosts);
        assert e in w.entries && InReach(w, e, s.view.pending[k].item);
      } else if k in s.view.pending {
        var f := WitnessOf(s, k);
        assert f in w.entries && InReach(w, f, s.view.pending[k].item);
      }
    }
    ModestStays(s, w);
  }

  function FileUnder(byLabel: map<string, set<Key>>, k: Key): map<string, set<Key>> {
    byLabel[k.tag := (if k.tag in byLabel then byLabel[k.tag] else {}) + {k}]
  }

  /** The catalog is given up when a strategy comes that it does not list. */
  function CatalogWith(catalog: Option<seq<Item>>, item: Item): Option<seq<Item>> {
    if Listed(catalog, item) then catalog else None
  }

  function AddTo(s: Store, job: Job, e: Entry<Key>): Store {
    var k := job.JobKey();
    Store(s.view.(pending := s.view.pending[k := job]), s.order + [k], FileUnder(s.byLabel, k),
          s.entries + multiset{e}, e.serial, s.table, s.boosts, CatalogWith(s.catalog, job.item))
  }

  lemma AddKeeps(s: Store, job: Job, e: Entry<Key>)
    requires Consistent(s) && job.JobKey() !in s.view.pending && job.JobKey() !in s.view.done
    requires e == Entry(-Score(s.table, job.item), s.serial + 1, job.JobKey())
    ensures Consistent(AddTo(s, job, e))
  {
    var w := AddTo(s, job, e);
    SerialsStayUnique(s.entries, s.serial, e);
    assert Filed(s, e.key);
    forall l
      ensures OneLabel(w.byLabel, l)
    {
      assert OneLabel(s.byLabel, l);
    }
    forall k
      ensures Waits(w.view, k) && Filed(w, k) && Covered(w, k)
    {
      assert Waits(s.view, k) && Filed(s, k);
      assert k in w.order <==> k in s.order || k == e.key;
      if k == e.key {
        StepsNeverNegative(Rise(job.item), s.boosts);
        assert e in w.entries && InReach(w, e, job.item);
      } else if k in s.view.pending {
        var f := WitnessOf(s, k);
        assert f in w.entries && InReach(w, f, s.view.pending[k].item);
      }
    }
    ModestStays(s, w);
  }

  lemma PricedAfterBoost(t: Table, items: seq<Item>, e: Entry<Key>, k: nat, passed: Item)
    requires RecordedNear(t, items, e, k) && Capped(t)
    ensures RecordedNear(Boost(t, passed), items, e, k + 1)
  {
    var item := ItemFor(items, e.key.tag).value;
    BoostHelpsRelatives(t, passed, item);
    BoostRise(t, passed, item);
  }

  /** A PASS costs one more rise. */
  lemma BoostKeeps(s: Store, passed: Item)
    requires Consistent(s)
    ensures Consistent(s.(table := Boost(s.table, passed), boosts := s.boosts + 1))
  {
    var w := s.(table := Boost(s.table, passed), boosts := s.boosts + 1);
    forall k
      ensures Covered(w, k) && Filed(w, k)
    {
      assert Filed(s, k);
      if k in s.view.pending {
        var e := WitnessOf(s, k);
        BoostRise(s.table, passed, s.view.pending[k].item);
        assert InReach(w, e, s.view.pending[k].item);
      }
    }
    if s.catalog.Some? {
      forall e
        ensures Priced(w, e)
      {
        assert Priced(s, e);
        if e in s.entries {
          PricedAfterBoost(s.table, s.catalog.value, e, s.boosts, passed);
        }
      }
      BoostHelpsRelatives(s.table, passed, passed);
      assert forall k :: Labelled(s, k) ==> Labelled(w, k);
    }
  }

  lemma {:induction false} DistinctOccurOnce<T>(s: seq<T>)
    requires Distinct(s)
    ensures forall x :: x in multiset(s) ==> multiset(s)[x] == 1
  {
    if s != [] {
      var front, last := s[..|s| - 1], s[|s| - 1];
      assert s == front + [last];
      DistinctOccurOnce(front);
    }
  }

  ghost predicate RebuiltFrom(s: Store, rebuilt: seq<Entry<Key>>) {
    && |rebuilt| == |s.order|
    && forall j :: 0 <= j < |rebuilt| ==>
         && s.order[j] in s.view.pending
         && rebuilt[j] == Entry(-Score(s.table, s.view.pending[s.order[j]].item), s.serial + j, s.order[j])
  }

  lemma RebuiltAreFresh(s: Store, rebuilt: seq<Entry<Key>>)
    requires RebuiltFrom(s, rebuilt)
    ensures forall e :: e in multiset(rebuilt) ==> e.key in s.view.pending && Fresh(e, s.view.pending[e.key], s.table)
  {
    forall e | e in multiset(rebuilt)
      ensures e.key in s.view.pending && Fresh(e, s.view.pending[e.key], s.table)
    {
      var j :| 0 <= j < |rebuilt| && rebuilt[j] == e;
    }
  }

  lemma RunOfSerials(rebuilt: seq<Entry<Key>>, base: nat)
    requires forall j :: 0 <= j < |rebuilt| ==> rebuilt[j].serial == base + j
    ensures UniqueSerials(multiset(rebuilt), base + |rebuilt|)
  {
    forall i, j | 0 <= i < j < |rebuilt|
      ensures rebuilt[i] != rebuilt[j]
    {
      assert rebuilt[i].serial < rebuilt[j].serial;
    }
    DistinctOccurOnce(rebuilt);
    forall e, f | e in multiset(rebuilt) && f in multiset(rebuilt)
      ensures !Clash(e, f)
    {
      var i :| 0 <= i < |rebuilt| && rebuilt[i] == e;
      var j :| 0 <= j < |rebuilt| && rebuilt[j] == f;
    }
    forall e {:trigger IssuedOnce(multiset(rebuilt), e, base + |rebuilt|)}
      ensures IssuedOnce(multiset(rebuilt), e, base + |rebuilt|)
    {
      if e in multiset(rebuilt) {
        var i :| 0 <= i < |rebuilt| && rebuilt[i] == e;
      }
    }
  }

  /** Entries rebuilt from the waiting jobs are all fresh, so the boosts start from zero again. */
  lemma RebuildKeeps(s: Store, rebuilt: seq<Entry<Key>>)
    requires Consistent(s) && RebuiltFrom(s, rebuilt)
    ensures Consistent(s.(entries := multiset(rebuilt), serial := s.serial + |rebuilt|, boosts := 0))
  {
    var w := s.(entries := multiset(rebuilt), serial := s.serial + |rebuilt|, boosts := 0);
    assert UniqueSerials(w.entries, w.serial) by {
      RunOfSerials(rebuilt, s.serial);
    }
    forall k
      ensures Covered(w, k) && Filed(w, k)
    {
      assert Filed(s, k);
      if k in s.view.pending {
        var j :| 0 <= j < |s.order| && s.order[j] == k;
        var e := rebuilt[j];
        assert e in multiset(rebuilt) && e.key == k && InReach(w, e, s.view.pending[k].item);
      }
    }
    ModestStays(s, w);
  }

  lemma WithinSteps(s: Store, e: Entry<Key>, served: Item, f: Entry<Key>, other: Item)
    requires -e.neg == Score(s.table, served) && ((f == e && other == served) || (Leq(e, f) && InReach(s, f, other)))
    ensures WithinRises(s.table, s.boosts, served, other)
  {
    StepsNeverNegative(Rise(other), s.boosts);
    StepsMultiply(Rise(other), s.boosts);
  }

  /** The least entry of the heap, if live and fresh, serves a job that is near best. */
  lemma LeastServesNearBest(s: Store, v: View, soft: set<Domain>, skipped: seq<Entry<Key>>,
                            rest: multiset<Entry<Key>>, e: Entry<Key>)
    requires Consistent(s) && Discarded(v, s.view) && AllSetAside(s.view, soft, skipped)
    requires s.entries == rest + multiset(skipped) + multiset{e}
    requires forall f :: f in rest ==> Leq(e, f)
    requires e.key in s.view.pending && Fresh(e, s.view.pending[e.key], s.table)
    ensures NearBest(v, soft, s.table, s.boosts, s.view.pending[e.key])
  {
    var served := s.view.pending[e.key].item;
    forall k | Eligible(v, k) && k.domain !in soft
      ensures WithinRises(s.table, s.boosts, served, v.pending[k].item)
    {
      assert k in s.view.pending;
      if k == e.key {
        WithinSteps(s, e, served, e, served);
      } else {
        var f := WitnessOf(s, k);
        NotSetAside(s.view, soft, skipped, f);
        assert f in rest;
        WithinSteps(s, e, served, f, v.pending[k].item);
      }
    }
  }

  lemma NotSetAside(v: View, soft: set<Domain>, skipped: seq<Entry<Key>>, f: Entry<Key>)
    requires AllSetAside(v, soft, skipped) && f.key.domain !in soft
    ensures f !in multiset(skipped)
  {
    assert forall i :: 0 <= i < |skipped| ==> skipped[i] != f;
  }

  /** With the heap used up, every eligible job is among those set aside. */
  lemma OnlySetAsideLeft(s: Store, v: View, soft: set<Domain>, skipped: seq<Entry<Key>>, k: Key)
    requires Consistent(s) && Discarded(v, s.view) && AllSetAside(s.view, soft, skipped)
    requires s.entries == multiset(skipped) && Eligible(v, k)
    ensures k.domain in soft && skipped != []
  {
    assert k in s.view.pending;
    var f := WitnessOf(s, k);
    var i :| 0 <= i < |skipped| && skipped[i] == f;
  }

  lemma ForemostAfterRestore(from: Entry<Key>, rest: multiset<Entry<Key>>, skipped: seq<Entry<Key>>, v: View, w: View,
                             soft: set<Domain>)
    requires AllSetAside(v, soft, skipped) && forall f :: f in rest ==> Leq(from, f)
    ensures Foremost(from, rest + multiset(skipped), w, soft)
  {
    forall f | f in rest + multiset(skipped) && f.key.domain !in soft
      ensures Leq(from, f)
    {
      NotSetAside(v, soft, skipped, f);
    }
  }

  lemma ServedEagerly(v: View, u: View, soft: set<Domain>, k: Key)
    requires Discarded(v, u) && Eligible(u, k) && Waits(u, k)
    requires k.domain in soft ==> forall x :: Eligible(v, x) ==> x.domain in soft
    ensures Popped(v, soft, Drop(u, k), Some(u.pending[k]))
  {
  }

  // ---------- which job is served ----------

  /** No eligible job is outside the soft exclusions. */
  ghost predicate AllSoft(v: View, soft: set<Domain>) {
    forall k :: Eligible(v, k) ==> k.domain in soft
  }

  /** The soft exclusions count unless nothing is outside them. */
  ghost predicate Allowed(v: View, soft: set<Domain>, k: Key) {
    Eligible(v, k) && (k.domain in soft ==> AllSoft(v, soft))
  }

  /** `e` has the highest recorded priority among the entries of allowed jobs, and among equals the lowest serial. */
  ghost predicate First(e: Entry<Key>, entries: multiset<Entry<Key>>, v: View, soft: set<Domain>) {
    && e in entries && Allowed(v, soft, e.key)
    && forall f :: f in entries && Allowed(v, soft, f.key) ==> Leq(e, f)
  }

  /** The rule of the exploiting branch: the job of the first entry is served. */
  ghost predicate Ruled(entries: multiset<Entry<Key>>, v: View, soft: set<Domain>, r: Option<Job>) {
    forall e :: First(e, entries, v, soft) ==> r == Some(v.pending[e.key])
  }

  lemma RuledBy(k: Key, entries: multiset<Entry<Key>>, v: View, soft: set<Domain>, r: Option<Job>, w: View)
    requires Popped(v, soft, w, r)
    requires forall e :: First(e, entries, v, soft) ==> e.key == k
    ensures (OnCourse(k, entries, [], v, soft) ==> r.Some? && r.value.JobKey() == k) ==> Ruled(entries, v, soft, r)
  {
    if OnCourse(k, entries, [], v, soft) ==> r.Some? && r.value.JobKey() == k {
      forall e | First(e, entries, v, soft)
        ensures r == Some(v.pending[e.key])
      {
        assert OnCourse(k, entries, [], v, soft);
      }
    }
  }

  /** While some job is eligible there is such an entry, and its job is determined. */
  lemma SomeEntryIsFirst(s: Store, soft: set<Domain>, k: Key) returns (e: Entry<Key>)
    requires Consistent(s) && Eligible(s.view, k)
    ensures First(e, s.entries, s.view, soft)
    ensures forall f :: First(f, s.entries, s.view, soft) ==> f == e
  {
    var x := k;
    if !AllSoft(s.view, soft) {
      x :| Eligible(s.view, x) && x.domain !in soft;
    }
    var d := WitnessOf(s, x);
    e := LeastAllowed(s.entries, s.view, soft, d);
    forall f | First(f, s.entries, s.view, soft)
      ensures f == e
    {
      assert !Clash(e, f);
    }
  }

  lemma {:induction false} LeastAllowed(entries: multiset<Entry<Key>>, v: View, soft: set<Domain>, d: Entry<Key>)
    returns (e: Entry<Key>)
    requires d in entries && Allowed(v, soft, d.key)
    ensures First(e, entries, v, soft)
    decreases |entries|
  {
    var rest := entries - multiset{d};
    if x :| x in rest && Allowed(v, soft, x.key) {
      e := LeastAllowed(rest, v, soft, x);
      e := if Leq(d, e) then d else e;
      assert forall f :: f in entries ==> f == d || f in rest;
    } else {
      e := d;
      assert forall f :: f in entries ==> f == d || f in rest;
    }
  }

  /** A pop in its loop will serve `k`: its entry is first on the heap, or in front of those set aside if all are. */
  ghost predicate OnCourse(k: Key, heap: multiset<Entry<Key>>, skipped: seq<Entry<Key>>, v: View, soft: set<Domain>) {
    if AllSoft(v, soft) && skipped != [] then skipped[0].key == k
    else exists e :: First(e, heap, v, soft) && e.key == k
  }

  lemma DiscardingKeepsEligible(v: View, u: View)
    requires Discarded(v, u)
    ensures forall k :: Eligible(v, k) <==> Eligible(u, k)
  {
  }

  /** A surfaced entry of no allowed job can be forgotten. */
  lemma ForgettingStaysOnCourse(k: Key, rest: multiset<Entry<Key>>, entry: Entry<Key>, skipped: seq<Entry<Key>>,
                                v: View, soft: set<Domain>)
    requires OnCourse(k, rest + multiset{entry}, skipped, v, soft) && !Allowed(v, soft, entry.key)
    ensures OnCourse(k, rest, skipped, v, soft)
  {
    if !(AllSoft(v, soft) && skipped != []) {
      var e :| First(e, rest + multiset{entry}, v, soft) && e.key == k;
      assert First(e, rest, v, soft);
    }
  }

  /** The entry in front, if of an allowed job, is the first one. */
  lemma FrontIsFirst(rest: multiset<Entry<Key>>, entry: Entry<Key>, e: Entry<Key>, v: View, soft: set<Domain>)
    requires First(e, rest + multiset{entry}, v, soft) && Allowed(v, soft, entry.key)
    requires forall f :: f in rest ==> Leq(entry, f) && !Clash(entry, f)
    ensures e == entry
  {
    assert entry in rest + multiset{entry};
  }

  /** A refreshed entry of an allowed job is first again, since its priority can only have risen. */
  lemma RefreshingStaysOnCourse(k: Key, rest: multiset<Entry<Key>>, entry: Entry<Key>, refreshed: Entry<Key>,
                                skipped: seq<Entry<Key>>, v: View, soft: set<Domain>)
    requires OnCourse(k, rest + multiset{entry}, skipped, v, soft)
    requires forall f :: f in rest ==> Leq(entry, f) && !Clash(entry, f)
    requires refreshed.key == entry.key && refreshed.neg < entry.neg
    ensures OnCourse(k, rest + multiset{refreshed}, skipped, v, soft)
  {
    if !(AllSoft(v, soft) && skipped != []) {
      var e :| First(e, rest + multiset{entry}, v, soft) && e.key == k;
      if Allowed(v, soft, entry.key) {
        FrontIsFirst(rest, entry, e, v, soft);
        assert First(refreshed, rest + multiset{refreshed}, v, soft);
      } else {
        assert First(e, rest + multiset{refreshed}, v, soft);
      }
    }
  }

  lemma SettingAsideStaysOnCourse(k: Key, rest: multiset<Entry<Key>>, entry: Entry<Key>, skipped: seq<Entry<Key>>,
                                  v: View, soft: set<Domain>)
    requires OnCourse(k, rest + multiset{entry}, skipped, v, soft)
    requires forall f :: f in rest ==> Leq(entry, f) && !Clash(entry, f)
    requires Eligible(v, entry.key) && entry.key.domain in soft
    ensures OnCourse(k, rest, skipped + [entry], v, soft)
  {
    if !AllSoft(v, soft) {
      ForgettingStaysOnCourse(k, rest, entry, skipped, v, soft);
    } else if skipped == [] {
      var e :| First(e, rest + multiset{entry}, v, soft) && e.key == k;
      FrontIsFirst(rest, entry, e, v, soft);
    }
  }

  lemma ServingIsOnCourse(k: Key, rest: multiset<Entry<Key>>, entry: Entry<Key>, skipped: seq<Entry<Key>>,
                          v: View, soft: set<Domain>)
    requires OnCourse(k, rest + multiset{entry}, skipped, v, soft)
    requires forall f :: f in rest ==> Leq(entry, f) && !Clash(entry, f)
    requires Eligible(v, entry.key) && entry.key.domain !in soft
    ensures entry.key == k
  {
    var e :| First(e, rest + multiset{entry}, v, soft) && e.key == k;
    FrontIsFirst(rest, entry, e, v, soft);
  }

  /** A stale entry records less than its job is worth. */
  lemma StaleIsTooLow(s: Store, e: Entry<Key>)
    requires Modest(s) && s.catalog.Some? && e in s.entries
    requires e.key in s.view.pending && Waits(s.view, e.key) && !Fresh(e, s.view.pending[e.key], s.table)
    ensures -Score(s.table, s.view.pending[e.key].item) < e.neg
  {
    assert Labelled(s, e.key) && Priced(s, e);
  }

  /** No allowed job whose entries are all stale is worth more than `job`. */
  ghost predicate NothingStaleBeats(s: Store, soft: set<Domain>, job: Job) {
    forall k :: Eligible(s.view, k) && k.domain !in soft && OnlyStale(s, k) ==>
      Score(s.table, s.view.pending[k].item) <= Score(s.table, job.item)
  }

  /** When the rule gives the best job: a job with a current entry never beats the first one. */
  lemma BestUnlessStaleBeats(s: Store, soft: set<Domain>, r: Option<Job>)
    requires Consistent(s) && s.catalog.Some? && Ruled(s.entries, s.view, soft, r)
    requires r.Some? && Eligible(s.view, r.value.JobKey()) && r.value.domain !in soft
    ensures Best(s.view, soft, s.table, r.value) <==> NothingStaleBeats(s, soft, r.value)
  {
    var e := SomeEntryIsFirst(s, soft, r.value.JobKey());
    forall k | Eligible(s.view, k) && k.domain !in soft && !OnlyStale(s, k)
      ensures Score(s.table, s.view.pending[k].item) <= Score(s.table, r.value.item)
    {
      var f :| f in s.entries && f.key == k && Fresh(f, s.view.pending[k], s.table);
      assert Leq(e, f) && Labelled(s, e.key) && Waits(s.view, e.key) && Priced(s, e);
    }
  }

  /** Every entry of the job was recorded at another priority than its current one. */
  ghost predicate OnlyStale(s: Store, k: Key)
    requires k in s.view.pending
  {
    forall f :: f in s.entries && f.key == k ==> !Fresh(f, s.view.pending[k], s.table)
  }
}
