/**
 One bridge worker draining the queue in batches. It pops jobs into an accumulator, hands full batches to the
 probe backend, and accounts the results; a PASS fans out while the rest of its batch is still unaccounted.
 The backend is an arbitrary function from the position of a job in the run to its result.
 */
module AdaptiveRunner {
  import opened Wrappers
  import opened Genetics
  import opened Heapq
  import opened QueueSpec
  import opened Reservoir
  import opened AdaptiveQueue
  import opened Campaign
  import opened Quarantine
  import opened RunResults

  /** Collects jobs of one protocol, without repeated keys, up to a batch. Fan-out jobs are refused. */
  class BatchJobAccumulator {
    const batchSize: nat
    var jobs: seq<Job>
    var keys: set<(Key, string)>

    ghost predicate Valid()
      reads this
    {
      && 1 <= batchSize && |jobs| <= batchSize
      && keys == (set j | j in jobs :: (j.JobKey(), j.item.protocol))
      && forall j :: j in jobs ==> !j.fanout && j.item.protocol == jobs[0].item.protocol
    }

    constructor (batchSize: int)
      ensures Valid() && jobs == []
    {
      this.batchSize := if batchSize < 1 then 1 else batchSize;
      jobs, keys := [], {};
    }

    predicate CanAccept(job: Job)
      reads this
    {
      && !job.fanout
      && (job.JobKey(), job.item.protocol) !in keys
      && (jobs != [] ==> jobs[0].item.protocol == job.item.protocol)
      && |jobs| < batchSize
    }

    method Push(job: Job) returns (accepted: bool)
      requires Valid()
      modifies this
      ensures Valid() && accepted == old(CanAccept(job))
      ensures jobs == if accepted then old(jobs) + [job] else old(jobs)
    {
      accepted := CanAccept(job);
      if accepted {
        jobs := jobs + [job];
        keys := keys + {(job.JobKey(), job.item.protocol)};
      }
    }

    predicate IsFull()
      reads this
    {
      |jobs| >= batchSize
    }

    method Flush() returns (batch: seq<Job>)
      requires Valid()
      modifies this
      ensures Valid() && jobs == [] && batch == old(jobs)
    {
      batch := jobs;
      jobs, keys := [], {};
    }
  }

  // ---------- what holds during a run ----------

  function KeysOf(jobs: seq<Job>): set<Key> {
    set j | j in jobs :: j.JobKey()
  }

  /** A queue ready to run: jobs are genuine, none is a fan-out copy, and every campaign key is accounted for. */
  ghost predicate Ready(items: seq<Item>, v: View) {
    && WellFormed(v) && AllGenuine(items, v)
    && (forall k :: k in v.pending ==> !v.pending[k].fanout)
    && (forall k :: InMatrix(items, v.domains, {}, {}, k) ==> k in v.pending || k in v.done || k.domain in v.excluded)
  }

  lemma BuiltIsReady(items: seq<Item>, domains: seq<Domain>, skipDomains: set<Domain>, skipKeys: set<Key>, v: View)
    requires JustBuilt(items, domains, skipDomains, skipKeys, v) && WellFormed(v)
    ensures Ready(items, v)
  {
  }

  lemma ResumedIsReady(items: seq<Item>, v: View, keys: seq<Key>, completed: Job -> bool)
    requires Ready(items, v) && WellFormed(FinishAll(v, keys, completed))
    ensures Ready(items, FinishAll(v, keys, completed))
  {
    FinishAllMeans(v, keys, completed);
    forall k
      ensures Genuine(items, FinishAll(v, keys, completed), k)
    {
      assert Genuine(items, v, k);
    }
  }

  /**
   Where the key `k` is, in a run that began at `b` and handed out `handed`: `rest` are the jobs collected or in
   the batch being accounted, `held` the key just popped. A key in `rest` may also wait, as a fan-out copy.
   */
  ghost predicate Tracked(items: seq<Item>, b: View, v: View, rest: seq<Job>, held: set<Key>, handed: seq<Key>,
                          k: Key) {
    && (k in v.pending ==> k in b.pending && k !in handed && k !in held
                           && ItemFor(items, k.tag) == Some(v.pending[k].item)
                           && (v.pending[k].fanout ==> k in KeysOf(rest)))
    && (k in KeysOf(rest) || k in held ==> Eligible(b, k) && k !in handed && k !in v.done)
    && (k in b.pending ==>
          k in v.pending || k in KeysOf(rest) || k in held || k in handed || (k in v.done && k.domain in v.excluded))
    && (k in handed ==> Eligible(b, k) && k in v.done)
    && (k in b.done ==> k in v.done)
  }

  ghost predicate Running(items: seq<Item>, b: View, v: View, rest: seq<Job>, held: set<Key>, handed: seq<Key>) {
    && WellFormed(v) && Distinct(handed)
    && b.excluded <= v.excluded && b.domains == v.domains
    && (forall k :: Tracked(items, b, v, rest, held, handed, k))
    && (forall j :: j in rest ==> ItemFor(items, j.item.tag) == Some(j.item))
    && (forall i, j :: 0 <= i < j < |rest| ==> rest[i].JobKey() != rest[j].JobKey())
  }

  /** No collected key waits: the state between flushes. */
  ghost predicate Quiet(v: View, rest: seq<Job>) {
    forall k :: k in KeysOf(rest) ==> k !in v.pending
  }

  lemma Begin(items: seq<Item>, b: View)
    requires Ready(items, b)
    ensures Running(items, b, b, [], {}, []) && Quiet(b, [])
  {
    forall k
      ensures Tracked(items, b, b, [], {}, [], k)
    {
      assert Genuine(items, b, k) && Waits(b, k);
    }
  }

  lemma AfterPop(items: seq<Item>, b: View, v: View, rest: seq<Job>, handed: seq<Key>, soft: set<Domain>, w: View,
                 job: Job)
    requires Running(items, b, v, rest, {}, handed) && Quiet(v, rest)
    requires Popped(v, soft, w, Some(job)) && WellFormed(w)
    ensures Running(items, b, w, rest, {job.JobKey()}, handed) && Quiet(w, rest)
    ensures !job.fanout && job.JobKey() !in KeysOf(rest) && job.JobKey() !in handed
    ensures job.JobKey() in b.pending && ItemFor(items, job.item.tag) == Some(job.item)
  {
    var key := job.JobKey();
    var u :| Discarded(v, u) && w == Drop(u, key);
    assert Tracked(items, b, v, rest, {}, handed, key) && Waits(v, key);
    forall k
      ensures Tracked(items, b, w, rest, {key}, handed, k)
    {
      assert Tracked(items, b, v, rest, {}, handed, k) && Waits(v, k);
      assert k in v.done || k in u.done - v.done || k !in u.done;
    }
  }

  lemma AfterEmpty(items: seq<Item>, b: View, v: View, rest: seq<Job>, handed: seq<Key>, soft: set<Domain>, w: View)
    requires Running(items, b, v, rest, {}, handed) && Quiet(v, rest)
    requires Popped(v, soft, w, None) && WellFormed(w)
    ensures Running(items, b, w, rest, {}, handed)
    ensures forall k :: k in w.pending ==> k.domain in w.excluded
  {
    forall k
      ensures Tracked(items, b, w, rest, {}, handed, k)
      ensures k in w.pending ==> k.domain in w.excluded
    {
      assert Tracked(items, b, v, rest, {}, handed, k) && Waits(v, k);
      assert k in v.done || k in w.done - v.done || k !in w.done;
      assert !Eligible(v, k);
    }
  }

  lemma AfterPush(items: seq<Item>, b: View, v: View, rest: seq<Job>, handed: seq<Key>, job: Job)
    requires Running(items, b, v, rest, {job.JobKey()}, handed) && Quiet(v, rest)
    requires job.JobKey() !in KeysOf(rest) && ItemFor(items, job.item.tag) == Some(job.item)
    ensures Running(items, b, v, rest + [job], {}, handed) && Quiet(v, rest + [job])
    ensures KeysOf(rest + [job]) == KeysOf(rest) + {job.JobKey()}
  {
    assert KeysOf(rest + [job]) == KeysOf(rest) + {job.JobKey()};
    assert Tracked(items, b, v, rest, {job.JobKey()}, handed, job.JobKey());
    forall i | 0 <= i < |rest|
      ensures rest[i].JobKey() != job.JobKey()
    {
      assert rest[i] in rest;
    }
    forall k
      ensures Tracked(items, b, v, rest + [job], {}, handed, k)
    {
      assert Tracked(items, b, v, rest, {job.JobKey()}, handed, k);
    }
  }

  /** What marking `job` does to the key `k`. */
  lemma MarkAt(v: View, job: Job, passed: bool, k: Key)
    ensures var w := MarkDone(v, job, passed);
      && (k in w.done <==> k in v.done || k == job.JobKey())
      && (k in w.pending ==> k != job.JobKey())
      && (k in v.pending && k != job.JobKey() ==> k in w.pending && w.pending[k] == v.pending[k])
      && (k in w.pending && k !in v.pending ==>
            && k.tag == job.item.tag && k.domain in v.domains && k.domain !in v.excluded && k !in v.done
            && w.pending[k] == Job(job.item, k.domain, true))
  {
    MarkDoneMeans(v, job, passed);
  }

  lemma TrackedAfterMark(items: seq<Item>, b: View, v: View, job: Job, tail: seq<Job>, held: set<Key>, handed: seq<Key>,
                         passed: bool, k: Key)
    requires Ready(items, b) && Tracked(items, b, v, [job] + tail, held, handed, k)
    requires ItemFor(items, job.item.tag) == Some(job.item) && b.domains == v.domains && b.excluded <= v.excluded
    requires job.JobKey() !in KeysOf(tail)
    requires forall h :: h in held ==> h.tag != job.item.tag
    ensures Tracked(items, b, MarkDone(v, job, passed), tail, held, handed + [job.JobKey()], k)
  {
    MarkAt(v, job, passed, k);
    MarkDoneMeans(v, job, passed);
    BatchKeys(job, tail);
    if k in MarkDone(v, job, passed).pending && k !in v.pending {
      FannedOutKeyIsInBatch(items, b, v, job, tail, held, handed, k);
    }
  }

  lemma BatchKeys(job: Job, tail: seq<Job>)
    ensures KeysOf([job] + tail) == {job.JobKey()} + KeysOf(tail)
  {
    assert ([job] + tail)[0] == job;
    forall j | j in tail
      ensures j in [job] + tail
    {
      var i :| 0 <= i < |tail| && tail[i] == j;
      assert ([job] + tail)[i + 1] == j;
    }
  }

  lemma HeadIsNew(job: Job, tail: seq<Job>)
    requires forall i, j :: 0 <= i < j < |[job] + tail| ==> ([job] + tail)[i].JobKey() != ([job] + tail)[j].JobKey()
    ensures job.JobKey() !in KeysOf(tail)
    ensures forall i, j :: 0 <= i < j < |tail| ==> tail[i].JobKey() != tail[j].JobKey()
  {
    var rest := [job] + tail;
    assert rest[0] == job && forall i :: 0 <= i < |tail| ==> tail[i] == rest[i + 1];
  }

  /**
   Accounting the next job of a batch. Its fan-out, if it passes, can only bring back keys of the same batch:
   every other sibling key is waiting, finished or excluded, and the popped key, if any, has another label.
   */
  lemma AfterMark(items: seq<Item>, b: View, v: View, job: Job, tail: seq<Job>, held: set<Key>, handed: seq<Key>,
                  passed: bool)
    requires Ready(items, b) && Running(items, b, v, [job] + tail, held, handed)
    requires forall h :: h in held ==> h.tag != job.item.tag
    ensures Running(items, b, MarkDone(v, job, passed), tail, held, handed + [job.JobKey()])
  {
    MarkDoneMeans(v, job, passed);
    HeadIsNew(job, tail);
    BatchKeys(job, tail);
    assert ([job] + tail)[0] == job;
    assert Tracked(items, b, v, [job] + tail, held, handed, job.JobKey());
    forall j | j in tail
      ensures ItemFor(items, j.item.tag) == Some(j.item)
    {
      assert j in [job] + tail;
    }
    forall k
      ensures Tracked(items, b, MarkDone(v, job, passed), tail, held, handed + [job.JobKey()], k)
    {
      TrackedAfterMark(items, b, v, job, tail, held, handed, passed, k);
    }
  }

  lemma FannedOutKeyIsInBatch(items: seq<Item>, b: View, v: View, job: Job, tail: seq<Job>, held: set<Key>,
                              handed: seq<Key>, k: Key)
    requires Ready(items, b) && Tracked(items, b, v, [job] + tail, held, handed, k)
    requires ItemFor(items, job.item.tag) == Some(job.item) && b.domains == v.domains && b.excluded <= v.excluded
    requires k.tag == job.item.tag && k.domain in v.domains && k.domain !in v.excluded
    requires k !in v.pending && k !in v.done && k !in held && k != job.JobKey()
    ensures k in KeysOf(tail)
  {
    assert InMatrix(items, b.domains, {}, {}, k);
    assert k in KeysOf([job] + tail);
  }

  /** Accounting the last job of a batch never fans out: so with batches of one job, fan-out never adds a job. */
  lemma LoneJobNeverFansOut(items: seq<Item>, b: View, v: View, job: Job, handed: seq<Key>, passed: bool)
    requires Ready(items, b) && Running(items, b, v, [job], {}, handed)
    ensures MarkDone(v, job, passed).pending == v.pending - {job.JobKey()}
  {
    var w := MarkDone(v, job, passed);
    MarkDoneMeans(v, job, passed);
    assert [job] + [] == [job] && job in [job];
    forall k | k in w.pending
      ensures k in v.pending
    {
      assert Tracked(items, b, v, [job], {}, handed, k);
      if k !in v.pending {
        FannedOutKeyIsInBatch(items, b, v, job, [], {}, handed, k);
      }
    }
    forall k | k in v.pending && k != job.JobKey()
      ensures k in w.pending && w.pending[k] == v.pending[k]
    {
    }
  }

  lemma AfterExclude(items: seq<Item>, b: View, v: View, rest: seq<Job>, held: set<Key>, handed: seq<Key>, d: Domain)
    requires Running(items, b, v, rest, held, handed)
    ensures Running(items, b, v.(excluded := v.excluded + {d}), rest, held, handed)
  {
    forall k
      ensures Tracked(items, b, v.(excluded := v.excluded + {d}), rest, held, handed, k)
      ensures Waits(v.(excluded := v.excluded + {d}), k)
    {
      assert Tracked(items, b, v, rest, held, handed, k) && Waits(v, k);
    }
  }

  /** A job the accumulator refuses has another protocol, hence another label, than every job collected. */
  lemma RefusedHasOtherLabel(items: seq<Item>, acc: BatchJobAccumulator, job: Job)
    requires acc.Valid() && !acc.IsFull() && !acc.CanAccept(job)
    requires !job.fanout && job.JobKey() !in KeysOf(acc.jobs) && ItemFor(items, job.item.tag) == Some(job.item)
    requires forall j :: j in acc.jobs ==> ItemFor(items, j.item.tag) == Some(j.item)
    ensures forall j :: j in acc.jobs ==> j.item.tag != job.item.tag
  {
  }

  // ---------- the worker ----------

  /** The domain that the result of `job` puts under quarantine just now, if any. */
  function Hit(quarantine: DomainQuarantine, job: Job, o: Outcome): (r: Option<Domain>)
    reads quarantine
    ensures r.Some? ==> r.value == job.domain
  {
    match o
    case Skipped => None
    case Ran(passed, kind) =>
      var ev := Event(job.domain, passed, None, kind);
      assert ev.domain == job.domain;
      RecordProbe(quarantine.config, quarantine.Current(), ev).1
  }

  function AfterAccount(v: View, hit: Option<Domain>): View {
    if hit.Some? then v.(excluded := v.excluded + {hit.value}) else v
  }

  /** A domain is excluded exactly if it was from the beginning or has come under quarantine since the start. */
  ghost predicate Excluded(start: State, now: State, base: set<Domain>, excluded: set<Domain>, d: Domain) {
    && (d in excluded <==> d in base || (d in now.quarantined && d !in start.quarantined))
    && (d in start.quarantined ==> d in now.quarantined)
  }

  /** The tracker has seen exactly `events` since `start`, and the exclusions follow it. */
  ghost predicate Obeys(c: Config, start: State, now: State, base: set<Domain>, excluded: set<Domain>,
                        events: seq<Event>) {
    now == RunFrom(c, start, Probes(events)) && forall d :: Excluded(start, now, base, excluded, d)
  }

  lemma ObeysNext(c: Config, start: State, now: State, base: set<Domain>, excluded: set<Domain>, events: seq<Event>,
                  ev: Event)
    requires Obeys(c, start, now, base, excluded, events)
    ensures var (next, newly) := RecordProbe(c, now, ev);
      Obeys(c, start, next, base, if newly.Some? then excluded + {newly.value} else excluded, events + [ev])
  {
    var (next, newly) := RecordProbe(c, now, ev);
    StepReports(c, now, Probe(ev));
    assert (events + [ev])[..|events|] == events;
    assert Probes(events + [ev])[..|Probes(events)|] == Probes(events);
    var more := if newly.Some? then excluded + {newly.value} else excluded;
    forall d
      ensures Excluded(start, next, base, more, d)
    {
      assert Excluded(start, now, base, excluded, d);
      assert d in next.quarantined.Keys <==> d in now.quarantined.Keys || newly == Some(d);
    }
  }

  /** The exclusions and the tracker after `events`; without a tracker the exclusions never change. */
  ghost predicate Supervised(queue: AdaptiveJobQueue, quarantine: DomainQuarantine?, start: State, base: set<Domain>,
                             events: seq<Event>)
    reads queue, quarantine
  {
    if quarantine == null then queue.excludedDomains == base
    else Obeys(quarantine.config, start, quarantine.Current(), base, queue.excludedDomains, events)
  }

  function ConfigOf(quarantine: DomainQuarantine?): Option<Config>
  {
    if quarantine == null then None else Some(quarantine.config)
  }

  function StateOf(quarantine: DomainQuarantine?): State
    reads quarantine
  {
    if quarantine == null then EMPTY else quarantine.Current()
  }

  /** Accounts one result: the queue learns the outcome, and a domain quarantined just now is excluded at once. */
  method Account(queue: AdaptiveJobQueue, quarantine: DomainQuarantine?, job: Job, o: Outcome,
                 ghost start: State, ghost base: set<Domain>, ghost events: seq<Event>)
    requires queue.Valid() && Supervised(queue, quarantine, start, base, events)
    modifies queue, queue.weights, if quarantine == null then {} else {quarantine}
    ensures queue.Valid() && Supervised(queue, quarantine, start, base, events + EventsOf(job.domain, o))
    ensures queue.Contents() == AfterAccount(MarkDone(old(queue.Contents()), job, o.Ran? && o.passed),
                                             if quarantine == null then None else old(Hit(quarantine, job, o)))
    ensures quarantine != null ==>
              quarantine.Current() == RunFrom(quarantine.config, old(quarantine.Current()),
                                              Probes(EventsOf(job.domain, o)))
    ensures queue.rebuildEvery == old(queue.rebuildEvery) && (old(queue.Paced()) ==> queue.Paced())
    ensures Listed(old(queue.catalog), job.item) ==> queue.catalog == old(queue.catalog)
    ensures Reweighed(old(queue.weights.Weights()), queue.weights.Weights(), old(queue.boosts), queue.boosts, job, o)
  {
    ghost var hit := if quarantine == null then None else Hit(quarantine, job, o);
    assert events + [] == events;
    var passed := match o case Skipped => false case Ran(passed, _) => passed;
    MarkDoneMeans(queue.Contents(), job, passed);
    var _ := queue.MarkDone(job, passed);
    if o.Ran? && quarantine != null {
      var ev := Event(job.domain, o.passed, None, o.kind);
      ObeysNext(quarantine.config, start, quarantine.Current(), base, queue.excludedDomains, events, ev);
      OneProbe(quarantine.config, quarantine.Current(), ev);
      var newly := quarantine.Record(ev);
      assert newly == hit;
      if newly.Some? {
        queue.ExcludeDomain(newly.value);
      }
    }
  }

  /** One result boosts the weights on a PASS, and changes nothing about them otherwise. */
  ghost predicate Reweighed(before: Table, after: Table, boosts: nat, boosts': nat, job: Job, o: Outcome) {
    && after == (if o.Ran? && o.passed then Boost(before, job.item) else before)
    && boosts' <= boosts + if o.Ran? && o.passed then 1 else 0
  }

  lemma OneProbe(c: Config, s: State, ev: Event)
    ensures RunFrom(c, s, Probes([ev])) == RecordProbe(c, s, ev).0
  {
    assert Probes([ev]) == Probes([]) + [Probe(ev)] == [Probe(ev)];
    assert RunFrom(c, s, [Probe(ev)]) == Step(c, RunFrom(c, s, []), Probe(ev)).0;
  }

  /** Every waiting job waited before, or is a fan-out copy. */
  ghost predicate OnlyCopiesNew(v: View, w: View) {
    forall k :: k in w.pending ==> (k in v.pending && w.pending[k] == v.pending[k]) || w.pending[k].fanout
  }

  /** Every waiting job waited before. */
  ghost predicate NothingNew(v: View, w: View) {
    forall k :: k in w.pending ==> k in v.pending && w.pending[k] == v.pending[k]
  }

  lemma OnlyCopiesCompose(u: View, v: View, w: View)
    requires OnlyCopiesNew(u, v) && OnlyCopiesNew(v, w)
    ensures OnlyCopiesNew(u, w)
  {
  }

  lemma AfterAccounting(items: seq<Item>, b: View, v: View, job: Job, tail: seq<Job>, held: set<Key>, handed: seq<Key>,
                        passed: bool, hit: Option<Domain>)
    requires Ready(items, b) && Running(items, b, v, [job] + tail, held, handed)
    requires forall h :: h in held ==> h.tag != job.item.tag
    ensures var w := AfterAccount(MarkDone(v, job, passed), hit);
      && Running(items, b, w, tail, held, handed + [job.JobKey()]) && OnlyCopiesNew(v, w) && v.excluded <= w.excluded
      && (!passed ==> NothingNew(v, w))
  {
    AfterMark(items, b, v, job, tail, held, handed, passed);
    MarkDoneMeans(v, job, passed);
    if hit.Some? {
      AfterExclude(items, b, MarkDone(v, job, passed), tail, held, handed + [job.JobKey()], hit.value);
    }
  }

  /** Accounts the first job of `rest`. */
  method AccountNext(ghost items: seq<Item>, ghost b: View, queue: AdaptiveJobQueue, quarantine: DomainQuarantine?,
                     ghost rest: seq<Job>, job: Job, ghost held: set<Key>, ghost handed: seq<Key>, o: Outcome,
                     ghost start: State, ghost events: seq<Event>)
    requires queue.Valid() && Ready(items, b) && rest != [] && job == rest[0]
    requires Supervised(queue, quarantine, start, b.excluded, events)
    requires Running(items, b, queue.Contents(), rest, held, handed)
    requires forall h :: h in held ==> h.tag != job.item.tag
    modifies queue, queue.weights, if quarantine == null then {} else {quarantine}
    ensures queue.Valid() && Running(items, b, queue.Contents(), rest[1..], held, handed + [job.JobKey()])
    ensures OnlyCopiesNew(old(queue.Contents()), queue.Contents())
    ensures old(queue.excludedDomains) <= queue.excludedDomains
    ensures Supervised(queue, quarantine, start, b.excluded, events + EventsOf(job.domain, o))
    ensures queue.rebuildEvery == old(queue.rebuildEvery) && (old(queue.Paced()) ==> queue.Paced())
    ensures Listed(old(queue.catalog), job.item) ==> queue.catalog == old(queue.catalog)
    ensures Reweighed(old(queue.weights.Weights()), queue.weights.Weights(), old(queue.boosts), queue.boosts, job, o)
    ensures !(o.Ran? && o.passed) ==> NothingNew(old(queue.Contents()), queue.Contents())
  {
    assert rest == [job] + rest[1..];
    ghost var hit := if quarantine == null then None else Hit(quarantine, job, o);
    AfterAccounting(items, b, queue.Contents(), job, rest[1..], held, handed, o.Ran? && o.passed, hit);
    Account(queue, quarantine, job, o, start, b.excluded, events);
  }

  /**
   What a run depends on: its strategies; its tracker, weights and boosts at the start; the results, rolls and draws to
   come; and whether domains in flight are released.
   */
  datatype Setting = Setting(items: seq<Item>, start: State, config: Option<Config>, table: Table, boosts: nat,
                             outcome: nat -> Outcome, epsilon: real, roll: nat -> Roll, draw: nat -> nat -> nat,
                             isolate: bool)

  /** A run from `b`. If `paced`, the heap is rebuilt every `rises + 1` PASSes; if `listed`, there is a catalog. */
  datatype Given = Given(s: Setting, b: View, paced: bool, rises: nat, listed: bool)

  /** The weights are those at the start boosted for the PASSes so far. */
  ghost predicate Weighed(s: Setting, table: Table, handed: seq<Key>) {
    table == BoostedBy(s.table, s.items, handed, s.outcome)
  }

  lemma WeighedNext(s: Setting, table: Table, boosts: nat, handed: seq<Key>, job: Job, table': Table, boosts': nat)
    requires Weighed(s, table, handed) && ItemFor(s.items, job.item.tag) == Some(job.item)
    requires Reweighed(table, table', boosts, boosts', job, s.outcome(|handed|))
    ensures Weighed(s, table', handed + [job.JobKey()])
  {
    BoostedNext(s.table, s.items, handed, job.JobKey(), s.outcome);
  }

  /** What the queue, the tracker and the counters are after the jobs `handed`. */
  ghost predicate Settled(g: Given, queue: AdaptiveJobQueue, quarantine: DomainQuarantine?, handed: seq<Key>,
                          stats: RunStats)
    reads queue, queue.weights, quarantine
  {
    && Ready(g.s.items, g.b) && queue.Valid()
    && Supervised(queue, quarantine, g.s.start, g.b.excluded, Results(handed, g.s.outcome))
    && g.s.config == ConfigOf(quarantine) && queue.epsilon == g.s.epsilon
    && Weighed(g.s, queue.weights.Weights(), handed) && stats == StatsAfter(g.s.outcome, |handed|)
    && queue.boosts <= g.s.boosts + stats.passed
    && (g.paced ==> queue.Paced() && queue.rebuildEvery == g.rises + 1)
    && (g.listed ==> queue.catalog == Some(g.s.items))
  }

  /** The state of a flush that has accounted the first `i` jobs of its batch. */
  ghost predicate Flushing(g: Given, start: View, v: View, batch: seq<Job>, i: nat, held: set<Key>, before: seq<Key>,
                           handed: seq<Key>)
  {
    && i <= |batch| && Running(g.s.items, g.b, v, batch[i..], held, handed) && handed == before + Keys(batch[..i])
    && OnlyCopiesNew(start, v) && start.excluded <= v.excluded
    && (NonePassed(g.s.outcome, |before|, |handed|) ==> NothingNew(start, v))
  }

  ghost predicate NonePassed(outcome: nat -> Outcome, from: nat, to: nat) {
    forall i :: from <= i < to ==> !(outcome(i).Ran? && outcome(i).passed)
  }

  lemma FlushingNext(g: Given, start: View, v: View, w: View, batch: seq<Job>, i: nat, held: set<Key>,
                     before: seq<Key>, handed: seq<Key>)
    requires i < |batch| && Flushing(g, start, v, batch, i, held, before, handed)
    requires Running(g.s.items, g.b, w, batch[i..][1..], held, handed + [batch[i].JobKey()])
    requires OnlyCopiesNew(v, w) && v.excluded <= w.excluded
    requires NonePassed(g.s.outcome, |handed|, |handed| + 1) ==> NothingNew(v, w)
    ensures Flushing(g, start, w, batch, i + 1, held, before, handed + [batch[i].JobKey()])
  {
    OnlyCopiesCompose(start, v, w);
    KeysGrow(batch, i);
    assert batch[i..][1..] == batch[i + 1..];
  }

  /** Accounts the next job of a flush. */
  method AccountJob(ghost g: Given, ghost first: View, queue: AdaptiveJobQueue, quarantine: DomainQuarantine?,
                    batch: seq<Job>, i: nat, ghost held: set<Key>, ghost before: seq<Key>, sofar: seq<Key>,
                    stats: RunStats, outcome: nat -> Outcome)
    returns (handed: seq<Key>, stats': RunStats)
    requires Settled(g, queue, quarantine, sofar, stats) && i < |batch| && outcome == g.s.outcome
    requires Flushing(g, first, queue.Contents(), batch, i, held, before, sofar)
    requires forall h :: h in held ==> h.tag != batch[i].item.tag
    modifies queue, queue.weights, if quarantine == null then {} else {quarantine}
    ensures Settled(g, queue, quarantine, handed, stats')
    ensures Flushing(g, first, queue.Contents(), batch, i + 1, held, before, handed)
  {
    var job, o := batch[i], outcome(|sofar|);
    ghost var v, table, boosts := queue.Contents(), queue.weights.Weights(), queue.boosts;
    assert job in batch[i..];
    AccountNext(g.s.items, g.b, queue, quarantine, batch[i..], job, held, sofar, o, g.s.start, Results(sofar, outcome));
    WeighedNext(g.s, table, boosts, sofar, job, queue.weights.Weights(), queue.boosts);
    ResultsGrow(sofar, job.JobKey(), outcome);
    FlushingNext(g, first, v, queue.Contents(), batch, i, held, before, sofar);
    handed, stats' := sofar + [job.JobKey()], Tally(stats, o);
  }

  /** Hands a batch to the backend and accounts its results in order. Without a PASS among them no job is added. */
  method FlushBatch(ghost g: Given, queue: AdaptiveJobQueue, quarantine: DomainQuarantine?, batch: seq<Job>,
                    ghost held: set<Key>, before: seq<Key>, stats: RunStats, outcome: nat -> Outcome)
    returns (handed: seq<Key>, stats': RunStats)
    requires Settled(g, queue, quarantine, before, stats) && outcome == g.s.outcome
    requires Running(g.s.items, g.b, queue.Contents(), batch, held, before)
    requires forall h, j :: h in held && j in batch ==> h.tag != j.item.tag
    modifies queue, queue.weights, if quarantine == null then {} else {quarantine}
    ensures Settled(g, queue, quarantine, handed, stats')
    ensures Running(g.s.items, g.b, queue.Contents(), [], held, handed) && handed == before + Keys(batch)
    ensures OnlyCopiesNew(old(queue.Contents()), queue.Contents())
    ensures old(queue.excludedDomains) <= queue.excludedDomains
    ensures NonePassed(outcome, |before|, |handed|) ==> NothingNew(old(queue.Contents()), queue.Contents())
  {
    handed, stats' := before, stats;
    ghost var first := queue.Contents();
    assert batch[0..] == batch;
    for i := 0 to |batch|
      invariant Settled(g, queue, quarantine, handed, stats')
      invariant Flushing(g, first, queue.Contents(), batch, i, held, before, handed)
    {
      handed, stats' := AccountJob(g, first, queue, quarantine, batch, i, held, before, handed, stats', outcome);
    }
    assert batch[..|batch|] == batch && batch[|batch|..] == [];
  }

  function Keys(jobs: seq<Job>): (keys: seq<Key>) {
    if jobs == [] then [] else Keys(jobs[..|jobs| - 1]) + [jobs[|jobs| - 1].JobKey()]
  }

  lemma KeysGrow(jobs: seq<Job>, i: nat)
    requires i < |jobs|
    ensures Keys(jobs[..i + 1]) == Keys(jobs[..i]) + [jobs[i].JobKey()]
  {
    assert jobs[..i + 1][..i] == jobs[..i];
  }

  lemma {:induction false} KeysList(jobs: seq<Job>)
    ensures forall k :: k in Keys(jobs) <==> k in KeysOf(jobs)
  {
    if jobs != [] {
      var front, last := jobs[..|jobs| - 1], jobs[|jobs| - 1];
      KeysList(front);
      assert jobs == front + [last];
      assert forall j :: j in jobs <==> j in front || j == last;
    }
  }

  ghost function Left(b: View, handed: seq<Key>, acc: seq<Job>): set<Key> {
    set k | k in b.pending && k !in handed && k !in KeysOf(acc)
  }

  lemma FlushedBatch(b: View, batch: seq<Job>, handed: seq<Key>)
    ensures Left(b, handed + Keys(batch), []) == Left(b, handed, batch)
  {
    KeysList(batch);
  }

  /** Nothing that may be handed out is left over. */
  lemma AfterRun(items: seq<Item>, b: View, v: View, w: View, handed: seq<Key>)
    requires Ready(items, b) && Running(items, b, w, [], {}, handed)
    requires OnlyCopiesNew(v, w) && v.excluded <= w.excluded
    requires forall k :: k in v.pending ==> k.domain in v.excluded
    ensures forall k :: k in handed ==> Eligible(b, k) && k in w.done
    ensures forall k :: k in b.pending ==> k in handed || k.domain in w.excluded
    ensures NothingNew(b, w)
  {
    forall k
      ensures k in handed ==> Eligible(b, k) && k in w.done
      ensures k in b.pending ==> k in handed || k.domain in w.excluded
      ensures k in w.pending ==> k in b.pending && w.pending[k] == b.pending[k]
    {
      assert Tracked(items, b, w, [], {}, handed, k);
      assert Genuine(items, b, k) && Waits(b, k) && Waits(w, k);
    }
  }

  /** The keys popped so far, in order: those handed to the backend, then those collected. */
  ghost predicate InLine(handed: seq<Key>, jobs: seq<Job>, line: seq<Key>) {
    handed + Keys(jobs) == line
  }

  lemma JoinsLine(handed: seq<Key>, jobs: seq<Job>, line: seq<Key>, job: Job)
    requires InLine(handed, jobs, line)
    ensures InLine(handed, jobs + [job], line + [job.JobKey()])
  {
    assert (jobs + [job])[..|jobs|] == jobs;
  }

  /** What the worker keeps between two awaits: `held` is the key just popped, `line` are those popped before. */
  ghost predicate Working(g: Given, queue: AdaptiveJobQueue, quarantine: DomainQuarantine?, acc: BatchJobAccumulator,
                          held: set<Key>, handed: seq<Key>, stats: RunStats, line: seq<Key>)
    reads queue, queue.weights, acc, quarantine
  {
    && Settled(g, queue, quarantine, handed, stats) && acc.Valid()
    && Flows(g, queue.Contents(), acc.jobs, held, handed, line)
  }

  ghost predicate Flows(g: Given, v: View, jobs: seq<Job>, held: set<Key>, handed: seq<Key>, line: seq<Key>) {
    Running(g.s.items, g.b, v, jobs, held, handed) && Quiet(v, jobs) && InLine(handed, jobs, line)
  }

  lemma FlushFlows(g: Given, w: View, batch: seq<Job>, held: set<Key>, before: seq<Key>, line: seq<Key>)
    requires Running(g.s.items, g.b, w, [], held, before + Keys(batch)) && InLine(before, batch, line)
    ensures Flows(g, w, [], held, before + Keys(batch), line)
    ensures Left(g.b, before + Keys(batch), []) == Left(g.b, before, batch)
  {
    FlushedBatch(g.b, batch, before);
  }

  /** Empties the accumulator into the backend. */
  method FlushAccumulator(ghost g: Given, queue: AdaptiveJobQueue, quarantine: DomainQuarantine?,
                          acc: BatchJobAccumulator, ghost held: set<Key>, before: seq<Key>, stats: RunStats,
                          ghost line: seq<Key>, outcome: nat -> Outcome)
    returns (handed: seq<Key>, stats': RunStats, batch: seq<Job>)
    requires Working(g, queue, quarantine, acc, held, before, stats, line) && outcome == g.s.outcome
    requires forall h, j :: h in held && j in acc.jobs ==> h.tag != j.item.tag
    modifies queue, queue.weights, acc, if quarantine == null then {} else {quarantine}
    ensures Working(g, queue, quarantine, acc, held, handed, stats', line) && acc.jobs == [] && batch == old(acc.jobs)
    ensures handed == before + Keys(batch)
    ensures OnlyCopiesNew(old(queue.Contents()), queue.Contents()) &&
            old(queue.excludedDomains) <= queue.excludedDomains
    ensures Left(g.b, handed, []) == Left(g.b, before, old(acc.jobs))
  {
    batch := acc.Flush();
    handed, stats' := FlushBatch(g, queue, quarantine, batch, held, before, stats, outcome);
    FlushFlows(g, queue.Contents(), batch, held, before, line);
  }

  /** Collects a popped job that the accumulator accepts. */
  method PushHeld(ghost g: Given, queue: AdaptiveJobQueue, quarantine: DomainQuarantine?, acc: BatchJobAccumulator,
                  job: Job, ghost handed: seq<Key>, ghost stats: RunStats, ghost line: seq<Key>)
    requires Working(g, queue, quarantine, acc, {job.JobKey()}, handed, stats, line) && acc.CanAccept(job)
    requires job.JobKey() !in KeysOf(acc.jobs) && ItemFor(g.s.items, job.item.tag) == Some(job.item)
    modifies acc
    ensures Working(g, queue, quarantine, acc, {}, handed, stats, line + [job.JobKey()]) &&
            acc.jobs == old(acc.jobs) + [job]
  {
    JoinsLine(handed, acc.jobs, line, job);
    AfterPush(g.s.items, g.b, queue.Contents(), acc.jobs, handed, job);
    var accepted := acc.Push(job);
  }

  /** Flushes the accumulator if a popped job does not fit. */
  method MakeRoom(ghost g: Given, queue: AdaptiveJobQueue, quarantine: DomainQuarantine?, acc: BatchJobAccumulator,
                  job: Job, before: seq<Key>, stats: RunStats, ghost line: seq<Key>, outcome: nat -> Outcome)
    returns (handed: seq<Key>, stats': RunStats, released: seq<Job>)
    requires Working(g, queue, quarantine, acc, {job.JobKey()}, before, stats, line) && !acc.IsFull() &&
             outcome == g.s.outcome
    requires !job.fanout && job.JobKey() !in KeysOf(acc.jobs) && ItemFor(g.s.items, job.item.tag) == Some(job.item)
    modifies queue, queue.weights, acc, if quarantine == null then {} else {quarantine}
    ensures Working(g, queue, quarantine, acc, {job.JobKey()}, handed, stats', line) && acc.CanAccept(job)
    ensures if released == [] then acc.jobs == old(acc.jobs) else released == old(acc.jobs) && acc.jobs == []
    ensures handed == before + Keys(released) && Left(g.b, handed, acc.jobs) == Left(g.b, before, old(acc.jobs))
  {
    if acc.CanAccept(job) {
      return before, stats, [];
    }
    RefusedHasOtherLabel(g.s.items, acc, job);
    handed, stats', released := FlushAccumulator(g, queue, quarantine, acc, {job.JobKey()}, before, stats, line,
                                                 outcome);
  }

  /** Puts a popped job in the accumulator, flushing before it if it does not fit. */
  method Place(ghost g: Given, queue: AdaptiveJobQueue, quarantine: DomainQuarantine?, acc: BatchJobAccumulator,
               job: Job, before: seq<Key>, stats: RunStats, ghost line: seq<Key>, outcome: nat -> Outcome)
    returns (handed: seq<Key>, stats': RunStats, released: seq<Job>)
    requires Working(g, queue, quarantine, acc, {job.JobKey()}, before, stats, line) && !acc.IsFull() &&
             outcome == g.s.outcome
    requires !job.fanout && job.JobKey() !in KeysOf(acc.jobs) && ItemFor(g.s.items, job.item.tag) == Some(job.item)
    modifies queue, queue.weights, acc, if quarantine == null then {} else {quarantine}
    ensures Working(g, queue, quarantine, acc, {}, handed, stats', line + [job.JobKey()])
    ensures Moved(old(acc.jobs), job, released, acc.jobs) && handed == before + Keys(released)
    ensures Left(g.b, handed, acc.jobs) <= Left(g.b, before, old(acc.jobs)) - {job.JobKey()}
  {
    ghost var jobs := acc.jobs;
    handed, stats', released := MakeRoom(g, queue, quarantine, acc, job, before, stats, line, outcome);
    OneLess(g.b, handed, acc.jobs, job);
    PushHeld(g, queue, quarantine, acc, job, handed, stats', line);
  }

  lemma OneLess(b: View, handed: seq<Key>, jobs: seq<Job>, job: Job)
    ensures Left(b, handed, jobs + [job]) == Left(b, handed, jobs) - {job.JobKey()}
  {
    assert KeysOf(jobs + [job]) == KeysOf(jobs) + {job.JobKey()};
  }

  /** Collecting `job` flushed the jobs `released`, if any, in the order of their collection. */
  ghost predicate Moved(jobs: seq<Job>, job: Job, released: seq<Job>, jobs': seq<Job>) {
    released + jobs' == jobs + [job] && (released == [] || |jobs'| <= 1)
  }

  /** Flushes the accumulator if the batch is full. */
  method FlushFull(ghost g: Given, queue: AdaptiveJobQueue, quarantine: DomainQuarantine?, acc: BatchJobAccumulator,
                   before: seq<Key>, stats: RunStats, ghost line: seq<Key>, outcome: nat -> Outcome)
    returns (handed: seq<Key>, stats': RunStats, batch: seq<Job>)
    requires Working(g, queue, quarantine, acc, {}, before, stats, line) && outcome == g.s.outcome
    modifies queue, queue.weights, acc, if quarantine == null then {} else {quarantine}
    ensures Working(g, queue, quarantine, acc, {}, handed, stats', line) && !acc.IsFull()
    ensures if batch == [] then acc.jobs == old(acc.jobs) else batch == old(acc.jobs) && acc.jobs == []
    ensures handed == before + Keys(batch) && Left(g.b, handed, acc.jobs) == Left(g.b, before, old(acc.jobs))
  {
    if !acc.IsFull() {
      return before, stats, [];
    }
    handed, stats', batch := FlushAccumulator(g, queue, quarantine, acc, {}, before, stats, line, outcome);
  }

  /** Puts a popped job in the accumulator, flushing before it if it does not fit and after it if the batch is full. */
  method Collect(ghost g: Given, queue: AdaptiveJobQueue, quarantine: DomainQuarantine?, acc: BatchJobAccumulator,
                 job: Job, before: seq<Key>, stats: RunStats, ghost line: seq<Key>, outcome: nat -> Outcome)
    returns (handed: seq<Key>, stats': RunStats, released: seq<Job>)
    requires Working(g, queue, quarantine, acc, {job.JobKey()}, before, stats, line) && !acc.IsFull() &&
             outcome == g.s.outcome
    requires !job.fanout && job.JobKey() !in KeysOf(acc.jobs) && ItemFor(g.s.items, job.item.tag) == Some(job.item)
    modifies queue, queue.weights, acc, if quarantine == null then {} else {quarantine}
    ensures Working(g, queue, quarantine, acc, {}, handed, stats', line + [job.JobKey()]) && !acc.IsFull()
    ensures Moved(old(acc.jobs), job, released, acc.jobs) && handed == before + Keys(released)
    ensures Left(g.b, handed, acc.jobs) <= Left(g.b, before, old(acc.jobs)) - {job.JobKey()}
  {
    var batch;
    ghost var jobs := acc.jobs;
    handed, stats', released := Place(g, queue, quarantine, acc, job, before, stats, line, outcome);
    ghost var placed := acc.jobs;
    handed, stats', batch := FlushFull(g, queue, quarantine, acc, handed, stats', line + [job.JobKey()], outcome);
    MovedOn(jobs, job, released, placed, batch, acc.jobs, before);
    released := released + batch;
  }

  lemma MovedOn(jobs: seq<Job>, job: Job, released: seq<Job>, placed: seq<Job>, batch: seq<Job>, jobs': seq<Job>,
                before: seq<Key>)
    requires Moved(jobs, job, released, placed)
    requires if batch == [] then jobs' == placed else batch == placed && jobs' == []
    ensures Moved(jobs, job, released + batch, jobs')
    ensures before + Keys(released) + Keys(batch) == before + Keys(released + batch)
  {
    KeysJoin(released, batch);
  }

  /** Pops under the domain lock, keeping off the domains in flight and under quarantine where it can. */
  method PopIsolated(queue: AdaptiveJobQueue, quarantine: DomainQuarantine?, active: set<Domain>, roll: Roll,
                     draw: nat -> nat)
    returns (popped: Option<Job>, ghost soft: set<Domain>)
    requires queue.Valid() && CanDraw(draw)
    modifies queue`pending, queue`order, queue`byLabel, queue`heap, queue`serial, queue`done
    ensures queue.Valid() && Popped(old(queue.Contents()), soft, queue.Contents(), popped)
    ensures roll < queue.epsilon && |old(queue.pending)| > 1 && popped.Some? ==>
              Chosen(old(queue.order), soft, queue.excludedDomains, Draws(draw, |old(queue.order)|),
                     popped.value.JobKey())
    ensures queue.epsilon <= roll || |old(queue.pending)| <= 1 ==>
              && (popped.Some? && popped.value.domain !in soft ==>
                    NearBest(old(queue.Contents()), soft, queue.weights.Weights(), queue.boosts, popped.value))
              && (queue.catalog.Some? ==> Ruled(old(multiset(queue.heap)), old(queue.Contents()), soft, popped))
    ensures soft == active + if quarantine == null then {} else quarantine.quarantined.Keys
  {
    var extra := if quarantine == null then {} else quarantine.ExcludeDomains();
    soft := active + extra;
    var draws := Draws(draw, |queue.order|);
    ghost var from;
    popped, from := queue.Pop(active + extra, roll, draws);
  }

  /** One successful pop of a run: what it saw, which keys were accounted and which in flight, and what it gave. */
  datatype Handout = Handout(view: View, order: seq<Key>, entries: multiset<Entry<Key>>, active: set<Domain>,
                             soft: set<Domain>, table: Table, epsilon: real, roll: Roll, draws: seq<nat>,
                             before: seq<Key>, flight: seq<Key>, job: Job)
  {
    /** Unless it explored, the job is the one with the highest recorded priority. */
    ghost predicate ByRule() {
      epsilon <= roll || |view.pending| <= 1 ==> Ruled(entries, view, soft, Some(job))
    }

    /** Unless it explored or fell back to a soft exclusion, the job is within `k` rises of the best. */
    ghost predicate Within(k: nat) {
      (epsilon <= roll || |view.pending| <= 1) && job.domain !in soft ==> NearBest(view, soft, table, k, job)
    }

    /** Every entry of the heap records what its strategy is worth, or at most `k` rises less. */
    ghost predicate Recorded(items: seq<Item>, k: nat) {
      forall e :: e in entries ==> RecordedNear(table, items, e, k)
    }

    /** If it explored, the job is the choice of the sampler. */
    ghost predicate Sampled() {
      roll < epsilon && |view.pending| > 1 ==> Chosen(order, soft, view.excluded, draws, job.JobKey())
    }
  }

  ghost function LogKeys(log: seq<Handout>): (keys: seq<Key>)
    ensures |keys| == |log| && forall i :: 0 <= i < |keys| ==> keys[i] == log[i].job.JobKey()
  {
    seq(|log|, i requires 0 <= i < |log| => log[i].job.JobKey())
  }

  ghost predicate AllWithin(log: seq<Handout>, k: nat) {
    forall i :: 0 <= i < |log| ==> log[i].Within(k)
  }

  ghost predicate AllByRule(log: seq<Handout>) {
    forall i :: 0 <= i < |log| ==> log[i].ByRule()
  }

  /**
   The pop number `t` of a run, with `line` for the keys popped before. Its weights are those at the start boosted for
   the PASSes accounted so far, and it is within as many rises of the best; it used its own roll and draws.
   */
  ghost predicate Told(s: Setting, h: Handout, line: seq<Key>, t: nat) {
    && h.before + h.flight == line
    && h.table == BoostedBy(s.table, s.items, h.before, s.outcome)
    && h.Within(RisesBy(s, h.before))
    && h.epsilon == s.epsilon && h.roll == s.roll(t) && h.draws == Draws(s.draw(t), |h.order|) && h.Sampled()
    && h.soft == h.active + Condemned(s, h.before) && InFlight(s, h.active, h.before, h.flight)
  }

  ghost predicate AllRecorded(s: Setting, log: seq<Handout>) {
    forall i :: 0 <= i < |log| ==> log[i].Recorded(s.items, RisesBy(s, log[i].before))
  }

  /** Boosts at the start and PASSes since. */
  function RisesBy(s: Setting, before: seq<Key>): nat {
    s.boosts + StatsAfter(s.outcome, |before|).passed
  }

  ghost predicate AllTold(s: Setting, log: seq<Handout>) {
    forall i :: 0 <= i < |log| ==> Told(s, log[i], LogKeys(log)[..i], i)
  }

  /** The domains under quarantine after the results of the jobs `before`. */
  function Condemned(s: Setting, before: seq<Key>): set<Domain> {
    if s.config.None? then {}
    else RunFrom(s.config.value, s.start, Probes(Results(before, s.outcome))).quarantined.Keys
  }

  function DomainsIn(keys: seq<Key>): set<Domain> {
    set k | k in keys :: k.domain
  }

  /**
   The active domains while the keys `flight` are popped and not yet flushed. With isolation they are, with the domains
   quarantined at the start, those in flight, except for the first one in flight if it was popped on a domain whose
   other jobs were flushed to make room for it. Without isolation none is ever released.
   */
  ghost predicate InFlight(s: Setting, active: set<Domain>, before: seq<Key>, flight: seq<Key>) {
    if !s.isolate then active == s.start.quarantined.Keys + DomainsIn(before + flight)
    else
      && active <= s.start.quarantined.Keys + DomainsIn(flight)
      && forall i :: 0 <= i < |flight| && flight[i].domain !in active ==>
           i == 0 && flight[i].domain in DomainsIn(before)
  }

  lemma DomainsJoin(a: seq<Key>, b: seq<Key>)
    ensures DomainsIn(a + b) == DomainsIn(a) + DomainsIn(b)
  {
    assert forall k :: k in a + b <==> k in a || k in b;
  }

  /** The key just popped joins those in flight, and the front of them is flushed. */
  lemma FlightMoves(s: Setting, active: set<Domain>, before: seq<Key>, flight: seq<Key>, key: Key, gone: seq<Key>,
                    flight': seq<Key>)
    requires InFlight(s, active, before, flight)
    requires gone + flight' == flight + [key] && (gone == [] || |flight'| <= 1)
    ensures InFlight(s, if s.isolate then active + {key.domain} - DomainsIn(gone) else active + {key.domain},
                     before + gone, flight')
  {
    DomainsJoin(flight, [key]);
    if s.isolate {
      DomainsJoin(gone, flight');
      DomainsJoin(before, gone);
      if gone == [] {
        assert flight' == flight + [key];
      } else if flight' != [] {
        assert flight'[0] == (gone + flight')[|gone|] == key;
      }
    } else {
      assert before + gone + flight' == before + (gone + flight') == before + flight + [key];
      DomainsJoin(before + flight, [key]);
    }
  }

  lemma {:induction false} KeysJoin(a: seq<Job>, b: seq<Job>)
    ensures Keys(a + b) == Keys(a) + Keys(b)
  {
    if b == [] {
      assert a + b == a;
    } else {
      var n := |b| - 1;
      KeysJoin(a, b[..n]);
      assert (a + b)[..|a| + n] == a + b[..n];
    }
  }

  lemma {:induction false} DomainsOfKeys(jobs: seq<Job>)
    ensures DomainsIn(Keys(jobs)) == set j | j in jobs :: j.domain
  {
    if jobs != [] {
      var n := |jobs| - 1;
      DomainsOfKeys(jobs[..n]);
      DomainsJoin(Keys(jobs[..n]), [jobs[n].JobKey()]);
      assert jobs == jobs[..n] + [jobs[n]];
    }
  }

  /** The turn of a worker: what it collected and flushed is what is in flight afterwards. */
  lemma TurnMoves(s: Setting, active: set<Domain>, before: seq<Key>, jobs: seq<Job>, job: Job, released: seq<Job>,
                  jobs': seq<Job>)
    requires InFlight(s, active, before, Keys(jobs)) && Moved(jobs, job, released, jobs')
    ensures var claimed := active + {job.domain};
      InFlight(s, if s.isolate then claimed - set j | j in released :: j.domain else claimed,
               before + Keys(released), Keys(jobs'))
  {
    KeysJoin(released, jobs');
    KeysJoin(jobs, [job]);
    DomainsOfKeys(released);
    assert Keys([job]) == [job.JobKey()];
    FlightMoves(s, active, before, Keys(jobs), job.JobKey(), Keys(released), Keys(jobs'));
  }

  ghost predicate Logged(g: Given, log: seq<Handout>) {
    && (g.paced ==> AllWithin(log, g.rises)) && AllTold(g.s, log)
    && (g.listed ==> AllByRule(log) && AllRecorded(g.s, log))
  }

  lemma LogGrows(g: Given, log: seq<Handout>, h: Handout)
    requires Logged(g, log) && Told(g.s, h, LogKeys(log), |log|)
    requires g.paced ==> h.Within(g.rises)
    requires g.listed ==> h.ByRule() && h.Recorded(g.s.items, RisesBy(g.s, h.before))
    ensures Logged(g, log + [h])
  {
    if g.paced {
      AllWithinGrows(log, h, g.rises);
    }
    if g.listed {
      AllByRuleGrows(log, h);
      AllRecordedGrows(g.s, log, h);
    }
    AllToldGrows(g.s, log, h);
  }

  lemma AllWithinGrows(log: seq<Handout>, h: Handout, k: nat)
    requires AllWithin(log, k) && h.Within(k)
    ensures AllWithin(log + [h], k)
  {
  }

  lemma AllByRuleGrows(log: seq<Handout>, h: Handout)
    requires AllByRule(log) && h.ByRule()
    ensures AllByRule(log + [h])
  {
  }

  lemma AllRecordedGrows(s: Setting, log: seq<Handout>, h: Handout)
    requires AllRecorded(s, log) && h.Recorded(s.items, RisesBy(s, h.before))
    ensures AllRecorded(s, log + [h])
  {
  }

  lemma KeysOfLog(log: seq<Handout>, h: Handout)
    ensures LogKeys(log + [h]) == LogKeys(log) + [h.job.JobKey()]
  {
  }

  lemma AllToldGrows(s: Setting, log: seq<Handout>, h: Handout)
    requires AllTold(s, log) && Told(s, h, LogKeys(log), |log|)
    ensures AllTold(s, log + [h])
  {
    var more := log + [h];
    KeysOfLog(log, h);
    forall i | 0 <= i < |more|
      ensures Told(s, more[i], LogKeys(more)[..i], i)
    {
      assert LogKeys(more)[..i] == if i < |log| then LogKeys(log)[..i] else LogKeys(log);
      if i < |log| {
        assert Told(s, log[i], LogKeys(log)[..i], i);
      }
    }
  }

  /** The log goes on with a pop that used the next roll and draws and the weights and boosts of the moment. */
  lemma LogMoves(g: Given, log: seq<Handout>, h: Handout, stats: RunStats, boosts: nat)
    requires Logged(g, log) && h.Sampled() && h.Within(boosts)
    requires g.listed ==> h.ByRule() && h.Recorded(g.s.items, boosts)
    requires stats == StatsAfter(g.s.outcome, |h.before|) && boosts <= g.s.boosts + stats.passed
    requires g.paced ==> boosts <= g.rises
    requires h.before + h.flight == LogKeys(log) && Weighed(g.s, h.table, h.before) && h.epsilon == g.s.epsilon
    requires h.roll == g.s.roll(|log|) && h.draws == Draws(g.s.draw(|log|), |h.order|)
    requires h.soft == h.active + Condemned(g.s, h.before) && InFlight(g.s, h.active, h.before, h.flight)
    ensures Logged(g, log + [h]) && LogKeys(log + [h]) == LogKeys(log) + [h.job.JobKey()]
  {
    WithinMore(h, boosts, RisesBy(g.s, h.before));
    if g.paced {
      WithinMore(h, boosts, g.rises);
    }
    if g.listed {
      RecordedMore(h, g.s.items, boosts, RisesBy(g.s, h.before));
    }
    LogGrows(g, log, h);
    KeysOfLog(log, h);
  }

  lemma WithinMore(h: Handout, k: nat, m: nat)
    requires h.Within(k) && k <= m
    ensures h.Within(m)
  {
    if (h.epsilon <= h.roll || |h.view.pending| <= 1) && h.job.domain !in h.soft {
      MoreRisesDo(h.view, h.soft, h.table, k, m, h.job);
    }
  }

  lemma RecordedMore(h: Handout, items: seq<Item>, k: nat, m: nat)
    requires h.Recorded(items, k) && k <= m
    ensures h.Recorded(items, m)
  {
    forall e | e in h.entries
      ensures RecordedNear(h.table, items, e, m)
    {
      assert RecordedNear(h.table, items, e, k);
      MoreSteps(Rise(ItemFor(items, e.key.tag).value), k, m);
    }
  }

  lemma {:induction false} MoreSteps(step: real, k: nat, m: nat)
    requires step >= 0.0 && k <= m
    ensures Steps(step, k) <= Steps(step, m)
  {
    if k < m {
      MoreSteps(step, k, m - 1);
    }
  }

  lemma EntriesAreRecorded(queue: AdaptiveJobQueue, items: seq<Item>)
    requires queue.Valid() && queue.catalog == Some(items)
    ensures forall e :: e in multiset(queue.heap) ==> RecordedNear(queue.weights.Weights(), items, e, queue.boosts)
  {
    forall e | e in multiset(queue.heap)
      ensures RecordedNear(queue.weights.Weights(), items, e, queue.boosts)
    {
      assert Priced(queue.Holding(multiset(queue.heap)), e);
    }
  }

  /** Pops, and notes what the pop saw. */
  method PopNoted(queue: AdaptiveJobQueue, quarantine: DomainQuarantine?, active: set<Domain>, roll: Roll,
                  draw: nat -> nat, ghost before: seq<Key>, ghost flight: seq<Key>)
    returns (popped: Option<Job>, ghost soft: set<Domain>, ghost h: Option<Handout>)
    requires queue.Valid() && CanDraw(draw)
    modifies queue`pending, queue`order, queue`byLabel, queue`heap, queue`serial, queue`done
    ensures queue.Valid() && Popped(old(queue.Contents()), soft, queue.Contents(), popped)
    ensures h == if popped.None? then None
                 else Some(Handout(old(queue.Contents()), old(queue.order), old(multiset(queue.heap)), active, soft,
                                   queue.weights.Weights(), queue.epsilon, roll, Draws(draw, |old(queue.order)|),
                                   before, flight, popped.value))
    ensures h.Some? ==> h.value.Sampled() && h.value.Within(queue.boosts)
    ensures h.Some? && queue.catalog.Some? ==>
              h.value.ByRule() && h.value.Recorded(queue.catalog.value, queue.boosts)
    ensures soft == active + if quarantine == null then {} else quarantine.quarantined.Keys
  {
    ghost var v, order, entries := queue.Contents(), queue.order, multiset(queue.heap);
    if queue.catalog.Some? {
      EntriesAreRecorded(queue, queue.catalog.value);
    }
    popped, soft := PopIsolated(queue, quarantine, active, roll, draw);
    h := None;
    if popped.Some? {
      h := Some(Handout(v, order, entries, active, soft, queue.weights.Weights(), queue.epsilon, roll,
                        Draws(draw, |order|), before, flight, popped.value));
    }
  }

  /** Pops, and notes the pop in the log. */
  method PopLogged(ghost g: Given, queue: AdaptiveJobQueue, quarantine: DomainQuarantine?, active: set<Domain>,
                   roll: Roll, draw: nat -> nat, ghost handed: seq<Key>, ghost flight: seq<Key>,
                   ghost stats: RunStats, ghost log: seq<Handout>)
    returns (popped: Option<Job>, ghost soft: set<Domain>, ghost log': seq<Handout>)
    requires Settled(g, queue, quarantine, handed, stats) && CanDraw(draw) && Logged(g, log)
    requires roll == g.s.roll(|log|) && draw == g.s.draw(|log|) && handed + flight == LogKeys(log)
    requires InFlight(g.s, active, handed, flight)
    modifies queue`pending, queue`order, queue`byLabel, queue`heap, queue`serial, queue`done
    ensures queue.Valid() && Popped(old(queue.Contents()), soft, queue.Contents(), popped)
    ensures Logged(g, log')
    ensures popped.None? ==> log' == log
    ensures popped.Some? ==> LogKeys(log') == LogKeys(log) + [popped.value.JobKey()] && |log'| == |log| + 1
  {
    ghost var h;
    popped, soft, h := PopNoted(queue, quarantine, active, roll, draw, handed, flight);
    log' := log;
    if h.Some? {
      LogMoves(g, log, h.value, stats, queue.boosts);
      log' := log + [h.value];
    }
  }

  /**
   What a run promises. Every key handed out was eligible, is handed out once and is finished; every waiting key is
   handed out or its domain is excluded; without a tracker exactly the eligible keys are handed out, and what still
   waits are jobs of the start. The tracker has seen the results of the run, and exactly what it condemned became
   excluded. The weights are boosted once for each PASS.
   */
  ghost predicate Ended(g: Given, queue: AdaptiveJobQueue, quarantine: DomainQuarantine?, handed: seq<Key>,
                        stats: RunStats)
    reads queue, queue.weights, quarantine
  {
    && Distinct(handed) && stats == StatsAfter(g.s.outcome, |handed|)
    && (forall k :: k in handed ==> Eligible(g.b, k) && k in queue.done)
    && (forall k :: k in g.b.pending ==> k in handed || k.domain in queue.excludedDomains)
    && (quarantine == null ==> forall k :: k in handed <==> Eligible(g.b, k))
    && NothingNew(g.b, queue.Contents())
    && Supervised(queue, quarantine, g.s.start, g.b.excluded, Results(handed, g.s.outcome))
    && queue.weights.Weights() == BoostedBy(g.s.table, g.s.items, handed, g.s.outcome)
  }

  /** The flush before the worker returns. */
  method FlushLast(ghost g: Given, queue: AdaptiveJobQueue, quarantine: DomainQuarantine?, acc: BatchJobAccumulator,
                   before: seq<Key>, stats: RunStats, ghost line: seq<Key>, outcome: nat -> Outcome)
    returns (handed: seq<Key>, stats': RunStats)
    requires Working(g, queue, quarantine, acc, {}, before, stats, line) && outcome == g.s.outcome
    requires forall k :: k in queue.pending ==> k.domain in queue.excludedDomains
    modifies queue, queue.weights, acc, if quarantine == null then {} else {quarantine}
    ensures queue.Valid() && Ended(g, queue, quarantine, handed, stats') && handed == line
  {
    ghost var w := queue.Contents();
    var batch;
    handed, stats', batch := FlushAccumulator(g, queue, quarantine, acc, {}, before, stats, line, outcome);
    AfterRun(g.s.items, g.b, w, queue.Contents(), handed);
  }

  /** What the worker keeps from one turn to the next. */
  ghost predicate Looping(g: Given, queue: AdaptiveJobQueue, quarantine: DomainQuarantine?, acc: BatchJobAccumulator,
                          active: set<Domain>, handed: seq<Key>, stats: RunStats, log: seq<Handout>)
    reads queue, queue.weights, acc, quarantine
  {
    && Working(g, queue, quarantine, acc, {}, handed, stats, LogKeys(log)) && !acc.IsFull()
    && Logged(g, log) && InFlight(g.s, active, handed, Keys(acc.jobs))
  }

  /** The pop of a worker between two awaits: nothing eligible is left, or a job that it has never seen. */
  method PopJob(ghost g: Given, queue: AdaptiveJobQueue, quarantine: DomainQuarantine?, ghost acc: BatchJobAccumulator,
                active: set<Domain>, roll: Roll, draw: nat -> nat, ghost handed: seq<Key>, ghost stats: RunStats,
                ghost log: seq<Handout>)
    returns (popped: Option<Job>, ghost log': seq<Handout>)
    requires Looping(g, queue, quarantine, acc, active, handed, stats, log) && CanDraw(draw)
    requires roll == g.s.roll(|log|) && draw == g.s.draw(|log|)
    modifies queue`pending, queue`order, queue`byLabel, queue`heap, queue`serial, queue`done
    ensures Logged(g, log')
    ensures popped.None? ==> log' == log && Working(g, queue, quarantine, acc, {}, handed, stats, LogKeys(log))
    ensures popped.None? ==> forall k :: k in queue.pending ==> k.domain in queue.excludedDomains
    ensures popped.Some? ==>
              && LogKeys(log') == LogKeys(log) + [popped.value.JobKey()] && |log'| == |log| + 1
              && Working(g, queue, quarantine, acc, {popped.value.JobKey()}, handed, stats, LogKeys(log))
              && !popped.value.fanout && popped.value.JobKey() in Left(g.b, handed, acc.jobs)
              && ItemFor(g.s.items, popped.value.item.tag) == Some(popped.value.item)
  {
    ghost var v, soft := queue.Contents(), {};
    popped, soft, log' := PopLogged(g, queue, quarantine, active, roll, draw, handed, Keys(acc.jobs), stats, log);
    if popped.None? {
      AfterEmpty(g.s.items, g.b, v, acc.jobs, handed, soft, queue.Contents());
    } else {
      AfterPop(g.s.items, g.b, v, acc.jobs, handed, soft, queue.Contents(), popped.value);
    }
  }

  /** What a run from this state depends on. */
  ghost function StartOf(items: seq<Item>, queue: AdaptiveJobQueue, quarantine: DomainQuarantine?, bridgeBatch: int,
                         isolate: bool, roll: nat -> Roll, draw: nat -> nat -> nat, outcome: nat -> Outcome): Given
    reads queue, queue.weights, quarantine
  {
    var s := Setting(items, StateOf(quarantine), ConfigOf(quarantine), queue.weights.Weights(), queue.boosts, outcome,
                     queue.epsilon, roll, draw, isolate);
    var paced := queue.boosts == 0 && bridgeBatch > 0;
    Given(s, queue.Contents(), paced, if paced then bridgeBatch - 1 else 0, queue.catalog == Some(items))
  }

  /** The accumulator of a worker, and the pace of its heap rebuilds. */
  method Prepare(ghost g: Given, queue: AdaptiveJobQueue, ghost quarantine: DomainQuarantine?, bridgeBatch: int)
    returns (acc: BatchJobAccumulator)
    requires queue.Valid() && Ready(g.s.items, queue.Contents())
    requires g == StartOf(g.s.items, queue, quarantine, bridgeBatch, g.s.isolate, g.s.roll, g.s.draw, g.s.outcome)
    modifies queue`rebuildEvery, queue`rebuildCounter
    ensures fresh(acc) && Looping(g, queue, quarantine, acc, g.s.start.quarantined.Keys, [], RunStats(0, 0, 0), [])
  {
    acc := new BatchJobAccumulator(bridgeBatch);
    queue.ConfigureHeapRebuild(bridgeBatch);
    Begin(g.s.items, g.b);
    assert Results([], g.s.outcome) == [] && Probes([]) == [];
  }

  lemma FewerLeft(left: set<Key>, left': set<Key>, k: Key)
    requires k in left && left' <= left - {k}
    ensures |left'| < |left|
  {
    var more := left - {k} - left';
    assert left == left' + more + {k};
  }

  /** Takes a popped job in: its domain is active until its batch is flushed. */
  method TakeIn(ghost g: Given, queue: AdaptiveJobQueue, quarantine: DomainQuarantine?, acc: BatchJobAccumulator,
                active: set<Domain>, job: Job, before: seq<Key>, stats: RunStats, ghost line: seq<Key>, isolate: bool,
                outcome: nat -> Outcome)
    returns (handed: seq<Key>, stats': RunStats, active': set<Domain>)
    requires Working(g, queue, quarantine, acc, {job.JobKey()}, before, stats, line) && !acc.IsFull()
    requires outcome == g.s.outcome && isolate == g.s.isolate && InFlight(g.s, active, before, Keys(acc.jobs))
    requires !job.fanout && ItemFor(g.s.items, job.item.tag) == Some(job.item)
    requires job.JobKey() in Left(g.b, before, acc.jobs)
    modifies queue, queue.weights, acc, if quarantine == null then {} else {quarantine}
    ensures Working(g, queue, quarantine, acc, {}, handed, stats', line + [job.JobKey()]) && !acc.IsFull()
    ensures InFlight(g.s, active', handed, Keys(acc.jobs))
    ensures |Left(g.b, handed, acc.jobs)| < |Left(g.b, before, old(acc.jobs))|
  {
    if job.fanout {
      assert false;
    }
    var released;
    ghost var jobs, left := acc.jobs, Left(g.b, before, acc.jobs);
    handed, stats', released := Collect(g, queue, quarantine, acc, job, before, stats, line, outcome);
    TurnMoves(g.s, active, before, jobs, job, released, acc.jobs);
    active' := active + {job.domain};
    FewerLeft(left, Left(g.b, handed, acc.jobs), job.JobKey());
    active' := if isolate then active' - set j | j in released :: j.domain else active';
  }

  /** One turn of a worker: it pops and takes the job in, or finds nothing eligible and flushes the rest. */
  method Turn(ghost g: Given, queue: AdaptiveJobQueue, quarantine: DomainQuarantine?, acc: BatchJobAccumulator,
              active: set<Domain>, isolate: bool, roll: Roll, draw: nat -> nat, before: seq<Key>, stats: RunStats,
              ghost log: seq<Handout>, outcome: nat -> Outcome)
    returns (over: bool, handed: seq<Key>, stats': RunStats, active': set<Domain>, ghost log': seq<Handout>)
    requires Looping(g, queue, quarantine, acc, active, before, stats, log) && CanDraw(draw)
    requires isolate == g.s.isolate && roll == g.s.roll(|log|) && draw == g.s.draw(|log|) && outcome == g.s.outcome
    modifies queue, queue.weights, acc, if quarantine == null then {} else {quarantine}
    ensures over ==> queue.Valid() && Ended(g, queue, quarantine, handed, stats')
    ensures over ==> LogKeys(log') == handed && Logged(g, log')
    ensures !over ==> Looping(g, queue, quarantine, acc, active', handed, stats', log') && |log'| == |log| + 1
    ensures !over ==> |Left(g.b, handed, acc.jobs)| < |Left(g.b, before, old(acc.jobs))|
  {
    var popped;
    handed, stats', active' := before, stats, active;
    popped, log' := PopJob(g, queue, quarantine, acc, active, roll, draw, before, stats, log);
    over := popped == None;
    if over {
      handed, stats' := FlushLast(g, queue, quarantine, acc, before, stats, LogKeys(log), outcome);
    } else {
      handed, stats', active' := TakeIn(g, queue, quarantine, acc, active, popped.value, before, stats, LogKeys(log),
                                        isolate, outcome);
    }
  }

  /** The loop of the worker. */
  method Drain(ghost g: Given, queue: AdaptiveJobQueue, quarantine: DomainQuarantine?, acc: BatchJobAccumulator,
               initial: set<Domain>, isolate: bool, roll: nat -> Roll, draw: nat -> nat -> nat, outcome: nat -> Outcome)
    returns (handed: seq<Key>, stats: RunStats, ghost log: seq<Handout>)
    requires Looping(g, queue, quarantine, acc, initial, [], RunStats(0, 0, 0), [])
    requires isolate == g.s.isolate && roll == g.s.roll && draw == g.s.draw && outcome == g.s.outcome
    requires forall t: nat :: CanDraw(draw(t))
    modifies queue, queue.weights, acc, if quarantine == null then {} else {quarantine}
    ensures queue.Valid() && Ended(g, queue, quarantine, handed, stats)
    ensures LogKeys(log) == handed && Logged(g, log)
  {
    var active := initial;
    handed, stats, log := [], RunStats(0, 0, 0), [];
    var turn := 0;
    while true
      invariant Looping(g, queue, quarantine, acc, active, handed, stats, log) && turn == |log|
      decreases |Left(g.b, handed, acc.jobs)|
    {
      var over;
      over, handed, stats, active, log := Turn(g, queue, quarantine, acc, active, isolate, roll(turn), draw(turn),
                                               handed, stats, log, outcome);
      turn := turn + 1;
      if over {
        return;
      }
    }
  }

  /**
   The worker. It returns the keys it handed to the backend, in order, with its counters. Every key is handed
   out at most once; without a quarantine exactly the waiting keys are, and with one those that were not belong
   to domains it condemned. A job handed out is never a fan-out copy. The log tells each pop of the run: it goes by the
   weights that the PASSes so far have left, and is within as many rises of the best as there were PASSes, and within
   one less than the batch size.
   */
  method RunBridgeWorker(ghost items: seq<Item>, queue: AdaptiveJobQueue, quarantine: DomainQuarantine?,
                         bridgeBatch: int, isolate: bool,
                         roll: nat -> Roll, draw: nat -> nat -> nat, outcome: nat -> Outcome)
    returns (handed: seq<Key>, stats: RunStats, ghost log: seq<Handout>)
    requires queue.Valid() && Ready(items, queue.Contents())
    requires forall t: nat :: CanDraw(draw(t))
    modifies queue, queue.weights, if quarantine == null then {} else {quarantine}
    ensures queue.Valid() && LogKeys(log) == handed
    ensures var g := old(StartOf(items, queue, quarantine, bridgeBatch, isolate, roll, draw, outcome));
      Ended(g, queue, quarantine, handed, stats) && Logged(g, log)
  {
    ghost var g := StartOf(items, queue, quarantine, bridgeBatch, isolate, roll, draw, outcome);
    var active := if quarantine == null then {} else quarantine.ExcludeDomains();
    var acc := Prepare(g, queue, quarantine, bridgeBatch);
    handed, stats, log := Drain(g, queue, quarantine, acc, active, isolate, roll, draw, outcome);
  }

  /**
   As long as nothing passes, in a run that starts with a current heap, the weights stay, every entry records what its
   strategy was worth at the start, and every pop that neither explores nor falls back gives the best job by that.
   */
  lemma NoPassLeavesAlone(s: Setting, log: seq<Handout>, i: nat)
    requires AllTold(s, log) && AllRecorded(s, log) && i < |log| && s.boosts == 0
    requires PassedAt(s.outcome, |log[i].before|) == {}
    ensures log[i].table == s.table
    ensures forall e :: e in log[i].entries ==>
              ItemFor(s.items, e.key.tag).Some? && -e.neg == Score(s.table, ItemFor(s.items, e.key.tag).value)
    ensures (s.epsilon <= s.roll(i) || |log[i].view.pending| <= 1) && log[i].job.domain !in log[i].soft ==>
              Best(log[i].view, log[i].soft, s.table, log[i].job)
  {
    var h := log[i];
    assert Told(s, h, LogKeys(log)[..i], i) && h.Recorded(s.items, RisesBy(s, h.before));
    TallyCounts(s.outcome, |h.before|);
    NoPassNoBoost(s.table, s.items, h.before, s.outcome);
    assert RisesBy(s, h.before) == 0;
    forall e | e in h.entries
      ensures ItemFor(s.items, e.key.tag).Some? && -e.neg == Score(s.table, ItemFor(s.items, e.key.tag).value)
    {
      assert RecordedNear(h.table, s.items, e, 0);
    }
    if (s.epsilon <= s.roll(i) || |h.view.pending| <= 1) && h.job.domain !in h.soft {
      BestWhenRebuilt(h.view, h.soft, h.table, h.job);
    }
  }

  // ---------- a whole campaign ----------

  predicate Completed(resumeCheck: Option<Job -> bool>, job: Job) {
    resumeCheck.Some? && resumeCheck.value(job)
  }

  /** A key to probe: in the matrix outside the domains and keys to skip, and not completed in an earlier session. */
  ghost predicate Wanted(items: seq<Item>, domains: seq<Domain>, skipDomains: set<Domain>, skipKeys: set<Key>,
                         resumeCheck: Option<Job -> bool>, k: Key)
  {
    InMatrix(items, domains, skipDomains, skipKeys, k)
    && !Completed(resumeCheck, Job(ItemFor(items, k.tag).value, k.domain, false))
  }

  function Quarantined(quarantine: DomainQuarantine?): set<Domain>
    reads quarantine
  {
    if quarantine == null then {} else quarantine.quarantined.Keys
  }

  /** The queue of a campaign: quarantined domains are never packed, completed keys are dropped. */
  method BuildAdaptiveQueue(items: seq<Item>, domains: seq<Domain>, weights: ScanWeights, epsilon: real,
                            skipKeys: set<Key>, resumeCheck: Option<Job -> bool>, quarantine: DomainQuarantine?)
    returns (queue: AdaptiveJobQueue, skipped: nat)
    ensures fresh(queue) && queue.Valid() && queue.weights == weights && Ready(items, queue.Contents())
    ensures queue.boosts == 0 && queue.epsilon == Clamped(epsilon)
    ensures Capped(weights.Weights()) ==> queue.catalog == Some(items)
    ensures queue.excludedDomains == Quarantined(quarantine) && skipped == |queue.done|
    ensures forall k :: k in queue.pending <==>
              Wanted(items, domains, Quarantined(quarantine), skipKeys, resumeCheck, k)
  {
    var skipDomains := if quarantine == null then {} else quarantine.ExcludeDomains();
    queue := Build(items, domains, weights, epsilon, skipDomains, skipKeys);
    ghost var b := queue.Contents();
    BuiltIsReady(items, domains, skipDomains, skipKeys, b);
    if resumeCheck.Some? {
      ghost var keys := queue.order;
      queue.OrderListsPending();
      var _ := queue.FilterResume(resumeCheck.value);
      FinishAllMeans(b, keys, resumeCheck.value);
      ResumedIsReady(items, b, keys, resumeCheck.value);
      ResumedAreWanted(items, domains, skipDomains, skipKeys, b, keys, resumeCheck.value);
    } else {
      assert forall k :: Wanted(items, domains, skipDomains, skipKeys, None, k) <==>
               InMatrix(items, domains, skipDomains, skipKeys, k);
    }
    skipped := |queue.done|;
  }

  lemma ResumedAreWanted(items: seq<Item>, domains: seq<Domain>, skipDomains: set<Domain>, skipKeys: set<Key>, b: View,
                         keys: seq<Key>, completed: Job -> bool)
    requires JustBuilt(items, domains, skipDomains, skipKeys, b) && WellFormed(b)
    requires forall k :: k in keys <==> k in b.pending
    ensures forall k :: k in FinishAll(b, keys, completed).pending <==>
                        Wanted(items, domains, skipDomains, skipKeys, Some(completed), k)
  {
    FinishAllMeans(b, keys, completed);
    forall k
      ensures k in b.pending ==> b.pending[k] == Job(ItemFor(items, k.tag).value, k.domain, false)
    {
      assert Genuine(items, b, k) && Waits(b, k);
    }
  }

  /**
   A whole campaign by one worker, from the matrix to an empty queue. Only wanted keys are handed out, each once; those
   left out are on domains that the tracker condemned. So without a tracker the keys handed out are exactly the wanted
   ones, whatever the outcomes, the random numbers and the batch size.
   */
  method RunCampaign(items: seq<Item>, domains: seq<Domain>, weights: ScanWeights, epsilon: real, skipKeys: set<Key>,
                     resumeCheck: Option<Job -> bool>, quarantine: DomainQuarantine?, bridgeBatch: int, isolate: bool,
                     roll: nat -> Roll, draw: nat -> nat -> nat, outcome: nat -> Outcome)
    returns (handed: seq<Key>, stats: RunStats, ghost log: seq<Handout>)
    requires forall t: nat :: CanDraw(draw(t))
    modifies weights, if quarantine == null then {} else {quarantine}
    ensures Distinct(handed)
    ensures stats == RunStats(|handed|, |SkippedAt(outcome, |handed|)|, |PassedAt(outcome, |handed|)|)
    ensures weights.Weights() == BoostedBy(old(weights.Weights()), items, handed, outcome)
    ensures PassedAt(outcome, |handed|) == {} ==> weights.Weights() == old(weights.Weights())
    ensures forall k :: k in handed ==> Wanted(items, domains, old(Quarantined(quarantine)), skipKeys, resumeCheck, k)
    ensures forall k :: Wanted(items, domains, old(Quarantined(quarantine)), skipKeys, resumeCheck, k) ==>
              k in handed || k.domain in Quarantined(quarantine)
    ensures quarantine != null ==>
              quarantine.Current() == RunFrom(quarantine.config, old(quarantine.Current()),
                                              Probes(Results(handed, outcome)))
    ensures LogKeys(log) == handed && (bridgeBatch > 0 ==> AllWithin(log, bridgeBatch - 1))
    ensures var s := Setting(items, old(StateOf(quarantine)), ConfigOf(quarantine), old(weights.Weights()), 0, outcome,
                             Clamped(epsilon), roll, draw, isolate);
      AllTold(s, log) && (Capped(s.table) ==> AllByRule(log) && AllRecorded(s, log))
  {
    var queue, skipped := BuildAdaptiveQueue(items, domains, weights, epsilon, skipKeys, resumeCheck, quarantine);
    ghost var s := Setting(items, StateOf(quarantine), ConfigOf(quarantine), weights.Weights(), 0, outcome,
                           Clamped(epsilon), roll, draw, isolate);
    assert StartOf(items, queue, quarantine, bridgeBatch, isolate, roll, draw, outcome).s == s;
    handed, stats, log := RunBridgeWorker(items, queue, quarantine, bridgeBatch, isolate, roll, draw, outcome);
    TallyCounts(outcome, |handed|);
    if PassedAt(outcome, |handed|) == {} {
      NoPassNoBoost(old(weights.Weights()), items, handed, outcome);
    }
    SupervisionEnds(queue, quarantine, s.start, Results(handed, outcome));
  }

  /** Exclusions that begin with the quarantined domains stay within them. */
  lemma SupervisionEnds(queue: AdaptiveJobQueue, quarantine: DomainQuarantine?, start: State, events: seq<Event>)
    requires Supervised(queue, quarantine, start, start.quarantined.Keys, events)
    requires quarantine == null ==> start == EMPTY
    ensures queue.excludedDomains <= Quarantined(quarantine)
    ensures quarantine != null ==> quarantine.Current() == RunFrom(quarantine.config, start, Probes(events))
  {
    forall d | d in queue.excludedDomains
      ensures d in Quarantined(quarantine)
    {
      assert quarantine != null ==>
          Excluded(start, quarantine.Current(), start.quarantined.Keys, queue.excludedDomains, d);
    }
  }

  /** With a tracker that starts empty, a wanted key is left out only if the run's own results condemned its domain. */
  lemma LeftOutWereCondemned(c: Config, handed: seq<Key>, outcome: nat -> Outcome, d: Domain)
    requires c.enabled
    ensures d in RunFrom(c, EMPTY, Probes(Results(handed, outcome))).quarantined <==>
            EverCondemned(c, Results(handed, outcome), d)
  {
    ProbesOnly(c, Results(handed, outcome));
    TraceDecides(c, Results(handed, outcome), d);
  }
}
