/**
 N workers on a fixed job queue with domain isolation. The methods follow the program; the step system below
 interleaves workers at every await: between two awaits a worker's code runs undisturbed, and no lock body awaits.
 */
module BridgePool {
  import opened Genetics

  /** A backend result: the probe ran, or was stopped before it did. */
  datatype Result = Probed(passed: bool) | StoppedBeforeProbe

  class DomainIsolationPool {
    const enabled: bool
    var activeDomains: set<Domain>

    constructor (enabled: bool, activeDomains: set<Domain>)
      ensures this.enabled == enabled && this.activeDomains == activeDomains
    {
      this.enabled, this.activeDomains := enabled, activeDomains;
    }

    method ClaimDomain(domain: Domain) returns (claimed: bool)
      modifies this
      ensures claimed == MayClaim(enabled, old(activeDomains), domain)
      ensures activeDomains == AfterClaim(enabled, old(activeDomains), domain)
    {
      if !enabled {
        return true;
      }
      if domain in activeDomains {
        return false;
      }
      activeDomains := activeDomains + {domain};
      return true;
    }

    method ReleaseDomains(domains: seq<Domain>)
      modifies this
      ensures activeDomains == AfterRelease(enabled, old(activeDomains), set d | d in domains)
    {
      if !enabled || domains == [] {
        return;
      }
      activeDomains := activeDomains - set d | d in domains;
    }
  }

  predicate MayClaim(enabled: bool, active: set<Domain>, d: Domain) {
    enabled ==> d !in active
  }

  function AfterClaim(enabled: bool, active: set<Domain>, d: Domain): set<Domain> {
    if enabled then active + {d} else active
  }

  function AfterRelease(enabled: bool, active: set<Domain>, domains: set<Domain>): set<Domain> {
    if enabled then active - domains else active
  }

  /** A claim that succeeds is undone by its release. */
  lemma ReleaseUndoesClaim(enabled: bool, active: set<Domain>, d: Domain)
    requires MayClaim(enabled, active, d)
    ensures AfterRelease(enabled, AfterClaim(enabled, active, d), {d}) == active
  {
  }

  /** The results paired with the jobs of a batch: what the backend returned, then `StoppedBeforeProbe`. */
  function Padded(results: seq<Result>, n: nat): (r: seq<Result>)
    ensures |r| == if |results| < n then n else |results|
    ensures results <= r && forall i :: |results| <= i < |r| ==> r[i] == StoppedBeforeProbe
    decreases n - |results|
  {
    if |results| < n then Padded(results + [StoppedBeforeProbe], n) else results
  }

  method PadResults(results: seq<Result>, jobs: seq<Job>) returns (padded: seq<Result>)
    ensures padded == Padded(results, |jobs|)
  {
    padded := results;
    while |padded| < |jobs|
      invariant Padded(padded, |jobs|) == Padded(results, |jobs|)
      decreases |jobs| - |padded|
    {
      padded := padded + [StoppedBeforeProbe];
    }
  }

  // ---------- the step system ----------

  /** `last` marks the flush before a return. */
  datatype Phase =
    | Idle
    | Holding(job: Job)
    | Napping
    | Probing(batch: seq<Job>, last: bool)
    | Accounting(batch: seq<Job>, results: seq<Result>, n: nat, last: bool)
    | Returned
    | Failed

  datatype Worker = Worker(acc: seq<Job>, phase: Phase)

  datatype Pool = Pool(queue: seq<Job>, active: set<Domain>, excluded: set<Domain>, ledger: seq<(Job, Result)>,
                       lost: multiset<Job>, workers: seq<Worker>)

  datatype Setup = Setup(enabled: bool, batchSize: nat)

  datatype Action =
    | Take                            // get_nowait succeeds
    | Finish(stopped: bool)           // the stop event is set, or the queue is empty
    | Claim                           // claim_domain, and put_nowait when it fails
    | Wake                            // after the short sleep
    | Answer(results: seq<Result>)    // the backend returns
    | Raise                           // the backend or a callback raises
    | AccountOne
    | Release                         // the end of run_bridge_batch
    | Exclude(d: Domain)              // a domain joins the exclusions

  predicate Enabled(s: Pool, i: nat, a: Action)
    requires i < |s.workers|
  {
    var w := s.workers[i];
    match a
    case Take => w.phase.Idle? && s.queue != []
    case Finish(stopped) => w.phase.Idle? && (stopped || s.queue == [])
    case Claim => w.phase.Holding?
    case Wake => w.phase.Napping?
    case Answer(_) => w.phase.Probing?
    case Raise => w.phase.Probing? || w.phase.Accounting?
    case AccountOne => w.phase.Accounting? && w.phase.n < |w.phase.batch| && w.phase.n < |w.phase.results|
    case Release => w.phase.Accounting? && w.phase.n == |w.phase.batch|
    case Exclude(_) => true
  }

  /** `flush` with what the accumulator holds. */
  function StartFlush(acc: seq<Job>, last: bool): Worker {
    if acc == [] then Worker([], if last then Returned else Idle) else Worker([], Probing(acc, last))
  }

  function DomainsOf(jobs: seq<Job>): set<Domain> {
    set j | j in jobs :: j.domain
  }

  function Step(c: Setup, s: Pool, i: nat, a: Action): Pool
    requires i < |s.workers| && Enabled(s, i, a)
  {
    var w := s.workers[i];
    match a
    case Take =>
      var job := s.queue[0];
      if job.domain in s.excluded then s.(queue := s.queue[1..], ledger := s.ledger + [(job, StoppedBeforeProbe)])
      else s.(queue := s.queue[1..], workers := s.workers[i := Worker(w.acc, Holding(job))])
    case Finish(_) => s.(workers := s.workers[i := StartFlush(w.acc, true)])
    case Claim =>
      var job := w.phase.job;
      if !MayClaim(c.enabled, s.active, job.domain) then
        s.(queue := s.queue + [job], workers := s.workers[i := Worker(w.acc, Napping)])
      else
        var acc := w.acc + [job];
        s.(active := AfterClaim(c.enabled, s.active, job.domain),
           workers := s.workers[i := if |acc| >= c.batchSize then StartFlush(acc, false) else Worker(acc, Idle)])
    case Wake => s.(workers := s.workers[i := StartFlush(w.acc, false)])
    case Answer(results) =>
      var batch := w.phase.batch;
      s.(workers := s.workers[i := Worker(w.acc, Accounting(batch, Padded(results, |batch|), 0, w.phase.last))])
    case Raise =>
      s.(active := AfterRelease(c.enabled, s.active, DomainsOf(w.phase.batch)),
         lost := s.lost + Unaccounted(w.phase),
         workers := s.workers[i := Worker(w.acc, Failed)])
    case AccountOne =>
      var p := w.phase;
      s.(ledger := s.ledger + [(p.batch[p.n], p.results[p.n])],
         workers := s.workers[i := Worker(w.acc, p.(n := p.n + 1))])
    case Release =>
      var p := w.phase;
      var next := if |p.results| > |p.batch| then Failed else if p.last then Returned else Idle;
      s.(active := AfterRelease(c.enabled, s.active, DomainsOf(p.batch)),
         workers := s.workers[i := Worker(w.acc, next)])
    case Exclude(d) => s.(excluded := s.excluded + {d})
  }

  /** The jobs of a flush that are not accounted yet. */
  function Unaccounted(p: Phase): multiset<Job> {
    match p
    case Probing(batch, _) => multiset(batch)
    case Accounting(batch, _, n, _) => if n <= |batch| then multiset(batch[n..]) else multiset{}
    case _ => multiset{}
  }

  /** The jobs a worker is responsible for. */
  function InHand(w: Worker): multiset<Job> {
    multiset(w.acc) + Unaccounted(w.phase) + if w.phase.Holding? then multiset{w.phase.job} else multiset{}
  }

  function Total(hands: seq<multiset<Job>>): multiset<Job> {
    if hands == [] then multiset{} else Total(hands[..|hands| - 1]) + hands[|hands| - 1]
  }

  function Hands(workers: seq<Worker>): (hands: seq<multiset<Job>>)
    ensures |hands| == |workers| && forall i :: 0 <= i < |hands| ==> hands[i] == InHand(workers[i])
  {
    seq(|workers|, i requires 0 <= i < |workers| => InHand(workers[i]))
  }

  function AllInHand(workers: seq<Worker>): multiset<Job> {
    Total(Hands(workers))
  }

  function Accounted(ledger: seq<(Job, Result)>): multiset<Job> {
    if ledger == [] then multiset{} else Accounted(ledger[..|ledger| - 1]) + multiset{ledger[|ledger| - 1].0}
  }

  /** Every job of the run: queued, in some worker's hands, accounted, or lost to an exception. */
  function Everything(s: Pool): multiset<Job> {
    multiset(s.queue) + AllInHand(s.workers) + Accounted(s.ledger) + s.lost
  }

  /** The jobs whose domains a worker has claimed. */
  function Claimed(w: Worker): seq<Job> {
    w.acc + match w.phase
      case Probing(batch, _) => batch
      case Accounting(batch, _, _, _) => batch
      case _ => []
  }

  ghost predicate DistinctDomains(jobs: seq<Job>) {
    forall i, j :: 0 <= i < j < |jobs| ==> jobs[i].domain != jobs[j].domain
  }

  function ClaimedDomains(s: Pool, i: nat): set<Domain>
    requires i < |s.workers|
  {
    DomainsOf(Claimed(s.workers[i]))
  }

  /** The claims of worker `i`: distinct, foreign to the initial exclusions, in the shared set. */
  ghost predicate ClaimsOk(initial: set<Domain>, s: Pool, i: nat)
    requires i < |s.workers|
  {
    && DistinctDomains(Claimed(s.workers[i]))
    && ClaimedDomains(s, i) !! initial && ClaimedDomains(s, i) <= s.active
  }

  ghost predicate Apart(s: Pool, i: nat, j: nat)
    requires i < |s.workers| && j < |s.workers|
  {
    i != j ==> ClaimedDomains(s, i) !! ClaimedDomains(s, j)
  }

  ghost predicate Justified(initial: set<Domain>, s: Pool, d: Domain) {
    d in s.active ==> d in initial || exists i :: 0 <= i < |s.workers| && d in ClaimedDomains(s, i)
  }

  /** No domain is claimed twice, by one worker or two, and the shared set is the initial exclusions plus the claims. */
  ghost predicate Isolated(initial: set<Domain>, s: Pool) {
    && initial <= s.active
    && (forall i :: 0 <= i < |s.workers| ==> ClaimsOk(initial, s, i))
    && (forall i, j :: 0 <= i < |s.workers| && 0 <= j < |s.workers| ==> Apart(s, i, j))
    && (forall d :: Justified(initial, s, d))
  }

  /** A flush starts from an empty accumulator, and results cover the batch. */
  ghost predicate Shaped(w: Worker) {
    match w.phase
    case Probing(batch, _) => w.acc == []
    case Accounting(batch, results, n, _) => w.acc == [] && n <= |batch| <= |results|
    case Returned => w.acc == []
    case Failed => w.acc == []
    case _ => true
  }

  /** Some worker will still look at the queue. */
  predicate StillPolling(w: Worker) {
    match w.phase
    case Idle => true
    case Holding(_) => true
    case Napping => true
    case Probing(_, last) => !last
    case Accounting(_, results, _, last) => !last
    case _ => false
  }

  // ---------- conservation ----------

  lemma {:induction false} ReplaceInTotal(hands: seq<multiset<Job>>, i: nat, hand: multiset<Job>)
    requires i < |hands|
    ensures Total(hands[i := hand]) + hands[i] == Total(hands) + hand
  {
    var n := |hands| - 1;
    if i < n {
      assert hands[i := hand][..n] == hands[..n][i := hand];
      ReplaceInTotal(hands[..n], i, hand);
      Slide(Total(hands[..n][i := hand]), Total(hands[..n]), hands[n], hands[i], hand);
    } else {
      assert hands[i := hand][..n] == hands[..n];
      assert Total(hands[..n]) + hand + hands[n] == Total(hands[..n]) + hands[n] + hand;
    }
  }

  lemma Slide(a: multiset<Job>, b: multiset<Job>, last: multiset<Job>, before: multiset<Job>, after: multiset<Job>)
    requires a + before == b + after
    ensures a + last + before == b + last + after
  {
    assert a + last + before == (a + before) + last && b + last + after == (b + after) + last;
  }

  lemma ReplaceInHand(workers: seq<Worker>, i: nat, w: Worker)
    requires i < |workers|
    ensures AllInHand(workers[i := w]) + InHand(workers[i]) == AllInHand(workers) + InHand(w)
  {
    assert Hands(workers[i := w]) == Hands(workers)[i := InHand(w)];
    ReplaceInTotal(Hands(workers), i, InHand(w));
  }

  lemma AccountedGrows(ledger: seq<(Job, Result)>, job: Job, r: Result)
    ensures Accounted(ledger + [(job, r)]) == Accounted(ledger) + multiset{job}
  {
    assert (ledger + [(job, r)])[..|ledger|] == ledger;
  }

  ghost predicate AllShaped(s: Pool) {
    forall i :: 0 <= i < |s.workers| ==> Shaped(s.workers[i])
  }

  /** What a step of worker `i` can touch. */
  function Near(s: Pool, i: nat): multiset<Job>
    requires i < |s.workers|
  {
    multiset(s.queue) + InHand(s.workers[i]) + Accounted(s.ledger) + s.lost
  }

  lemma NearDecides(s: Pool, t: Pool, i: nat)
    requires i < |s.workers| == |t.workers| && t.workers == s.workers[i := t.workers[i]] && Near(t, i) == Near(s, i)
    ensures Everything(t) == Everything(s)
  {
    ReplaceInHand(s.workers, i, t.workers[i]);
    Balance(multiset(s.queue), AllInHand(s.workers), Accounted(s.ledger), s.lost, InHand(s.workers[i]),
            multiset(t.queue), AllInHand(t.workers), Accounted(t.ledger), t.lost, InHand(t.workers[i]));
  }

  lemma Balance(queue: multiset<Job>, hands: multiset<Job>, ledger: multiset<Job>, lost: multiset<Job>,
                hand: multiset<Job>, queue': multiset<Job>, hands': multiset<Job>, ledger': multiset<Job>,
                lost': multiset<Job>, hand': multiset<Job>)
    requires hands' + hand == hands + hand' && queue' + hand' + ledger' + lost' == queue + hand + ledger + lost
    ensures queue' + hands' + ledger' + lost' == queue + hands + ledger + lost
  {
    forall x: Job
      ensures (queue' + hands' + ledger' + lost')[x] == (queue + hands + ledger + lost)[x]
    {
      assert (hands' + hand)[x] == (hands + hand')[x];
      assert (queue' + hand' + ledger' + lost')[x] == (queue + hand + ledger + lost)[x];
    }
  }

  lemma TakeBalances(c: Setup, s: Pool, i: nat)
    requires i < |s.workers| && Enabled(s, i, Take)
    ensures Near(Step(c, s, i, Take), i) == Near(s, i)
  {
    var w, t, job := s.workers[i], Step(c, s, i, Take), s.queue[0];
    assert s.queue == [job] + s.queue[1..];
    assert multiset(s.queue) == multiset{job} + multiset(s.queue[1..]);
    if job.domain in s.excluded {
      AccountedGrows(s.ledger, job, StoppedBeforeProbe);
    } else {
      assert InHand(t.workers[i]) == InHand(w) + multiset{job};
    }
  }

  lemma FlushBalances(acc: seq<Job>, last: bool)
    ensures InHand(StartFlush(acc, last)) == multiset(acc)
  {
  }

  lemma Regroup(queue: multiset<Job>, acc: multiset<Job>, rest: multiset<Job>, one: multiset<Job>,
                ledger: multiset<Job>, lost: multiset<Job>)
    ensures queue + (acc + (one + rest) + multiset{}) + ledger + lost ==
            queue + (acc + rest + multiset{}) + (ledger + one) + lost
    ensures queue + (acc + multiset{} + one) + ledger + lost == queue + (acc + one) + ledger + lost
    ensures queue + (acc + multiset{} + one) + ledger + lost ==
            (queue + one) + (acc + multiset{} + multiset{}) + ledger + lost
    ensures queue + (acc + rest + multiset{}) + ledger + lost ==
            queue + (acc + multiset{} + multiset{}) + ledger + (lost + rest)
  {
  }

  lemma ClaimBalances(c: Setup, s: Pool, i: nat)
    requires i < |s.workers| && Enabled(s, i, Claim)
    ensures Near(Step(c, s, i, Claim), i) == Near(s, i)
  {
    var w, t := s.workers[i], Step(c, s, i, Claim);
    var one := multiset{w.phase.job};
    Regroup(multiset(s.queue), multiset(w.acc), multiset{}, one, Accounted(s.ledger), s.lost);
    assert InHand(w) == multiset(w.acc) + multiset{} + one;
    if MayClaim(c.enabled, s.active, w.phase.job.domain) {
      FlushBalances(w.acc + [w.phase.job], false);
      assert InHand(t.workers[i]) == multiset(w.acc) + one;
    } else {
      assert InHand(t.workers[i]) == multiset(w.acc) + multiset{} + multiset{};
    }
  }

  lemma HeadAndRest(batch: seq<Job>, n: nat)
    requires n < |batch|
    ensures multiset(batch[n..]) == multiset{batch[n]} + multiset(batch[n + 1..])
  {
    assert batch[n..] == [batch[n]] + batch[n + 1..];
  }

  /** What accounting one job takes out of a worker's hands. */
  lemma AccountingHands(acc: seq<Job>, batch: seq<Job>, results: seq<Result>, n: nat, last: bool)
    requires n < |batch|
    ensures InHand(Worker(acc, Accounting(batch, results, n, last))) ==
            multiset(acc) + (multiset{batch[n]} + multiset(batch[n + 1..])) + multiset{}
    ensures InHand(Worker(acc, Accounting(batch, results, n + 1, last))) ==
            multiset(acc) + multiset(batch[n + 1..]) + multiset{}
  {
    HeadAndRest(batch, n);
  }

  lemma AccountBalances(c: Setup, s: Pool, i: nat)
    requires i < |s.workers| && Enabled(s, i, AccountOne)
    ensures Near(Step(c, s, i, AccountOne), i) == Near(s, i)
  {
    var w, p := s.workers[i], s.workers[i].phase;
    AccountingHands(w.acc, p.batch, p.results, p.n, p.last);
    AccountedGrows(s.ledger, p.batch[p.n], p.results[p.n]);
    Regroup(multiset(s.queue), multiset(w.acc), multiset(p.batch[p.n + 1..]), multiset{p.batch[p.n]},
            Accounted(s.ledger), s.lost);
    assert w == Worker(w.acc, Accounting(p.batch, p.results, p.n, p.last));
  }

  lemma RaiseBalances(c: Setup, s: Pool, i: nat)
    requires i < |s.workers| && Enabled(s, i, Raise)
    ensures Near(Step(c, s, i, Raise), i) == Near(s, i)
  {
    var w, t := s.workers[i], Step(c, s, i, Raise);
    assert InHand(w) == multiset(w.acc) + Unaccounted(w.phase) + multiset{};
    assert InHand(t.workers[i]) == multiset(w.acc) + multiset{} + multiset{};
    Regroup(multiset(s.queue), multiset(w.acc), Unaccounted(w.phase), multiset{}, Accounted(s.ledger), s.lost);
  }

  /** The steps that move jobs inside one worker only. */
  lemma QuietBalances(c: Setup, s: Pool, i: nat, a: Action)
    requires i < |s.workers| && Enabled(s, i, a) && Shaped(s.workers[i])
    requires a.Finish? || a.Wake? || a.Answer? || a.Release? || a.Exclude?
    ensures InHand(Step(c, s, i, a).workers[i]) == InHand(s.workers[i])
  {
    QuietWorker(c, s, i, a);
    HandsUnchanged(s.workers[i], a, Step(c, s, i, a).workers[i]);
  }

  /** What those steps make of a worker. */
  ghost predicate Becomes(w: Worker, a: Action, next: Worker) {
    match a
    case Finish(_) => w.phase.Idle? && next == StartFlush(w.acc, true)
    case Wake => w.phase.Napping? && next == StartFlush(w.acc, false)
    case Exclude(_) => next == w
    case Answer(results) =>
      && w.phase.Probing?
      && next == Worker(w.acc, Accounting(w.phase.batch, Padded(results, |w.phase.batch|), 0, w.phase.last))
    case Release =>
      && w.phase.Accounting? && w.phase.n == |w.phase.batch|
      && next.acc == w.acc && (next.phase.Failed? || next.phase.Returned? || next.phase.Idle?)
    case _ => false
  }

  lemma QuietWorker(c: Setup, s: Pool, i: nat, a: Action)
    requires i < |s.workers| && Enabled(s, i, a)
    requires a.Finish? || a.Wake? || a.Answer? || a.Release? || a.Exclude?
    ensures Becomes(s.workers[i], a, Step(c, s, i, a).workers[i])
  {
  }

  lemma EmptyHands(w: Worker)
    requires w.phase.Idle? || w.phase.Napping? || w.phase.Returned? || w.phase.Failed?
    ensures InHand(w) == multiset(w.acc)
  {
  }

  lemma HandsUnchanged(w: Worker, a: Action, next: Worker)
    requires Becomes(w, a, next)
    ensures InHand(next) == InHand(w)
  {
    match a {
      case Finish(_) =>
        EmptyHands(w);
        FlushBalances(w.acc, true);
      case Wake =>
        EmptyHands(w);
        FlushBalances(w.acc, false);
      case Answer(results) => EndsOfFlush(w.acc, w.phase.batch, Padded(results, |w.phase.batch|), w.phase.last);
      case Release =>
        EmptyHands(next);
        EndsOfFlush(w.acc, w.phase.batch, w.phase.results, w.phase.last);
      case _ =>
    }
  }

  /** A batch is wholly in hand when its results arrive, and not at all once they are accounted. */
  lemma EndsOfFlush(acc: seq<Job>, batch: seq<Job>, results: seq<Result>, last: bool)
    ensures InHand(Worker(acc, Accounting(batch, results, 0, last))) == InHand(Worker(acc, Probing(batch, last)))
    ensures InHand(Worker(acc, Accounting(batch, results, |batch|, last))) == multiset(acc)
  {
    assert batch[0..] == batch;
  }

  lemma StepBalances(c: Setup, s: Pool, i: nat, a: Action)
    requires i < |s.workers| && Enabled(s, i, a) && Shaped(s.workers[i])
    ensures Near(Step(c, s, i, a), i) == Near(s, i)
  {
    match a {
      case Take => TakeBalances(c, s, i);
      case Claim => ClaimBalances(c, s, i);
      case Raise => RaiseBalances(c, s, i);
      case AccountOne => AccountBalances(c, s, i);
      case _ => QuietBalances(c, s, i, a);
    }
  }

  lemma StepShapes(c: Setup, s: Pool, i: nat, a: Action)
    requires i < |s.workers| && Enabled(s, i, a) && AllShaped(s)
    ensures AllShaped(Step(c, s, i, a)) && |Step(c, s, i, a).workers| == |s.workers|
    ensures Step(c, s, i, a).workers == s.workers[i := Step(c, s, i, a).workers[i]]
  {
    var t := Step(c, s, i, a);
    assert Shaped(s.workers[i]);
    forall k | 0 <= k < |t.workers|
      ensures Shaped(t.workers[k])
    {
      assert Shaped(s.workers[k]);
    }
  }

  /** No step creates, drops or duplicates a job. */
  lemma StepConserves(c: Setup, s: Pool, i: nat, a: Action)
    requires i < |s.workers| && Enabled(s, i, a) && AllShaped(s)
    ensures AllShaped(Step(c, s, i, a)) && |Step(c, s, i, a).workers| == |s.workers|
    ensures Everything(Step(c, s, i, a)) == Everything(s)
  {
    assert Shaped(s.workers[i]);
    StepShapes(c, s, i, a);
    StepBalances(c, s, i, a);
    NearDecides(s, Step(c, s, i, a), i);
  }

  // ---------- isolation ----------

  /** A step that moves a worker's claims between accumulator and batch changes nothing about isolation. */
  lemma SameClaims(initial: set<Domain>, s: Pool, t: Pool, i: nat)
    requires Isolated(initial, s) && i < |s.workers| == |t.workers| && t.active == s.active
    requires forall k :: 0 <= k < |s.workers| && k != i ==> t.workers[k] == s.workers[k]
    requires Claimed(t.workers[i]) == Claimed(s.workers[i])
    ensures Isolated(initial, t)
  {
    assert forall k :: 0 <= k < |s.workers| ==> Claimed(t.workers[k]) == Claimed(s.workers[k]);
    forall k | 0 <= k < |t.workers|
      ensures ClaimsOk(initial, t, k)
    {
      assert ClaimsOk(initial, s, k);
    }
    forall k, l | 0 <= k < |t.workers| && 0 <= l < |t.workers|
      ensures Apart(t, k, l)
    {
      assert Apart(s, k, l);
    }
    forall d
      ensures Justified(initial, t, d)
    {
      assert Justified(initial, s, d);
      if d in s.active && d !in initial {
        var k :| 0 <= k < |s.workers| && d in ClaimedDomains(s, k);
        assert d in ClaimedDomains(t, k);
      }
    }
  }

  lemma ClaimIsolates(initial: set<Domain>, s: Pool, t: Pool, i: nat, job: Job)
    requires Isolated(initial, s) && i < |s.workers| == |t.workers|
    requires job.domain !in s.active && t.active == s.active + {job.domain}
    requires forall k :: 0 <= k < |s.workers| && k != i ==> t.workers[k] == s.workers[k]
    requires Claimed(t.workers[i]) == Claimed(s.workers[i]) + [job]
    ensures Isolated(initial, t)
  {
    var before := Claimed(s.workers[i]);
    assert ClaimsOk(initial, s, i);
    assert forall j :: j in before + [job] <==> j in before || j == job;
    assert ClaimedDomains(t, i) == ClaimedDomains(s, i) + {job.domain};
    assert forall k :: 0 <= k < |before| ==> before[k] in before;
    forall k | 0 <= k < |t.workers|
      ensures ClaimsOk(initial, t, k)
    {
      assert ClaimsOk(initial, s, k);
    }
    forall k, l | 0 <= k < |t.workers| && 0 <= l < |t.workers|
      ensures Apart(t, k, l)
    {
      assert ClaimsOk(initial, s, k) && ClaimsOk(initial, s, l) && Apart(s, k, l);
    }
    forall d
      ensures Justified(initial, t, d)
    {
      assert Justified(initial, s, d);
      if d == job.domain {
        assert d in ClaimedDomains(t, i);
      } else if d in s.active && d !in initial {
        var k :| 0 <= k < |s.workers| && d in ClaimedDomains(s, k);
        assert d in ClaimedDomains(t, k);
      }
    }
  }

  lemma ReleaseIsolates(initial: set<Domain>, s: Pool, t: Pool, i: nat)
    requires Isolated(initial, s) && i < |s.workers| == |t.workers|
    requires t.active == s.active - ClaimedDomains(s, i) && Claimed(t.workers[i]) == []
    requires forall k :: 0 <= k < |s.workers| && k != i ==> t.workers[k] == s.workers[k]
    ensures Isolated(initial, t)
  {
    assert ClaimsOk(initial, s, i);
    assert ClaimedDomains(t, i) == {};
    forall k | 0 <= k < |t.workers|
      ensures ClaimsOk(initial, t, k)
    {
      assert ClaimsOk(initial, s, k) && Apart(s, i, k);
    }
    forall k, l | 0 <= k < |t.workers| && 0 <= l < |t.workers|
      ensures Apart(t, k, l)
    {
      assert Apart(s, k, l);
    }
    forall d
      ensures Justified(initial, t, d)
    {
      assert Justified(initial, s, d);
      if d in t.active && d !in initial {
        var k :| 0 <= k < |s.workers| && d in ClaimedDomains(s, k);
        assert d in ClaimedDomains(t, k);
      }
    }
  }

  /** A step of worker `i` touches no other worker. */
  lemma OthersStay(c: Setup, s: Pool, i: nat, a: Action)
    requires i < |s.workers| && Enabled(s, i, a)
    ensures |Step(c, s, i, a).workers| == |s.workers|
    ensures forall k :: 0 <= k < |s.workers| && k != i ==> Step(c, s, i, a).workers[k] == s.workers[k]
  {
  }

  lemma StartFlushClaims(acc: seq<Job>, last: bool)
    ensures Claimed(StartFlush(acc, last)) == acc
  {
  }

  lemma ClaimStep(c: Setup, s: Pool, i: nat)
    requires c.enabled && i < |s.workers| && s.workers[i].phase.Holding?
    ensures var w, t := s.workers[i], Step(c, s, i, Claim);
      if w.phase.job.domain in s.active then t.active == s.active && Claimed(t.workers[i]) == Claimed(w)
      else t.active == s.active + {w.phase.job.domain} && Claimed(t.workers[i]) == Claimed(w) + [w.phase.job]
  {
    var w := s.workers[i];
    StartFlushClaims(w.acc + [w.phase.job], false);
    assert Claimed(w) == w.acc;
  }

  lemma ReleaseStep(c: Setup, s: Pool, i: nat, a: Action)
    requires c.enabled && i < |s.workers| && Enabled(s, i, a) && Shaped(s.workers[i]) && (a.Raise? || a.Release?)
    ensures Step(c, s, i, a).active == s.active - ClaimedDomains(s, i) && Claimed(Step(c, s, i, a).workers[i]) == []
  {
    var w := s.workers[i];
    assert Claimed(w) == w.phase.batch;
  }

  lemma QuietStep(c: Setup, s: Pool, i: nat, a: Action)
    requires i < |s.workers| && Enabled(s, i, a) && Shaped(s.workers[i]) && !a.Claim? && !a.Raise? && !a.Release?
    ensures Step(c, s, i, a).active == s.active && Claimed(Step(c, s, i, a).workers[i]) == Claimed(s.workers[i])
  {
    var w := s.workers[i];
    match a {
      case Finish(_) => StartFlushClaims(w.acc, true);
      case Wake => StartFlushClaims(w.acc, false);
      case _ =>
    }
  }

  /** Every step of every worker keeps the domains in flight apart, also when a batch raises. */
  lemma StepIsolates(c: Setup, initial: set<Domain>, s: Pool, i: nat, a: Action)
    requires c.enabled && i < |s.workers| && Enabled(s, i, a) && AllShaped(s) && Isolated(initial, s)
    ensures Isolated(initial, Step(c, s, i, a))
  {
    var t := Step(c, s, i, a);
    assert Shaped(s.workers[i]);
    OthersStay(c, s, i, a);
    if a.Claim? {
      ClaimStep(c, s, i);
      ClaimKeepsIsolation(initial, s, t, i);
    } else if a.Raise? || a.Release? {
      ReleaseStep(c, s, i, a);
      ReleaseIsolates(initial, s, t, i);
    } else {
      QuietStep(c, s, i, a);
      SameClaims(initial, s, t, i);
    }
  }

  lemma ClaimKeepsIsolation(initial: set<Domain>, s: Pool, t: Pool, i: nat)
    requires Isolated(initial, s) && i < |s.workers| == |t.workers| && s.workers[i].phase.Holding?
    requires forall k :: 0 <= k < |s.workers| && k != i ==> t.workers[k] == s.workers[k]
    requires var w := s.workers[i];
      if w.phase.job.domain in s.active then t.active == s.active && Claimed(t.workers[i]) == Claimed(w)
      else t.active == s.active + {w.phase.job.domain} && Claimed(t.workers[i]) == Claimed(w) + [w.phase.job]
    ensures Isolated(initial, t)
  {
    if s.workers[i].phase.job.domain in s.active {
      SameClaims(initial, s, t, i);
    } else {
      ClaimIsolates(initial, s, t, i, s.workers[i].phase.job);
    }
  }

  // ---------- whole runs ----------

  datatype Move = Move(worker: nat, action: Action)

  ghost predicate IsRun(c: Setup, states: seq<Pool>, moves: seq<Move>) {
    && |states| == |moves| + 1
    && forall k :: 0 <= k < |moves| ==> IsStep(c, states[k], moves[k], states[k + 1])
  }

  ghost predicate IsStep(c: Setup, s: Pool, m: Move, t: Pool) {
    m.worker < |s.workers| && Enabled(s, m.worker, m.action) && t == Step(c, s, m.worker, m.action)
  }

  /** The start: all jobs queued, every worker idle with nothing collected. */
  ghost predicate Start(s: Pool) {
    && s.ledger == [] && s.lost == multiset{} && s.workers != []
    && forall i :: 0 <= i < |s.workers| ==> s.workers[i] == Worker([], Idle)
  }

  lemma {:induction false} TotalOfNothing(hands: seq<multiset<Job>>)
    requires forall i :: 0 <= i < |hands| ==> hands[i] == multiset{}
    ensures Total(hands) == multiset{}
  {
    if hands != [] {
      TotalOfNothing(hands[..|hands| - 1]);
    }
  }

  lemma NothingInHand(workers: seq<Worker>)
    requires forall i :: 0 <= i < |workers| ==> InHand(workers[i]) == multiset{}
    ensures AllInHand(workers) == multiset{}
  {
    TotalOfNothing(Hands(workers));
  }

  lemma {:induction false} RunShapes(c: Setup, states: seq<Pool>, moves: seq<Move>, k: nat)
    requires IsRun(c, states, moves) && k <= |moves| && Start(states[0])
    ensures AllShaped(states[k])
  {
    if k > 0 {
      RunShapes(c, states, moves, k - 1);
      assert IsStep(c, states[k - 1], moves[k - 1], states[k]);
      StepShapes(c, states[k - 1], moves[k - 1].worker, moves[k - 1].action);
    }
  }

  /** In every state of every run each job is in exactly one place. */
  lemma {:induction false} RunConserves(c: Setup, states: seq<Pool>, moves: seq<Move>, k: nat)
    requires IsRun(c, states, moves) && k <= |moves| && Start(states[0])
    ensures Everything(states[k]) == multiset(states[0].queue)
    ensures AllShaped(states[k]) && |states[k].workers| == |states[0].workers|
  {
    if k == 0 {
      NothingInHand(states[0].workers);
    } else {
      RunConserves(c, states, moves, k - 1);
      assert IsStep(c, states[k - 1], moves[k - 1], states[k]);
      StepConserves(c, states[k - 1], moves[k - 1].worker, moves[k - 1].action);
    }
  }

  lemma MoveIsolates(c: Setup, initial: set<Domain>, states: seq<Pool>, moves: seq<Move>, k: nat)
    requires IsRun(c, states, moves) && k < |moves| && Start(states[0]) && c.enabled && Isolated(initial, states[k])
    ensures Isolated(initial, states[k + 1])
  {
    RunShapes(c, states, moves, k);
    assert IsStep(c, states[k], moves[k], states[k + 1]);
    StepIsolates(c, initial, states[k], moves[k].worker, moves[k].action);
  }

  lemma StartIsolates(s: Pool)
    requires Start(s)
    ensures Isolated(s.active, s)
  {
    forall i | 0 <= i < |s.workers|
      ensures ClaimedDomains(s, i) == {} && Claimed(s.workers[i]) == []
    {
    }
  }

  /** In every state of every run with isolation on, no two probes in flight or collected share a domain. */
  lemma {:induction false} RunIsolates(c: Setup, states: seq<Pool>, moves: seq<Move>, k: nat)
    requires IsRun(c, states, moves) && k <= |moves| && Start(states[0]) && c.enabled
    ensures Isolated(states[0].active, states[k])
  {
    if k == 0 {
      StartIsolates(states[0]);
    } else {
      RunIsolates(c, states, moves, k - 1);
      MoveIsolates(c, states[0].active, states, moves, k - 1);
    }
  }

  /** No stop, no exception, and never more results than jobs. */
  ghost predicate Undisturbed(s: Pool, m: Move)
    requires m.worker < |s.workers|
  {
    match m.action
    case Finish(stopped) => !stopped
    case Raise => false
    case Answer(results) => s.workers[m.worker].phase.Probing? ==> |results| <= |s.workers[m.worker].phase.batch|
    case _ => true
  }

  ghost predicate UndisturbedRun(c: Setup, states: seq<Pool>, moves: seq<Move>) {
    && IsRun(c, states, moves)
    && forall k :: 0 <= k < |moves| ==> moves[k].worker < |states[k].workers| && Undisturbed(states[k], moves[k])
  }

  /** No worker has failed, results fit their batches, and somebody will look at a queue that holds a job. */
  ghost predicate Attended(s: Pool) {
    && (forall i :: 0 <= i < |s.workers| ==> Unharmed(s.workers[i]))
    && (s.queue != [] ==> exists i :: 0 <= i < |s.workers| && StillPolling(s.workers[i]))
    && s.lost == multiset{}
  }

  ghost predicate Unharmed(w: Worker) {
    match w.phase
    case Failed => false
    case Accounting(batch, results, _, _) => |results| == |batch|
    case _ => true
  }

  lemma StepAttends(c: Setup, s: Pool, m: Move, t: Pool)
    requires IsStep(c, s, m, t) && AllShaped(s) && Attended(s) && Undisturbed(s, m)
    ensures Attended(t)
  {
    var i := m.worker;
    assert Unharmed(s.workers[i]) && Shaped(s.workers[i]);
    if t.queue != [] && !StillPolling(t.workers[i]) {
      var k :| 0 <= k < |s.workers| && StillPolling(s.workers[k]);
      assert t.workers[k] == s.workers[k];
    } else if t.queue != [] {
      assert StillPolling(t.workers[i]);
    }
    forall k | 0 <= k < |t.workers|
      ensures Unharmed(t.workers[k])
    {
      assert Unharmed(s.workers[k]);
    }
  }

  lemma {:induction false} RunAttends(c: Setup, states: seq<Pool>, moves: seq<Move>, k: nat)
    requires UndisturbedRun(c, states, moves) && k <= |moves| && Start(states[0])
    ensures Attended(states[k])
  {
    if k == 0 {
      assert StillPolling(states[0].workers[0]);
    } else {
      RunAttends(c, states, moves, k - 1);
      RunShapes(c, states, moves, k - 1);
      assert IsStep(c, states[k - 1], moves[k - 1], states[k]);
      StepAttends(c, states[k - 1], moves[k - 1], states[k]);
    }
  }

  ghost predicate AllReturned(s: Pool) {
    forall i :: 0 <= i < |s.workers| ==> s.workers[i].phase == Returned
  }

  /** When every worker of an undisturbed run has returned, every job has been accounted exactly once. */
  lemma EveryJobAccountedOnce(c: Setup, states: seq<Pool>, moves: seq<Move>, k: nat)
    requires UndisturbedRun(c, states, moves) && k <= |moves| && Start(states[0]) && AllReturned(states[k])
    ensures Accounted(states[k].ledger) == multiset(states[0].queue)
  {
    RunConserves(c, states, moves, k);
    RunAttends(c, states, moves, k);
    var s := states[k];
    forall i | 0 <= i < |s.workers|
      ensures InHand(s.workers[i]) == multiset{}
    {
      assert Shaped(s.workers[i]);
    }
    NothingInHand(s.workers);
    assert s.queue == [];
  }

  // ---------- pairing ----------

  /** Worker `i` is accounting `batch` with `results`, and has entered each pair so far in the ledger. */
  ghost predicate Pairing(s: Pool, i: nat, batch: seq<Job>, results: seq<Result>) {
    && i < |s.workers| && s.workers[i].phase.Accounting?
    && s.workers[i].phase.batch == batch && s.workers[i].phase.results == results
    && s.workers[i].phase.n <= |batch| && s.workers[i].phase.n <= |results|
    && forall j :: 0 <= j < s.workers[i].phase.n ==> (batch[j], results[j]) in s.ledger
  }

  ghost predicate EndsFlush(m: Move, i: nat) {
    m.worker == i && (m.action.Release? || m.action.Raise?)
  }

  lemma StepPairs(c: Setup, s: Pool, m: Move, t: Pool, i: nat, batch: seq<Job>, results: seq<Result>)
    requires IsStep(c, s, m, t) && Pairing(s, i, batch, results) && !EndsFlush(m, i)
    ensures Pairing(t, i, batch, results)
  {
    assert forall e :: e in s.ledger ==> e in t.ledger;
    if m.worker == i && m.action.AccountOne? {
      var n := s.workers[i].phase.n;
      assert t.ledger == s.ledger + [(batch[n], results[n])];
      assert t.ledger[|s.ledger|] == (batch[n], results[n]);
    } else if m.worker == i {
      assert m.action.Exclude?;
    } else {
      assert t.workers[i] == s.workers[i];
    }
  }

  /** Until its flush ends, a worker accounts the i-th result of its backend to the i-th job of its batch. */
  lemma {:induction false} ResultsArePaired(c: Setup, states: seq<Pool>, moves: seq<Move>, a: nat, z: nat, i: nat,
                                            answer: seq<Result>)
    requires IsRun(c, states, moves) && a < z <= |moves| && moves[a] == Move(i, Answer(answer))
    requires forall k :: a < k < z ==> !EndsFlush(moves[k], i)
    ensures i < |states[a].workers| && states[a].workers[i].phase.Probing?
    ensures var batch := states[a].workers[i].phase.batch; Pairing(states[z], i, batch, Padded(answer, |batch|))
  {
    assert IsStep(c, states[a], moves[a], states[a + 1]);
    if z > a + 1 {
      ResultsArePaired(c, states, moves, a, z - 1, i, answer);
      assert IsStep(c, states[z - 1], moves[z - 1], states[z - 1 + 1]);
      var batch := states[a].workers[i].phase.batch;
      StepPairs(c, states[z - 1], moves[z - 1], states[z], i, batch, Padded(answer, |batch|));
    }
  }

  /** So when the flush is released, every job of the batch stands in the ledger with its own result. */
  lemma ReleasedIsPaired(c: Setup, states: seq<Pool>, moves: seq<Move>, a: nat, z: nat, i: nat, answer: seq<Result>,
                         j: nat)
    requires IsRun(c, states, moves) && a < z < |moves| && moves[a] == Move(i, Answer(answer)) &&
             moves[z] == Move(i, Release)
    requires forall k :: a < k < z ==> !EndsFlush(moves[k], i)
    requires i < |states[a].workers| && states[a].workers[i].phase.Probing? && j < |states[a].workers[i].phase.batch|
    ensures var result := if j < |answer| then answer[j] else StoppedBeforeProbe;
      (states[a].workers[i].phase.batch[j], result) in states[z].ledger
  {
    ResultsArePaired(c, states, moves, a, z, i, answer);
    assert IsStep(c, states[z], moves[z], states[z + 1]);
  }

  // ---------- which jobs are probed ----------

  /** Worker `i` takes `job` from the queue into its hands, while its domain is not excluded. */
  ghost predicate TakesAllowed(s: Pool, m: Move, i: nat, job: Job) {
    m == Move(i, Take) && s.queue != [] && s.queue[0] == job && job.domain !in s.excluded
  }

  /** A worker takes `job` from the queue and enters it in the ledger at once, because its domain is excluded. */
  ghost predicate SkipsExcluded(s: Pool, m: Move, job: Job) {
    m.action == Take && s.queue != [] && s.queue[0] == job && job.domain in s.excluded
  }

  /** The jobs in the hands of a worker: the one just taken, then those it has claimed. */
  function Carried(w: Worker): seq<Job> {
    (if w.phase.Holding? then [w.phase.job] else []) + Claimed(w)
  }

  /** Only taking an allowed job puts a job in a worker's hands. */
  lemma StepCarries(c: Setup, s: Pool, m: Move, t: Pool, i: nat, job: Job)
    requires IsStep(c, s, m, t) && AllShaped(s) && i < |t.workers| && job in Carried(t.workers[i])
    ensures i < |s.workers| && (job in Carried(s.workers[i]) || TakesAllowed(s, m, i, job))
  {
    OthersStay(c, s, m.worker, m.action);
    if m.worker == i {
      assert Shaped(s.workers[i]);
      if m.action.Claim? {
        ClaimCarries(c, s, i);
      } else if !m.action.Raise? && !m.action.Release? {
        QuietStep(c, s, i, m.action);
      }
    }
  }

  /** A claim moves the job in hand to those claimed, or back to the queue. */
  lemma ClaimCarries(c: Setup, s: Pool, i: nat)
    requires i < |s.workers| && s.workers[i].phase.Holding?
    ensures forall job :: job in Carried(Step(c, s, i, Claim).workers[i]) ==> job in Carried(s.workers[i])
  {
    StartFlushClaims(s.workers[i].acc + [s.workers[i].phase.job], false);
  }

  /** Every job a worker carries it has taken earlier, when the domain of the job was not excluded. */
  lemma {:induction false} CarriedWereAllowed(c: Setup, states: seq<Pool>, moves: seq<Move>, k: nat, i: nat, job: Job)
    returns (a: nat)
    requires IsRun(c, states, moves) && k <= |moves| && Start(states[0])
    requires i < |states[k].workers| && job in Carried(states[k].workers[i])
    ensures a < k && TakesAllowed(states[a], moves[a], i, job)
  {
    a := 0;
    if k > 0 {
      RunShapes(c, states, moves, k - 1);
      assert IsStep(c, states[k - 1], moves[k - 1], states[k]);
      StepCarries(c, states[k - 1], moves[k - 1], states[k], i, job);
      if TakesAllowed(states[k - 1], moves[k - 1], i, job) {
        a := k - 1;
      } else {
        a := CarriedWereAllowed(c, states, moves, k - 1, i, job);
      }
    }
  }

  lemma {:induction false} ExclusionsGrow(c: Setup, states: seq<Pool>, moves: seq<Move>, a: nat, k: nat)
    requires IsRun(c, states, moves) && a <= k <= |moves|
    ensures states[a].excluded <= states[k].excluded
    ensures (forall x :: a <= x < k ==> !moves[x].action.Exclude?) ==> states[a].excluded == states[k].excluded
  {
    if a < k {
      ExclusionsGrow(c, states, moves, a, k - 1);
      assert IsStep(c, states[k - 1], moves[k - 1], states[k]);
    }
  }

  /** No worker ever holds, collects or probes a job on a domain that was excluded from the start. */
  lemma ExcludedNeverProbed(c: Setup, states: seq<Pool>, moves: seq<Move>, k: nat, i: nat)
    requires IsRun(c, states, moves) && k <= |moves| && Start(states[0]) && i < |states[k].workers|
    ensures DomainsOf(Carried(states[k].workers[i])) !! states[0].excluded
  {
    forall job | job in Carried(states[k].workers[i])
      ensures job.domain !in states[0].excluded
    {
      var a := CarriedWereAllowed(c, states, moves, k, i, job);
      ExclusionsGrow(c, states, moves, 0, a);
    }
  }

  /** At move `a` worker `i` gets the results `answer` for its batch. */
  ghost predicate Answered(states: seq<Pool>, moves: seq<Move>, a: nat, i: nat, batch: seq<Job>, answer: seq<Result>) {
    && a < |moves| && a < |states| && moves[a] == Move(i, Answer(answer))
    && i < |states[a].workers| && states[a].workers[i].phase.Probing? && states[a].workers[i].phase.batch == batch
  }

  /** What a worker accounts is the padded answer to its batch. */
  lemma {:induction false} AccountingWasAnswered(c: Setup, states: seq<Pool>, moves: seq<Move>, k: nat, i: nat)
    returns (a: nat, answer: seq<Result>)
    requires IsRun(c, states, moves) && k <= |moves| && Start(states[0])
    requires i < |states[k].workers| && states[k].workers[i].phase.Accounting?
    ensures a < k && Answered(states, moves, a, i, states[k].workers[i].phase.batch, answer)
    ensures states[k].workers[i].phase.results == Padded(answer, |states[k].workers[i].phase.batch|)
  {
    a, answer := 0, [];
    if k > 0 {
      var s, m := states[k - 1], moves[k - 1];
      assert IsStep(c, s, m, states[k]);
      OthersStay(c, s, m.worker, m.action);
      if m.worker == i && m.action.Answer? {
        a, answer := k - 1, m.action.results;
      } else {
        a, answer := AccountingWasAnswered(c, states, moves, k - 1, i);
      }
    }
  }

  /** The pair `e` is the n-th job of some worker's batch with the n-th result the backend gave, or with none given. */
  ghost predicate Probed(states: seq<Pool>, moves: seq<Move>, k: nat, e: (Job, Result)) {
    exists a: nat, i: nat, batch: seq<Job>, answer: seq<Result>, n: nat ::
      a < k && Answered(states, moves, a, i, batch, answer) && PairOf(batch, answer, n, e)
  }

  predicate PairOf(batch: seq<Job>, answer: seq<Result>, n: nat, e: (Job, Result)) {
    n < |batch| && e.0 == batch[n] && e.1 == if n < |answer| then answer[n] else StoppedBeforeProbe
  }

  ghost predicate Skipped(states: seq<Pool>, moves: seq<Move>, k: nat, e: (Job, Result)) {
    e.1 == StoppedBeforeProbe &&
    exists a: nat :: a < k && a < |moves| && a < |states| && SkipsExcluded(states[a], moves[a], e.0)
  }

  /** What one step adds to the ledger. */
  lemma StepEnters(c: Setup, states: seq<Pool>, moves: seq<Move>, k: nat, e: (Job, Result))
    requires IsRun(c, states, moves) && k < |moves| && Start(states[0])
    requires e in states[k + 1].ledger && e !in states[k].ledger
    ensures Probed(states, moves, k + 1, e) || Skipped(states, moves, k + 1, e)
  {
    var s, m := states[k], moves[k];
    assert IsStep(c, s, m, states[k + 1]);
    match m.action {
      case Take => assert SkipsExcluded(states[k], moves[k], e.0);
      case AccountOne =>
        var p := s.workers[m.worker].phase;
        var a, answer := AccountingWasAnswered(c, states, moves, k, m.worker);
        assert e == (p.batch[p.n], p.results[p.n]);
        assert PairOf(p.batch, answer, p.n, e);
      case _ =>
    }
  }

  /** Every entry of the ledger was probed in a batch, or skipped while its domain was excluded. */
  lemma {:induction false} EntriesAreEarned(c: Setup, states: seq<Pool>, moves: seq<Move>, k: nat, e: (Job, Result))
    requires IsRun(c, states, moves) && k <= |moves| && Start(states[0]) && e in states[k].ledger
    ensures Probed(states, moves, k, e) || Skipped(states, moves, k, e)
  {
    if k > 0 {
      if e in states[k - 1].ledger {
        EntriesAreEarned(c, states, moves, k - 1, e);
      } else {
        StepEnters(c, states, moves, k - 1, e);
      }
    }
  }

  lemma QueuedAtStart(c: Setup, states: seq<Pool>, moves: seq<Move>, k: nat, job: Job)
    requires IsRun(c, states, moves) && k <= |moves| && Start(states[0]) && job in states[k].queue
    ensures job in states[0].queue
  {
    RunConserves(c, states, moves, k);
    assert job in multiset(states[k].queue) && job in Everything(states[k]);
  }

  lemma NothingSkipped(c: Setup, states: seq<Pool>, moves: seq<Move>, k: nat, e: (Job, Result))
    requires IsRun(c, states, moves) && k <= |moves| && Start(states[0])
    requires forall x :: 0 <= x < |moves| ==> !moves[x].action.Exclude?
    requires forall job :: job in states[0].queue ==> job.domain !in states[0].excluded
    ensures !Skipped(states, moves, k, e)
  {
    forall a: nat | a < k
      ensures !SkipsExcluded(states[a], moves[a], e.0)
    {
      ExclusionsGrow(c, states, moves, 0, a);
      if e.0 in states[a].queue {
        QueuedAtStart(c, states, moves, a, e.0);
      }
    }
  }

  /**
   When every worker of an undisturbed run without new exclusions has returned, and no job was on an excluded domain,
   every job has been probed: it stands once in the ledger, with its own result from the answer to its batch.
   */
  lemma EveryJobProbedOnce(c: Setup, states: seq<Pool>, moves: seq<Move>, k: nat)
    requires UndisturbedRun(c, states, moves) && k <= |moves| && Start(states[0]) && AllReturned(states[k])
    requires forall x :: 0 <= x < |moves| ==> !moves[x].action.Exclude?
    requires forall job :: job in states[0].queue ==> job.domain !in states[0].excluded
    ensures Accounted(states[k].ledger) == multiset(states[0].queue)
    ensures forall e :: e in states[k].ledger ==> Probed(states, moves, k, e)
  {
    EveryJobAccountedOnce(c, states, moves, k);
    forall e | e in states[k].ledger
      ensures Probed(states, moves, k, e)
    {
      EntriesAreEarned(c, states, moves, k, e);
      NothingSkipped(c, states, moves, k, e);
    }
  }

  // ---------- batch sizes ----------

  /** The most jobs a batch can hold. */
  function Capacity(c: Setup): nat {
    if c.batchSize < 1 then 1 else c.batchSize
  }

  /** A worker collects fewer jobs than a full batch, and probes between one job and a full batch. */
  ghost predicate Sized(c: Setup, w: Worker) {
    && |w.acc| < Capacity(c)
    && (w.phase.Probing? ==> 1 <= |w.phase.batch| <= Capacity(c))
    && (w.phase.Accounting? ==> 1 <= |w.phase.batch| <= Capacity(c))
  }

  /** What a flush waits for: a full batch, a domain that another worker holds, or the end. */
  lemma StepSizes(c: Setup, s: Pool, i: nat, a: Action)
    requires i < |s.workers| && Enabled(s, i, a) && Shaped(s.workers[i]) && Sized(c, s.workers[i])
    ensures var t := Step(c, s, i, a).workers[i];
      && Sized(c, t)
      && (t.phase.Probing? && !s.workers[i].phase.Probing? ==>
            (a.Claim? && |t.phase.batch| == Capacity(c)) || a.Wake? || (a.Finish? && t.phase.last))
  {
  }

  /** In every run no batch is larger than the batch size, and none is empty. */
  lemma {:induction false} RunSizes(c: Setup, states: seq<Pool>, moves: seq<Move>, k: nat, i: nat)
    requires IsRun(c, states, moves) && k <= |moves| && Start(states[0]) && i < |states[k].workers|
    ensures Sized(c, states[k].workers[i])
  {
    if k > 0 {
      var s, m := states[k - 1], moves[k - 1];
      assert IsStep(c, s, m, states[k]);
      OthersStay(c, s, m.worker, m.action);
      RunSizes(c, states, moves, k - 1, i);
      RunShapes(c, states, moves, k - 1);
      assert Shaped(s.workers[i]);
      if m.worker == i {
        StepSizes(c, s, i, m.action);
      }
    }
  }

  ghost predicate AllGone(s: Pool) {
    forall i :: 0 <= i < |s.workers| ==> s.workers[i].phase == Returned || s.workers[i].phase == Failed
  }

  /** When all workers are gone, returned or failed, no domain stays claimed. */
  lemma NoClaimLeaks(c: Setup, states: seq<Pool>, moves: seq<Move>, k: nat)
    requires IsRun(c, states, moves) && k <= |moves| && Start(states[0]) && c.enabled && AllGone(states[k])
    ensures states[k].active == states[0].active
  {
    RunShapes(c, states, moves, k);
    RunIsolates(c, states, moves, k);
    var s := states[k];
    forall d | d in s.active
      ensures d in states[0].active
    {
      assert Justified(states[0].active, s, d);
      assert forall i :: 0 <= i < |s.workers| ==> Shaped(s.workers[i]) && Claimed(s.workers[i]) == [];
    }
  }
}
