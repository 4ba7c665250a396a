/**
 Any number of workers on one adaptive queue, as atomic steps in any order: a worker pops a job, marks a job it
 popped, or reports a probe result to the quarantine. No lock body awaits, so each step is indivisible.
 */
module QueueInterleaving {
  import opened Wrappers
  import opened Genetics
  import opened QueueSpec
  import opened Quarantine

  datatype System = System(view: View, tracker: State, inFlight: multiset<Job>)

  datatype Action =
    | Pop(soft: set<Domain>, result: Option<Job>)
    | Mark(job: Job, passed: bool)
    | Hit(ev: Event)

  ghost predicate Next(c: Config, s: System, a: Action, t: System) {
    match a
    case Pop(soft, result) =>
      && Popped(s.view, soft, t.view, result)
      && t.tracker == s.tracker
      && t.inFlight == (if result.Some? then s.inFlight + multiset{result.value} else s.inFlight)
    case Mark(job, passed) =>
      && job in s.inFlight
      && t == System(MarkDone(s.view, job, passed), s.tracker, s.inFlight - multiset{job})
    case Hit(ev) =>
      var (tracker, newly) := RecordProbe(c, s.tracker, ev);
      t == s.(tracker := tracker,
              view := if newly.Some? then s.view.(excluded := s.view.excluded + {newly.value}) else s.view)
  }

  ghost predicate Inv(s: System) {
    WellFormed(s.view) && s.tracker.quarantined.Keys <= s.view.excluded
  }

  /** A run: `actions[i]` leads from `states[i]` to the next state. */
  ghost predicate IsRun(c: Config, states: seq<System>, actions: seq<Action>) {
    && |states| == |actions| + 1 && Inv(states[0])
    && forall i :: 0 <= i < |actions| ==> Next(c, states[i], actions[i], states[i + 1])
  }

  /** What one step never undoes, and what it may add. */
  ghost predicate Grows(s: System, a: Action, t: System) {
    && s.view.excluded <= t.view.excluded && s.view.done <= t.view.done && t.view.domains == s.view.domains
    && s.tracker.quarantined.Keys <= t.tracker.quarantined.Keys
    && (forall k :: k in t.view.pending && k !in s.view.pending ==>
          && k.domain !in s.view.excluded && k !in s.view.done
          && a.Mark? && a.passed && k.tag == a.job.item.tag && k.domain != a.job.domain &&
              k.domain.cluster == a.job.domain.cluster)
    && (a.Pop? && a.result.Some? ==>
          && a.result.value.JobKey() in s.view.pending && a.result.value.domain !in s.view.excluded
          && a.result.value.JobKey() !in s.view.done && a.result.value.JobKey() !in t.view.pending)
  }

  lemma StepKeeps(c: Config, s: System, a: Action, t: System)
    requires Inv(s) && Next(c, s, a, t)
    ensures Inv(t) && Grows(s, a, t)
  {
    match a
    case Pop(soft, result) =>
      forall k
        ensures Waits(t.view, k)
      {
        assert Waits(s.view, k);
      }
      if result.Some? {
        assert Waits(s.view, result.value.JobKey());
      }
    case Mark(job, passed) =>
      MarkDoneMeans(s.view, job, passed);
      forall k | k in t.view.pending && k !in s.view.pending
        ensures k.domain != job.domain
      {
        assert k.domain == job.domain ==> k == job.JobKey();
      }
    case Hit(ev) =>
      forall k
        ensures Waits(t.view, k)
      {
        assert Waits(s.view, k);
      }
  }

  lemma {:induction false} RunKeeps(c: Config, states: seq<System>, actions: seq<Action>, i: nat, j: nat)
    requires IsRun(c, states, actions) && i <= j <= |actions|
    ensures Inv(states[j])
    ensures states[i].view.excluded <= states[j].view.excluded && states[i].view.done <= states[j].view.done
    decreases j
  {
    if j > 0 {
      if i < j {
        RunKeeps(c, states, actions, i, j - 1);
      } else {
        RunKeeps(c, states, actions, j - 1, j - 1);
      }
      StepKeeps(c, states[j - 1], actions[j - 1], states[j]);
    }
  }

  /**
   Quarantine is final for every worker: once the tracker has reported a domain, no later pop returns a job on it
   and no fan-out puts one on it.
   */
  lemma QuarantineIsFinalForAll(c: Config, states: seq<System>, actions: seq<Action>, i: nat, j: nat, d: Domain)
    requires IsRun(c, states, actions) && i <= j < |actions| && d in states[i].tracker.quarantined
    ensures d in states[j].view.excluded
    ensures actions[j].Pop? && actions[j].result.Some? ==> actions[j].result.value.domain != d
    ensures forall k :: k in states[j + 1].view.pending && k.domain == d ==> k in states[j].view.pending
  {
    RunKeeps(c, states, actions, i, i);
    RunKeeps(c, states, actions, i, j);
    StepKeeps(c, states[j], actions[j], states[j + 1]);
  }

  /** A finished key never waits again and is never handed out again, by any worker. */
  lemma DoneIsFinal(c: Config, states: seq<System>, actions: seq<Action>, i: nat, j: nat, k: Key)
    requires IsRun(c, states, actions) && i <= j < |actions| && k in states[i].view.done
    ensures k in states[j].view.done && k !in states[j].view.pending
    ensures actions[j].Pop? && actions[j].result.Some? ==> actions[j].result.value.JobKey() != k
  {
    RunKeeps(c, states, actions, i, j);
    StepKeeps(c, states[j], actions[j], states[j + 1]);
    assert Waits(states[j].view, k);
  }

  ghost predicate HandsOut(a: Action, k: Key) {
    a.Pop? && a.result.Some? && a.result.value.JobKey() == k
  }

  /** A PASS of the same strategy on another domain of the cluster. */
  ghost predicate SiblingPass(a: Action, k: Key) {
    a.Mark? && a.passed && a.job.item.tag == k.tag && a.job.domain != k.domain &&
        a.job.domain.cluster == k.domain.cluster
  }

  /** The PASS of a sibling that finds `k` neither waiting nor finished, on an allowed domain of the campaign. */
  ghost predicate Revives(s: System, a: Action, k: Key) {
    && SiblingPass(a, k) && k !in s.view.pending && k !in s.view.done
    && k.domain in s.view.domains && k.domain !in s.view.excluded
  }

  /** A key that does not wait starts waiting in exactly the steps that revive it, and may be handed out at once. */
  lemma WaitsAgainExactly(c: Config, s: System, a: Action, t: System, k: Key)
    requires Inv(s) && Next(c, s, a, t) && k !in s.view.pending
    ensures k in t.view.pending <==> Revives(s, a, k)
    ensures k in t.view.pending ==> Eligible(t.view, k)
  {
    StepKeeps(c, s, a, t);
    if a.Mark? {
      MarkDoneMeans(s.view, a.job, a.passed);
      assert SiblingPass(a, k) ==> Key(a.job.item.tag, k.domain) == k && k != a.job.JobKey();
    }
  }

  /** The rules of a pop, apart from priorities, leave open which eligible key is next. */
  lemma MayBeHandedOut(c: Config, s: System, soft: set<Domain>, k: Key) returns (t: System)
    requires Inv(s) && Eligible(s.view, k)
    requires k.domain in soft ==> forall x :: Eligible(s.view, x) ==> x.domain in soft
    ensures Next(c, s, Pop(soft, Some(s.view.pending[k])), t) && HandsOut(Pop(soft, Some(s.view.pending[k])), k)
    ensures Inv(t) && t.view == Drop(s.view, k) && t.inFlight == s.inFlight + multiset{s.view.pending[k]}
  {
    assert Waits(s.view, k);
    t := System(Drop(s.view, k), s.tracker, s.inFlight + multiset{s.view.pending[k]});
    assert s.view.pending - (s.view.done - s.view.done) == s.view.pending;
    ServedEagerly(s.view, s.view, soft, k);
    StepKeeps(c, s, Pop(soft, Some(s.view.pending[k])), t);
  }

  /** Between two times at which a key does not wait and then waits, a step revived it. */
  lemma {:induction false} ReturnNeedsPass(c: Config, states: seq<System>, actions: seq<Action>, i: nat, j: nat, k: Key)
    returns (m: nat)
    requires IsRun(c, states, actions) && i <= j <= |actions|
    requires k !in states[i].view.pending && k in states[j].view.pending
    ensures i <= m < j && Revives(states[m], actions[m], k)
    decreases j
  {
    RunKeeps(c, states, actions, i, j - 1);
    if k in states[j - 1].view.pending {
      m := ReturnNeedsPass(c, states, actions, i, j - 1, k);
    } else {
      WaitsAgainExactly(c, states[j - 1], actions[j - 1], states[j], k);
      m := j - 1;
    }
  }

  /** A step after step `i` and before step `j` revived `k`. */
  ghost predicate RevivedBetween(states: seq<System>, actions: seq<Action>, i: nat, j: nat, k: Key)
    requires |states| == |actions| + 1 && j <= |actions|
  {
    exists m :: i < m < j && Revives(states[m], actions[m], k)
  }

  /**
   A key is handed out a second time only if, while it was out and unfinished, the same strategy passed on a sibling
   domain. With one batch at a time that does not happen; with several workers it can.
   */
  lemma SecondHandoutNeedsPass(c: Config, states: seq<System>, actions: seq<Action>, i: nat, j: nat, k: Key)
    requires IsRun(c, states, actions) && i < j < |actions| && HandsOut(actions[i], k) && HandsOut(actions[j], k)
    ensures RevivedBetween(states, actions, i, j, k)
  {
    RunKeeps(c, states, actions, i, i);
    RunKeeps(c, states, actions, i, j);
    StepKeeps(c, states[i], actions[i], states[i + 1]);
    StepKeeps(c, states[j], actions[j], states[j + 1]);
    var m := ReturnNeedsPass(c, states, actions, i + 1, j, k);
  }

  // ---------- whatever order the pops choose ----------

  ghost predicate OnlyPops(actions: seq<Action>) {
    forall n :: 0 <= n < |actions| ==> actions[n].Pop?
  }

  ghost predicate HandedOutIn(actions: seq<Action>, k: Key) {
    exists n :: 0 <= n < |actions| && HandsOut(actions[n], k)
  }

  ghost function EligibleKeys(v: View): set<Key> {
    set k | k in v.pending && k.domain !in v.excluded
  }

  /** `k` comes out after at most as many pops as there are eligible keys, whichever jobs the pops choose. */
  ghost predicate MustComeOut(c: Config, s: System, k: Key) {
    forall states, pops ::
      IsRun(c, states, pops) && states[0] == s && OnlyPops(pops) && |pops| == |EligibleKeys(s.view)| ==>
      HandedOutIn(pops, k)
  }

  /** A pop takes one eligible key while there is one, and no other. */
  lemma PopTakesOne(c: Config, s: System, a: Action, t: System)
    requires Inv(s) && Next(c, s, a, t) && a.Pop?
    ensures a.result.None? ==> EligibleKeys(s.view) == {} == EligibleKeys(t.view)
    ensures a.result.Some? ==>
              a.result.value.JobKey() in EligibleKeys(s.view)
              && EligibleKeys(t.view) == EligibleKeys(s.view) - {a.result.value.JobKey()}
  {
    assert forall k :: k in EligibleKeys(s.view) <==> Eligible(s.view, k);
  }

  lemma {:induction false} PopsReach(c: Config, states: seq<System>, pops: seq<Action>, k: Key)
    requires IsRun(c, states, pops) && OnlyPops(pops)
    requires k in EligibleKeys(states[0].view) && |pops| >= |EligibleKeys(states[0].view)|
    ensures HandedOutIn(pops, k)
    decreases |pops|
  {
    PopTakesOne(c, states[0], pops[0], states[1]);
    if HandsOut(pops[0], k) {
    } else {
      StepKeeps(c, states[0], pops[0], states[1]);
      TailIsRun(c, states, pops);
      PopsReach(c, states[1..], pops[1..], k);
      var n :| 0 <= n < |pops[1..]| && HandsOut(pops[1..][n], k);
      assert HandsOut(pops[n + 1], k);
    }
  }

  lemma TailIsRun(c: Config, states: seq<System>, actions: seq<Action>)
    requires IsRun(c, states, actions) && actions != [] && Inv(states[1])
    ensures IsRun(c, states[1..], actions[1..])
  {
    forall n | 0 <= n < |actions[1..]|
      ensures Next(c, states[1..][n], actions[1..][n], states[1..][n + 1])
    {
      assert Next(c, states[n + 1], actions[n + 1], states[n + 1 + 1]);
    }
  }

  /** Any number of pops can follow; when nothing is eligible they give nothing. */
  lemma {:induction false} PopsCanFollow(c: Config, s: System, n: nat) returns (states: seq<System>, pops: seq<Action>)
    requires Inv(s)
    ensures IsRun(c, states, pops) && states[0] == s && OnlyPops(pops) && |pops| == n
    decreases n
  {
    if n == 0 {
      return [s], [];
    }
    var t, a := s, Pop({}, None);
    if k :| Eligible(s.view, k) {
      t := MayBeHandedOut(c, s, {}, k);
      a := Pop({}, Some(s.view.pending[k]));
    } else {
      assert s.view.pending == s.view.pending - (s.view.done - s.view.done);
      assert Next(c, s, a, t);
    }
    var more, rest := PopsCanFollow(c, t, n - 1);
    states, pops := [s] + more, [a] + rest;
    forall i | 0 <= i < |pops|
      ensures Next(c, states[i], pops[i], states[i + 1])
    {
      assert i > 0 ==> Next(c, more[i - 1], rest[i - 1], more[i - 1 + 1]);
    }
  }

  lemma {:induction false} PopsAddNothing(c: Config, states: seq<System>, pops: seq<Action>, n: nat)
    requires IsRun(c, states, pops) && OnlyPops(pops) && n <= |pops|
    ensures EligibleKeys(states[n].view) <= EligibleKeys(states[0].view)
  {
    if n > 0 {
      PopsAddNothing(c, states, pops, n - 1);
      RunKeeps(c, states, pops, n - 1, n - 1);
      PopTakesOne(c, states[n - 1], pops[n - 1], states[n - 1 + 1]);
    }
  }

  /** Exactly the eligible keys must come out. */
  lemma EligibleMustComeOut(c: Config, s: System, k: Key)
    requires Inv(s)
    ensures MustComeOut(c, s, k) <==> Eligible(s.view, k)
  {
    if Eligible(s.view, k) {
      forall states, pops |
        IsRun(c, states, pops) && states[0] == s && OnlyPops(pops) && |pops| == |EligibleKeys(s.view)|
        ensures HandedOutIn(pops, k)
      {
        PopsReach(c, states, pops, k);
      }
    }
    if MustComeOut(c, s, k) {
      var states, pops := PopsCanFollow(c, s, |EligibleKeys(s.view)|);
      var n :| 0 <= n < |pops| && HandsOut(pops[n], k);
      PopsAddNothing(c, states, pops, n);
      RunKeeps(c, states, pops, n, n);
      PopTakesOne(c, states[n], pops[n], states[n + 1]);
    }
  }

  /** At some time after step `i` the key `k` was bound to be handed out, if only pops were to follow. */
  ghost predicate MustRepeat(c: Config, states: seq<System>, actions: seq<Action>, i: nat, k: Key)
    requires |states| == |actions| + 1
  {
    exists j :: i < j <= |actions| && MustComeOut(c, states[j], k)
  }

  /** A key that was handed out is bound to be handed out again exactly when a sibling's PASS revives it. */
  lemma RepeatsExactlyWhenRevived(c: Config, states: seq<System>, actions: seq<Action>, i: nat, k: Key)
    requires IsRun(c, states, actions) && i < |actions| && HandsOut(actions[i], k)
    ensures MustRepeat(c, states, actions, i, k) <==> RevivedBetween(states, actions, i, |actions|, k)
  {
    if RevivedBetween(states, actions, i, |actions|, k) {
      var m :| i < m < |actions| && Revives(states[m], actions[m], k);
      RunKeeps(c, states, actions, m, m);
      RunKeeps(c, states, actions, m, m + 1);
      WaitsAgainExactly(c, states[m], actions[m], states[m + 1], k);
      EligibleMustComeOut(c, states[m + 1], k);
    }
    if MustRepeat(c, states, actions, i, k) {
      var j :| i < j <= |actions| && MustComeOut(c, states[j], k);
      RunKeeps(c, states, actions, i, i);
      RunKeeps(c, states, actions, i, j);
      EligibleMustComeOut(c, states[j], k);
      StepKeeps(c, states[i], actions[i], states[i + 1]);
      var m := ReturnNeedsPass(c, states, actions, i + 1, j, k);
    }
  }

  /** And such a PASS can come: whenever a sibling that passes is out while `k` is, `k` must come out again. */
  lemma SiblingOutMayRepeat(c: Config, s: System, job: Job, k: Key) returns (t: System)
    requires Inv(s) && job in s.inFlight && Revives(s, Mark(job, true), k)
    ensures Next(c, s, Mark(job, true), t) && Inv(t) && Eligible(t.view, k) && MustComeOut(c, t, k)
  {
    t := System(MarkDone(s.view, job, true), s.tracker, s.inFlight - multiset{job});
    StepKeeps(c, s, Mark(job, true), t);
    WaitsAgainExactly(c, s, Mark(job, true), t, k);
    EligibleMustComeOut(c, t, k);
  }

  /** Two workers take the same strategy on two domains of one cluster. */
  lemma BothOut(c: Config, item: Item, d1: Domain, d2: Domain) returns (s0: System, s1: System, s2: System)
    requires d1 != d2 && d1.cluster == d2.cluster
    ensures Inv(s0) && Next(c, s0, Pop({}, Some(Job(item, d1, false))), s1)
    ensures Next(c, s1, Pop({d1}, Some(Job(item, d2, false))), s2) && Inv(s2)
    ensures Job(item, d1, false) in s2.inFlight && Revives(s2, Mark(Job(item, d1, false), true), Key(item.tag, d2))
  {
    var k1, k2 := Key(item.tag, d1), Key(item.tag, d2);
    var j1, j2 := Job(item, d1, false), Job(item, d2, false);
    s0 := System(View(map[k1 := j1, k2 := j2], {}, {}, [d1, d2]), EMPTY, multiset{});
    s1 := MayBeHandedOut(c, s0, {}, k1);
    s2 := MayBeHandedOut(c, s1, {d1}, k2);
  }

  /** It does happen: two workers, any strategy, any two domains of one cluster. */
  lemma SecondHandoutHappens(c: Config, item: Item, d1: Domain, d2: Domain)
    returns (states: seq<System>, actions: seq<Action>)
    requires d1 != d2 && d1.cluster == d2.cluster
    ensures IsRun(c, states, actions) && |actions| == 4
    ensures HandsOut(actions[1], Key(item.tag, d2)) && HandsOut(actions[3], Key(item.tag, d2))
  {
    var j1, j2 := Job(item, d1, false), Job(item, d2, false);
    var s0, s1, s2 := BothOut(c, item, d1, d2);
    var s3 := SiblingOutMayRepeat(c, s2, j1, Key(item.tag, d2));
    var s4 := MayBeHandedOut(c, s3, {}, Key(item.tag, d2));
    var again := Pop({}, Some(s3.view.pending[Key(item.tag, d2)]));
    states, actions := [s0, s1, s2, s3, s4], [Pop({}, Some(j1)), Pop({d1}, Some(j2)), Mark(j1, true), again];
    FourSteps(c, s0, actions[0], s1, actions[1], s2, actions[2], s3, again, s4);
  }

  lemma FourSteps(c: Config, s0: System, a0: Action, s1: System, a1: Action, s2: System, a2: Action, s3: System,
                  a3: Action, s4: System)
    requires Inv(s0) && Next(c, s0, a0, s1) && Next(c, s1, a1, s2) && Next(c, s2, a2, s3) && Next(c, s3, a3, s4)
    ensures IsRun(c, [s0, s1, s2, s3, s4], [a0, a1, a2, a3])
  {
    var states, actions := [s0, s1, s2, s3, s4], [a0, a1, a2, a3];
    forall k | 0 <= k < |actions|
      ensures Next(c, states[k], actions[k], states[k + 1])
    {
      assert k == 0 || k == 1 || k == 2 || k == 3;
    }
  }
}
