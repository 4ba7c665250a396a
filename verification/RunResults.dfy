/**
 What the results of a run add up to: the counters of the runner, what the tracker hears, and the weights that the
 PASSes leave behind.
 */
module RunResults {
  import opened Wrappers
  import opened Genetics
  import opened Quarantine

  /** The backend skips a job (stopped before its probe) or runs it. */
  datatype Outcome = Skipped | Ran(passed: bool, kind: FailKind)

  datatype RunStats = RunStats(done: nat, skipped: nat, passed: nat)

  function Tally(s: RunStats, o: Outcome): RunStats {
    match o
    case Skipped => RunStats(s.done + 1, s.skipped + 1, s.passed)
    case Ran(passed, _) => RunStats(s.done + 1, s.skipped, s.passed + if passed then 1 else 0)
  }

  /** Which of the first `n` jobs passed. */
  function PassedAt(outcome: nat -> Outcome, n: nat): set<nat> {
    set i: nat | i < n && outcome(i).Ran? && outcome(i).passed
  }

  function SkippedAt(outcome: nat -> Outcome, n: nat): set<nat> {
    set i: nat | i < n && outcome(i) == Skipped
  }

  /** The counters of a run that accounted its first `n` jobs. */
  function StatsAfter(outcome: nat -> Outcome, n: nat): RunStats {
    if n == 0 then RunStats(0, 0, 0) else Tally(StatsAfter(outcome, n - 1), outcome(n - 1))
  }

  /** Counting results one by one counts those that passed and those that were skipped. */
  lemma {:induction false} TallyCounts(outcome: nat -> Outcome, n: nat)
    ensures StatsAfter(outcome, n) == RunStats(n, |SkippedAt(outcome, n)|, |PassedAt(outcome, n)|)
  {
    if n == 0 {
      assert SkippedAt(outcome, 0) == {} == PassedAt(outcome, 0);
    } else {
      TallyCounts(outcome, n - 1);
      PassedNext(outcome, n - 1);
      SkippedNext(outcome, n - 1);
    }
  }

  lemma PassedNext(outcome: nat -> Outcome, n: nat)
    ensures |PassedAt(outcome, n + 1)| == |PassedAt(outcome, n)| +
                                          if outcome(n).Ran? && outcome(n).passed then 1 else 0
  {
    if outcome(n).Ran? && outcome(n).passed {
      assert PassedAt(outcome, n + 1) == PassedAt(outcome, n) + {n};
    } else {
      assert PassedAt(outcome, n + 1) == PassedAt(outcome, n);
    }
  }

  lemma SkippedNext(outcome: nat -> Outcome, n: nat)
    ensures |SkippedAt(outcome, n + 1)| == |SkippedAt(outcome, n)| + if outcome(n) == Skipped then 1 else 0
  {
    if outcome(n) == Skipped {
      assert SkippedAt(outcome, n + 1) == SkippedAt(outcome, n) + {n};
    } else {
      assert SkippedAt(outcome, n + 1) == SkippedAt(outcome, n);
    }
  }

  // ---------- what the tracker hears ----------

  /** What the tracker learns from one result: a skipped job is not reported to it. */
  function EventsOf(domain: Domain, o: Outcome): seq<Event> {
    match o
    case Skipped => []
    case Ran(passed, kind) => [Event(domain, passed, None, kind)]
  }

  /** The results of a run in order, as the tracker sees them. */
  function Results(handed: seq<Key>, outcome: nat -> Outcome): seq<Event> {
    if handed == [] then []
    else
      var n := |handed| - 1;
      Results(handed[..n], outcome) + EventsOf(handed[n].domain, outcome(n))
  }

  lemma ResultsGrow(handed: seq<Key>, k: Key, outcome: nat -> Outcome)
    ensures Results(handed + [k], outcome) == Results(handed, outcome) + EventsOf(k.domain, outcome(|handed|))
  {
    assert (handed + [k])[..|handed|] == handed;
  }

  // ---------- what the PASSes do to the weights ----------

  /** The table after one result of a job with the label `tag`. */
  function AfterResult(t: Table, items: seq<Item>, tag: string, o: Outcome): Table {
    match o
    case Skipped => t
    case Ran(false, _) => t
    case Ran(true, _) => match ItemFor(items, tag) case None => t case Some(item) => Boost(t, item)
  }

  /** The table `t` boosted once, in order, for each of the jobs handed out that passed. */
  function BoostedBy(t: Table, items: seq<Item>, handed: seq<Key>, outcome: nat -> Outcome): Table {
    if handed == [] then t
    else
      var n := |handed| - 1;
      AfterResult(BoostedBy(t, items, handed[..n], outcome), items, handed[n].tag, outcome(n))
  }

  lemma BoostedNext(t: Table, items: seq<Item>, handed: seq<Key>, k: Key, outcome: nat -> Outcome)
    ensures BoostedBy(t, items, handed + [k], outcome) ==
            AfterResult(BoostedBy(t, items, handed, outcome), items, k.tag, outcome(|handed|))
  {
    assert (handed + [k])[..|handed|] == handed;
  }

  /** Without a PASS the weights stay as they are. */
  lemma {:induction false} NoPassNoBoost(t: Table, items: seq<Item>, handed: seq<Key>, outcome: nat -> Outcome)
    requires PassedAt(outcome, |handed|) == {}
    ensures BoostedBy(t, items, handed, outcome) == t
  {
    if handed != [] {
      var n := |handed| - 1;
      assert n !in PassedAt(outcome, |handed|);
      assert PassedAt(outcome, n) <= PassedAt(outcome, |handed|);
      NoPassNoBoost(t, items, handed[..n], outcome);
    }
  }

  /** The jobs handed out that passed, of strategies of the family `f`. */
  function FamilyPasses(items: seq<Item>, handed: seq<Key>, outcome: nat -> Outcome, f: string): set<nat> {
    set i: nat | i < |handed| && i in PassedAt(outcome, |handed|) && OfFamily(items, handed[i].tag, f)
  }

  predicate OfFamily(items: seq<Item>, tag: string, f: string) {
    exists i :: 0 <= i < |items| && items[i].tag == tag && items[i].family == f &&
      forall j :: 0 <= j < i ==> items[j].tag != tag
  }

  /** A weight after `n` steps of 1, none of which leads above the cap. */
  function Climbed(w: real, n: nat): real {
    if n == 0 then w else if w + n as real < MAX_WEIGHT then w + n as real else MAX_WEIGHT
  }

  /** The first strategy of a label is the one that counts. */
  lemma {:induction false} FamilyOfLabel(items: seq<Item>, tag: string, f: string)
    ensures OfFamily(items, tag, f) <==> ItemFor(items, tag).Some? && ItemFor(items, tag).value.family == f
  {
    if items != [] {
      var front, last := items[..|items| - 1], items[|items| - 1];
      FamilyOfLabel(front, tag, f);
      ItemForFinds(front, tag);
    }
  }

  lemma PassesNext(items: seq<Item>, handed: seq<Key>, k: Key, outcome: nat -> Outcome, f: string)
    ensures |FamilyPasses(items, handed + [k], outcome, f)| ==
            |FamilyPasses(items, handed, outcome, f)| +
            if outcome(|handed|).Ran? && outcome(|handed|).passed && OfFamily(items, k.tag, f) then 1 else 0
  {
    var n, more := |handed|, handed + [k];
    var one := if outcome(n).Ran? && outcome(n).passed && OfFamily(items, k.tag, f) then {n} else {};
    forall i: nat
      ensures i in FamilyPasses(items, more, outcome, f) <==> i in FamilyPasses(items, handed, outcome, f) + one
    {
      if i < n {
        assert more[i] == handed[i];
      }
    }
    assert FamilyPasses(items, more, outcome, f) == FamilyPasses(items, handed, outcome, f) + one;
  }

  lemma FamilyClimbs(t: Table, items: seq<Item>, tag: string, o: Outcome, f: string, w: real, n: nat)
    requires Lookup(t.family, f, 1.0) == Climbed(w, n)
    ensures Lookup(AfterResult(t, items, tag, o).family, f, 1.0) ==
            Climbed(w, n + if o.Ran? && o.passed && OfFamily(items, tag, f) then 1 else 0)
  {
    FamilyOfLabel(items, tag, f);
  }

  /** In the end the weight of a family has gone up by 1 for each PASS of one of its strategies, up to the cap. */
  lemma {:induction false} FamilyWeightCounts(t: Table, items: seq<Item>, handed: seq<Key>, outcome: nat -> Outcome,
                                              f: string)
    ensures Lookup(BoostedBy(t, items, handed, outcome).family, f, 1.0) ==
            Climbed(Lookup(t.family, f, 1.0), |FamilyPasses(items, handed, outcome, f)|)
  {
    if handed == [] {
      assert FamilyPasses(items, handed, outcome, f) == {};
    } else {
      var n, front := |handed| - 1, handed[..|handed| - 1];
      FamilyWeightCounts(t, items, front, outcome, f);
      FamilyClimbs(BoostedBy(t, items, front, outcome), items, handed[n].tag, outcome(n), f,
                   Lookup(t.family, f, 1.0), |FamilyPasses(items, front, outcome, f)|);
      PassesNext(items, front, handed[n], outcome, f);
      assert handed == front + [handed[n]];
    }
  }
}
