/**
 The family-gated TCP run: strategies go in family order, and a family that passed lets later strategies that
 depend on it be skipped. The family of a strategy is an attribute, as classified from its label and text.
 */
module FamilyGates {
  import opened Wrappers
  import opened Text

  /** The ranked TCP families in their order, and the two classes without a rank. */
  datatype Family =
    | Fake | RstFake | Synack | GenevaFool | Wssize | Hostfake | Multisplit | Multidisorder | Syndata | Tcpseg | Oob
    | MultiFake | TripleFake | FakeMultisplit | FakeMultidisorder | FakeMultisplitHostfake | FakeHostfake | Fakedsplit
    | Fakeddisorder | FakeFakedsplit | TcpIpfrag
    | Faked | Other

  datatype Level = Single | Fast | Full

  datatype Strategy = Strategy(tag: string, family: Family, text: string)

  const UNRANKED := 999

  function Rank(family: Family): nat {
    match family
    case Fake => 0 case RstFake => 1 case Synack => 2 case GenevaFool => 3 case Wssize => 4 case Hostfake => 5
    case Multisplit => 6 case Multidisorder => 7 case Syndata => 8 case Tcpseg => 9 case Oob => 10 case MultiFake => 11
    case TripleFake => 12 case FakeMultisplit => 13 case FakeMultidisorder => 14 case FakeMultisplitHostfake => 15
    case FakeHostfake => 16 case Fakedsplit => 17 case Fakeddisorder => 18 case FakeFakedsplit => 19
    case TcpIpfrag => 20
    case Faked => UNRANKED case Other => UNRANKED
  }

  predicate Before(a: Strategy, b: Strategy) {
    Rank(a.family) < Rank(b.family) || (Rank(a.family) == Rank(b.family) && LexLeq(a.tag, b.tag))
  }

  ghost predicate InFamilyOrder(s: seq<Strategy>) {
    forall i, j :: 0 <= i < j < |s| ==> Before(s[i], s[j])
  }

  function Insert(x: Strategy, s: seq<Strategy>): seq<Strategy> {
    if s == [] then [x] else if Before(x, s[0]) then [x] + s else [s[0]] + Insert(x, s[1..])
  }

  /** The stable sort by family rank and label. */
  function SortByFamily(items: seq<Strategy>): seq<Strategy> {
    if items == [] then [] else Insert(items[0], SortByFamily(items[1..]))
  }

  lemma BeforeTransitive(a: Strategy, b: Strategy, c: Strategy)
    requires Before(a, b) && Before(b, c)
    ensures Before(a, c)
  {
    if Rank(a.family) == Rank(c.family) {
      LexTransitive(a.tag, b.tag, c.tag);
    }
  }

  lemma {:induction false} InsertKeepsOrder(x: Strategy, s: seq<Strategy>)
    requires InFamilyOrder(s)
    ensures InFamilyOrder(Insert(x, s)) && multiset(Insert(x, s)) == multiset(s) + multiset{x}
  {
    if s == [] {
    } else if Before(x, s[0]) {
      forall j | 0 <= j < |s|
        ensures Before(x, s[j])
      {
        if j > 0 {
          BeforeTransitive(x, s[0], s[j]);
        }
      }
    } else {
      InsertKeepsOrder(x, s[1..]);
      LexTotal(x.tag, s[0].tag);
      var r := Insert(x, s[1..]);
      assert s == [s[0]] + s[1..];
      forall j | 0 <= j < |r|
        ensures Before(s[0], r[j])
      {
        assert r[j] in multiset(r);
        assert r[j] == x || r[j] in multiset(s[1..]);
        if r[j] != x {
          var k :| 0 <= k < |s[1..]| && s[1..][k] == r[j];
          assert s[k + 1] == r[j];
        }
      }
    }
  }

  lemma {:induction false} SortOrders(items: seq<Strategy>)
    ensures InFamilyOrder(SortByFamily(items)) && multiset(SortByFamily(items)) == multiset(items)
  {
    if items != [] {
      SortOrders(items[1..]);
      InsertKeepsOrder(items[0], SortByFamily(items[1..]));
      assert items == [items[0]] + items[1..];
    }
  }

  lemma SortLength(items: seq<Strategy>)
    ensures |SortByFamily(items)| == |items|
  {
    SortOrders(items);
    assert |multiset(SortByFamily(items))| == |multiset(items)|;
  }

  /** The need flags; 0 means that the family passed and its dependents can be skipped. */
  class FamilyNeedTracker {
    var needFake: nat
    var needHostfakesplit: nat
    var needMultisplit: nat
    var needMultidisorder: nat
    var needFakedsplit: nat
    var needFakeddisorder: nat

    constructor ()
      ensures needHostfakesplit == 1 && needMultisplit == 1 && needFakedsplit == 1 && needFakeddisorder == 1
    {
      needFake, needHostfakesplit := 1, 1;
      needMultisplit, needMultidisorder, needFakedsplit, needFakeddisorder := 1, 1, 1, 1;
    }

    method FinishFamily(family: Family, hadPass: bool)
      modifies this
      ensures needFake == if family == Fake then Flag(hadPass) else old(needFake)
      ensures needHostfakesplit == if family == Hostfake then Flag(hadPass) else old(needHostfakesplit)
      ensures needMultisplit == if family == Multisplit then Flag(hadPass) else old(needMultisplit)
      ensures needMultidisorder == if family == Multisplit then Flag(hadPass) else old(needMultidisorder)
      ensures needFakedsplit ==
              if family in {Faked, Fakedsplit, Fakeddisorder} then Flag(hadPass) else old(needFakedsplit)
      ensures needFakeddisorder ==
              if family in {Faked, Fakedsplit, Fakeddisorder} then Flag(hadPass) else old(needFakeddisorder)
    {
      var val := Flag(hadPass);
      if family == Fake {
        needFake := val;
      } else if family == Hostfake {
        needHostfakesplit := val;
      } else if family == Multisplit {
        needMultisplit := val;
        needMultidisorder := val;
      } else if IsFaked(family) {
        needFakedsplit := val;
        needFakeddisorder := val;
      }
    }

    predicate SkipFamily(family: Family, level: Level)
      reads this
    {
      level != Full && family == FakeHostfake && needHostfakesplit == 0
    }

    predicate SkipStrategy(item: Strategy, level: Level): (skip: bool)
      reads this
      ensures skip <==>
              level != Full &&
              ((needMultisplit == 0 && UsesMultisplit(item))
               || (needFakedsplit == 0 && Mentions(item.text, "fakedsplit"))
               || (needFakeddisorder == 0 && Mentions(item.text, "fakeddisorder")))
    {
      ContainsFinds(item.text, "multisplit");
      ContainsFinds(item.text, "multidisorder");
      ContainsFinds(item.text, "fakedsplit");
      ContainsFinds(item.text, "fakeddisorder");
      level != Full &&
      ((needMultisplit == 0 && (Contains(item.text, "multisplit") || Contains(item.text, "multidisorder")))
       || (needFakedsplit == 0 && Contains(item.text, "fakedsplit"))
       || (needFakeddisorder == 0 && Contains(item.text, "fakeddisorder")))
    }
  }

  function Flag(hadPass: bool): nat {
    if hadPass then 0 else 1
  }

  predicate IsFaked(family: Family) {
    family == Faked || family == Fakedsplit || family == Fakeddisorder
  }

  // ---------- what the run promises ----------

  /** Test number `i` of the run passed and its strategy is of `family`. */
  ghost predicate PassedIn(tested: seq<Strategy>, outcome: nat -> bool, family: Family) {
    exists i :: 0 <= i < |tested| && tested[i].family == family && outcome(i)
  }

  /** One of the two words stands somewhere in the text of the strategy. */
  ghost predicate UsesMultisplit(s: Strategy) {
    Mentions(s.text, "multisplit") || Mentions(s.text, "multidisorder")
  }

  /** After a PASS in the multisplit family, nothing later that uses multisplit or multidisorder is tested. */
  ghost predicate MultisplitGate(tested: seq<Strategy>, outcome: nat -> bool) {
    forall i, j ::
      0 <= i < j < |tested| && tested[i].family == Multisplit && outcome(i) && tested[j].family != Multisplit ==>
      !UsesMultisplit(tested[j])
  }

  /** A PASS in the hostfake family rules the whole fake_hostfake family out. */
  ghost predicate HostfakeGate(tested: seq<Strategy>, outcome: nat -> bool) {
    PassedIn(tested, outcome, Hostfake) ==> forall j :: 0 <= j < |tested| ==> tested[j].family != FakeHostfake
  }

  /** What a run is given: the sorted strategies, the results of its tests, and an earlier session's labels. */
  datatype Inputs = Inputs(sorted: seq<Strategy>, level: Level, outcome: nat -> bool, resumed: string -> bool,
                           working: set<string>)

  /** A family whose dependents may be left out: a test of it passed, or a resumed member worked before. */
  ghost predicate Freed(c: Inputs, tested: seq<Strategy>, family: Family) {
    PassedIn(tested, c.outcome, family) || exists j :: 0 <= j < |c.sorted| && Worked(c, c.sorted[j], family)
  }

  predicate Worked(c: Inputs, s: Strategy, family: Family) {
    s.family == family && c.resumed(s.tag) && s.tag in c.working
  }

  ghost predicate FreedFaked(c: Inputs, tested: seq<Strategy>) {
    exists family :: IsFaked(family) && Freed(c, tested, family)
  }

  ghost predicate UsesFaked(s: Strategy) {
    Mentions(s.text, "fakedsplit") || Mentions(s.text, "fakeddisorder")
  }

  /** The only reasons for not testing a strategy. */
  ghost predicate Excused(c: Inputs, tested: seq<Strategy>, s: Strategy) {
    || c.resumed(s.tag)
    || (c.level != Full &&
        ((s.family == FakeHostfake && Freed(c, tested, Hostfake))
         || (UsesMultisplit(s) && Freed(c, tested, Multisplit))
         || (UsesFaked(s) && FreedFaked(c, tested))))
  }

  /** Each of the first `idx` strategies was tested or is excused. */
  ghost predicate AllExcused(c: Inputs, tested: seq<Strategy>, at: seq<nat>, idx: nat) {
    forall k: nat :: k < idx && k < |c.sorted| ==> k in at || Excused(c, tested, c.sorted[k])
  }

  lemma FreedGrows(c: Inputs, tested: seq<Strategy>, more: seq<Strategy>, family: Family)
    requires Freed(c, tested, family)
    ensures Freed(c, tested + more, family)
  {
    if PassedIn(tested, c.outcome, family) {
      var i :| 0 <= i < |tested| && tested[i].family == family && c.outcome(i);
      assert (tested + more)[i].family == family;
    }
  }

  lemma ExcusedGrows(c: Inputs, tested: seq<Strategy>, more: seq<Strategy>, s: Strategy)
    requires Excused(c, tested, s)
    ensures Excused(c, tested + more, s)
  {
    forall family | Freed(c, tested, family)
      ensures Freed(c, tested + more, family)
    {
      FreedGrows(c, tested, more, family);
    }
  }

  function Passes(outcome: nat -> bool, n: nat): nat {
    if n == 0 then 0 else Passes(outcome, n - 1) + if outcome(n - 1) then 1 else 0
  }

  /** `at` picks the tested strategies from the sorted ones, in order, below `idx`. */
  ghost predicate Subsequence(sorted: seq<Strategy>, tested: seq<Strategy>, at: seq<nat>, idx: nat) {
    && |at| == |tested|
    && (forall i :: 0 <= i < |at| ==> at[i] < idx && at[i] < |sorted| && sorted[at[i]] == tested[i])
    && (forall i, j :: 0 <= i < j < |at| ==> at[i] < at[j])
  }

  /** No ranked family has members on both sides of `idx`. */
  ghost predicate Boundary(sorted: seq<Strategy>, idx: nat) {
    forall k, l :: 0 <= k < idx <= l < |sorted| && sorted[k].family == sorted[l].family ==>
      Rank(sorted[k].family) == UNRANKED
  }

  lemma NextBoundary(sorted: seq<Strategy>, idx: nat)
    requires InFamilyOrder(sorted) && 0 < idx <= |sorted|
    requires idx < |sorted| ==> sorted[idx].family != sorted[idx - 1].family
    ensures Boundary(sorted, idx)
  {
    forall k, l | 0 <= k < idx <= l < |sorted| && sorted[k].family == sorted[l].family
      ensures Rank(sorted[k].family) == UNRANKED
    {
      AcrossIsUnranked(sorted, k, idx, l);
    }
  }

  lemma AcrossIsUnranked(sorted: seq<Strategy>, k: nat, idx: nat, l: nat)
    requires InFamilyOrder(sorted) && k < idx <= l < |sorted| && sorted[k].family == sorted[l].family
    requires sorted[idx].family != sorted[idx - 1].family
    ensures Rank(sorted[k].family) == UNRANKED
  {
    RanksGrow(sorted, k, idx - 1);
    RanksGrow(sorted, idx - 1, idx);
    RanksGrow(sorted, idx, l);
    RanksDiffer(sorted[idx].family, sorted[idx - 1].family);
  }

  lemma RanksDiffer(a: Family, b: Family)
    requires a != b && Rank(a) == Rank(b)
    ensures Rank(a) == UNRANKED
  {
  }

  lemma RanksGrow(sorted: seq<Strategy>, k: nat, l: nat)
    requires InFamilyOrder(sorted) && k <= l < |sorted|
    ensures Rank(sorted[k].family) <= Rank(sorted[l].family)
  {
    assert k < l ==> Before(sorted[k], sorted[l]);
  }

  // ---------- the run ----------

  /** `items`, found at `picks`, are members of the family that starts at `start`, none of them resumed. */
  ghost predicate Collected(c: Inputs, start: nat, idx: nat, items: seq<Strategy>, picks: seq<nat>)
    requires start < |c.sorted|
  {
    && Subsequence(c.sorted, items, picks, idx) && (forall i :: 0 <= i < |picks| ==> start <= picks[i])
    && (forall i :: 0 <= i < |items| ==> items[i].family == c.sorted[start].family && !c.resumed(items[i].tag))
  }

  lemma CollectMore(c: Inputs, start: nat, idx: nat, items: seq<Strategy>, picks: seq<nat>)
    requires start <= idx < |c.sorted| && Collected(c, start, idx, items, picks)
    ensures Collected(c, start, idx + 1, items, picks)
    ensures c.sorted[idx].family == c.sorted[start].family && !c.resumed(c.sorted[idx].tag) ==>
              Collected(c, start, idx + 1, items + [c.sorted[idx]], picks + [idx])
  {
  }

  /** No gate holds for `items`, and the strategies of the stretch that were not picked are resumed or gated. */
  ghost predicate Sifted(c: Inputs, tracker: FamilyNeedTracker, start: nat, idx: nat, items: seq<Strategy>,
                         picks: seq<nat>)
    reads tracker
  {
    && (forall i :: 0 <= i < |items| ==> !tracker.SkipStrategy(items[i], c.level))
    && forall k: nat :: start <= k < idx && k < |c.sorted| && k !in picks ==>
         c.resumed(c.sorted[k].tag) || tracker.SkipStrategy(c.sorted[k], c.level)
  }

  lemma SiftMore(c: Inputs, tracker: FamilyNeedTracker, start: nat, idx: nat, items: seq<Strategy>, picks: seq<nat>)
    requires idx < |c.sorted| && Sifted(c, tracker, start, idx, items, picks)
    ensures c.resumed(c.sorted[idx].tag) || tracker.SkipStrategy(c.sorted[idx], c.level) ==>
              Sifted(c, tracker, start, idx + 1, items, picks)
    ensures !tracker.SkipStrategy(c.sorted[idx], c.level) ==>
              Sifted(c, tracker, start, idx + 1, items + [c.sorted[idx]], picks + [idx])
  {
    assert forall k: nat :: k in picks ==> k in picks + [idx];
  }

  /** `t` labels a resumed member of the stretch from `start` to `idx`. */
  ghost predicate ResumedFrom(c: Inputs, start: nat, idx: nat, t: string) {
    exists k :: start <= k < idx && k < |c.sorted| && c.sorted[k].tag == t && c.resumed(t)
  }

  /** `tags` are the labels of the resumed members. */
  ghost predicate AllResumed(c: Inputs, start: nat, idx: nat, tags: seq<string>) {
    forall t :: t in tags <==> ResumedFrom(c, start, idx, t)
  }

  lemma ResumeMore(c: Inputs, start: nat, idx: nat, tags: seq<string>)
    requires start <= idx < |c.sorted| && AllResumed(c, start, idx, tags)
    ensures AllResumed(c, start, idx + 1, if c.resumed(c.sorted[idx].tag) then tags + [c.sorted[idx].tag] else tags)
  {
    var last := c.sorted[idx].tag;
    forall t
      ensures ResumedFrom(c, start, idx + 1, t) <==> ResumedFrom(c, start, idx, t) || (t == last && c.resumed(last))
    {
      if ResumedFrom(c, start, idx, t) {
        var k :| start <= k < idx && k < |c.sorted| && c.sorted[k].tag == t && c.resumed(t);
        assert ResumedFrom(c, start, idx + 1, t);
      }
      if t == last && c.resumed(last) {
        assert c.sorted[idx].tag == t;
      }
    }
  }

  /** The members of the family at `start` that are neither resumed nor gated. */
  method CollectFamily(c: Inputs, start: nat, tracker: FamilyNeedTracker)
    returns (idx: nat, familyItems: seq<Strategy>, resumedTags: seq<string>, skipped: nat, ghost picks: seq<nat>)
    requires start < |c.sorted|
    ensures WholeFamily(c, start, idx) && (idx < |c.sorted| ==> c.sorted[idx].family != c.sorted[idx - 1].family)
    ensures skipped + |familyItems| == idx - start
    ensures Collected(c, start, idx, familyItems, picks)
    ensures Sifted(c, tracker, start, idx, familyItems, picks)
    ensures AllResumed(c, start, idx, resumedTags)
  {
    idx, familyItems, resumedTags, skipped, picks := start, [], [], 0, [];
    var fam := c.sorted[start].family;
    while idx < |c.sorted| && c.sorted[idx].family == fam
      invariant start <= idx <= |c.sorted|
      invariant forall k :: start <= k < idx ==> c.sorted[k].family == fam
      invariant skipped + |familyItems| == idx - start
      invariant Collected(c, start, idx, familyItems, picks)
      invariant Sifted(c, tracker, start, idx, familyItems, picks)
      invariant AllResumed(c, start, idx, resumedTags)
    {
      var item := c.sorted[idx];
      CollectMore(c, start, idx, familyItems, picks);
      SiftMore(c, tracker, start, idx, familyItems, picks);
      ResumeMore(c, start, idx, resumedTags);
      idx := idx + 1;
      if c.resumed(item.tag) {
        resumedTags := resumedTags + [item.tag];
        skipped := skipped + 1;
        continue;
      }
      if tracker.SkipStrategy(item, c.level) {
        skipped := skipped + 1;
        continue;
      }
      familyItems, picks := familyItems + [item], picks + [idx - 1];
    }
  }

  /** One of the tests from the `m`-th to before the `n`-th passed. */
  ghost predicate SomePass(outcome: nat -> bool, m: nat, n: nat) {
    exists i :: m <= i < n && outcome(i)
  }

  /** Tests the members in order; at the level `Single` the first PASS ends the run. */
  method TestFamily(familyItems: seq<Strategy>, level: Level, outcome: nat -> bool, before: nat, passedBefore: nat)
    returns (ran: nat, passed: nat, hadPass: bool, total: nat)
    requires passedBefore == Passes(outcome, before)
    ensures ran <= |familyItems| && (ran < |familyItems| ==> level == Single && hadPass)
    ensures total == before + ran && passed == Passes(outcome, total)
    ensures hadPass <==> SomePass(outcome, before, total)
    ensures level == Single && hadPass ==> ran > 0 && outcome(total - 1)
    ensures level == Single ==> forall i :: before <= i < total - (if hadPass then 1 else 0) ==> !outcome(i)
  {
    ran, passed, hadPass, total := 0, passedBefore, false, before;
    while ran < |familyItems|
      invariant ran <= |familyItems|
      invariant total == before + ran && passed == Passes(outcome, total)
      invariant hadPass <==> SomePass(outcome, before, total)
      invariant level == Single ==> !hadPass
    {
      var success := outcome(total);
      ran, total := ran + 1, total + 1;
      if success {
        passed := passed + 1;
        hadPass := true;
        if level == Single {
          return;
        }
      }
    }
  }

  /** A lowered flag is earned: its family passed. */
  ghost predicate FlagsEarned(tracker: FamilyNeedTracker, c: Inputs, tested: seq<Strategy>)
    reads tracker
  {
    && (tracker.needMultisplit == 0 ==> Freed(c, tested, Multisplit))
    && (tracker.needHostfakesplit == 0 ==> Freed(c, tested, Hostfake))
    && (tracker.needFakedsplit == 0 || tracker.needFakeddisorder == 0 ==> FreedFaked(c, tested))
  }

  /** What the gates leave out is excused. */
  lemma GatedIsExcused(tracker: FamilyNeedTracker, c: Inputs, tested: seq<Strategy>, s: Strategy)
    requires FlagsEarned(tracker, c, tested)
    requires c.resumed(s.tag) || tracker.SkipStrategy(s, c.level) || tracker.SkipFamily(s.family, c.level)
    ensures Excused(c, tested, s)
  {
  }

  /** What the flags promise about the tests so far, between two families. */
  ghost predicate FlagsTell(tracker: FamilyNeedTracker, tested: seq<Strategy>, outcome: nat -> bool)
    reads tracker
  {
    && (PassedIn(tested, outcome, Multisplit) ==> tracker.needMultisplit == 0)
    && (PassedIn(tested, outcome, Hostfake) ==> tracker.needHostfakesplit == 0)
  }

  /** A new family's tests keep both gates, given what the flags said when its members were chosen. */
  lemma GatesExtend(tested: seq<Strategy>, more: seq<Strategy>, outcome: nat -> bool, fam: Family)
    requires MultisplitGate(tested, outcome) && HostfakeGate(tested, outcome)
    requires forall i :: 0 <= i < |more| ==> more[i].family == fam
    requires PassedIn(tested, outcome, Multisplit) ==> forall i :: 0 <= i < |more| ==> !UsesMultisplit(more[i])
    requires PassedIn(tested, outcome, Hostfake) && more != [] ==> fam != FakeHostfake
    requires fam == Hostfake ==> forall j :: 0 <= j < |tested| ==> tested[j].family != FakeHostfake
    ensures MultisplitGate(tested + more, outcome) && HostfakeGate(tested + more, outcome)
  {
    var all := tested + more;
    forall i, j | 0 <= i < j < |all| && all[i].family == Multisplit && outcome(i) && all[j].family != Multisplit
      ensures !UsesMultisplit(all[j])
    {
      if i < |tested| <= j {
        assert PassedIn(tested, outcome, Multisplit);
        assert all[j] == more[j - |tested|];
      }
    }
    if PassedIn(all, outcome, Hostfake) {
      var i :| 0 <= i < |all| && all[i].family == Hostfake && outcome(i);
      forall j | 0 <= j < |all|
        ensures all[j].family != FakeHostfake
      {
        if i < |tested| {
          assert PassedIn(tested, outcome, Hostfake);
        }
      }
    }
  }

  lemma SubsequenceExtends(sorted: seq<Strategy>, tested: seq<Strategy>, at: seq<nat>, start: nat,
                           more: seq<Strategy>, picks: seq<nat>, idx: nat, ran: nat)
    requires Subsequence(sorted, tested, at, start) && Subsequence(sorted, more, picks, idx)
    requires start <= idx && ran <= |more| && forall i :: 0 <= i < |picks| ==> start <= picks[i]
    ensures Subsequence(sorted, tested + more[..ran], at + picks[..ran], idx)
  {
  }

  /** Passes of one family over two stretches of tests. */
  lemma PassedInGrows(tested: seq<Strategy>, more: seq<Strategy>, outcome: nat -> bool, fam: Family, family: Family)
    requires forall i :: 0 <= i < |more| ==> more[i].family == fam
    ensures PassedIn(tested + more, outcome, family) <==>
              PassedIn(tested, outcome, family)
              || (fam == family && exists i :: |tested| <= i < |tested| + |more| && outcome(i))
  {
    var all := tested + more;
    if PassedIn(tested, outcome, family) {
      var i :| 0 <= i < |tested| && tested[i].family == family && outcome(i);
      assert all[i].family == family;
    }
    forall i | |tested| <= i < |all|
      ensures all[i].family == fam
    {
      assert all[i] == more[i - |tested|];
    }
    if PassedIn(all, outcome, family) {
      var i :| 0 <= i < |all| && all[i].family == family && outcome(i);
      assert i < |tested| ==> tested[i].family == family;
    }
  }

  /** No test so far is of the family that starts at `idx`, if it is ranked, nor of one later in the order. */
  lemma NothingTestedYet(sorted: seq<Strategy>, tested: seq<Strategy>, at: seq<nat>, idx: nat, j: nat)
    requires InFamilyOrder(sorted) && Boundary(sorted, idx) && idx < |sorted| &&
             Subsequence(sorted, tested, at, idx) && j < |tested|
    ensures Rank(sorted[idx].family) != UNRANKED ==> tested[j].family != sorted[idx].family
    ensures Rank(tested[j].family) <= Rank(sorted[idx].family)
  {
    RanksGrow(sorted, at[j], idx);
  }

  /** The tests so far, of the strategies below `idx`, respect order and gates. */
  ghost predicate Respects(sorted: seq<Strategy>, tested: seq<Strategy>, at: seq<nat>, idx: nat, level: Level,
                           outcome: nat -> bool) {
    && idx <= |sorted| && Subsequence(sorted, tested, at, idx)
    && (level != Full ==> MultisplitGate(tested, outcome) && HostfakeGate(tested, outcome))
  }

  /** The members of a family chosen under the flags may be tested. */
  lemma FamilyRespects(sorted: seq<Strategy>, tested: seq<Strategy>, at: seq<nat>, start: nat, level: Level,
                       outcome: nat -> bool, tracker: FamilyNeedTracker, items: seq<Strategy>, picks: seq<nat>,
                       idx: nat, ran: nat)
    requires InFamilyOrder(sorted) && start < idx <= |sorted| && Boundary(sorted, start)
    requires Respects(sorted, tested, at, start, level, outcome) && FlagsTell(tracker, tested, outcome)
    requires !tracker.SkipFamily(sorted[start].family, level)
    requires Subsequence(sorted, items, picks, idx) && forall i :: 0 <= i < |picks| ==> start <= picks[i]
    requires forall i :: 0 <= i < |items| ==>
               items[i].family == sorted[start].family && !tracker.SkipStrategy(items[i], level)
    requires ran <= |items|
    ensures Respects(sorted, tested + items[..ran], at + picks[..ran], idx, level, outcome)
  {
    SubsequenceExtends(sorted, tested, at, start, items, picks, idx, ran);
    if level != Full {
      forall j | 0 <= j < |tested|
        ensures Rank(tested[j].family) <= Rank(sorted[start].family)
      {
        NothingTestedYet(sorted, tested, at, start, j);
      }
      GatesExtend(tested, items[..ran], outcome, sorted[start].family);
    }
  }

  /** The flags after a family, given whether it passed. */
  lemma FlagsAfter(sorted: seq<Strategy>, tested: seq<Strategy>, at: seq<nat>, start: nat, outcome: nat -> bool,
                   more: seq<Strategy>, hadPass: bool, family: Family)
    requires InFamilyOrder(sorted) && start < |sorted| && Boundary(sorted, start) &&
             Subsequence(sorted, tested, at, start)
    requires forall i :: 0 <= i < |more| ==> more[i].family == sorted[start].family
    requires SomePass(outcome, |tested|, |tested| + |more|) ==> hadPass
    requires Rank(family) != UNRANKED
    ensures PassedIn(tested + more, outcome, family) ==>
              if sorted[start].family == family then hadPass else PassedIn(tested, outcome, family)
  {
    PassedInGrows(tested, more, outcome, sorted[start].family, family);
    if PassedIn(tested, outcome, family) && sorted[start].family == family {
      var i :| 0 <= i < |tested| && tested[i].family == family && outcome(i);
      NothingTestedYet(sorted, tested, at, start, i);
    }
  }

  /** Passes over a whole gated family. */
  method SkipWholeFamily(sorted: seq<Strategy>, start: nat) returns (idx: nat)
    requires InFamilyOrder(sorted) && start < |sorted|
    ensures start < idx <= |sorted| && Boundary(sorted, idx)
    ensures forall k :: start <= k < idx ==> sorted[k].family == sorted[start].family
    ensures idx < |sorted| ==> sorted[idx].family != sorted[start].family
  {
    idx := start;
    while idx < |sorted| && sorted[idx].family == sorted[start].family
      invariant start <= idx <= |sorted|
      invariant forall k :: start <= k < idx ==> sorted[k].family == sorted[start].family
    {
      idx := idx + 1;
    }
    NextBoundary(sorted, idx);
  }

  /** The counters of the run, with the strategies tested so far. */
  datatype Tally = Tally(tested: seq<Strategy>, done: nat, skipped: nat, passed: nat)

  predicate CountsOk(st: Tally, outcome: nat -> bool) {
    st.done == st.skipped + |st.tested| && st.passed == Passes(outcome, |st.tested|)
  }

  /** The first `n` tests all failed. */
  ghost predicate NoPass(outcome: nat -> bool, n: int) {
    forall i :: 0 <= i < n ==> !outcome(i)
  }

  ghost predicate NoneResumed(c: Inputs, tested: seq<Strategy>) {
    forall i :: 0 <= i < |tested| ==> !c.resumed(tested[i].tag)
  }

  /** The state between two families. */
  ghost predicate Progress(c: Inputs, idx: nat, st: Tally, at: seq<nat>) {
    && Respects(c.sorted, st.tested, at, idx, c.level, c.outcome) && Boundary(c.sorted, idx)
    && st.done == idx && CountsOk(st, c.outcome)
    && NoneResumed(c, st.tested)
    && (c.level == Single ==> NoPass(c.outcome, |st.tested|))
    && AllExcused(c, st.tested, at, idx)
  }

  /** The state when a PASS ends a run at the level `Single`. */
  ghost predicate Ended(c: Inputs, st: Tally, at: seq<nat>) {
    && c.level == Single && Respects(c.sorted, st.tested, at, |c.sorted|, c.level, c.outcome)
    && CountsOk(st, c.outcome) && st.tested != []
    && NoneResumed(c, st.tested)
    && NoPass(c.outcome, |st.tested| - 1) && c.outcome(|st.tested| - 1)
  }

  /** The flags tell what passed, and only that. */
  ghost predicate Flags(tracker: FamilyNeedTracker, c: Inputs, tested: seq<Strategy>)
    reads tracker
  {
    FlagsTell(tracker, tested, c.outcome) && FlagsEarned(tracker, c, tested)
  }

  lemma NoPassAdds(outcome: nat -> bool, m: nat, n: int)
    requires NoPass(outcome, m) && forall i :: m <= i < n ==> !outcome(i)
    ensures NoPass(outcome, n)
  {
  }

  // ---------- the log of finished families ----------

  /** A finished family: the stretch of its members and what it was credited with. */
  datatype Closed = Closed(start: nat, end: nat, hadPass: bool)

  /** The families whose result decides over others. The three faked families overwrite each other's result. */
  datatype Chain = MultisplitChain | HostfakeChain | FakedChain

  predicate Feeds(chain: Chain, family: Family) {
    match chain
    case MultisplitChain => family == Multisplit
    case HostfakeChain => family == Hostfake
    case FakedChain => IsFaked(family)
  }

  /** The last finished family that feeds the chain passed. */
  predicate Satisfied(c: Inputs, log: seq<Closed>, chain: Chain) {
    if log == [] then false
    else
      var last := log[|log| - 1];
      if last.start < |c.sorted| && Feeds(chain, c.sorted[last.start].family) then last.hadPass
      else Satisfied(c, log[..|log| - 1], chain)
  }

  predicate WholeGated(c: Inputs, log: seq<Closed>, family: Family) {
    c.level != Full && family == FakeHostfake && Satisfied(c, log, HostfakeChain)
  }

  /** What the families finished before leave to be tested. */
  ghost predicate ToTest(c: Inputs, log: seq<Closed>, s: Strategy) {
    && !c.resumed(s.tag) && !WholeGated(c, log, s.family)
    && !(c.level != Full && UsesMultisplit(s) && Satisfied(c, log, MultisplitChain))
    && !(c.level != Full && UsesFaked(s) && Satisfied(c, log, FakedChain))
  }

  ghost predicate FlagsMatch(tracker: FamilyNeedTracker, c: Inputs, log: seq<Closed>)
    reads tracker
  {
    && (tracker.needMultisplit == 0 <==> Satisfied(c, log, MultisplitChain))
    && (tracker.needHostfakesplit == 0 <==> Satisfied(c, log, HostfakeChain))
    && (tracker.needFakedsplit == 0 <==> Satisfied(c, log, FakedChain))
    && (tracker.needFakeddisorder == 0 <==> Satisfied(c, log, FakedChain))
  }

  lemma FlagsDecide(tracker: FamilyNeedTracker, c: Inputs, log: seq<Closed>, s: Strategy)
    requires FlagsMatch(tracker, c, log)
    ensures ToTest(c, log, s) <==>
            !c.resumed(s.tag) && !tracker.SkipFamily(s.family, c.level) && !tracker.SkipStrategy(s, c.level)
    ensures WholeGated(c, log, s.family) <==> tracker.SkipFamily(s.family, c.level)
  {
  }

  lemma SatisfiedAfter(c: Inputs, log: seq<Closed>, e: Closed, chain: Chain)
    requires e.start < |c.sorted|
    ensures Satisfied(c, log + [e], chain) <==>
            if Feeds(chain, c.sorted[e.start].family) then e.hadPass else Satisfied(c, log, chain)
  {
    assert (log + [e])[..|log|] == log;
  }

  ghost predicate TestedIn(at: seq<nat>, e: Closed, i: nat) {
    i < |at| && e.start <= at[i] < e.end
  }

  /** A family counts as passed if a test of it passed; without tests, if it was not gated and a resumed one worked. */
  ghost predicate Credited(c: Inputs, at: seq<nat>, log: seq<Closed>, e: Closed)
    requires e.start < |c.sorted|
  {
    if exists i :: TestedIn(at, e, i) then exists i :: TestedIn(at, e, i) && c.outcome(i)
    else
      && !WholeGated(c, log, c.sorted[e.start].family)
      && exists t :: ResumedFrom(c, e.start, e.end, t) && t in c.working
  }

  /** A stretch of one family that goes on as long as the family does. */
  ghost predicate WholeFamily(c: Inputs, start: nat, end: nat) {
    && start < end <= |c.sorted| && (forall k: nat :: start <= k < end ==> c.sorted[k].family == c.sorted[start].family)
    && (end < |c.sorted| ==> c.sorted[end].family != c.sorted[start].family)
  }

  /** Below `limit`, exactly the members that the log before it leaves to be tested were, and the result is right. */
  ghost predicate EntryRight(c: Inputs, at: seq<nat>, log: seq<Closed>, n: nat, limit: nat)
    requires n < |log|
  {
    var e := log[n];
    && WholeFamily(c, e.start, e.end)
    && (forall k: nat :: e.start <= k < e.end ==> (k in at <==> k < limit && ToTest(c, log[..n], c.sorted[k])))
    && (e.hadPass <==> Credited(c, at, log[..n], e))
  }

  /** The log covers the strategies up to `idx` without gaps. */
  ghost predicate Gapless(log: seq<Closed>, idx: nat) {
    && (forall n :: 0 <= n < |log| ==> log[n].end <= idx)
    && (forall n :: 0 < n < |log| ==> log[n].start == log[n - 1].end)
    && if log == [] then idx == 0 else log[0].start == 0 && log[|log| - 1].end == idx
  }

  ghost predicate AllRight(c: Inputs, at: seq<nat>, log: seq<Closed>, limit: nat) {
    forall n :: 0 <= n < |log| ==> EntryRight(c, at, log, n, limit)
  }

  ghost predicate Logged(c: Inputs, idx: nat, at: seq<nat>, log: seq<Closed>, limit: nat) {
    Gapless(log, idx) && AllRight(c, at, log, limit)
  }

  /** What a family that was just finished adds to a log. */
  ghost predicate NewEntry(c: Inputs, at: seq<nat>, picks: seq<nat>, log: seq<Closed>, e: Closed, limit: nat) {
    && WholeFamily(c, e.start, e.end) && e.start <= limit
    && (forall i :: 0 <= i < |at| ==> at[i] < e.start) && (forall i :: 0 <= i < |picks| ==> e.start <= picks[i] < e.end)
    && (forall k: nat :: e.start <= k < e.end ==> (k in picks <==> k < limit && ToTest(c, log, c.sorted[k])))
    && (e.hadPass <==> Credited(c, at + picks, log, e))
  }

  lemma LogGrows(c: Inputs, at: seq<nat>, picks: seq<nat>, log: seq<Closed>, e: Closed, limit: nat)
    requires Logged(c, e.start, at, log, e.start) && NewEntry(c, at, picks, log, e, limit)
    ensures Logged(c, e.end, at + picks, log + [e], limit)
  {
    var longer := log + [e];
    forall n | 0 <= n < |longer|
      ensures EntryRight(c, at + picks, longer, n, limit)
    {
      if n < |log| {
        assert EntryRight(c, at, log, n, e.start) && longer[..n] == log[..n];
        EntryStays(c, at, picks, log, n, e.start, limit);
        assert EntryRight(c, at + picks, log, n, limit);
      } else {
        LastIsRight(c, at, picks, log, e, limit);
      }
    }
    NoGapAdded(log, e);
  }

  lemma NoGapAdded(log: seq<Closed>, e: Closed)
    requires Gapless(log, e.start) && e.start <= e.end
    ensures Gapless(log + [e], e.end)
  {
    var longer := log + [e];
    forall n | 0 < n < |longer|
      ensures longer[n].start == longer[n - 1].end
    {
      assert n < |log| ==> longer[n] == log[n];
    }
  }

  lemma LastIsRight(c: Inputs, at: seq<nat>, picks: seq<nat>, log: seq<Closed>, e: Closed, limit: nat)
    requires NewEntry(c, at, picks, log, e, limit)
    ensures EntryRight(c, at + picks, log + [e], |log|, limit)
  {
    assert (log + [e])[..|log|] == log;
    forall k: nat | e.start <= k < e.end
      ensures k in at + picks <==> k < limit && ToTest(c, log, c.sorted[k])
    {
      assert k !in at && (k in at + picks <==> k in picks);
    }
  }

  lemma EntryStays(c: Inputs, at: seq<nat>, picks: seq<nat>, log: seq<Closed>, n: nat, start: nat, limit: nat)
    requires n < |log| && EntryRight(c, at, log, n, start) && log[n].end <= start <= limit
    requires forall i :: 0 <= i < |picks| ==> start <= picks[i]
    ensures EntryRight(c, at + picks, log, n, limit)
  {
    var e := log[n];
    forall k: nat | e.start <= k < e.end
      ensures k in at + picks <==> k < limit && ToTest(c, log[..n], c.sorted[k])
    {
      assert k !in picks && (k in at + picks <==> k in at);
      assert k in at <==> k < start && ToTest(c, log[..n], c.sorted[k]);
    }
    CreditStays(c, at, picks, log[..n], e);
  }

  lemma CreditStays(c: Inputs, at: seq<nat>, picks: seq<nat>, log: seq<Closed>, e: Closed)
    requires e.start < |c.sorted| && forall i :: 0 <= i < |picks| ==> e.end <= picks[i]
    ensures Credited(c, at + picks, log, e) <==> Credited(c, at, log, e)
  {
    forall i: nat
      ensures TestedIn(at + picks, e, i) <==> TestedIn(at, e, i)
    {
      if |at| <= i < |at + picks| {
        assert (at + picks)[i] == picks[i - |at|];
      }
    }
  }

  // ---------- the families in turn ----------

  /** A family gated as a whole. */
  method GateFamily(c: Inputs, start: nat, tracker: FamilyNeedTracker, st: Tally, ghost at: seq<nat>,
                    ghost log: seq<Closed>)
    returns (idx: nat, st': Tally, ghost log': seq<Closed>)
    requires InFamilyOrder(c.sorted) && start < |c.sorted| && tracker.SkipFamily(c.sorted[start].family, c.level)
    requires Progress(c, start, st, at) && Flags(tracker, c, st.tested)
    requires FlagsMatch(tracker, c, log) && Logged(c, start, at, log, start)
    modifies tracker
    ensures start < idx <= |c.sorted| && Progress(c, idx, st', at) && Flags(tracker, c, st'.tested)
    ensures FlagsMatch(tracker, c, log') && Logged(c, idx, at, log', idx)
  {
    idx := SkipWholeFamily(c.sorted, start);
    forall k: nat | start <= k < idx
      ensures Excused(c, st.tested, c.sorted[k])
    {
      GatedIsExcused(tracker, c, st.tested, c.sorted[k]);
    }
    log' := log + [Closed(start, idx, false)];
    LogGated(c, start, idx, tracker, at, log);
    Finish(tracker, c, log, Closed(start, idx, false), c.sorted[start].family, false);
    st' := st.(done := st.done + (idx - start), skipped := st.skipped + (idx - start));
  }

  /** Records the result of a family in the flags. */
  method Finish(tracker: FamilyNeedTracker, ghost c: Inputs, ghost log: seq<Closed>, ghost e: Closed, family: Family,
                hadPass: bool)
    requires e.start < |c.sorted| && family == c.sorted[e.start].family && hadPass == e.hadPass &&
             FlagsMatch(tracker, c, log)
    modifies tracker
    ensures FlagsMatch(tracker, c, log + [e])
    ensures tracker.needMultisplit == if family == Multisplit then Flag(hadPass) else old(tracker.needMultisplit)
    ensures tracker.needHostfakesplit == if family == Hostfake then Flag(hadPass) else old(tracker.needHostfakesplit)
    ensures tracker.needFakedsplit == if IsFaked(family) then Flag(hadPass) else old(tracker.needFakedsplit)
    ensures tracker.needFakeddisorder == if IsFaked(family) then Flag(hadPass) else old(tracker.needFakeddisorder)
  {
    SatisfiedAfter(c, log, e, MultisplitChain);
    SatisfiedAfter(c, log, e, HostfakeChain);
    SatisfiedAfter(c, log, e, FakedChain);
    tracker.FinishFamily(family, hadPass);
  }

  lemma LogGated(c: Inputs, start: nat, idx: nat, tracker: FamilyNeedTracker, at: seq<nat>, log: seq<Closed>)
    requires start < idx <= |c.sorted| && tracker.SkipFamily(c.sorted[start].family, c.level)
    requires FlagsMatch(tracker, c, log) && Logged(c, start, at, log, start)
    requires forall i :: 0 <= i < |at| ==> at[i] < start
    requires WholeFamily(c, start, idx)
    ensures Logged(c, idx, at, log + [Closed(start, idx, false)], idx)
  {
    var e := Closed(start, idx, false);
    forall k: nat | start <= k < idx
      ensures !ToTest(c, log, c.sorted[k])
    {
      FlagsDecide(tracker, c, log, c.sorted[k]);
    }
    FlagsDecide(tracker, c, log, c.sorted[start]);
    assert forall i :: !TestedIn(at + [], e, i);
    LogGrows(c, at, [], log, e, idx);
    assert at + [] == at;
  }

  /** The state after the first `ran` members of a family were tested. */
  lemma AfterFamily(c: Inputs, start: nat, idx: nat, st: Tally, at: seq<nat>, items: seq<Strategy>, picks: seq<nat>,
                    ran: nat, gated: nat, passed: nat, hadPass: bool, ended: bool)
    requires start < idx <= |c.sorted| && Boundary(c.sorted, idx) && ran <= |items|
    requires Progress(c, start, st, at) && Collected(c, start, idx, items, picks)
    requires forall k: nat :: start <= k < idx && k !in picks ==> Excused(c, st.tested, c.sorted[k])
    requires Respects(c.sorted, st.tested + items[..ran], at + picks[..ran], idx, c.level, c.outcome)
    requires Judged(c, |st.tested|, |items|, ran, passed, hadPass, ended) && gated + |items| == idx - start
    ensures var st' := Tally(st.tested + items[..ran], st.done + gated + ran, st.skipped + gated, passed);
      if ended then Ended(c, st', at + picks[..ran]) else Progress(c, idx, st', at + picks[..ran])
  {
    MoreNotResumed(c, start, idx, st.tested, items, picks, ran);
    if ended {
      NoPassAdds(c.outcome, |st.tested|, |st.tested| + ran - 1);
    } else {
      assert items[..ran] == items && picks[..ran] == picks;
      StayExcused(c, start, idx, st.tested, at, items, picks);
      if c.level == Single {
        NoPassAdds(c.outcome, |st.tested|, |st.tested| + ran);
      }
    }
  }

  lemma MoreNotResumed(c: Inputs, start: nat, idx: nat, tested: seq<Strategy>, items: seq<Strategy>, picks: seq<nat>,
                       ran: nat)
    requires start < |c.sorted| && Collected(c, start, idx, items, picks) && ran <= |items| && NoneResumed(c, tested)
    ensures NoneResumed(c, tested + items[..ran])
  {
  }

  lemma StayExcused(c: Inputs, start: nat, idx: nat, tested: seq<Strategy>, at: seq<nat>, more: seq<Strategy>,
                    picks: seq<nat>)
    requires AllExcused(c, tested, at, start) && idx <= |c.sorted|
    requires forall k: nat :: start <= k < idx && k !in picks ==> Excused(c, tested, c.sorted[k])
    ensures AllExcused(c, tested + more, at + picks, idx)
  {
    forall k: nat | k < idx && k !in at + picks
      ensures Excused(c, tested + more, c.sorted[k])
    {
      assert k !in at && k !in picks;
      ExcusedGrows(c, tested, more, c.sorted[k]);
    }
  }

  lemma ChosenRespect(c: Inputs, start: nat, idx: nat, tracker: FamilyNeedTracker, st: Tally, at: seq<nat>,
                      items: seq<Strategy>, picks: seq<nat>, ran: nat)
    requires InFamilyOrder(c.sorted) && start < idx <= |c.sorted| && ran <= |items|
    requires Progress(c, start, st, at) && Flags(tracker, c, st.tested)
    requires !tracker.SkipFamily(c.sorted[start].family, c.level) && Collected(c, start, idx, items, picks)
    requires forall i :: 0 <= i < |items| ==> !tracker.SkipStrategy(items[i], c.level)
    ensures Respects(c.sorted, st.tested + items[..ran], at + picks[..ran], idx, c.level, c.outcome)
  {
    FamilyRespects(c.sorted, st.tested, at, start, c.level, c.outcome, tracker, items, picks, idx, ran);
  }

  lemma FlagsStayEarned(tracker: FamilyNeedTracker, c: Inputs, tested: seq<Strategy>, more: seq<Strategy>)
    requires FlagsEarned(tracker, c, tested)
    ensures FlagsEarned(tracker, c, tested + more)
  {
    forall family | Freed(c, tested, family)
      ensures Freed(c, tested + more, family)
    {
      FreedGrows(c, tested, more, family);
    }
  }

  /** Updates the flags after the first `ran` members of a family were tested. */
  method RecordFamily(ghost c: Inputs, ghost start: nat, ghost idx: nat, tracker: FamilyNeedTracker, ghost st: Tally,
                      ghost at: seq<nat>, ghost items: seq<Strategy>, ghost picks: seq<nat>, ghost ran: nat,
                      hadPass: bool, family: Family, ghost log: seq<Closed>)
    requires InFamilyOrder(c.sorted) && start < idx <= |c.sorted| && ran <= |items| && family == c.sorted[start].family
    requires FlagsMatch(tracker, c, log)
    requires Progress(c, start, st, at) && Flags(tracker, c, st.tested) && Collected(c, start, idx, items, picks)
    requires SomePass(c.outcome, |st.tested|, |st.tested| + ran) ==> hadPass
    requires hadPass ==> Freed(c, st.tested + items[..ran], family)
    modifies tracker
    ensures Flags(tracker, c, st.tested + items[..ran]) && FlagsMatch(tracker, c, log + [Closed(start, idx, hadPass)])
  {
    FlagsStayEarned(tracker, c, st.tested, items[..ran]);
    FlagsAfter(c.sorted, st.tested, at, start, c.outcome, items[..ran], hadPass, Multisplit);
    FlagsAfter(c.sorted, st.tested, at, start, c.outcome, items[..ran], hadPass, Hostfake);
    Finish(tracker, c, log, Closed(start, idx, hadPass), family, hadPass);
  }

  /** A test that passed, or a resumed member that worked, frees the dependents of the family. */
  lemma PassFrees(c: Inputs, start: nat, idx: nat, tested: seq<Strategy>, items: seq<Strategy>, picks: seq<nat>,
                  ran: nat, resumedTags: seq<string>)
    requires start < idx <= |c.sorted| && Collected(c, start, idx, items, picks) && ran <= |items|
    requires WholeFamily(c, start, idx)
    requires AllResumed(c, start, idx, resumedTags)
    requires SomePass(c.outcome, |tested|, |tested| + ran) || exists t :: t in resumedTags && t in c.working
    ensures Freed(c, tested + items[..ran], c.sorted[start].family)
  {
    var family := c.sorted[start].family;
    if SomePass(c.outcome, |tested|, |tested| + ran) {
      var i :| |tested| <= i < |tested| + ran && c.outcome(i);
      assert (tested + items[..ran])[i] == items[i - |tested|];
      assert PassedIn(tested + items[..ran], c.outcome, family);
    } else {
      var t :| t in resumedTags && t in c.working;
      assert ResumedFrom(c, start, idx, t);
      var k :| start <= k < idx && k < |c.sorted| && c.sorted[k].tag == t && c.resumed(t);
      assert Worked(c, c.sorted[k], family);
    }
  }

  /** The outcome of testing `ran` of `n` members after `before` tests; `hadPass` is what the family gets. */
  ghost predicate Judged(c: Inputs, before: nat, n: nat, ran: nat, passed: nat, hadPass: bool, ended: bool) {
    && ran <= n && passed == Passes(c.outcome, before + ran)
    && (SomePass(c.outcome, before, before + ran) ==> hadPass) && (n > 0 ==> ran > 0)
    && (ran > 0 && hadPass ==> SomePass(c.outcome, before, before + ran))
    && (if ended then c.level == Single && ran > 0 && c.outcome(before + ran - 1) else ran == n)
    && (c.level == Single ==> forall i :: before <= i < before + ran - (if ended then 1 else 0) ==> !c.outcome(i))
  }

  /** Tests the members of a family and decides whether it counts as passed. */
  method JudgeFamily(c: Inputs, start: nat, ghost idx: nat, ghost tested: seq<Strategy>, before: nat, passedBefore: nat,
                     familyItems: seq<Strategy>, resumedTags: seq<string>, ghost picks: seq<nat>)
    returns (ran: nat, passed: nat, hadPass: bool, ended: bool)
    requires start < idx <= |c.sorted| && Collected(c, start, idx, familyItems, picks)
    requires WholeFamily(c, start, idx)
    requires AllResumed(c, start, idx, resumedTags)
    requires before == |tested| && passedBefore == Passes(c.outcome, before)
    ensures Judged(c, before, |familyItems|, ran, passed, hadPass, ended)
    ensures hadPass ==> Freed(c, tested + familyItems[..ran], c.sorted[start].family)
    ensures familyItems == [] ==> (hadPass <==> exists t :: t in resumedTags && t in c.working)
  {
    var total;
    ran, passed, hadPass, total := TestFamily(familyItems, c.level, c.outcome, before, passedBefore);
    ended := c.level == Single && hadPass;
    if familyItems == [] {
      hadPass := exists t :: t in resumedTags && t in c.working;
    }
    if hadPass {
      PassFrees(c, start, idx, tested, familyItems, picks, ran, resumedTags);
    }
  }

  /** How far a run has looked: a PASS that ends it keeps it from the rest of the family. */
  ghost function Limit(idx: nat, at: seq<nat>, ended: bool): nat {
    if ended && at != [] then at[|at| - 1] + 1 else idx
  }

  lemma LogTested(c: Inputs, start: nat, idx: nat, at: seq<nat>, items: seq<Strategy>, picks: seq<nat>, before: nat,
                  ran: nat, passed: nat, hadPass: bool, ended: bool, resumedTags: seq<string>, log: seq<Closed>)
    requires start < idx <= |c.sorted| && Collected(c, start, idx, items, picks) && before == |at|
    requires forall i :: 0 <= i < |at| ==> at[i] < start
    requires Logged(c, start, at, log, start) && !WholeGated(c, log, c.sorted[start].family)
    requires WholeFamily(c, start, idx)
    requires forall k: nat :: start <= k < idx ==> (k in picks <==> ToTest(c, log, c.sorted[k]))
    requires Judged(c, before, |items|, ran, passed, hadPass, ended) && AllResumed(c, start, idx, resumedTags)
    requires items == [] ==> (hadPass <==> exists t :: t in resumedTags && t in c.working)
    ensures Logged(c, idx, at + picks[..ran], log + [Closed(start, idx, hadPass)], Limit(idx, at + picks[..ran], ended))
  {
    var e, limit := Closed(start, idx, hadPass), Limit(idx, at + picks[..ran], ended);
    forall k: nat | start <= k < idx
      ensures k in picks[..ran] <==> k < limit && ToTest(c, log, c.sorted[k])
    {
      PicksBelow(c, start, idx, items, picks, ran, k);
      assert ran < |picks| ==> ended;
    }
    CreditTested(c, start, idx, at, items, picks, ran, hadPass, resumedTags, log, passed, ended);
    LogGrows(c, at, picks[..ran], log, e, limit);
  }

  /** The picks tested are those up to the last one tested. */
  lemma PicksBelow(c: Inputs, start: nat, idx: nat, items: seq<Strategy>, picks: seq<nat>, ran: nat, k: nat)
    requires start < |c.sorted| && Collected(c, start, idx, items, picks) && ran <= |items|
    ensures k in picks[..ran] <==> k in picks && (if ran == 0 then false else k <= picks[ran - 1])
    ensures k in picks[..|items|] <==> k in picks
  {
    assert picks[..|items|] == picks;
  }

  lemma CreditTested(c: Inputs, start: nat, idx: nat, at: seq<nat>, items: seq<Strategy>, picks: seq<nat>, ran: nat,
                     hadPass: bool, resumedTags: seq<string>, log: seq<Closed>, passed: nat, ended: bool)
    requires start < idx <= |c.sorted| && Collected(c, start, idx, items, picks)
    requires forall i :: 0 <= i < |at| ==> at[i] < start
    requires !WholeGated(c, log, c.sorted[start].family)
    requires Judged(c, |at|, |items|, ran, passed, hadPass, ended) && AllResumed(c, start, idx, resumedTags)
    requires items == [] ==> (hadPass <==> exists t :: t in resumedTags && t in c.working)
    ensures hadPass <==> Credited(c, at + picks[..ran], log, Closed(start, idx, hadPass))
  {
    var e, all := Closed(start, idx, hadPass), at + picks[..ran];
    forall i: nat
      ensures TestedIn(all, e, i) <==> |at| <= i < |at| + ran
    {
      if |at| <= i < |at| + ran {
        assert all[i] == picks[i - |at|];
      }
    }
    if ran > 0 {
      assert TestedIn(all, e, |at|);
      if hadPass {
        var i :| |at| <= i < |at| + ran && c.outcome(i);
        assert TestedIn(all, e, i);
      }
      if i: nat :| TestedIn(all, e, i) && c.outcome(i) {
        assert SomePass(c.outcome, |at|, |at| + ran);
      }
    }
  }

  /** Tests the collected members of a family, and records whether it passed. */
  method TestMembers(c: Inputs, start: nat, ghost idx: nat, tracker: FamilyNeedTracker, st: Tally, ghost at: seq<nat>,
                     familyItems: seq<Strategy>, resumedTags: seq<string>, gated: nat, ghost picks: seq<nat>,
                     ghost log: seq<Closed>)
    returns (st': Tally, ended: bool, ghost at': seq<nat>, ghost log': seq<Closed>)
    requires start < idx <= |c.sorted| && FlagsMatch(tracker, c, log) && Logged(c, start, at, log, start)
    requires forall k: nat :: start <= k < idx ==> (k in picks <==> ToTest(c, log, c.sorted[k]))
    requires !WholeGated(c, log, c.sorted[start].family)
    requires InFamilyOrder(c.sorted) && start < idx <= |c.sorted| && Boundary(c.sorted, idx)
    requires Progress(c, start, st, at) && Flags(tracker, c, st.tested)
    requires !tracker.SkipFamily(c.sorted[start].family, c.level) && Collected(c, start, idx, familyItems, picks)
    requires WholeFamily(c, start, idx)
    requires forall i :: 0 <= i < |familyItems| ==> !tracker.SkipStrategy(familyItems[i], c.level)
    requires forall k: nat :: start <= k < idx && k !in picks ==> Excused(c, st.tested, c.sorted[k])
    requires AllResumed(c, start, idx, resumedTags)
    requires gated + |familyItems| == idx - start
    modifies tracker
    ensures Flags(tracker, c, st'.tested) && FlagsMatch(tracker, c, log')
    ensures if ended then Ended(c, st', at') else Progress(c, idx, st', at')
    ensures Logged(c, idx, at', log', Limit(idx, at', ended))
  {
    var ran, passed, hadPass;
    ran, passed, hadPass, ended := JudgeFamily(c, start, idx, st.tested, |st.tested|, st.passed, familyItems,
                                               resumedTags, picks);
    ChosenRespect(c, start, idx, tracker, st, at, familyItems, picks, ran);
    LogTested(c, start, idx, at, familyItems, picks, |st.tested|, ran, passed, hadPass, ended, resumedTags, log);
    log' := log + [Closed(start, idx, hadPass)];
    RecordFamily(c, start, idx, tracker, st, at, familyItems, picks, ran, hadPass, c.sorted[start].family, log);
    AfterFamily(c, start, idx, st, at, familyItems, picks, ran, gated, passed, hadPass, ended);
    st', at' := Tally(st.tested + familyItems[..ran], st.done + gated + ran, st.skipped + gated, passed),
        at + picks[..ran];
  }

  lemma PickedAreToTest(c: Inputs, start: nat, idx: nat, tracker: FamilyNeedTracker, items: seq<Strategy>,
                        picks: seq<nat>, log: seq<Closed>)
    requires start < idx <= |c.sorted| && Collected(c, start, idx, items, picks)
    requires Sifted(c, tracker, start, idx, items, picks) && FlagsMatch(tracker, c, log)
    requires !tracker.SkipFamily(c.sorted[start].family, c.level)
    requires WholeFamily(c, start, idx)
    ensures forall k: nat :: start <= k < idx ==> (k in picks <==> ToTest(c, log, c.sorted[k]))
    ensures !WholeGated(c, log, c.sorted[start].family)
  {
    FlagsDecide(tracker, c, log, c.sorted[start]);
    forall k: nat | start <= k < idx
      ensures k in picks <==> ToTest(c, log, c.sorted[k])
    {
      FlagsDecide(tracker, c, log, c.sorted[k]);
      if k in picks {
        var i :| 0 <= i < |picks| && picks[i] == k;
        assert items[i] == c.sorted[k];
      }
    }
  }

  /** Collects and tests one family, and records whether it passed. */
  method RunFamily(c: Inputs, start: nat, tracker: FamilyNeedTracker, st: Tally, ghost at: seq<nat>,
                   ghost log: seq<Closed>)
    returns (idx: nat, st': Tally, ended: bool, ghost at': seq<nat>, ghost log': seq<Closed>)
    requires FlagsMatch(tracker, c, log) && Logged(c, start, at, log, start)
    requires InFamilyOrder(c.sorted) && start < |c.sorted| && !tracker.SkipFamily(c.sorted[start].family, c.level)
    requires Progress(c, start, st, at) && Flags(tracker, c, st.tested)
    modifies tracker
    ensures start < idx <= |c.sorted| && Flags(tracker, c, st'.tested) && FlagsMatch(tracker, c, log')
    ensures if ended then Ended(c, st', at') else Progress(c, idx, st', at')
    ensures Logged(c, idx, at', log', Limit(idx, at', ended))
  {
    var familyItems, resumedTags, gated;
    ghost var picks;
    idx, familyItems, resumedTags, gated, picks := CollectFamily(c, start, tracker);
    NextBoundary(c.sorted, idx);
    forall k: nat | start <= k < idx && k !in picks
      ensures Excused(c, st.tested, c.sorted[k])
    {
      GatedIsExcused(tracker, c, st.tested, c.sorted[k]);
    }
    PickedAreToTest(c, start, idx, tracker, familyItems, picks, log);
    st', ended, at', log' := TestMembers(c, start, idx, tracker, st, at, familyItems, resumedTags, gated, picks, log);
  }

  /** The next family: gated as a whole, or collected and tested. */
  method NextFamily(c: Inputs, start: nat, tracker: FamilyNeedTracker, st: Tally, ghost at: seq<nat>,
                    ghost log: seq<Closed>)
    returns (idx: nat, st': Tally, ended: bool, ghost at': seq<nat>, ghost log': seq<Closed>)
    requires InFamilyOrder(c.sorted) && start < |c.sorted| && Progress(c, start, st, at) && Flags(tracker, c, st.tested)
    requires FlagsMatch(tracker, c, log) && Logged(c, start, at, log, start)
    modifies tracker
    ensures start < idx <= |c.sorted| && Flags(tracker, c, st'.tested) && FlagsMatch(tracker, c, log')
    ensures if ended then Ended(c, st', at') else Progress(c, idx, st', at')
    ensures Logged(c, idx, at', log', Limit(idx, at', ended))
  {
    at' := at;
    if tracker.SkipFamily(c.sorted[start].family, c.level) {
      ended := false;
      idx, st', log' := GateFamily(c, start, tracker, st, at, log);
    } else {
      idx, st', ended, at', log' := RunFamily(c, start, tracker, st, at, log);
    }
  }

  /** A finished run: gated where it must be, and only there. */
  ghost predicate Finished(c: Inputs, run: Tally, at: seq<nat>) {
    && CountsOk(run, c.outcome) && Subsequence(c.sorted, run.tested, at, |c.sorted|)
    && NoneResumed(c, run.tested)
    && (c.level == Single ==> NoPass(c.outcome, |run.tested| - 1))
    && (c.level != Full ==> MultisplitGate(run.tested, c.outcome) && HostfakeGate(run.tested, c.outcome))
    && ((c.level == Single && run.tested != [] && c.outcome(|run.tested| - 1))
        || (run.done == |c.sorted| && AllExcused(c, run.tested, at, |c.sorted|)))
  }

  /**
   The log of a finished run covers all strategies, or those up to the family whose PASS ended the run. It tells which
   were tested: below the limit, exactly those that are not resumed and that no family finished before gates.
   */
  ghost predicate FullyLogged(c: Inputs, run: Tally, at: seq<nat>, log: seq<Closed>, limit: nat) {
    if c.level == Single && run.tested != [] && c.outcome(|run.tested| - 1)
    then log != [] && at != [] && limit == at[|at| - 1] + 1 && Logged(c, log[|log| - 1].end, at, log, limit)
    else limit == |c.sorted| && Logged(c, |c.sorted|, at, log, limit)
  }

  /**
   The run without a stop request. `resumed` tells which labels an earlier session finished and `working` which of
   them worked; `outcome(i)` is the result of the i-th test.
   */
  method RunWithFamilyGates(items: seq<Strategy>, level: Level, resumed: string -> bool, working: set<string>,
                            outcome: nat -> bool)
    returns (run: Tally, ghost at: seq<nat>, ghost log: seq<Closed>, ghost limit: nat)
    ensures Finished(Inputs(SortByFamily(items), level, outcome, resumed, working), run, at)
    ensures FullyLogged(Inputs(SortByFamily(items), level, outcome, resumed, working), run, at, log, limit)
    ensures level != Single ==> run.done == |items|
  {
    var tracker := new FamilyNeedTracker();
    var c := Inputs(SortByFamily(items), level, outcome, resumed, working);
    SortOrders(items);
    SortLength(items);
    run, at, log := Tally([], 0, 0, 0), [], [];
    var idx := 0;
    while idx < |c.sorted|
      invariant fresh(tracker) && Flags(tracker, c, run.tested) && FlagsMatch(tracker, c, log)
      invariant idx <= |c.sorted| && Progress(c, idx, run, at) && Logged(c, idx, at, log, idx)
    {
      var ended;
      idx, run, ended, at, log := NextFamily(c, idx, tracker, run, at, log);
      limit := Limit(idx, at, ended);
      if ended {
        return;
      }
    }
    limit := |c.sorted|;
  }

  /** At the level `Full` exactly the strategies that are not resumed are tested. */
  lemma FullTestsTheRest(c: Inputs, run: Tally, at: seq<nat>, k: nat)
    requires Finished(c, run, at) && c.level == Full && k < |c.sorted|
    ensures k in at <==> !c.resumed(c.sorted[k].tag)
  {
    if k in at {
      var i :| 0 <= i < |at| && at[i] == k;
      assert c.sorted[at[i]] == run.tested[i];
    }
  }

  // ---------- the faked chain ----------

  /** A strategy of the faked chain that no other gate concerns. */
  ghost predicate OnlyFaked(s: Strategy, family: Family) {
    s.family == family && UsesFaked(s) && !UsesMultisplit(s)
  }

  lemma InOrder(a: Strategy, b: Strategy, d: Strategy)
    requires Rank(a.family) < Rank(b.family) < Rank(d.family)
    ensures SortByFamily([a, b, d]) == [a, b, d]
  {
    assert [a, b, d][1..] == [b, d] && [b, d][1..] == [d] && [d][1..] == [];
    assert SortByFamily([]) == [] && SortByFamily([d]) == Insert(d, []) == [d];
    assert SortByFamily([b, d]) == Insert(b, [d]) == [b, d];
    assert Insert(a, [b, d]) == [a, b, d];
  }

  lemma EntryFits(c: Inputs, at: seq<nat>, log: seq<Closed>, limit: nat, n: nat)
    requires n < |log| && AllRight(c, at, log, limit)
    ensures WholeFamily(c, log[n].start, log[n].end)
  {
    assert EntryRight(c, at, log, n, limit);
  }

  /** Three families of one strategy each are logged one by one. */
  lemma ThreeEntries(c: Inputs, at: seq<nat>, log: seq<Closed>)
    requires |c.sorted| == 3 && Logged(c, 3, at, log, 3)
    requires c.sorted[0].family != c.sorted[1].family && c.sorted[1].family != c.sorted[2].family
    ensures |log| == 3 && forall n :: 0 <= n < 3 ==> log[n].start == n && log[n].end == n + 1
  {
    EntryFits(c, at, log, 3, 0);
    EntryFits(c, at, log, 3, 1);
    EntryFits(c, at, log, 3, 2);
    if |log| > 3 {
      EntryFits(c, at, log, 3, 3);
    }
  }

  /** What the log says of the `n`-th of three families. */
  lemma EntryTells(c: Inputs, at: seq<nat>, log: seq<Closed>, n: nat)
    requires AllRight(c, at, log, 3) && n < |log| && log[n].start == n && log[n].end == n + 1 && n < 3 <= |c.sorted|
    requires c.level == Fast && (forall s :: !c.resumed(s)) && OnlyFaked(c.sorted[n], c.sorted[n].family)
    requires c.sorted[n].family != FakeHostfake
    ensures n in at <==> !Satisfied(c, log[..n], FakedChain)
    ensures log[n].hadPass <==> Credited(c, at, log[..n], log[n])
    ensures Satisfied(c, log[..n + 1], FakedChain) <==>
            if IsFaked(c.sorted[n].family) then log[n].hadPass else Satisfied(c, log[..n], FakedChain)
  {
    assert EntryRight(c, at, log, n, 3);
    assert log[..n + 1] == log[..n] + [log[n]];
    SatisfiedAfter(c, log[..n], log[n], FakedChain);
  }

  /** The first and the third of three such strategies are tested. */
  lemma FakedTests(c: Inputs, at: seq<nat>, log: seq<Closed>)
    requires |c.sorted| == 3 && c.level == Fast && (forall s :: !c.resumed(s)) && c.outcome(0)
    requires OnlyFaked(c.sorted[0], Fakedsplit) && OnlyFaked(c.sorted[1], Fakeddisorder)
    requires OnlyFaked(c.sorted[2], FakeFakedsplit)
    requires Logged(c, 3, at, log, 3) && forall i, j :: 0 <= i < j < |at| ==> at[i] < at[j]
    ensures 0 in at && 1 !in at && 2 in at
  {
    ThreeEntries(c, at, log);
    assert log[..0] == [];
    EntryTells(c, at, log, 0);
    FirstTestCounts(c, at, log[0]);
    EntryTells(c, at, log, 1);
    NoTestNoCredit(c, at, log[..1], log[1]);
    EntryTells(c, at, log, 2);
  }

  /**
   A PASS of the fakedsplit family gates the fakeddisorder family; that family, finished without a test, counts as
   failed and opens the gate again: a later strategy of the chain is tested.
   */
  lemma SkippedFamilyReopensGate(c: Inputs, run: Tally, at: seq<nat>, log: seq<Closed>)
    requires |c.sorted| == 3 && c.level == Fast && (forall s :: !c.resumed(s)) && c.outcome(0)
    requires OnlyFaked(c.sorted[0], Fakedsplit) && OnlyFaked(c.sorted[1], Fakeddisorder)
    requires OnlyFaked(c.sorted[2], FakeFakedsplit)
    requires Finished(c, run, at) && FullyLogged(c, run, at, log, 3)
    ensures at == [0, 2] && run.tested == [c.sorted[0], c.sorted[2]]
  {
    FakedTests(c, at, log);
    OnlyThese(at);
  }

  lemma FirstTestCounts(c: Inputs, at: seq<nat>, e: Closed)
    requires |c.sorted| == 3 && e.start == 0 && e.end == 1 && 0 in at && c.outcome(0)
    requires forall i, j :: 0 <= i < j < |at| ==> at[i] < at[j]
    ensures Credited(c, at, [], e)
  {
    assert at[0] == 0;
    assert TestedIn(at, e, 0);
  }

  lemma NoTestNoCredit(c: Inputs, at: seq<nat>, log: seq<Closed>, e: Closed)
    requires |c.sorted| == 3 && e.start == 1 && e.end == 2 && 1 !in at && forall s :: !c.resumed(s)
    ensures !Credited(c, at, log, e)
  {
    assert forall i: nat :: TestedIn(at, e, i) ==> at[i] == 1;
  }

  lemma {:induction false} AtLeast(at: seq<nat>, i: nat)
    requires (forall i, j :: 0 <= i < j < |at| ==> at[i] < at[j]) && 0 < i < |at| && 1 !in at
    ensures at[i] > i
  {
    if i > 1 {
      AtLeast(at, i - 1);
    } else {
      assert at[i] in at && at[0] < at[i];
    }
  }

  lemma OnlyThese(at: seq<nat>)
    requires (forall i, j :: 0 <= i < j < |at| ==> at[i] < at[j]) && (forall i :: 0 <= i < |at| ==> at[i] < 3)
    requires 0 in at && 1 !in at && 2 in at
    ensures at == [0, 2]
  {
    if |at| > 2 {
      AtLeast(at, 2);
    }
    assert at[0] == 0 && at[1] == 2;
  }

  /** Such a run: the first test passes, and yet the third strategy is tested. */
  method FakedGateReopens(a: Strategy, b: Strategy, d: Strategy) returns (run: Tally)
    requires OnlyFaked(a, Fakedsplit) && OnlyFaked(b, Fakeddisorder) && OnlyFaked(d, FakeFakedsplit)
    ensures run.tested == [a, d]
  {
    InOrder(a, b, d);
    ghost var at, log, limit;
    run, at, log, limit := RunWithFamilyGates([a, b, d], Fast, t => false, {}, i => i == 0);
    SkippedFamilyReopensGate(Inputs([a, b, d], Fast, i => i == 0, t => false, {}), run, at, log);
  }
}
