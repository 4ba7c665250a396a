/**
 The exploring branch of the queue picks a waiting job by reservoir sampling: the i-th candidate
 replaces the choice when a draw from 1..i gives 1. A run of the sampler is determined by its
 sequence of draws, so fairness is a count over all of them.
 */
module Reservoir {
  import opened Wrappers
  import opened Genetics

  /** Results that `randint(1, 1)`, `randint(1, 2)`, ... can give. */
  ghost predicate ValidDraws(draws: seq<nat>) {
    forall i :: 0 <= i < |draws| ==> 1 <= draws[i] <= i + 1
  }

  /** The keys, in order, whose domain is not in `exclude`. */
  function Outside(keys: seq<Key>, exclude: set<Domain>): (r: seq<Key>)
    ensures |r| <= |keys|
  {
    if keys == [] then []
    else
      var front, last := Outside(keys[..|keys| - 1], exclude), keys[|keys| - 1];
      if last.domain in exclude then front else front + [last]
  }

  lemma {:induction false} OutsideIsDistinct(keys: seq<Key>, exclude: set<Domain>)
    requires Distinct(keys)
    ensures Distinct(Outside(keys, exclude))
  {
    if keys != [] {
      var front, last := keys[..|keys| - 1], keys[|keys| - 1];
      OutsideIsDistinct(front, exclude);
      OutsideHas(front, exclude);
    }
  }

  lemma {:induction false} OutsideHas(keys: seq<Key>, exclude: set<Domain>)
    ensures forall k :: k in Outside(keys, exclude) <==> k in keys && k.domain !in exclude
  {
    if keys != [] {
      var front, last := keys[..|keys| - 1], keys[|keys| - 1];
      assert keys == front + [last];
      OutsideHas(front, exclude);
    }
  }

  /** The last of the first `n` draws that gave 1. */
  function LastOne(draws: seq<nat>, n: nat): (i: nat)
    requires 0 < n <= |draws| && draws[0] == 1
    ensures i < n && draws[i] == 1 && forall j :: i < j < n ==> draws[j] != 1
  {
    if draws[n - 1] == 1 then n - 1 else LastOne(draws, n - 1)
  }

  function Pick(keys: seq<Key>, draws: seq<nat>): Option<Key>
    requires |keys| <= |draws| && (draws != [] ==> draws[0] == 1)
  {
    if keys == [] then None else Some(keys[LastOne(draws, |keys|)])
  }

  /** One pass of the sampler over the waiting keys. */
  method Sample(keys: seq<Key>, exclude: set<Domain>, draws: seq<nat>) returns (chosen: Option<Key>, count: nat)
    requires ValidDraws(draws) && |keys| <= |draws|
    ensures count == |Outside(keys, exclude)| <= |draws|
    ensures chosen == Pick(Outside(keys, exclude), draws)
  {
    chosen, count := None, 0;
    for i := 0 to |keys|
      invariant count == |Outside(keys[..i], exclude)| <= i
      invariant chosen == Pick(Outside(keys[..i], exclude), draws)
    {
      assert keys[..i + 1][..i] == keys[..i];
      if keys[i].domain in exclude {
        continue;
      }
      count := count + 1;
      if draws[count - 1] == 1 {
        chosen := Some(keys[i]);
      }
    }
    assert keys[..|keys|] == keys;
  }

  // ---------- fairness ----------

  ghost function Factorial(n: nat): nat {
    if n == 0 then 1 else n * Factorial(n - 1)
  }

  /** Every sequence of `base` followed by one value from `lo` to `hi`. */
  ghost function Extend(base: set<seq<nat>>, lo: nat, hi: nat): set<seq<nat>> {
    set s, d | s in base && lo <= d <= hi :: s + [d]
  }

  /** All draw sequences for `n` candidates. */
  ghost function AllDraws(n: nat): set<seq<nat>> {
    if n == 0 then {[]} else Extend(AllDraws(n - 1), 1, n)
  }

  lemma {:induction false} AllDrawsAre(n: nat, s: seq<nat>)
    ensures s in AllDraws(n) <==> |s| == n && ValidDraws(s)
  {
    if n > 0 {
      if |s| == n {
        var front, last := s[..n - 1], s[n - 1];
        assert s == front + [last];
        AllDrawsAre(n - 1, front);
      }
      if s in AllDraws(n) {
        var f, d :| f in AllDraws(n - 1) && 1 <= d <= n && s == f + [d];
        AllDrawsAre(n - 1, f);
        assert s[..n - 1] == f;
      }
    }
  }

  lemma ExtendSplits(base: set<seq<nat>>, lo: nat, hi: nat)
    requires lo <= hi
    ensures Extend(base, lo, hi) == ExtendOne(base, lo) + Extend(base, lo + 1, hi)
    ensures ExtendOne(base, lo) !! Extend(base, lo + 1, hi)
  {
    assert forall s :: s in ExtendOne(base, lo) ==> |s| > 0 && s[|s| - 1] == lo;
    assert forall s :: s in Extend(base, lo + 1, hi) ==> |s| > 0 && s[|s| - 1] > lo;
  }

  lemma {:induction false} ExtendCounts(base: set<seq<nat>>, lo: nat, hi: nat)
    requires lo <= hi + 1
    ensures |Extend(base, lo, hi)| == |base| * (hi + 1 - lo)
    decreases hi + 1 - lo
  {
    if lo <= hi {
      ExtendSplits(base, lo, hi);
      ExtendOneCounts(base, lo);
      ExtendCounts(base, lo + 1, hi);
      OneMoreTime(|base|, hi - lo);
    } else {
      assert Extend(base, lo, hi) == {};
    }
  }

  lemma OneMoreTime(a: nat, b: nat)
    ensures a * (b + 1) == a + a * b
  {
  }

  ghost function ExtendOne(base: set<seq<nat>>, d: nat): set<seq<nat>> {
    set s | s in base :: s + [d]
  }

  lemma {:induction false} ExtendOneCounts(base: set<seq<nat>>, d: nat)
    ensures |ExtendOne(base, d)| == |base|
  {
    if base != {} {
      var s :| s in base;
      var rest := base - {s};
      ExtendOneCounts(rest, d);
      forall t | t in rest
        ensures t + [d] != s + [d]
      {
        assert (t + [d])[..|t|] == t && (s + [d])[..|s|] == s;
      }
      assert ExtendOne(base, d) == ExtendOne(rest, d) + {s + [d]};
    }
  }

  /** The draw sequences that make the sampler settle on candidate `j` of `n`. */
  ghost function Choosing(n: nat, j: nat): set<seq<nat>>
    requires j < n
  {
    set s | s in AllDraws(n) && |s| == n && s[0] == 1 && LastOne(s, n) == j
  }

  lemma {:induction false} DrawsCount(n: nat)
    ensures |AllDraws(n)| == Factorial(n)
  {
    if n > 0 {
      DrawsCount(n - 1);
      ExtendCounts(AllDraws(n - 1), 1, n);
    }
  }

  lemma LastOneOfPrefix(s: seq<nat>, n: nat)
    requires 1 < n == |s| && s[0] == 1 && s[n - 1] != 1
    ensures s[..n - 1][0] == 1 && LastOne(s, n) == LastOne(s[..n - 1], n - 1)
  {
    var i, f := LastOne(s, n), s[..n - 1];
    var j := LastOne(f, n - 1);
    assert s[j] == 1 && f[i] == 1;
  }

  /** `f + [d]` settles on `j` exactly if `d` is 1 and `j` is newest, or `d` is not 1 and `f` settles on `j`. */
  lemma ChoosingLast(n: nat, j: nat, f: seq<nat>, d: nat)
    requires j < n
    ensures f + [d] in Choosing(n, j) <==>
              && 1 <= d <= n && f in AllDraws(n - 1)
              && if j == n - 1 then d == 1 else d != 1 && f in Choosing(n - 1, j)
  {
    var s := f + [d];
    AllDrawsAre(n, s);
    AllDrawsAre(n - 1, f);
    assert s[|f|] == d && forall i :: 0 <= i < |f| ==> s[i] == f[i];
    if |f| == n - 1 && 1 <= d <= n && f in AllDraws(n - 1) {
      assert s[..n - 1] == f;
      if d != 1 {
        LastOneOfPrefix(s, n);
      }
    }
  }

  /** Choosing the newest candidate takes a final 1; choosing an older one takes any other final draw. */
  lemma ChoosingSplits(n: nat, j: nat)
    requires j < n
    ensures j == n - 1 ==> Choosing(n, j) == Extend(AllDraws(n - 1), 1, 1)
    ensures j < n - 1 ==> Choosing(n, j) == Extend(Choosing(n - 1, j), 2, n)
  {
    forall s | s in Choosing(n, j)
      ensures j == n - 1 ==> s in Extend(AllDraws(n - 1), 1, 1)
      ensures j < n - 1 ==> s in Extend(Choosing(n - 1, j), 2, n)
    {
      assert s == s[..n - 1] + [s[n - 1]];
      ChoosingLast(n, j, s[..n - 1], s[n - 1]);
    }
    if j == n - 1 {
      forall s | s in Extend(AllDraws(n - 1), 1, 1)
        ensures s in Choosing(n, j)
      {
        var f, d :| f in AllDraws(n - 1) && 1 <= d <= 1 && s == f + [d];
        ChoosingLast(n, j, f, d);
      }
    } else {
      forall s | s in Extend(Choosing(n - 1, j), 2, n)
        ensures s in Choosing(n, j)
      {
        var f, d :| f in Choosing(n - 1, j) && 2 <= d <= n && s == f + [d];
        ChoosingLast(n, j, f, d);
      }
    }
  }

  lemma FactorialStep(n: nat)
    requires n > 0
    ensures Factorial(n) == Factorial(n - 1) * n
  {
  }

  /** Each of the `n` candidates is picked by exactly (n-1)! draw sequences. */
  lemma {:induction false} PickIsFair(n: nat, j: nat)
    requires j < n
    ensures |Choosing(n, j)| == Factorial(n - 1)
  {
    ChoosingSplits(n, j);
    if j == n - 1 {
      DrawsCount(n - 1);
      ExtendCounts(AllDraws(n - 1), 1, 1);
    } else {
      PickIsFair(n - 1, j);
      ExtendCounts(Choosing(n - 1, j), 2, n);
      FactorialStep(n - 1);
    }
  }

  /** The draw sequences that make the sampler pick `k` from `keys`. */
  ghost function Picking(keys: seq<Key>, k: Key): set<seq<nat>> {
    set s | s in AllDraws(|keys|) && |keys| <= |s| && (s != [] ==> s[0] == 1) && Pick(keys, s) == Some(k)
  }

  /** Every waiting candidate, whatever its place, is the pick of exactly (n-1)! of the n! draw sequences. */
  lemma EveryKeyIsFair(keys: seq<Key>, k: Key)
    requires Distinct(keys) && k in keys
    ensures |Picking(keys, k)| == Factorial(|keys| - 1)
    ensures |AllDraws(|keys|)| == Factorial(|keys|)
  {
    var n := |keys|;
    var j :| 0 <= j < n && keys[j] == k;
    forall s
      ensures s in Picking(keys, k) <==> s in Choosing(n, j)
    {
      AllDrawsAre(n, s);
    }
    assert Picking(keys, k) == Choosing(n, j);
    PickIsFair(n, j);
    DrawsCount(n);
  }

  /** `draw(i)` is what the sampler may draw for its candidate number `i`, counted from 0. */
  ghost predicate CanDraw(draw: nat -> nat) {
    forall i: nat :: 1 <= draw(i) <= i + 1
  }

  function Draws(draw: nat -> nat, n: nat): (draws: seq<nat>)
    ensures |draws| == n && forall i :: 0 <= i < n ==> draws[i] == draw(i)
  {
    seq(n, i requires 0 <= i < n => draw(i))
  }

  /** `k` is the sampler's choice outside all exclusions, or outside the hard ones if nothing else is left. */
  ghost predicate Chosen(order: seq<Key>, soft: set<Domain>, hard: set<Domain>, draws: seq<nat>, k: Key) {
    && ValidDraws(draws) && |order| <= |draws|
    && (Outside(order, soft + hard) != [] ==> Pick(Outside(order, soft + hard), draws) == Some(k))
    && (Outside(order, soft + hard) == [] ==> Pick(Outside(order, hard), draws) == Some(k))
  }

  /** Draws that pick the candidate at position `j`. */
  function DrawsFor(n: nat, j: nat): (draws: seq<nat>)
    ensures |draws| == n && ValidDraws(draws)
  {
    seq(n, i requires 0 <= i < n => if i == 0 || i == j then 1 else i + 1)
  }

  lemma DrawsForPick(keys: seq<Key>, n: nat, j: nat)
    requires j < |keys| <= n
    ensures DrawsFor(n, j)[0] == 1 && Pick(keys, DrawsFor(n, j)) == Some(keys[j])
  {
    assert DrawsFor(n, j)[j] == 1;
    assert forall i :: j < i < |keys| ==> DrawsFor(n, j)[i] != 1;
  }
}
