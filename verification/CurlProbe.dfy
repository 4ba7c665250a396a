/**
 Repeated probes and the wall-clock budget of a probe batch. Attempts and durations are arbitrary inputs;
 time is a real number.
 */
module CurlProbe {
  import opened Wrappers

  const MAX_CURL_REPEATS := 10

  function Max(a: int, b: int): int {
    if a > b then a else b
  }

  function Min(a: int, b: int): int {
    if a < b then a else b
  }

  function ClampRepeats(n: int): (r: nat)
    ensures 1 <= r <= MAX_CURL_REPEATS && (1 <= n <= MAX_CURL_REPEATS ==> r == n)
  {
    Max(1, Min(MAX_CURL_REPEATS, n))
  }

  // ---------- repeats ----------

  datatype Attempt = Attempt(success: bool, detail: string)

  ghost predicate AnyPass(attempts: seq<Attempt>) {
    exists i :: 0 <= i < |attempts| && attempts[i].success
  }

  /** The first success of the attempts that ran, or the last attempt if there was none. */
  ghost predicate IsVerdict(ran: seq<Attempt>, r: Attempt) {
    && ran != []
    && if AnyPass(ran)
       then exists i :: 0 <= i < |ran| && ran[i].success && r == ran[i] && forall j :: 0 <= j < i ==> !ran[j].success
       else r == ran[|ran| - 1]
  }

  /** `first` is the first success among the attempts that ran, if any. */
  ghost predicate IsFirst(ran: seq<Attempt>, first: Option<Attempt>) {
    match first
    case None => !AnyPass(ran)
    case Some(a) => AnyPass(ran) && IsVerdict(ran, a)
  }

  lemma NextFirst(ran: seq<Attempt>, first: Option<Attempt>, a: Attempt)
    requires IsFirst(ran, first)
    ensures IsFirst(ran + [a], if first.None? && a.success then Some(a) else first)
  {
    var more := ran + [a];
    if first.Some? {
      var i :| 0 <= i < |ran| && ran[i].success && first.value == ran[i] && forall j :: 0 <= j < i ==> !ran[j].success;
      assert more[i].success && forall j :: 0 <= j < i ==> more[j] == ran[j];
    } else if a.success {
      assert more[|ran|] == a;
    }
  }

  /** Attempts one after the other on one session: `attempts[i]` is what the i-th would give. */
  method SequentialRepeats(attempts: seq<Attempt>, stable: bool, quickBreak: bool) returns (r: Attempt, ran: nat)
    requires attempts != []
    ensures 1 <= ran <= |attempts| && IsVerdict(attempts[..ran], r)
    ensures stable && !quickBreak ==> ran == |attempts|
    ensures !stable ==> forall i :: 0 <= i < ran - 1 ==> !attempts[i].success
    ensures !quickBreak ==> (r.success <==> AnyPass(attempts))
    ensures quickBreak ==> (r.success <==> attempts[0].success)
  {
    var firstPass: Option<Attempt> := None;
    r, ran := attempts[0], 0;
    while ran < |attempts|
      invariant 0 <= ran <= |attempts| && (ran > 0 ==> r == attempts[ran - 1])
      invariant IsFirst(attempts[..ran], firstPass) && (firstPass.Some? ==> stable)
      invariant quickBreak && ran > 0 ==> firstPass.Some? && attempts[0].success
    {
      r := attempts[ran];
      NextFirst(attempts[..ran], firstPass, r);
      ran := ran + 1;
      assert attempts[..ran] == attempts[..ran - 1] + [r];
      if r.success {
        if firstPass.None? {
          firstPass := Some(r);
        }
        if !stable {
          PassAmongAll(attempts, ran);
          return;
        }
      } else if quickBreak {
        break;
      }
    }
    PassAmongAll(attempts, ran);
    if firstPass.Some? {
      r := firstPass.value;
    }
  }

  lemma PassAmongAll(attempts: seq<Attempt>, ran: nat)
    requires ran <= |attempts|
    ensures AnyPass(attempts[..ran]) ==> AnyPass(attempts)
    ensures ran == |attempts| ==> attempts[..ran] == attempts
  {
  }

  /** Attempts on a thread pool, taken in the order they complete. */
  method ParallelRepeats(completed: seq<Attempt>, stable: bool) returns (r: Attempt, looked: nat)
    requires completed != []
    ensures 1 <= looked <= |completed| && IsVerdict(completed[..looked], r)
    ensures r.success <==> AnyPass(completed)
    ensures stable ==> looked == |completed|
  {
    var firstPass: Option<Attempt> := None;
    r, looked := completed[0], 0;
    while looked < |completed|
      invariant 0 <= looked <= |completed|
      invariant looked > 0 ==> r == completed[looked - 1]
      invariant firstPass.None? ==> forall i :: 0 <= i < looked ==> !completed[i].success
      invariant firstPass.Some? ==> stable && IsVerdict(completed[..looked], firstPass.value) && firstPass.value.success
    {
      r := completed[looked];
      looked := looked + 1;
      assert completed[..looked] == completed[..looked - 1] + [r];
      if r.success {
        assert completed[..looked][looked - 1].success;
        if firstPass.None? {
          assert IsVerdict(completed[..looked], r);
          firstPass := Some(r);
        }
        if !stable {
          return;
        }
      }
    }
    if firstPass.Some? {
      r := firstPass.value;
      assert AnyPass(completed[..looked]);
    }
  }

  /** The order in which attempts complete does not decide whether one of them passed. */
  lemma OrderIsIrrelevant(attempts: seq<Attempt>, completed: seq<Attempt>)
    requires multiset(attempts) == multiset(completed)
    ensures AnyPass(attempts) <==> AnyPass(completed)
  {
    forall i | 0 <= i < |attempts| && attempts[i].success
      ensures AnyPass(completed)
    {
      assert attempts[i] in multiset(completed);
    }
    forall i | 0 <= i < |completed| && completed[i].success
      ensures AnyPass(attempts)
    {
      assert completed[i] in multiset(attempts);
    }
  }

  /** Without quick break, the fast, the stable and the parallel mode agree on success, for every completion order. */
  method ModesAgree(attempts: seq<Attempt>, completed: seq<Attempt>, parallelStable: bool)
    returns (fast: Attempt, stable: Attempt, parallel: Attempt)
    requires attempts != [] && multiset(attempts) == multiset(completed)
    ensures fast.success == stable.success == parallel.success
  {
    var n;
    fast, n := SequentialRepeats(attempts, false, false);
    stable, n := SequentialRepeats(attempts, true, false);
    assert |multiset(attempts)| == |multiset(completed)|;
    parallel, n := ParallelRepeats(completed, parallelStable);
    OrderIsIrrelevant(attempts, completed);
  }

  // ---------- the wall-clock budget ----------

  function CeilDiv(n: nat, p: nat): nat
    requires p > 0
  {
    (n + p - 1) / p
  }

  /** The time allotted to one wave of requests. */
  function PerWave(probeTimeout: real, repeats: int, parallelRepeats: bool): real {
    var r := Max(1, repeats);
    if parallelRepeats && r > 1 then probeTimeout else probeTimeout * r as real
  }

  function WorkerWallTimeout(probeTimeout: real, repeats: int, nDomains: int, curlParallel: int, parallelRepeats: bool,
                             settleSlack: real): real
  {
    var waves := CeilDiv(Max(1, nDomains), Max(1, curlParallel));
    PerWave(probeTimeout, repeats, parallelRepeats) * waves as real + Slack(settleSlack)
  }

  function Slack(settleSlack: real): real {
    if settleSlack > 0.5 then settleSlack else 0.5
  }

  /** The size of the thread pool of a batch. */
  function PoolSize(curlParallel: int, n: nat): nat {
    Max(1, Min(curlParallel, n))
  }

  /** `finish[k]` is when thread `k` becomes free. The next request goes to a thread that is free first. */
  ghost predicate Assigned(finish: seq<real>, d: real, k: nat, finish': seq<real>) {
    && k < |finish| && finish' == finish[k := finish[k] + d]
    && forall j :: 0 <= j < |finish| ==> finish[k] <= finish[j]
  }

  /** A greedy schedule: `plan[i]` are the finishing times after the first `i` requests, `thread[i]` took the i-th. */
  ghost predicate Greedy(p: nat, durations: seq<real>, thread: seq<nat>, plan: seq<seq<real>>) {
    && |thread| == |durations| && |plan| == |durations| + 1
    && |plan[0]| == p && (forall k :: 0 <= k < p ==> plan[0][k] == 0.0)
    && forall i :: 0 <= i < |durations| ==> Assigned(plan[i], durations[i], thread[i], plan[i + 1])
  }

  /** How many threads are busy beyond `t`. */
  ghost function Late(finish: seq<real>, t: real): nat {
    if finish == [] then 0
    else Late(finish[..|finish| - 1], t) + if finish[|finish| - 1] > t then 1 else 0
  }

  /** `q` waves added up. */
  ghost function Waves(w: real, q: nat): real {
    if q == 0 then 0.0 else Waves(w, q - 1) + w
  }

  lemma {:induction false} WavesMultiply(w: real, q: nat)
    ensures Waves(w, q) == w * q as real
  {
    if q > 0 {
      WavesMultiply(w, q - 1);
      var below := (q - 1) as real;
      assert w * (below + 1.0) == w * below + w;
    }
  }

  lemma {:induction false} LateAfter(finish: seq<real>, t: real, k: nat, x: real)
    requires k < |finish|
    ensures Late(finish[k := x], t) <= Late(finish, t) + 1
    ensures x <= t ==> Late(finish[k := x], t) <= Late(finish, t)
  {
    var n := |finish| - 1;
    if k < n {
      assert finish[k := x][..n] == finish[..n][k := x];
      LateAfter(finish[..n], t, k, x);
    } else {
      assert finish[k := x][..n] == finish[..n];
    }
  }

  lemma {:induction false} SomeoneIsEarly(finish: seq<real>, t: real) returns (k: nat)
    requires Late(finish, t) < |finish|
    ensures k < |finish| && finish[k] <= t
  {
    var n := |finish| - 1;
    if finish[n] <= t {
      k := n;
    } else {
      k := SomeoneIsEarly(finish[..n], t);
    }
  }

  lemma {:induction false} NobodyIsLate(finish: seq<real>, t: real, k: nat)
    requires Late(finish, t) == 0 && k < |finish|
    ensures finish[k] <= t
  {
    if k < |finish| - 1 {
      NobodyIsLate(finish[..|finish| - 1], t, k);
    }
  }

  lemma {:induction false} NobodyStartsLate(finish: seq<real>, t: real)
    requires t >= 0.0 && forall k :: 0 <= k < |finish| ==> finish[k] == 0.0
    ensures Late(finish, t) == 0
  {
    if finish != [] {
      NobodyStartsLate(finish[..|finish| - 1], t);
    }
  }

  lemma {:induction false} WavesNotNegative(w: real, q: nat)
    requires w >= 0.0
    ensures Waves(w, q) >= 0.0
  {
    if q > 0 {
      WavesNotNegative(w, q - 1);
    }
  }

  /** After `i` requests of length at most `w`, at most `i - p*q` threads are busy beyond `q` waves. */
  lemma {:induction false} FewAreLate(p: nat, w: real, durations: seq<real>, thread: seq<nat>, plan: seq<seq<real>>,
                                      i: nat, q: nat)
    requires p > 0 && Greedy(p, durations, thread, plan) && i <= |durations|
    requires w >= 0.0 && forall j :: 0 <= j < |durations| ==> durations[j] <= w
    ensures |plan[i]| == p && Late(plan[i], Waves(w, q)) <= Max(0, i - p * q)
    decreases i
  {
    WavesNotNegative(w, q);
    if i == 0 {
      NobodyStartsLate(plan[0], Waves(w, q));
      assert p * q >= 0;
    } else {
      var finish, k, d := plan[i - 1], thread[i - 1], durations[i - 1];
      assert Assigned(finish, d, k, plan[i]);
      FewAreLate(p, w, durations, thread, plan, i - 1, q);
      LateAfter(finish, Waves(w, q), k, finish[k] + d);
      if i <= p * q {
        assert q > 0 && p * q == p * (q - 1) + p;
        FewAreLate(p, w, durations, thread, plan, i - 1, q - 1);
        var early := SomeoneIsEarly(finish, Waves(w, q - 1));
        assert finish[k] <= finish[early];
      }
    }
  }

  /** A greedy schedule on `p` threads ends within ceil(n/p) waves. */
  lemma GreedyEndsInTime(p: nat, w: real, durations: seq<real>, thread: seq<nat>, plan: seq<seq<real>>, q: nat, k: nat)
    requires p > 0 && Greedy(p, durations, thread, plan) && |durations| <= p * q
    requires w >= 0.0 && forall j :: 0 <= j < |durations| ==> durations[j] <= w
    requires k < p
    ensures |plan[|durations|]| == p && plan[|durations|][k] <= w * q as real
  {
    FewAreLate(p, w, durations, thread, plan, |durations|, q);
    NobodyIsLate(plan[|durations|], Waves(w, q), k);
    WavesMultiply(w, q);
  }

  lemma CeilCovers(n: nat, curlParallel: int)
    requires n > 0
    ensures n <= PoolSize(curlParallel, n) * CeilDiv(n, Max(1, curlParallel))
  {
    var p := Max(1, curlParallel);
    var q := CeilDiv(n, p);
    assert p * q >= n by {
      var m := n + p - 1;
      assert m == p * (m / p) + m % p && m % p < p;
    }
    if n < p {
      assert q == 1 by {
        assert p <= n + p - 1 < 2 * p;
      }
      assert n * q == n;
    }
  }

  ghost function Total(ds: seq<real>): real {
    if ds == [] then 0.0 else Total(ds[..|ds| - 1]) + ds[|ds| - 1]
  }

  lemma {:induction false} TotalWithin(ds: seq<real>, timeout: real)
    requires forall i :: 0 <= i < |ds| ==> ds[i] <= timeout
    ensures Total(ds) <= Waves(timeout, |ds|)
  {
    if ds != [] {
      TotalWithin(ds[..|ds| - 1], timeout);
    }
  }

  lemma {:induction false} WavesGrow(w: real, m: nat, n: nat)
    requires w >= 0.0 && m <= n
    ensures Waves(w, m) <= Waves(w, n)
  {
    if m < n {
      WavesGrow(w, m, n - 1);
    }
  }

  /** A request that repeats in sequence takes no longer than a wave, if no attempt exceeds the probe timeout. */
  lemma SequentialRequestFits(ds: seq<real>, timeout: real, repeats: int, parallelRepeats: bool)
    requires timeout >= 0.0 && |ds| <= ClampRepeats(repeats) && forall i :: 0 <= i < |ds| ==> ds[i] <= timeout
    requires !(parallelRepeats && ClampRepeats(repeats) > 1)
    ensures Total(ds) <= PerWave(timeout, repeats, parallelRepeats)
  {
    var r: nat := Max(1, repeats);
    TotalWithin(ds, timeout);
    WavesGrow(timeout, |ds|, r);
    WavesMultiply(timeout, r);
    assert PerWave(timeout, repeats, parallelRepeats) == timeout * r as real;
  }

  /** All attempts end within the probe timeout. */
  ghost predicate InTime(ds: seq<real>, timeout: real) {
    forall i :: 0 <= i < |ds| ==> ds[i] <= timeout
  }

  /** The attempts `ds` of one request, each on a thread of its own choice among as many, end at `d`. */
  ghost predicate EndsAt(ds: seq<real>, thread: seq<nat>, plan: seq<seq<real>>, d: real) {
    Greedy(|ds|, ds, thread, plan) && exists k :: 0 <= k < |plan[|ds|]| && d == plan[|ds|][k]
  }

  /** A request may take `d`: its attempts, each in time, run all at once or one after the other. */
  ghost predicate MayTake(timeout: real, repeats: int, parallelRepeats: bool, d: real) {
    var n := ClampRepeats(repeats);
    if parallelRepeats && n > 1
    then exists ds, thread, plan :: |ds| == n && InTime(ds, timeout) && EndsAt(ds, thread, plan, d)
    else exists ds :: |ds| <= n && InTime(ds, timeout) && d == Total(ds)
  }

  /** In both modes a request fits one wave of the budget. */
  lemma RequestFits(timeout: real, repeats: int, parallelRepeats: bool, d: real)
    requires timeout >= 0.0 && MayTake(timeout, repeats, parallelRepeats, d)
    ensures d <= PerWave(timeout, repeats, parallelRepeats)
  {
    var n := ClampRepeats(repeats);
    if parallelRepeats && n > 1 {
      var ds, thread, plan :| |ds| == n && InTime(ds, timeout) && EndsAt(ds, thread, plan, d);
      GreedyKeepsThreads(n, ds, thread, plan, n);
      var k :| 0 <= k < |plan[|ds|]| && d == plan[|ds|][k];
      GreedyEndsInTime(n, timeout, ds, thread, plan, 1, k);
    } else {
      var ds :| |ds| <= n && InTime(ds, timeout) && d == Total(ds);
      SequentialRequestFits(ds, timeout, repeats, parallelRepeats);
    }
  }

  lemma {:induction false} GreedyKeepsThreads(p: nat, durations: seq<real>, thread: seq<nat>, plan: seq<seq<real>>,
                                              i: nat)
    requires Greedy(p, durations, thread, plan) && i <= |durations|
    ensures |plan[i]| == p
  {
    if i > 0 {
      GreedyKeepsThreads(p, durations, thread, plan, i - 1);
      assert Assigned(plan[i - 1], durations[i - 1], thread[i - 1], plan[i - 1 + 1]);
    }
  }

  lemma WaveNotNegative(timeout: real, repeats: int, parallelRepeats: bool)
    requires timeout >= 0.0
    ensures PerWave(timeout, repeats, parallelRepeats) >= 0.0
  {
    if !(parallelRepeats && Max(1, repeats) > 1) {
      WavesNotNegative(timeout, Max(1, repeats));
      WavesMultiply(timeout, Max(1, repeats));
    }
  }

  /** The budget is sound: a greedy run of a batch whose requests each fit a wave ends within the timeout less slack. */
  lemma BatchFitsBudget(timeout: real, repeats: int, curlParallel: int, parallelRepeats: bool, slack: real,
                        durations: seq<real>, thread: seq<nat>, plan: seq<seq<real>>, k: nat)
    requires durations != [] && timeout >= 0.0
    requires Greedy(PoolSize(curlParallel, |durations|), durations, thread, plan)
    requires forall j :: 0 <= j < |durations| ==> durations[j] <= PerWave(timeout, repeats, parallelRepeats)
    requires k < PoolSize(curlParallel, |durations|)
    ensures |plan[|durations|]| == PoolSize(curlParallel, |durations|)
    ensures plan[|durations|][k] + 0.5 <=
              WorkerWallTimeout(timeout, repeats, |durations|, curlParallel, parallelRepeats, slack)
    ensures plan[|durations|][k] + slack <=
              WorkerWallTimeout(timeout, repeats, |durations|, curlParallel, parallelRepeats, slack)
  {
    var p := PoolSize(curlParallel, |durations|);
    var w := PerWave(timeout, repeats, parallelRepeats);
    WaveNotNegative(timeout, repeats, parallelRepeats);
    CeilCovers(|durations|, curlParallel);
    GreedyEndsInTime(p, w, durations, thread, plan, CeilDiv(|durations|, Max(1, curlParallel)), k);
  }

  /** At least half a second, and the slack asked for, before the timeout. */
  ghost predicate EndsBefore(end: real, slack: real, timeout: real) {
    end + 0.5 <= timeout && end + slack <= timeout
  }

  /** From attempts to the batch: if every attempt ends within the probe timeout, the batch ends within the budget. */
  lemma BatchEndsInTime(timeout: real, repeats: int, curlParallel: int, parallelRepeats: bool, slack: real,
                        durations: seq<real>, thread: seq<nat>, plan: seq<seq<real>>)
    requires durations != [] && timeout >= 0.0
    requires forall j :: 0 <= j < |durations| ==> MayTake(timeout, repeats, parallelRepeats, durations[j])
    requires Greedy(PoolSize(curlParallel, |durations|), durations, thread, plan)
    ensures forall k :: 0 <= k < |plan[|durations|]| ==>
              EndsBefore(plan[|durations|][k], slack,
                         WorkerWallTimeout(timeout, repeats, |durations|, curlParallel, parallelRepeats, slack))
  {
    forall j | 0 <= j < |durations|
      ensures durations[j] <= PerWave(timeout, repeats, parallelRepeats)
    {
      RequestFits(timeout, repeats, parallelRepeats, durations[j]);
    }
    GreedyKeepsThreads(PoolSize(curlParallel, |durations|), durations, thread, plan, |durations|);
    forall k | 0 <= k < |plan[|durations|]|
      ensures EndsBefore(plan[|durations|][k], slack,
                         WorkerWallTimeout(timeout, repeats, |durations|, curlParallel, parallelRepeats, slack))
    {
      BatchFitsBudget(timeout, repeats, curlParallel, parallelRepeats, slack, durations, thread, plan, k);
    }
  }

  // ---------- no smaller budget does ----------

  /** The finishing times after `i` requests of length `w`, given to `p` threads in turn. */
  ghost function InTurn(p: nat, w: real, i: nat): (finish: seq<real>)
    requires p > 0
    ensures |finish| == p
  {
    if i == 0 then seq(p, k => 0.0)
    else
      var before, k := InTurn(p, w, i - 1), (i - 1) % p;
      before[k := before[k] + w]
  }

  /** Every thread has had `i / p` requests, and the first `i % p` of them one more. */
  lemma {:induction false} TurnsAre(p: nat, w: real, i: nat)
    requires p > 0
    ensures forall k :: 0 <= k < p ==> InTurn(p, w, i)[k] == Waves(w, if k < i % p then i / p + 1 else i / p)
  {
    if i == 0 {
      assert 0 % p == 0 && 0 / p == 0;
    } else {
      TurnsAre(p, w, i - 1);
      NextTurn(i - 1, p);
    }
  }

  lemma NextTurn(i: nat, p: nat)
    requires p > 0
    ensures if i % p + 1 == p then (i + 1) / p == i / p + 1 && (i + 1) % p == 0
            else (i + 1) / p == i / p && (i + 1) % p == i % p + 1
  {
    var q, r := i / p, i % p;
    assert i == p * q + r;
    if r + 1 == p {
      assert p * q + p == p * (q + 1);
      Quotient(i + 1, p, q + 1, 0);
    } else {
      Quotient(i + 1, p, q, r + 1);
    }
  }

  lemma Quotient(n: nat, p: nat, q: nat, r: nat)
    requires r < p && n == p * q + r
    ensures n / p == q && n % p == r
  {
    var a, b := n / p, n % p;
    assert n == p * a + b && 0 <= b < p;
    assert p * q - p * a == p * (q - a);
    MultiplesAreFar(p, q - a);
  }

  lemma MultiplesAreFar(p: nat, d: int)
    requires p > 0
    ensures (d >= 1 ==> p * d >= p) && (d <= -1 ==> p * d + p <= 0)
  {
    if d >= 1 {
      assert p * d == p + p * (d - 1);
    } else if d <= -1 {
      assert p * d + p == p * (d + 1);
    }
  }

  /** The thread whose turn it is is free first. */
  lemma TurnIsGreedy(p: nat, w: real, i: nat)
    requires p > 0 && w >= 0.0
    ensures Assigned(InTurn(p, w, i), w, i % p, InTurn(p, w, i + 1))
  {
    TurnsAre(p, w, i);
    assert Waves(w, i / p) <= Waves(w, i / p + 1);
  }

  /** Requests of length `w`, given to the threads in turn. */
  ghost function Turns(p: nat, n: nat): (thread: seq<nat>)
    requires p > 0
    ensures |thread| == n && forall i :: 0 <= i < n ==> thread[i] == i % p
  {
    seq(n, i requires 0 <= i < n => i % p)
  }

  ghost function TurnPlan(p: nat, w: real, n: nat): (plan: seq<seq<real>>)
    requires p > 0
    ensures |plan| == n + 1 && forall i :: 0 <= i <= n ==> plan[i] == InTurn(p, w, i)
  {
    seq(n + 1, i requires 0 <= i <= n => InTurn(p, w, i))
  }

  function Equal(w: real, n: nat): (durations: seq<real>)
    ensures |durations| == n && forall i :: 0 <= i < n ==> durations[i] == w
  {
    seq(n, i => w)
  }

  lemma TurnsAreGreedy(p: nat, w: real, n: nat)
    requires p > 0 && w >= 0.0
    ensures Greedy(p, Equal(w, n), Turns(p, n), TurnPlan(p, w, n))
  {
    var durations, thread, plan := Equal(w, n), Turns(p, n), TurnPlan(p, w, n);
    forall i | 0 <= i < n
      ensures Assigned(plan[i], durations[i], thread[i], plan[i + 1])
    {
      TurnIsGreedy(p, w, i);
    }
  }

  lemma CeilIs(n: nat, p: nat)
    requires p > 0 && n > 0
    ensures CeilDiv(n, p) == (n - 1) / p + 1
  {
    var q, r := (n - 1) / p, (n - 1) % p;
    assert n - 1 == p * q + r;
    assert p * (q + 1) == p * q + p;
    Quotient(n + p - 1, p, q + 1, r);
  }

  /** The last of `n` requests of length `w` ends after all the waves that the budget counts. */
  lemma WavesAreNeeded(p: nat, w: real, n: nat)
    requires p > 0 && n > 0 && w >= 0.0
    ensures (n - 1) % p < p && InTurn(p, w, n)[(n - 1) % p] == Waves(w, CeilDiv(n, p))
  {
    TurnsAre(p, w, n - 1);
    CeilIs(n, p);
  }

  lemma {:induction false} TotalOfEqual(w: real, n: nat)
    ensures Total(Equal(w, n)) == Waves(w, n)
  {
    if n > 0 {
      assert Equal(w, n)[..n - 1] == Equal(w, n - 1);
      TotalOfEqual(w, n - 1);
    }
  }

  /** `n` attempts all at once take as long as one. */
  lemma OneWave(w: real, n: nat)
    requires n > 0 && w >= 0.0
    ensures EndsAt(Equal(w, n), Turns(n, n), TurnPlan(n, w, n), w)
  {
    TurnsAreGreedy(n, w, n);
    Quotient(n - 1, n, 0, n - 1);
    CeilIs(n, n);
    WavesAreNeeded(n, w, n);
    assert Waves(w, 1) == Waves(w, 0) + w;
    assert TurnPlan(n, w, n)[n][n - 1] == w;
  }

  /** Up to the most repeats, some request takes a whole wave, its attempts one after the other or all at once. */
  lemma WaveIsNeeded(timeout: real, repeats: int, parallelRepeats: bool)
    requires timeout >= 0.0 && repeats <= MAX_CURL_REPEATS
    ensures MayTake(timeout, repeats, parallelRepeats, PerWave(timeout, repeats, parallelRepeats))
  {
    var n := ClampRepeats(repeats);
    var ds := Equal(timeout, n);
    assert n == Max(1, repeats) && InTime(ds, timeout);
    if parallelRepeats && n > 1 {
      OneWave(timeout, n);
    } else {
      TotalOfEqual(timeout, n);
      WavesMultiply(timeout, n);
      assert PerWave(timeout, repeats, parallelRepeats) == Total(ds);
    }
  }

  /**
   The budget is tight: up to the most repeats, some greedy run of a batch whose attempts end within the probe timeout
   leaves nothing of the budget but the slack, which is half a second or the slack asked for.
   */
  lemma BudgetIsNeeded(timeout: real, repeats: int, curlParallel: int, parallelRepeats: bool, slack: real, n: nat)
    returns (durations: seq<real>, thread: seq<nat>, plan: seq<seq<real>>, k: nat)
    requires timeout >= 0.0 && n > 0 && repeats <= MAX_CURL_REPEATS
    ensures |durations| == n && forall i :: 0 <= i < n ==> MayTake(timeout, repeats, parallelRepeats, durations[i])
    ensures Greedy(PoolSize(curlParallel, n), durations, thread, plan) && k < |plan[n]|
    ensures var budget := WorkerWallTimeout(timeout, repeats, n, curlParallel, parallelRepeats, slack);
      plan[n][k] + 0.5 == budget || plan[n][k] + slack == budget
  {
    var w := PerWave(timeout, repeats, parallelRepeats);
    WaveNotNegative(timeout, repeats, parallelRepeats);
    WaveIsNeeded(timeout, repeats, parallelRepeats);
    durations := Equal(w, n);
    thread, plan, k := AllWaves(w, curlParallel, n);
    WavesMultiply(w, CeilDiv(n, Max(1, curlParallel)));
  }

  lemma AllWaves(w: real, curlParallel: int, n: nat) returns (thread: seq<nat>, plan: seq<seq<real>>, k: nat)
    requires w >= 0.0 && n > 0
    ensures Greedy(PoolSize(curlParallel, n), Equal(w, n), thread, plan) && k < |plan[n]|
    ensures plan[n][k] == Waves(w, CeilDiv(n, Max(1, curlParallel)))
  {
    var p := PoolSize(curlParallel, n);
    TurnsAreGreedy(p, w, n);
    WavesAreNeeded(p, w, n);
    SameWaves(curlParallel, n);
    thread, plan, k := Turns(p, n), TurnPlan(p, w, n), (n - 1) % p;
  }

  /** A pool cut down to the number of requests needs as many waves. */
  lemma SameWaves(curlParallel: int, n: nat)
    requires n > 0
    ensures CeilDiv(n, PoolSize(curlParallel, n)) == CeilDiv(n, Max(1, curlParallel))
  {
    var p := Max(1, curlParallel);
    if n < p {
      Quotient(n + n - 1, n, 1, n - 1);
      Quotient(n + p - 1, p, 1, n - 1);
    }
  }
}
