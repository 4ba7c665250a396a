/**
 Mid-run quarantine of domains that never pass. A probe result counts for its domain as a PASS, as a
 DPI FAIL or as a name-resolution FAIL; infrastructure FAILs do not count. A domain is quarantined when,
 without a PASS, one of the two FAIL counters reaches its threshold.
 How an error text is classified is an attribute of the event.
 */
module Quarantine {
  import opened Wrappers
  import opened Genetics

  datatype FailKind = DnsResolve | Infra | Dpi

  datatype Event = Event(domain: Domain, passed: bool, status: Option<string>, kind: FailKind) {
    /** A given status decides; otherwise the flag does. */
    predicate CountsAsPass() {
      if status.Some? then status.value == "PASS" || status.value == "THROTTLED" else passed
    }
  }

  datatype RawConfig = Config(enabled: bool, minAttempts: int, dnsResolveMin: int)

  type Config = c: RawConfig | c.minAttempts >= 1 && c.dnsResolveMin >= 1 witness Config(true, 300, 50)

  const QUARANTINE_MIN_LO := 1
  const QUARANTINE_MIN_HI := 10000

  /** A threshold from settings: absent or unreadable values give the default, the rest are clamped. */
  function ClampQuarantineMin(value: Option<int>, default: int): int {
    match value
    case None => default
    case Some(n) =>
      if n > QUARANTINE_MIN_HI then QUARANTINE_MIN_HI else if n < QUARANTINE_MIN_LO then QUARANTINE_MIN_LO else n
  }

  const DEFAULT_MIN_ATTEMPTS := 300
  const DEFAULT_DNS_RESOLVE_MIN := 50

  /** `r` is the threshold between 1 and 10000 that is nearest to the setting, or the default if there is none. */
  ghost predicate IsNearest(setting: Option<int>, default: int, r: int) {
    && 1 <= r <= 10000
    && match setting
      case None => r == default
      case Some(n) => forall m :: 1 <= m <= 10000 ==> Distance(n, r) <= Distance(n, m)
  }

  function Distance(a: int, b: int): nat {
    if a < b then b - a else a - b
  }

  /** The configuration of a campaign. Whatever the settings, the thresholds are in range, so that it is a `Config`. */
  function ConfigFromArgs(noQuarantine: bool, minAttempts: Option<int>, dnsResolveMin: Option<int>): (r: Option<Config>)
    ensures r.None? <==> noQuarantine
    ensures r.Some? ==>
              && r.value.enabled && IsNearest(minAttempts, DEFAULT_MIN_ATTEMPTS, r.value.minAttempts)
              && IsNearest(dnsResolveMin, DEFAULT_DNS_RESOLVE_MIN, r.value.dnsResolveMin)
  {
    if noQuarantine then None
    else Some(Config(true, ClampQuarantineMin(minAttempts, DEFAULT_MIN_ATTEMPTS),
                     ClampQuarantineMin(dnsResolveMin, DEFAULT_DNS_RESOLVE_MIN)))
  }

  datatype Stats = Stats(attempts: int, passed: int, dnsFails: int)

  /** What is noted about a quarantined domain. */
  datatype Info = Info(attempts: int, passed: int, failed: int)

  datatype State = State(stats: map<Domain, Stats>, quarantined: map<Domain, Info>)

  const EMPTY := State(map[], map[])

  function StatsOf(s: State, d: Domain): Stats {
    if d in s.stats then s.stats[d] else Stats(0, 0, 0)
  }

  function Mark(s: State, d: Domain, st: Stats, failed: int): State {
    State(s.stats[d := st], s.quarantined[d := Info(st.attempts, st.passed, failed)])
  }

  function Note(s: State, d: Domain, st: Stats): State {
    s.(stats := s.stats[d := st])
  }

  /** One probe result; the second component is the domain if it is quarantined just now. */
  function RecordProbe(c: Config, s: State, ev: Event): (State, Option<Domain>) {
    var d := ev.domain;
    var st := StatsOf(s, d);
    if !c.enabled || d in s.quarantined then (s, None)
    else if ev.CountsAsPass() then (Note(s, d, Stats(st.attempts + 1, st.passed + 1, st.dnsFails)), None)
    else match ev.kind
      case DnsResolve =>
        var st' := Stats(st.attempts, st.passed, st.dnsFails + 1);
        if st'.passed != 0 || st'.dnsFails < c.dnsResolveMin then (Note(s, d, st'), None)
        else (Mark(s, d, st', st'.dnsFails), Some(d))
      case Infra => (s, None)
      case Dpi =>
        var st' := Stats(st.attempts + 1, st.passed, st.dnsFails);
        if st'.attempts < c.minAttempts || st'.passed != 0 then (Note(s, d, st'), None)
        else (Mark(s, d, st', st'.attempts), Some(d))
  }

  /** One row of a bulk query over earlier sessions: attempts (or resolution FAILs) and PASSes of a domain. */
  datatype Row = Row(domain: Domain, total: int, passed: int)

  function Max(a: int, b: int): int {
    if a > b then a else b
  }

  function SeedRow(c: Config, s: State, row: Row): (State, Option<Domain>) {
    var d := row.domain;
    var old_ := StatsOf(s, d);
    var st := Stats(Max(old_.attempts, row.total), Max(old_.passed, row.passed), old_.dnsFails);
    if d !in s.quarantined && st.attempts >= c.minAttempts && st.passed == 0 then (Mark(s, d, st, st.attempts), Some(d))
    else (Note(s, d, st), None)
  }

  function SeedDnsRow(c: Config, s: State, row: Row): (State, Option<Domain>) {
    var d := row.domain;
    var old_ := StatsOf(s, d);
    var st := Stats(old_.attempts, Max(old_.passed, row.passed), Max(old_.dnsFails, row.total));
    if d !in s.quarantined && st.passed == 0 && st.dnsFails >= c.dnsResolveMin
    then (Mark(s, d, st, st.dnsFails), Some(d))
    else (Note(s, d, st), None)
  }

  /** Everything that can happen to the tracker, row by row. */
  datatype Op = Probe(ev: Event) | Seed(row: Row) | SeedDns(dnsRow: Row)

  function Step(c: Config, s: State, op: Op): (State, Option<Domain>) {
    match op
    case Probe(ev) => RecordProbe(c, s, ev)
    case Seed(row) => if c.enabled then SeedRow(c, s, row) else (s, None)
    case SeedDns(row) => if c.enabled then SeedDnsRow(c, s, row) else (s, None)
  }

  function RunFrom(c: Config, s: State, ops: seq<Op>): State {
    if ops == [] then s else Step(c, RunFrom(c, s, ops[..|ops| - 1]), ops[|ops| - 1]).0
  }

  /** The domains reported as newly quarantined, in order. */
  function Reports(c: Config, s: State, ops: seq<Op>): seq<Domain> {
    if ops == [] then []
    else
      var front := ops[..|ops| - 1];
      Reports(c, s, front) + match Step(c, RunFrom(c, s, front), ops[|ops| - 1]).1 case None => [] case Some(d) => [d]
  }

  function Probes(events: seq<Event>): seq<Op> {
    if events == [] then [] else Probes(events[..|events| - 1]) + [Probe(events[|events| - 1])]
  }

  function Run(c: Config, events: seq<Event>): State {
    if events == [] then EMPTY else RecordProbe(c, Run(c, events[..|events| - 1]), events[|events| - 1]).0
  }

  lemma {:induction false} ProbesOnly(c: Config, events: seq<Event>)
    ensures RunFrom(c, EMPTY, Probes(events)) == Run(c, events)
  {
    if events != [] {
      ProbesOnly(c, events[..|events| - 1]);
      assert Probes(events)[..|Probes(events)| - 1] == Probes(events[..|events| - 1]);
    }
  }

  // ---------- the trace theorem ----------

  /** A result without a status is what the probe says; with one, PASS and THROTTLED are passes and all else is not. */
  ghost predicate ToldPassed(ev: Event) {
    ev.status in {Some("PASS"), Some("THROTTLED")} || (ev.status == None && ev.passed)
  }

  ghost function Passes(events: seq<Event>, d: Domain): nat {
    if events == [] then 0
    else
      var ev := events[|events| - 1];
      Passes(events[..|events| - 1], d) + if ev.domain == d && ToldPassed(ev) then 1 else 0
  }

  ghost function Fails(events: seq<Event>, d: Domain, kind: FailKind): nat {
    if events == [] then 0
    else
      var ev := events[|events| - 1];
      Fails(events[..|events| - 1], d, kind) + if ev.domain == d && !ToldPassed(ev) && ev.kind == kind then 1 else 0
  }

  /** These results alone convict the domain. */
  ghost predicate Condemned(c: Config, events: seq<Event>, d: Domain) {
    Passes(events, d) == 0 && (Fails(events, d, Dpi) >= c.minAttempts ||
                               Fails(events, d, DnsResolve) >= c.dnsResolveMin)
  }

  ghost predicate EverCondemned(c: Config, events: seq<Event>, d: Domain) {
    exists n :: 0 <= n <= |events| && Condemned(c, events[..n], d)
  }

  lemma EverCondemnedGrows(c: Config, events: seq<Event>, d: Domain)
    requires events != []
    ensures EverCondemned(c, events, d) <==> EverCondemned(c, events[..|events| - 1], d) || Condemned(c, events, d)
  {
    var front := events[..|events| - 1];
    if EverCondemned(c, events, d) {
      var n :| 0 <= n <= |events| && Condemned(c, events[..n], d);
      if n < |events| {
        assert front[..n] == events[..n];
      } else {
        assert events[..n] == events;
      }
    }
    if EverCondemned(c, front, d) {
      var n :| 0 <= n <= |front| && Condemned(c, front[..n], d);
      assert front[..n] == events[..n];
    }
    assert events[..|events|] == events;
  }

  ghost predicate Counted(s: State, events: seq<Event>, d: Domain) {
    StatsOf(s, d) == Stats(Passes(events, d) + Fails(events, d, Dpi), Passes(events, d), Fails(events, d, DnsResolve))
  }

  lemma OneMoreResult(c: Config, s: State, events: seq<Event>, d: Domain)
    requires c.enabled && events != []
    requires d !in s.quarantined && Counted(s, events[..|events| - 1], d) && !Condemned(c, events[..|events| - 1], d)
    ensures var w := RecordProbe(c, s, events[|events| - 1]).0;
      && (d in w.quarantined <==> Condemned(c, events, d))
      && (d !in w.quarantined ==> Counted(w, events, d))
  {
  }

  // ---------- with rows of earlier sessions ----------

  /** What a trace of results and rows says of `d`: results add up, a row raises the counters to what it reports. */
  ghost function Tallied(ops: seq<Op>, d: Domain): Stats {
    if ops == [] then Stats(0, 0, 0)
    else
      var t := Tallied(ops[..|ops| - 1], d);
      match ops[|ops| - 1]
      case Probe(ev) => if ev.domain == d then Added(t, ev) else t
      case Seed(row) =>
        if row.domain != d then t
        else t.(attempts := AtLeast(t.attempts, row.total), passed := AtLeast(t.passed, row.passed))
      case SeedDns(row) =>
        if row.domain != d then t
        else t.(dnsFails := AtLeast(t.dnsFails, row.total), passed := AtLeast(t.passed, row.passed))
  }

  ghost function Added(t: Stats, ev: Event): Stats {
    if ToldPassed(ev) then Stats(t.attempts + 1, t.passed + 1, t.dnsFails)
    else if ev.kind == DnsResolve then t.(dnsFails := t.dnsFails + 1)
    else if ev.kind == Dpi then t.(attempts := t.attempts + 1)
    else t
  }

  /** `a` raised to `b` if that is more. */
  function AtLeast(a: int, b: int): (r: int)
    ensures a <= r && b <= r && (r == a || r == b)
  {
    Max(a, b)
  }

  ghost predicate Guilty(c: Config, st: Stats) {
    st.passed == 0 && (st.attempts >= c.minAttempts || st.dnsFails >= c.dnsResolveMin)
  }

  ghost predicate EverGuilty(c: Config, ops: seq<Op>, d: Domain) {
    exists n :: 0 <= n <= |ops| && Guilty(c, Tallied(ops[..n], d))
  }

  lemma EverGuiltyGrows(c: Config, ops: seq<Op>, d: Domain)
    requires ops != []
    ensures EverGuilty(c, ops, d) <==> EverGuilty(c, ops[..|ops| - 1], d) || Guilty(c, Tallied(ops, d))
  {
    var front := ops[..|ops| - 1];
    if EverGuilty(c, ops, d) {
      var n :| 0 <= n <= |ops| && Guilty(c, Tallied(ops[..n], d));
      assert if n < |ops| then front[..n] == ops[..n] else ops[..n] == ops;
    }
    if EverGuilty(c, front, d) {
      var n :| 0 <= n <= |front| && Guilty(c, Tallied(front[..n], d));
      assert front[..n] == ops[..n];
    }
    assert ops[..|ops|] == ops;
  }

  /** A state that has seen `st` of a domain at large, and what one more operation makes of it. */
  ghost predicate Follows(c: Config, s: State, d: Domain, st: Stats, op: Op) {
    var w := Step(c, s, op).0;
    && (d in w.quarantined <==> Guilty(c, st)) && StatsOf(w, d) == st && st.passed >= 0
  }

  lemma OneMoreProbe(c: Config, s: State, ev: Event, d: Domain)
    requires c.enabled && d !in s.quarantined && !Guilty(c, StatsOf(s, d)) && StatsOf(s, d).passed >= 0
    ensures Follows(c, s, d, if ev.domain == d then Added(StatsOf(s, d), ev) else StatsOf(s, d), Probe(ev))
  {
  }

  lemma OneMoreRow(c: Config, s: State, ops: seq<Op>, d: Domain)
    requires c.enabled && ops != [] && !ops[|ops| - 1].Probe? && d !in s.quarantined
    requires StatsOf(s, d) == Tallied(ops[..|ops| - 1], d) && !Guilty(c, StatsOf(s, d)) && StatsOf(s, d).passed >= 0
    ensures Follows(c, s, d, Tallied(ops, d), ops[|ops| - 1])
  {
  }

  /**
   Over any mix of results and rows of earlier sessions, a domain is under quarantine exactly if at some time nothing
   told of a PASS and one of the two counters was at its threshold.
   */
  lemma {:induction false} MixedTraceDecides(c: Config, ops: seq<Op>, d: Domain)
    requires c.enabled
    ensures d in RunFrom(c, EMPTY, ops).quarantined <==> EverGuilty(c, ops, d)
    ensures d !in RunFrom(c, EMPTY, ops).quarantined ==>
              StatsOf(RunFrom(c, EMPTY, ops), d) == Tallied(ops, d) && Tallied(ops, d).passed >= 0
  {
    if ops == [] {
      assert ops[..0] == [];
    } else {
      var front := ops[..|ops| - 1];
      MixedTraceDecides(c, front, d);
      EverGuiltyGrows(c, ops, d);
      if d !in RunFrom(c, EMPTY, front).quarantined {
        assert front[..|front|] == front;
        if ops[|ops| - 1].Probe? {
          OneMoreProbe(c, RunFrom(c, EMPTY, front), ops[|ops| - 1].ev, d);
        } else {
          OneMoreRow(c, RunFrom(c, EMPTY, front), ops, d);
        }
      } else {
        StaysQuarantined(c, RunFrom(c, EMPTY, front), ops[|ops| - 1], d);
      }
    }
  }

  lemma StaysQuarantined(c: Config, s: State, op: Op, d: Domain)
    requires d in s.quarantined
    ensures d in Step(c, s, op).0.quarantined
  {
  }

  /** Until a prefix convicts the domain, its counters are the counts over the trace; from then on it is quarantined. */
  lemma {:induction false} TraceDecides(c: Config, events: seq<Event>, d: Domain)
    requires c.enabled
    ensures d in Run(c, events).quarantined <==> EverCondemned(c, events, d)
    ensures d !in Run(c, events).quarantined ==> Counted(Run(c, events), events, d)
  {
    if events == [] {
      assert events[..0] == [];
    } else {
      var front := events[..|events| - 1];
      TraceDecides(c, front, d);
      EverCondemnedGrows(c, events, d);
      if d !in Run(c, front).quarantined {
        assert front[..|front|] == front;
        OneMoreResult(c, Run(c, front), events, d);
      }
    }
  }

  /** Results of other domains, and FAILs of the infrastructure, can be erased. */
  ghost function Relevant(events: seq<Event>, d: Domain): seq<Event> {
    if events == [] then []
    else
      var front, ev := Relevant(events[..|events| - 1], d), events[|events| - 1];
      if Concerns(ev, d) then front + [ev] else front
  }

  /** All that the tracker knows about one domain. */
  function Verdict(s: State, d: Domain): (Stats, Option<Info>) {
    (StatsOf(s, d), if d in s.quarantined then Some(s.quarantined[d]) else None)
  }

  ghost predicate Concerns(ev: Event, d: Domain) {
    ev.domain == d && (ToldPassed(ev) || ev.kind != Infra)
  }

  lemma OthersDoNotMatter(c: Config, s: State, ev: Event, d: Domain)
    requires !Concerns(ev, d)
    ensures Verdict(RecordProbe(c, s, ev).0, d) == Verdict(s, d)
  {
  }

  lemma OwnHistoryDecides(c: Config, s: State, t: State, ev: Event, d: Domain)
    requires Concerns(ev, d) && Verdict(s, d) == Verdict(t, d)
    ensures Verdict(RecordProbe(c, s, ev).0, d) == Verdict(RecordProbe(c, t, ev).0, d)
  {
  }

  lemma {:induction false} ErasureKeepsVerdict(c: Config, events: seq<Event>, d: Domain)
    ensures Verdict(Run(c, events), d) == Verdict(Run(c, Relevant(events, d)), d)
  {
    if events != [] {
      var front, ev := events[..|events| - 1], events[|events| - 1];
      ErasureKeepsVerdict(c, front, d);
      if Concerns(ev, d) {
        assert Relevant(events, d)[..|Relevant(events, d)| - 1] == Relevant(front, d);
        OwnHistoryDecides(c, Run(c, front), Run(c, Relevant(front, d)), ev, d);
      } else {
        OthersDoNotMatter(c, Run(c, front), ev, d);
      }
    }
  }

  // ---------- probes and seeds in any order ----------

  /** One step changes at most the quarantine of the domain it reports, and reports only new ones. */
  lemma StepReports(c: Config, s: State, op: Op)
    ensures var (w, r) := Step(c, s, op);
      && w.quarantined.Keys == s.quarantined.Keys + (if r.Some? then {r.value} else {})
      && (r.Some? ==> r.value !in s.quarantined)
      && (forall d :: d in s.quarantined ==> w.quarantined[d] == s.quarantined[d])
      && (forall d :: StatsOf(w, d).passed >= StatsOf(s, d).passed)
      && (r.Some? ==> StatsOf(w, r.value).passed <= 0)
  {
  }

  /** Quarantine is final, and every quarantined domain is reported exactly once. */
  lemma {:induction false} ReportedOnce(c: Config, ops: seq<Op>)
    ensures Distinct(Reports(c, EMPTY, ops))
    ensures forall d :: d in Reports(c, EMPTY, ops) <==> d in RunFrom(c, EMPTY, ops).quarantined
  {
    if ops != [] {
      var front, op := ops[..|ops| - 1], ops[|ops| - 1];
      ReportedOnce(c, front);
      StepReports(c, RunFrom(c, EMPTY, front), op);
    }
  }

  lemma {:induction false} QuarantineIsFinal(c: Config, s: State, ops: seq<Op>, d: Domain)
    requires d in s.quarantined
    ensures d in RunFrom(c, s, ops).quarantined && RunFrom(c, s, ops).quarantined[d] == s.quarantined[d]
    ensures d !in Reports(c, s, ops)
  {
    if ops != [] {
      QuarantineIsFinal(c, s, ops[..|ops| - 1], d);
      StepReports(c, RunFrom(c, s, ops[..|ops| - 1]), ops[|ops| - 1]);
    }
  }

  /** A domain that passed before it was quarantined stays out of quarantine whatever comes later. */
  lemma {:induction false} PassedStaysImmune(c: Config, s: State, ops: seq<Op>, d: Domain)
    requires d !in s.quarantined && StatsOf(s, d).passed > 0
    ensures d !in RunFrom(c, s, ops).quarantined && StatsOf(RunFrom(c, s, ops), d).passed > 0
  {
    if ops != [] {
      PassedStaysImmune(c, s, ops[..|ops| - 1], d);
      StepReports(c, RunFrom(c, s, ops[..|ops| - 1]), ops[|ops| - 1]);
    }
  }

  class DomainQuarantine {
    const config: Config
    var stats: map<Domain, Stats>
    var quarantined: map<Domain, Info>

    function Current(): State
      reads this
    {
      State(stats, quarantined)
    }

    constructor (config: Config)
      ensures this.config == config && Current() == EMPTY
    {
      this.config := config;
      stats, quarantined := map[], map[];
    }

    function ExcludeDomains(): set<Domain>
      reads this
    {
      quarantined.Keys
    }

    method MarkDomain(domain: Domain, st: Stats, failed: int)
      modifies this`quarantined
      ensures quarantined == old(quarantined)[domain := Info(st.attempts, st.passed, failed)]
    {
      quarantined := quarantined[domain := Info(st.attempts, st.passed, failed)];
    }

    method Record(ev: Event) returns (newly: Option<Domain>)
      modifies this
      ensures (Current(), newly) == RecordProbe(config, old(Current()), ev)
    {
      if !config.enabled || ev.domain in quarantined {
        return None;
      }
      var st := StatsOf(Current(), ev.domain);
      if ev.CountsAsPass() {
        stats := stats[ev.domain := Stats(st.attempts + 1, st.passed + 1, st.dnsFails)];
        return None;
      }
      if ev.kind == DnsResolve {
        st := st.(dnsFails := st.dnsFails + 1);
        stats := stats[ev.domain := st];
        if st.passed != 0 {
          return None;
        }
        if st.dnsFails < config.dnsResolveMin {
          return None;
        }
        MarkDomain(ev.domain, st, st.dnsFails);
        return Some(ev.domain);
      }
      if ev.kind == Infra {
        return None;
      }
      st := st.(attempts := st.attempts + 1);
      stats := stats[ev.domain := st];
      if st.attempts < config.minAttempts || st.passed != 0 {
        return None;
      }
      MarkDomain(ev.domain, st, st.attempts);
      return Some(ev.domain);
    }

    method SeedFromRows(rows: seq<Row>) returns (newly: seq<Domain>)
      modifies this
      ensures Current() == RunFrom(config, old(Current()), seq(|rows|, i requires 0 <= i < |rows| => Seed(rows[i])))
      ensures newly == Reports(config, old(Current()), seq(|rows|, i requires 0 <= i < |rows| => Seed(rows[i])))
    {
      newly := [];
      ghost var ops := seq(|rows|, i requires 0 <= i < |rows| => Seed(rows[i]));
      if !config.enabled {
        DisabledDoesNothing(config, Current(), ops);
        return;
      }
      for i := 0 to |rows|
        invariant Current() == RunFrom(config, old(Current()), ops[..i])
        invariant newly == Reports(config, old(Current()), ops[..i])
      {
        assert ops[..i + 1][..i] == ops[..i];
        var row := rows[i];
        var st := StatsOf(Current(), row.domain);
        st := st.(attempts := Max(st.attempts, row.total), passed := Max(st.passed, row.passed));
        stats := stats[row.domain := st];
        if row.domain !in quarantined && st.attempts >= config.minAttempts && st.passed == 0 {
          MarkDomain(row.domain, st, st.attempts);
          newly := newly + [row.domain];
        }
      }
      assert ops[..|rows|] == ops;
    }

    method SeedDnsResolveFromRows(rows: seq<Row>) returns (newly: seq<Domain>)
      modifies this
      ensures Current() == RunFrom(config, old(Current()), seq(|rows|, i requires 0 <= i < |rows| => SeedDns(rows[i])))
      ensures newly == Reports(config, old(Current()), seq(|rows|, i requires 0 <= i < |rows| => SeedDns(rows[i])))
    {
      newly := [];
      ghost var ops := seq(|rows|, i requires 0 <= i < |rows| => SeedDns(rows[i]));
      if !config.enabled {
        DisabledDoesNothing(config, Current(), ops);
        return;
      }
      for i := 0 to |rows|
        invariant Current() == RunFrom(config, old(Current()), ops[..i])
        invariant newly == Reports(config, old(Current()), ops[..i])
      {
        assert ops[..i + 1][..i] == ops[..i];
        var row := rows[i];
        var st := StatsOf(Current(), row.domain);
        st := st.(dnsFails := Max(st.dnsFails, row.total), passed := Max(st.passed, row.passed));
        stats := stats[row.domain := st];
        if row.domain !in quarantined && st.passed == 0 && st.dnsFails >= config.dnsResolveMin {
          MarkDomain(row.domain, st, st.dnsFails);
          newly := newly + [row.domain];
        }
      }
      assert ops[..|rows|] == ops;
    }
  }

  lemma {:induction false} DisabledDoesNothing(c: Config, s: State, ops: seq<Op>)
    requires !c.enabled
    ensures RunFrom(c, s, ops) == s && Reports(c, s, ops) == []
  {
    if ops != [] {
      DisabledDoesNothing(c, s, ops[..|ops| - 1]);
    }
  }
}
