/**
 Age-pruning of the result tables. SQL conditions are evaluated in three-valued logic; a table is a map from row
 ids to rows, or absent. The whole prune is one transaction: an SQL error undoes it.
 */
module Prune {
  import opened Wrappers
  import opened Text

  // ---------- SQL conditions ----------

  datatype Truth = True | False | Null

  function And(a: Truth, b: Truth): Truth {
    if a == False || b == False then False else if a == True && b == True then True else Null
  }

  function Or(a: Truth, b: Truth): Truth {
    if a == True || b == True then True else if a == False && b == False then False else Null
  }

  function Not(a: Truth): Truth {
    match a case True => False case False => True case Null => Null
  }

  function Of(b: bool): Truth {
    if b then True else False
  }

  function IntLess(a: Option<int>, b: int): Truth {
    match a case None => Null case Some(x) => Of(x < b)
  }

  function TextLess(a: Option<string>, b: string): Truth {
    match a case None => Null case Some(x) => Of(LexLeq(x, b) && x != b)
  }

  function TextDiffers(a: Option<string>, b: string): Truth {
    match a case None => Null case Some(x) => Of(x != b)
  }

  function IntEquals(a: Option<int>, b: int): Truth {
    match a case None => Null case Some(x) => Of(x == b)
  }

  // ---------- tables ----------

  datatype Row = Row(strategyId: Option<int>, epochMs: Option<int>, timestamp: Option<string>)

  datatype Cutoff = Cutoff(ms: int, iso: string)

  type Results = map<int, Row>

  datatype Tables = Tables(tcp: Option<Results>, udp: Option<Results>, strategies: Option<set<int>>)

  datatype DbStats = DbStats(tcpRows: nat, udpRows: nat, orphanStrategies: nat, skippedLock: bool)

  /** The age condition of the statements. */
  function AgeCondition(r: Row, c: Cutoff): Truth {
    Or(And(Of(r.epochMs.Some?), IntLess(r.epochMs, c.ms)),
       And(And(And(Of(r.epochMs.None?), Of(r.timestamp.Some?)), TextDiffers(r.timestamp, "")),
           TextLess(r.timestamp, c.iso)))
  }

  /** An aged row: by its epoch if it has one, else by a non-empty timestamp. */
  predicate Aged(r: Row, c: Cutoff) {
    match r.epochMs
    case Some(ms) => ms < c.ms
    case None =>
      && r.timestamp.Some? && r.timestamp.value != ""
      && LexLeq(r.timestamp.value, c.iso) && r.timestamp.value != c.iso
  }

  /** The condition is never NULL, so that it and its negation split the rows, whatever columns are NULL. */
  lemma AgeConditionDecides(r: Row, c: Cutoff)
    ensures AgeCondition(r, c) == Of(Aged(r, c)) && Not(AgeCondition(r, c)) == Of(!Aged(r, c))
  {
  }

  /** The rows a `WHERE` selects are those for which the condition is true. */
  function AgedRows(t: Option<Results>, c: Cutoff): set<int> {
    if t.None? then {} else set id | id in t.value && AgeCondition(t.value[id], c) == True
  }

  /** The row is of strategy `s` and not aged. */
  predicate Keeps(r: Row, s: int, c: Cutoff) {
    And(IntEquals(r.strategyId, s), Not(AgeCondition(r, c))) == True
  }

  /** EXISTS over the rows of strategy `s` that are not aged; an absent table has none. */
  predicate KeptBy(t: Option<Results>, s: int, c: Cutoff) {
    t.Some? && exists id :: id in t.value && Keeps(t.value[id], s, c)
  }

  function OrphansAhead(db: Tables, c: Cutoff): set<int> {
    if db.strategies.None? then {}
    else set s | s in db.strategies.value && !KeptBy(db.tcp, s, c) && !KeptBy(db.udp, s, c)
  }

  function Referenced(t: Option<Results>): set<int> {
    if t.None? then {} else set id | id in t.value && t.value[id].strategyId.Some? :: t.value[id].strategyId.value
  }

  function DeleteAged(t: Option<Results>, c: Cutoff): Option<Results> {
    if t.None? then None else Some(t.value - AgedRows(t, c))
  }

  // ---------- the prune ----------

  function Preview(db: Tables, c: Cutoff, orphans: bool): DbStats {
    DbStats(|AgedRows(db.tcp, c)|, |AgedRows(db.udp, c)|, if orphans then |OrphansAhead(db, c)| else 0, false)
  }

  /** The orphan statement reads both result tables; if one is absent it is an error and the transaction is undone. */
  predicate Fails(db: Tables, c: Cutoff, orphans: bool) {
    orphans && OrphansAhead(db, c) != {} && (db.tcp.None? || db.udp.None?)
  }

  class Database {
    var tables: Tables

    constructor (tables: Tables)
      ensures this.tables == tables
    {
      this.tables := tables;
    }

    /** `DELETE FROM strategies WHERE id NOT IN (...)`; false is an SQL error. */
    method DeleteOrphans() returns (ok: bool)
      modifies this
      ensures ok <==> old(tables).strategies.Some? && old(tables).tcp.Some? && old(tables).udp.Some?
      ensures !ok ==> tables == old(tables)
      ensures ok ==> tables == old(tables).(strategies :=
                Some(old(tables).strategies.value * (Referenced(old(tables).tcp) + Referenced(old(tables).udp))))
    {
      if tables.strategies.None? || tables.tcp.None? || tables.udp.None? {
        return false;
      }
      var referenced := Referenced(tables.tcp) + Referenced(tables.udp);
      tables := tables.(strategies := Some(tables.strategies.value * referenced));
      return true;
    }

    method PruneDbResults(c: Cutoff, dryRun: bool, orphans: bool, locked: bool) returns (stats: DbStats)
      modifies this
      ensures stats == Preview(old(tables), c, orphans).(skippedLock := locked && !dryRun)
      ensures dryRun || locked ==> tables == old(tables)
      ensures !dryRun && !locked && Fails(old(tables), c, orphans) ==> tables == old(tables)
      ensures !dryRun && !locked && !Fails(old(tables), c, orphans) ==> tables == Pruned(old(tables), c, orphans)
    {
      stats := DbStats(0, 0, 0, false);
      var begun := tables;
      if tables.tcp.Some? {
        stats := stats.(tcpRows := |AgedRows(tables.tcp, c)|);
      }
      if tables.udp.Some? {
        stats := stats.(udpRows := |AgedRows(tables.udp, c)|);
      }
      if orphans {
        stats := stats.(orphanStrategies := |OrphansAhead(tables, c)|);
      }
      if locked && !dryRun {
        stats := stats.(skippedLock := true);
      } else if !dryRun {
        if tables.tcp.Some? && stats.tcpRows != 0 {
          tables := tables.(tcp := DeleteAged(tables.tcp, c));
        }
        if tables.udp.Some? && stats.udpRows != 0 {
          tables := tables.(udp := DeleteAged(tables.udp, c));
        }
        NothingAged(begun.tcp, c);
        NothingAged(begun.udp, c);
        OrphansAgree(begun, c);
        if orphans && stats.orphanStrategies != 0 && tables.strategies.Some? {
          var ok := DeleteOrphans();
          if !ok {
            tables := begun;
          }
        }
      }
    }
  }

  /** The tables after a prune that does not fail. */
  function Pruned(db: Tables, c: Cutoff, orphans: bool): Tables {
    Tables(DeleteAged(db.tcp, c), DeleteAged(db.udp, c),
           if orphans && db.strategies.Some? then Some(db.strategies.value - OrphansAhead(db, c)) else db.strategies)
  }

  lemma NothingAged(t: Option<Results>, c: Cutoff)
    ensures AgedRows(t, c) == {} ==> DeleteAged(t, c) == t
  {
    if t.Some? && AgedRows(t, c) == {} {
      assert t.value - {} == t.value;
    }
  }

  lemma KeptMeansReferenced(t: Option<Results>, s: int, c: Cutoff)
    ensures KeptBy(t, s, c) <==> s in Referenced(DeleteAged(t, c))
  {
    if KeptBy(t, s, c) {
      var id :| id in t.value && Keeps(t.value[id], s, c);
      AgeConditionDecides(t.value[id], c);
      assert id in DeleteAged(t, c).value;
    }
    if s in Referenced(DeleteAged(t, c)) {
      var id :| id in DeleteAged(t, c).value && DeleteAged(t, c).value[id].strategyId == Some(s);
      AgeConditionDecides(t.value[id], c);
      assert Keeps(t.value[id], s, c);
    }
  }

  /** The orphans foreseen are those that the orphan statement deletes once the aged rows are gone. */
  lemma OrphansAgree(db: Tables, c: Cutoff)
    ensures db.strategies.Some? && db.tcp.Some? && db.udp.Some? ==>
              db.strategies.value - OrphansAhead(db, c) ==
              db.strategies.value * (Referenced(DeleteAged(db.tcp, c)) + Referenced(DeleteAged(db.udp, c)))
    ensures db.strategies.Some? && OrphansAhead(db, c) == {} ==>
              db.strategies.value - OrphansAhead(db, c) == db.strategies.value
  {
    if db.strategies.Some? && db.tcp.Some? && db.udp.Some? {
      forall s
        ensures KeptBy(db.tcp, s, c) <==> s in Referenced(DeleteAged(db.tcp, c))
        ensures KeptBy(db.udp, s, c) <==> s in Referenced(DeleteAged(db.udp, c))
      {
        KeptMeansReferenced(db.tcp, s, c);
        KeptMeansReferenced(db.udp, s, c);
      }
    }
  }

  function Size(t: Option<Results>): nat {
    if t.None? then 0 else |t.value|
  }

  function StrategyCount(db: Tables): nat {
    if db.strategies.None? then 0 else |db.strategies.value|
  }

  /** How many rows are gone between two states. */
  ghost predicate Removed(before: Tables, after: Tables, stats: DbStats) {
    && Size(before.tcp) - Size(after.tcp) == stats.tcpRows
    && Size(before.udp) - Size(after.udp) == stats.udpRows
    && StrategyCount(before) - StrategyCount(after) == stats.orphanStrategies
  }

  lemma {:induction false} MapMinus(m: Results, ids: set<int>)
    requires ids <= m.Keys
    ensures |m - ids| == |m| - |ids|
  {
    assert (m - ids).Keys == m.Keys - ids;
    assert |m.Keys| == |m| && |(m - ids).Keys| == |m - ids|;
  }

  lemma DeletesThatMany(t: Option<Results>, c: Cutoff)
    ensures Size(t) - Size(DeleteAged(t, c)) == |AgedRows(t, c)|
  {
    if t.Some? {
      MapMinus(t.value, AgedRows(t, c));
    }
  }

  /** The state a prune leaves behind. */
  function After(db: Tables, c: Cutoff, orphans: bool): Tables {
    if Fails(db, c, orphans) then db else Pruned(db, c, orphans)
  }

  /**
   The counts of the preview are the rows that the prune deletes, exactly when the orphan statement does not fail:
   when orphans are asked for and found while a result table is absent, nothing is deleted although it is counted.
   */
  lemma PreviewIsEffect(db: Tables, c: Cutoff, orphans: bool)
    ensures Removed(db, After(db, c, orphans), Preview(db, c, orphans)) <==> !Fails(db, c, orphans)
  {
    DeletesThatMany(db.tcp, c);
    DeletesThatMany(db.udp, c);
    if db.strategies.Some? {
      var gone := OrphansAhead(db, c);
      assert gone <= db.strategies.value;
      assert |db.strategies.value - gone| == |db.strategies.value| - |gone|;
    }
  }

  /** The rows that are left are exactly those that are not aged, unchanged. */
  ghost predicate WithoutAged(before: Option<Results>, after: Option<Results>, c: Cutoff) {
    && (before.None? <==> after.None?)
    && (before.Some? ==>
          && (forall id :: id in after.value <==> id in before.value && !Aged(before.value[id], c))
          && forall id :: id in after.value ==> after.value[id] == before.value[id])
  }

  ghost predicate HasRow(t: Option<Results>, s: int) {
    t.Some? && exists id :: id in t.value && t.value[id].strategyId == Some(s)
  }

  /**
   A prune that does not fail leaves exactly the rows that are not aged and, if orphans are asked for, exactly the
   strategies that still have one; one that fails changes nothing.
   */
  lemma PruneIsExact(db: Tables, c: Cutoff, orphans: bool)
    ensures var w := After(db, c, orphans);
      if Fails(db, c, orphans) then w == db
      else
        && WithoutAged(db.tcp, w.tcp, c) && WithoutAged(db.udp, w.udp, c)
        && (db.strategies.None? <==> w.strategies.None?)
        && (db.strategies.Some? ==> forall s :: s in w.strategies.value <==>
              s in db.strategies.value && (orphans ==> HasRow(w.tcp, s) || HasRow(w.udp, s)))
  {
    DeletesExactly(db.tcp, c);
    DeletesExactly(db.udp, c);
    forall s
      ensures KeptBy(db.tcp, s, c) <==> HasRow(DeleteAged(db.tcp, c), s)
      ensures KeptBy(db.udp, s, c) <==> HasRow(DeleteAged(db.udp, c), s)
    {
      KeptMeansReferenced(db.tcp, s, c);
      KeptMeansReferenced(db.udp, s, c);
    }
  }

  lemma DeletesExactly(t: Option<Results>, c: Cutoff)
    ensures WithoutAged(t, DeleteAged(t, c), c)
  {
    forall r: Row
      ensures AgeCondition(r, c) == Of(Aged(r, c))
    {
      AgeConditionDecides(r, c);
    }
  }

  /** A prune removes no row that is not aged, and keeps every strategy that still has a result. */
  lemma PruneIsSafe(db: Tables, c: Cutoff, orphans: bool)
    ensures var w := After(db, c, orphans);
      && (db.tcp.Some? ==> w.tcp.Some? && forall id :: id in db.tcp.value && !Aged(db.tcp.value[id], c) ==>
            id in w.tcp.value && w.tcp.value[id] == db.tcp.value[id])
      && (db.udp.Some? ==> w.udp.Some? && forall id :: id in db.udp.value && !Aged(db.udp.value[id], c) ==>
            id in w.udp.value && w.udp.value[id] == db.udp.value[id])
      && (db.strategies.Some? ==> w.strategies.Some? && forall s ::
            s in db.strategies.value && (s in Referenced(w.tcp) || s in Referenced(w.udp)) ==> s in w.strategies.value)
  {
    forall r: Row
      ensures AgeCondition(r, c) == Of(Aged(r, c))
    {
      AgeConditionDecides(r, c);
    }
    forall s
      ensures KeptBy(db.tcp, s, c) <==> s in Referenced(DeleteAged(db.tcp, c))
      ensures KeptBy(db.udp, s, c) <==> s in Referenced(DeleteAged(db.udp, c))
    {
      KeptMeansReferenced(db.tcp, s, c);
      KeptMeansReferenced(db.udp, s, c);
    }
  }
}
