/**
 Strategies, domains and jobs, and the weight table that ranks strategies by their genetics:
 family, blobs and traits. Features that the program reads off a strategy string with
 regular expressions are attributes of the strategy; the two feature lists never repeat a name.
 Weights are real numbers.
 */
module Genetics {
  import opened Wrappers

  datatype RawItem = Item(tag: string, protocol: string, family: string, blobs: seq<string>, traits: seq<string>)

  type Item = i: RawItem | Distinct(i.blobs) && Distinct(i.traits) witness Item("", "", "", [], [])

  /** A domain with the cluster its name falls in. */
  datatype Domain = Domain(name: string, cluster: string)

  datatype Key = Key(tag: string, domain: Domain)

  datatype Job = Job(item: Item, domain: Domain, fanout: bool) {
    function JobKey(): Key {
      Key(item.tag, domain)
    }
  }

  datatype Table = Table(family: map<string, real>, blob: map<string, real>, trait_: map<string, real>)

  /** The first strategy with the given label. */
  function ItemFor(items: seq<Item>, tag: string): Option<Item> {
    if items == [] then None
    else
      var front, last := ItemFor(items[..|items| - 1], tag), items[|items| - 1];
      if front.Some? then front else if last.tag == tag then Some(last) else None
  }

  lemma {:induction false} ItemForFinds(items: seq<Item>, tag: string)
    ensures ItemFor(items, tag).Some? <==> exists i :: 0 <= i < |items| && items[i].tag == tag
    ensures ItemFor(items, tag).Some? ==> ItemFor(items, tag).value.tag == tag
  {
    if items != [] {
      ItemForFinds(items[..|items| - 1], tag);
    }
  }

  lemma {:induction false} ItemForStays(items: seq<Item>, i: nat, tag: string)
    requires i <= |items| && ItemFor(items[..i], tag).Some?
    ensures ItemFor(items, tag) == ItemFor(items[..i], tag)
  {
    if i < |items| {
      var front := items[..|items| - 1];
      assert front[..i] == items[..i];
      ItemForStays(front, i, tag);
    } else {
      assert items[..i] == items;
    }
  }

  const MAX_WEIGHT := 64.0
  const FAMILY_BOOST := 1.0
  const BLOB_BOOST := 0.5
  const TRAIT_BOOST := 0.4

  function Lookup(m: map<string, real>, name: string, default: real): real {
    if name in m then m[name] else default
  }

  function Sum(m: map<string, real>, names: seq<string>): real {
    if names == [] then 0.0
    else Sum(m, names[..|names| - 1]) + Lookup(m, names[|names| - 1], 0.0)
  }

  /** The priority of a strategy. */
  function Score(t: Table, item: Item): real {
    Lookup(t.family, item.family, 1.0) + Sum(t.blob, item.blobs) + Sum(t.trait_, item.traits)
  }

  function Raise(w: real, step: real): real {
    if w + step < MAX_WEIGHT then w + step else MAX_WEIGHT
  }

  function RaiseAll(m: map<string, real>, names: seq<string>, step: real): map<string, real> {
    if names == [] then m
    else
      var m' := RaiseAll(m, names[..|names| - 1], step);
      var last := names[|names| - 1];
      m'[last := Raise(Lookup(m', last, 0.0), step)]
  }

  /** The table after a PASS of `item`. */
  function Boost(t: Table, item: Item): Table {
    Table(t.family[item.family := Raise(Lookup(t.family, item.family, 1.0), FAMILY_BOOST)],
          RaiseAll(t.blob, item.blobs, BLOB_BOOST),
          RaiseAll(t.trait_, item.traits, TRAIT_BOOST))
  }

  /** The most that one PASS can add to the priority of `item`. */
  function Rise(item: Item): real {
    FAMILY_BOOST + BLOB_BOOST * |item.blobs| as real + TRAIT_BOOST * |item.traits| as real
  }

  lemma {:induction false} RaiseAllOnce(m: map<string, real>, names: seq<string>, step: real, x: string)
    requires Distinct(names)
    ensures Lookup(RaiseAll(m, names, step), x, 0.0) ==
            if x in names then Raise(Lookup(m, x, 0.0), step) else Lookup(m, x, 0.0)
  {
    if names != [] {
      var front, last := names[..|names| - 1], names[|names| - 1];
      assert names == front + [last];
      RaiseAllOnce(m, front, step, x);
      RaiseAllOnce(m, front, step, last);
    }
  }

  /** `n` steps added up. */
  ghost function Steps(step: real, n: nat): real {
    if n == 0 then 0.0 else Steps(step, n - 1) + step
  }

  lemma {:induction false} BlobSteps(n: nat)
    ensures Steps(BLOB_BOOST, n) == BLOB_BOOST * n as real
  {
    if n > 0 {
      BlobSteps(n - 1);
    }
  }

  lemma {:induction false} TraitSteps(n: nat)
    ensures Steps(TRAIT_BOOST, n) == TRAIT_BOOST * n as real
  {
    if n > 0 {
      TraitSteps(n - 1);
    }
  }

  lemma {:induction false} SumRise(m: map<string, real>, boosted: seq<string>, step: real, names: seq<string>)
    requires Distinct(boosted) && step >= 0.0
    ensures Sum(RaiseAll(m, boosted, step), names) <= Sum(m, names) + Steps(step, |names|)
  {
    if names != [] {
      SumRise(m, boosted, step, names[..|names| - 1]);
      RaiseAllOnce(m, boosted, step, names[|names| - 1]);
    }
  }

  /** One PASS of any strategy raises the priority of any strategy by at most its own `Rise`. */
  lemma BoostRise(t: Table, passed: Item, item: Item)
    ensures Score(Boost(t, passed), item) <= Score(t, item) + Rise(item)
  {
    BlobSteps(|item.blobs|);
    TraitSteps(|item.traits|);
    SumRise(t.blob, passed.blobs, BLOB_BOOST, item.blobs);
    SumRise(t.trait_, passed.traits, TRAIT_BOOST, item.traits);
  }

  ghost predicate Capped(t: Table) {
    && (forall f :: f in t.family ==> t.family[f] <= MAX_WEIGHT)
    && (forall b :: b in t.blob ==> t.blob[b] <= MAX_WEIGHT)
    && (forall x :: x in t.trait_ ==> t.trait_[x] <= MAX_WEIGHT)
  }

  lemma {:induction false} RaiseAllCapped(m: map<string, real>, names: seq<string>, step: real)
    requires forall x :: x in m ==> m[x] <= MAX_WEIGHT
    ensures forall x :: x in RaiseAll(m, names, step) ==> RaiseAll(m, names, step)[x] <= MAX_WEIGHT
  {
    if names != [] {
      RaiseAllCapped(m, names[..|names| - 1], step);
    }
  }

  lemma {:induction false} SumNeverFalls(m: map<string, real>, boosted: seq<string>, step: real, names: seq<string>)
    requires Distinct(boosted) && step >= 0.0
    requires forall x :: x in m ==> m[x] <= MAX_WEIGHT
    ensures Sum(RaiseAll(m, boosted, step), names) >= Sum(m, names)
  {
    if names != [] {
      SumNeverFalls(m, boosted, step, names[..|names| - 1]);
      RaiseAllOnce(m, boosted, step, names[|names| - 1]);
    }
  }

  /**
   Under the cap a PASS lowers no strategy, keeps the cap, and strictly raises every relative
   whose family weight is below the cap.
   */
  lemma BoostHelpsRelatives(t: Table, passed: Item, item: Item)
    requires Capped(t)
    ensures Capped(Boost(t, passed))
    ensures Score(Boost(t, passed), item) >= Score(t, item)
    ensures item.family == passed.family && Lookup(t.family, item.family, 1.0) < MAX_WEIGHT ==>
              Score(Boost(t, passed), item) > Score(t, item)
  {
    RaiseAllCapped(t.blob, passed.blobs, BLOB_BOOST);
    RaiseAllCapped(t.trait_, passed.traits, TRAIT_BOOST);
    SumNeverFalls(t.blob, passed.blobs, BLOB_BOOST, item.blobs);
    SumNeverFalls(t.trait_, passed.traits, TRAIT_BOOST, item.traits);
  }

  const NO_WEIGHTS := Table(map[], map[], map[])

  /** The table after `n` PASSes of the same strategy. */
  ghost function Boosts(t: Table, item: Item, n: nat): Table {
    if n == 0 then t else Boost(Boosts(t, item, n - 1), item)
  }

  /** What `n` PASSes of a strategy do to an empty table, up to the cap of the family weight. */
  lemma {:induction false} WeightsAfterBoosts(item: Item, n: nat)
    requires 1.0 + n as real <= MAX_WEIGHT
    ensures var t := Boosts(NO_WEIGHTS, item, n);
      && Lookup(t.family, item.family, 1.0) == 1.0 + n as real
      && (forall f :: f != item.family ==> f !in t.family)
      && (forall x :: x in item.blobs ==> Lookup(t.blob, x, 0.0) == BLOB_BOOST * n as real)
      && (forall x :: x in item.traits ==> Lookup(t.trait_, x, 0.0) == TRAIT_BOOST * n as real)
  {
    if n > 0 {
      WeightsAfterBoosts(item, n - 1);
      var t := Boosts(NO_WEIGHTS, item, n - 1);
      forall x | x in item.blobs
        ensures Lookup(RaiseAll(t.blob, item.blobs, BLOB_BOOST), x, 0.0) == BLOB_BOOST * n as real
      {
        RaiseAllOnce(t.blob, item.blobs, BLOB_BOOST, x);
      }
      forall x | x in item.traits
        ensures Lookup(RaiseAll(t.trait_, item.traits, TRAIT_BOOST), x, 0.0) == TRAIT_BOOST * n as real
      {
        RaiseAllOnce(t.trait_, item.traits, TRAIT_BOOST, x);
      }
    }
  }

  lemma {:induction false} SumRisesFully(m: map<string, real>, boosted: seq<string>, step: real, names: seq<string>)
    requires Distinct(boosted)
    requires forall x :: x in names ==> x in boosted && Lookup(m, x, 0.0) + step <= MAX_WEIGHT
    ensures Sum(RaiseAll(m, boosted, step), names) == Sum(m, names) + Steps(step, |names|)
  {
    if names != [] {
      SumRisesFully(m, boosted, step, names[..|names| - 1]);
      assert names[|names| - 1] in names;
      RaiseAllOnce(m, boosted, step, names[|names| - 1]);
    }
  }

  /** Below the cap a PASS raises the strategy's own priority by its full `Rise`. */
  lemma FullRise(t: Table, item: Item)
    requires Lookup(t.family, item.family, 1.0) + FAMILY_BOOST <= MAX_WEIGHT
    requires forall x :: x in item.blobs ==> Lookup(t.blob, x, 0.0) + BLOB_BOOST <= MAX_WEIGHT
    requires forall x :: x in item.traits ==> Lookup(t.trait_, x, 0.0) + TRAIT_BOOST <= MAX_WEIGHT
    ensures Score(Boost(t, item), item) == Score(t, item) + Rise(item)
  {
    SumRisesFully(t.blob, item.blobs, BLOB_BOOST, item.blobs);
    SumRisesFully(t.trait_, item.traits, TRAIT_BOOST, item.traits);
    BlobSteps(|item.blobs|);
    TraitSteps(|item.traits|);
  }

  /** `n` PASSes of a strategy raise its own priority by `n` full rises, and that of an unrelated one not at all. */
  lemma {:induction false} ScoreAfterBoosts(item: Item, other: Item, n: nat)
    requires 1.0 + n as real <= MAX_WEIGHT
    requires other.family != item.family && other.blobs == [] && other.traits == []
    ensures Score(Boosts(NO_WEIGHTS, item, n), item) == 1.0 + Steps(Rise(item), n)
    ensures Score(Boosts(NO_WEIGHTS, item, n), other) == 1.0
  {
    WeightsAfterBoosts(item, n);
    if n == 0 {
      NothingWeighs(item.blobs);
      NothingWeighs(item.traits);
    } else {
      WeightsAfterBoosts(item, n - 1);
      ScoreAfterBoosts(item, other, n - 1);
      FullRise(Boosts(NO_WEIGHTS, item, n - 1), item);
    }
  }

  lemma {:induction false} NothingWeighs(names: seq<string>)
    ensures Sum(map[], names) == 0.0
  {
    if names != [] {
      NothingWeighs(names[..|names| - 1]);
    }
  }

  class ScanWeights {
    var family: map<string, real>
    var blob: map<string, real>
    var trait_: map<string, real>

    constructor ()
      ensures Weights() == Table(map[], map[], map[])
    {
      family, blob, trait_ := map[], map[], map[];
    }

    function Weights(): Table
      reads this
    {
      Table(family, blob, trait_)
    }

    method Get(item: Item) returns (score: real)
      ensures score == Score(Weights(), item)
    {
      score := Lookup(family, item.family, 1.0);
      ghost var base := score;
      for i := 0 to |item.blobs|
        invariant score == base + Sum(blob, item.blobs[..i])
      {
        assert item.blobs[..i + 1][..i] == item.blobs[..i];
        score := score + Lookup(blob, item.blobs[i], 0.0);
      }
      assert item.blobs[..|item.blobs|] == item.blobs;
      base := score;
      for i := 0 to |item.traits|
        invariant score == base + Sum(trait_, item.traits[..i])
      {
        assert item.traits[..i + 1][..i] == item.traits[..i];
        score := score + Lookup(trait_, item.traits[i], 0.0);
      }
      assert item.traits[..|item.traits|] == item.traits;
    }

    method BoostPass(item: Item)
      modifies this
      ensures Weights() == Boost(old(Weights()), item)
    {
      family := family[item.family := Raise(Lookup(family, item.family, 1.0), FAMILY_BOOST)];
      for i := 0 to |item.blobs|
        invariant family == old(family)[item.family := Raise(Lookup(old(family), item.family, 1.0), FAMILY_BOOST)]
        invariant blob == RaiseAll(old(blob), item.blobs[..i], BLOB_BOOST) && trait_ == old(trait_)
      {
        assert item.blobs[..i + 1][..i] == item.blobs[..i];
        blob := blob[item.blobs[i] := Raise(Lookup(blob, item.blobs[i], 0.0), BLOB_BOOST)];
      }
      assert item.blobs[..|item.blobs|] == item.blobs;
      for i := 0 to |item.traits|
        invariant family == old(family)[item.family := Raise(Lookup(old(family), item.family, 1.0), FAMILY_BOOST)]
        invariant blob == RaiseAll(old(blob), item.blobs, BLOB_BOOST)
        invariant trait_ == RaiseAll(old(trait_), item.traits[..i], TRAIT_BOOST)
      {
        assert item.traits[..i + 1][..i] == item.traits[..i];
        trait_ := trait_[item.traits[i] := Raise(Lookup(trait_, item.traits[i], 0.0), TRAIT_BOOST)];
      }
      assert item.traits[..|item.traits|] == item.traits;
    }
  }
}
