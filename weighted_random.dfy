/** The cumulative-weight sampler every probabilistic choice goes through.
    `add` appends an entry recording the running total; `getRandom` scales a
    random fraction by the total and returns the first entry whose cumulative
    weight exceeds it, the last entry when none does, and nothing when the
    sampler is empty. The random fraction is a parameter. */
module Weighted {
  import opened Common

  datatype Entry<T> = Entry(item: T, cumulativeWeight: real)

  /** The value a sampler holds: its entries and its total weight. */
  datatype Pool<T> = Pool(entries: seq<Entry<T>>, total: real)

  function Cumulative<T>(p: Pool<T>, i: int): real
    requires 0 <= i < |p.entries|
  {
    p.entries[i].cumulativeWeight
  }

  /** The lower end of entry i's interval: the previous cumulative weight. */
  function Lower<T>(p: Pool<T>, i: int): real
    requires 0 <= i < |p.entries|
  {
    if i == 0 then 0.0 else Cumulative(p, i - 1)
  }

  /** The sampler's invariant: cumulative weights increase strictly from a
      positive first one, and the last one is the total. */
  ghost predicate WellFormed<T>(p: Pool<T>) {
    && (|p.entries| == 0 ==> p.total == 0.0)
    && (|p.entries| > 0 ==> Cumulative(p, 0) > 0.0 && Cumulative(p, |p.entries| - 1) == p.total)
    && (forall i, j :: 0 <= i < j < |p.entries| ==> Cumulative(p, i) < Cumulative(p, j))
  }

  /** `add(item, weight)` on the pool's value. */
  function AddEntry<T>(p: Pool<T>, item: T, weight: real): (r: Pool<T>)
    ensures weight <= 0.0 ==> r == p
    ensures weight > 0.0 ==> r.total == p.total + weight
    ensures weight > 0.0 ==> r.entries == p.entries + [Entry(item, r.total)]
  {
    if weight <= 0.0 then p
    else Pool(p.entries + [Entry(item, p.total + weight)], p.total + weight)
  }

  /** Adding keeps the invariant, and a positive weight becomes exactly the
      width of the new entry's interval. */
  lemma AddEntryKeepsInvariant<T>(p: Pool<T>, item: T, weight: real)
    requires WellFormed(p)
    ensures WellFormed(AddEntry(p, item, weight))
    ensures weight > 0.0 ==>
      var r := AddEntry(p, item, weight);
      Cumulative(r, |r.entries| - 1) - Lower(r, |r.entries| - 1) == weight
  {
    var r := AddEntry(p, item, weight);
    if weight > 0.0 {
      var n := |p.entries|;
      forall i, j | 0 <= i < j < |r.entries|
        ensures Cumulative(r, i) < Cumulative(r, j)
      {
        assert r.entries[i] == p.entries[i];
        if j == n {
          assert Cumulative(r, n) == p.total + weight;
          assert Cumulative(p, n - 1) == p.total;
          if i < n - 1 {
            assert Cumulative(p, i) < Cumulative(p, n - 1);
          }
          assert Cumulative(r, i) <= p.total;
          assert Cumulative(r, i) < Cumulative(r, j);
        } else {
          assert r.entries[j] == p.entries[j];
          assert Cumulative(p, i) < Cumulative(p, j);
          assert Cumulative(r, i) < Cumulative(r, j);
        }
      }
    }
  }

  /** The index of the first entry whose cumulative weight exceeds `value`,
      or the number of entries when there is none. */
  function FirstAbove<T>(es: seq<Entry<T>>, value: real): (k: nat)
    ensures k <= |es|
    ensures forall i :: 0 <= i < k ==> es[i].cumulativeWeight <= value
    ensures k < |es| ==> value < es[k].cumulativeWeight
  {
    if |es| == 0 then 0
    else if value < es[0].cumulativeWeight then 0
    else 1 + FirstAbove(es[1..], value)
  }

  /** The entry the scan settles on for the scaled value v. */
  function ChosenIndexAt<T>(p: Pool<T>, v: real): (k: nat)
    requires |p.entries| > 0
    ensures k < |p.entries|
  {
    var k := FirstAbove(p.entries, v);
    if k < |p.entries| then k else |p.entries| - 1
  }

  /** The fraction r scaled by the total, as `getRandom` computes it. */
  function Scaled<T>(p: Pool<T>, r: real): real {
    r * p.total
  }

  /** The entry `getRandom` settles on for the random fraction r. */
  function ChosenIndex<T>(p: Pool<T>, r: real): (k: nat)
    requires |p.entries| > 0
    ensures k < |p.entries|
  {
    ChosenIndexAt(p, Scaled(p, r))
  }

  /** `getRandom()` with the random fraction r. */
  function Choose<T>(p: Pool<T>, r: real): Option<T> {
    if |p.entries| == 0 then None else Some(p.entries[ChosenIndex(p, r)].item)
  }

  /** An empty sampler yields nothing; a non-empty one always yields an item
      that was added, whatever the fraction (the last-entry fallback). */
  lemma ChooseYieldsAddedItem<T>(p: Pool<T>, r: real)
    ensures Choose(p, r).None? <==> |p.entries| == 0
    ensures Choose(p, r).Some? ==> exists i :: 0 <= i < |p.entries| && p.entries[i].item == Choose(p, r).value
  {
    if |p.entries| > 0 {
      var k := ChosenIndex(p, r);
      assert p.entries[k].item == Choose(p, r).value;
    }
  }

  lemma ScaledBelowTotal<T>(p: Pool<T>, r: real)
    requires 0.0 <= r < 1.0 && p.total > 0.0
    ensures 0.0 <= Scaled(p, r) < p.total
  {
    assert p.total - Scaled(p, r) == (1.0 - r) * p.total;
    assert (1.0 - r) * p.total > 0.0;
  }

  /** First match wins over half-open intervals: for a value v in
      [0, total), entry i is chosen exactly when Lower(i) <= v < Cumulative(i),
      and the last-entry fallback is never needed. */
  lemma ChooseIntervalAt<T>(p: Pool<T>, v: real, i: int)
    requires WellFormed(p) && 0.0 <= v < p.total
    requires 0 <= i < |p.entries|
    ensures FirstAbove(p.entries, v) < |p.entries|
    ensures ChosenIndexAt(p, v) == i <==> Lower(p, i) <= v < Cumulative(p, i)
  {
    var n := |p.entries|;
    var k := FirstAbove(p.entries, v);
    if k == n {
      assert false;
    }
    if k == i {
      if i > 0 {
        assert Cumulative(p, i - 1) <= v;
      }
    } else if k < i {
      assert v < Cumulative(p, k);
      assert k <= i - 1;
      assert k < i - 1 ==> Cumulative(p, k) < Cumulative(p, i - 1);
      assert v < Lower(p, i);
    } else {
      assert Cumulative(p, i) <= v;
    }
  }

  /** The same for a random fraction r in [0, 1): entry i is returned exactly
      when Lower(i) <= r·total < Cumulative(i). */
  lemma ChooseInterval<T>(p: Pool<T>, r: real, i: int)
    requires WellFormed(p) && 0.0 <= r < 1.0
    requires 0 <= i < |p.entries|
    ensures ChosenIndex(p, r) == i <==> Lower(p, i) <= Scaled(p, r) < Cumulative(p, i)
  {
    ScaledBelowTotal(p, r);
    ChooseIntervalAt(p, Scaled(p, r), i);
  }

  /** The sampler object. Its state is a `Pool`; `Valid` is the invariant. */
  class WeightedRandom<T> {
    var entries: seq<Entry<T>>
    var totalWeight: real

    function State(): Pool<T>
      reads this
    {
      Pool(entries, totalWeight)
    }

    ghost predicate Valid()
      reads this
    {
      WellFormed(State())
    }

    constructor ()
      ensures Valid() && State() == Pool([], 0.0)
    {
      entries := [];
      totalWeight := 0.0;
    }

    method Add(item: T, weight: real)
      requires Valid()
      modifies this
      ensures Valid()
      ensures State() == AddEntry(old(State()), item, weight)
    {
      AddEntryKeepsInvariant(State(), item, weight);
      if weight <= 0.0 {
        return;
      }
      totalWeight := totalWeight + weight;
      entries := entries + [Entry(item, totalWeight)];
    }

    /** `getRandom()`, reading the scan loop as written; `r` is the value
        `nextDouble()` produced. */
    method GetRandom(r: real) returns (res: Option<T>)
      ensures res == Choose(State(), r)
    {
      if |entries| == 0 {
        return None;
      }
      var value := Scaled(State(), r);
      var i := 0;
      while i < |entries|
        invariant 0 <= i <= |entries|
        invariant FirstAbove(entries, value) >= i
      {
        if value < entries[i].cumulativeWeight {
          return Some(entries[i].item);
        }
        i := i + 1;
      }
      return Some(entries[|entries| - 1].item);
    }
  }
}
