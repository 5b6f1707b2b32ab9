/** Placing a list of loot entries into an inventory. The poll picks how
    many entries to place, lists the slots that are empty at the start,
    shuffles that list, and walks the entries: an entry's stack goes to its
    fixed slot when that slot is in range and currently empty, and otherwise
    to the head of the shuffled list, which is removed. The walk stops once
    enough entries were placed or the list is exhausted. A fixed slot that is
    used is not removed from the list, so a later entry can land on it again
    and replace what was put there. */
module ChestPolls {
  import opened Common
  import opened Items
  import opened ChestItems

  type Inventory = seq<Option<ItemStack>>

  /** The empty slots among the first n, in increasing order. */
  function EmptySlotsUpTo(inv: Inventory, n: nat): seq<int>
    requires n <= |inv|
  {
    if n == 0 then []
    else EmptySlotsUpTo(inv, n - 1) + (if inv[n - 1].None? then [n - 1] else [])
  }

  /** The list holds exactly the empty slots, each once. */
  lemma {:induction false} EmptySlotsExact(inv: Inventory, n: nat)
    requires n <= |inv|
    ensures forall x :: x in EmptySlotsUpTo(inv, n) <==> 0 <= x < n && inv[x].None?
    ensures forall x :: multiset(EmptySlotsUpTo(inv, n))[x] <= 1
  {
    if n > 0 {
      EmptySlotsExact(inv, n - 1);
      var prev := EmptySlotsUpTo(inv, n - 1);
      if inv[n - 1].None? {
        assert n - 1 !in prev;
        assert multiset(EmptySlotsUpTo(inv, n)) == multiset(prev) + multiset{n - 1};
      } else {
        assert EmptySlotsUpTo(inv, n) == prev;
      }
    }
  }

  function Swap(s: seq<int>, i: int, j: int): (r: seq<int>)
    requires 0 <= i < |s| && 0 <= j < |s|
    ensures |r| == |s| && multiset(r) == multiset(s)
  {
    s[i := s[j]][j := s[i]]
  }

  /** The position below i drawn for the swap at step n. */
  function Pick(draws: nat -> nat, n: int, i: nat): (j: nat)
    requires i > 0
    ensures j < i
  {
    draws(if n < 0 then 0 else n) % i
  }

  /** `Collections.shuffle`: for i from the size down to 2, swap element
      i - 1 with a drawn position below i. */
  function ShuffleDown(s: seq<int>, i: nat, draws: nat -> nat): seq<int>
    requires i <= |s|
    decreases i
  {
    if i <= 1 then s
    else ShuffleDown(Swap(s, i - 1, Pick(draws, |s| - i, i)), i - 1, draws)
  }

  function Shuffled(s: seq<int>, draws: nat -> nat): seq<int> {
    ShuffleDown(s, |s|, draws)
  }

  /** Shuffling only reorders: the result is a permutation. */
  lemma {:induction false} ShuffleDownPermutes(s: seq<int>, i: nat, draws: nat -> nat)
    requires i <= |s|
    ensures |ShuffleDown(s, i, draws)| == |s|
    ensures multiset(ShuffleDown(s, i, draws)) == multiset(s)
    decreases i
  {
    if i > 1 {
      var t := Swap(s, i - 1, Pick(draws, |s| - i, i));
      assert ShuffleDown(s, i, draws) == ShuffleDown(t, i - 1, draws);
      ShuffleDownPermutes(t, i - 1, draws);
    }
  }

  /** The slot pool of a poll: exactly the slots that were empty at the
      start, each once, in shuffled order. */
  lemma PoolIsTheEmptySlots(inv: Inventory, draws: nat -> nat)
    ensures var pool := Shuffled(EmptySlotsUpTo(inv, |inv|), draws);
      && multiset(pool) == multiset(EmptySlotsUpTo(inv, |inv|))
      && (forall x :: x in pool <==> 0 <= x < |inv| && inv[x].None?)
      && (forall x :: multiset(pool)[x] <= 1)
  {
    var e := EmptySlotsUpTo(inv, |inv|);
    EmptySlotsExact(inv, |inv|);
    ShuffleDownPermutes(e, |e|, draws);
    forall x ensures x in Shuffled(e, draws) <==> x in e {
      assert x in Shuffled(e, draws) <==> x in multiset(Shuffled(e, draws));
      assert x in e <==> x in multiset(e);
    }
  }

  /** The state a poll works on: the inventory, the remaining slot pool, the
      count placed so far and each entry's current template. */
  datatype PollState = PollState(
    inv: Inventory,
    pool: seq<int>,
    placed: int,
    tmpl: map<ContainerItem, ItemStack>)

  /** One entry of the walk: build its stack (which may resolve its
      template), skip it when there is no stack, otherwise pick its slot and
      place it there when the slot is in range. */
  function Step(s: PollState, item: ContainerItem, d: nat, custom: map<string, ItemStack>): (r: PollState)
    requires item in s.tmpl
    ensures r.tmpl == s.tmpl[item := Resolved(s.tmpl[item], custom)]
    ensures |r.inv| == |s.inv|
  {
    var built := Built(s.tmpl[item], item.min, item.max, d);
    var tmpl := s.tmpl[item := Resolved(s.tmpl[item], custom)];
    if built.None? then s.(tmpl := tmpl)
    else
      var fixed := item.HasSlot() && item.slot < |s.inv| && s.inv[item.slot].None?;
      var slot := if fixed then item.slot else if |s.pool| == 0 then -1 else s.pool[0];
      var pool := if fixed || |s.pool| == 0 then s.pool else s.pool[1..];
      if 0 <= slot < |s.inv| then PollState(s.inv[slot := built], pool, s.placed + 1, tmpl)
      else PollState(s.inv, pool, s.placed, tmpl)
  }

  /** The walk from entry k on, with `target` entries to place. */
  function PollFrom(items: seq<ContainerItem>, k: nat, s: PollState, target: int,
                    draws: nat -> nat, custom: map<string, ItemStack>): (r: PollState)
    requires k <= |items|
    requires forall x :: x in items ==> x in s.tmpl
    ensures r.tmpl.Keys == s.tmpl.Keys && |r.inv| == |s.inv|
    ensures forall x :: x in s.tmpl && x !in items ==> r.tmpl[x] == s.tmpl[x]
    decreases |items| - k
  {
    if k == |items| || s.placed >= target || |s.pool| == 0 then s
    else PollFrom(items, k + 1, Step(s, items[k], draws(k), custom), target, draws, custom)
  }

  /** The walk never places more than the target, and never fewer than it
      started with. */
  lemma {:induction false} PlacedWithinTarget(items: seq<ContainerItem>, k: nat, s: PollState, target: int,
                                               draws: nat -> nat, custom: map<string, ItemStack>)
    requires k <= |items|
    requires forall x :: x in items ==> x in s.tmpl
    requires s.placed <= target
    ensures s.placed <= PollFrom(items, k, s, target, draws, custom).placed <= target
    decreases |items| - k
  {
    if !(k == |items| || s.placed >= target || |s.pool| == 0) {
      var t := Step(s, items[k], draws(k), custom);
      assert s.placed <= t.placed <= s.placed + 1;
      PlacedWithinTarget(items, k + 1, t, target, draws, custom);
    }
  }

  /** What a walk keeps true about the inventory inv0 it started from: the
      size, every slot occupied at the start, and a pool of in-range slots
      that were empty at the start. */
  ghost predicate Keeps(inv0: Inventory, s: PollState) {
    && |s.inv| == |inv0|
    && (forall x :: x in s.pool ==> 0 <= x < |inv0| && inv0[x].None?)
    && (forall i :: 0 <= i < |inv0| && inv0[i].Some? ==> s.inv[i] == inv0[i])
  }

  lemma StepKeeps(inv0: Inventory, s: PollState, item: ContainerItem, d: nat, custom: map<string, ItemStack>)
    requires item in s.tmpl && Keeps(inv0, s)
    ensures Keeps(inv0, Step(s, item, d, custom))
  {
    var r := Step(s, item, d, custom);
    if |s.pool| > 0 {
      assert s.pool[0] in s.pool;
      assert forall x :: x in s.pool[1..] ==> x in s.pool;
    }
  }

  /** Slots occupied before the poll are never written, the inventory keeps
      its size, and only in-range slots that were empty can receive items. */
  lemma {:induction false} PollKeepsOccupiedSlots(items: seq<ContainerItem>, k: nat, s: PollState, target: int,
                                                   draws: nat -> nat, custom: map<string, ItemStack>, inv0: Inventory)
    requires k <= |items|
    requires forall x :: x in items ==> x in s.tmpl
    requires Keeps(inv0, s)
    ensures Keeps(inv0, PollFrom(items, k, s, target, draws, custom))
    decreases |items| - k
  {
    if !(k == |items| || s.placed >= target || |s.pool| == 0) {
      StepKeeps(inv0, s, items[k], draws(k), custom);
      PollKeepsOccupiedSlots(items, k + 1, Step(s, items[k], draws(k), custom), target, draws, custom, inv0);
    }
  }

  /** The initial state of a poll over inv satisfies `Keeps`. */
  lemma InitialKeeps(inv: Inventory, draws: nat -> nat, tmpl: map<ContainerItem, ItemStack>)
    ensures Keeps(inv, PollState(inv, Shuffled(EmptySlotsUpTo(inv, |inv|), draws), 0, tmpl))
  {
    PoolIsTheEmptySlots(inv, draws);
  }

  /** The walk stops as soon as the pool is exhausted, even when later
      entries have free fixed slots. */
  lemma StopsWhenPoolEmpty(items: seq<ContainerItem>, k: nat, s: PollState, target: int,
                           draws: nat -> nat, custom: map<string, ItemStack>)
    requires k <= |items|
    requires forall x :: x in items ==> x in s.tmpl
    requires |s.pool| == 0
    ensures PollFrom(items, k, s, target, draws, custom) == s
  {
  }

  /** An entry without a stack (an AIR template) is skipped: no slot is
      taken and the count stays. An entry with a fixed, in-range, empty slot
      is put there and the pool is left as it was; any other entry takes the
      pool head, which is removed. */
  lemma StepPlacement(s: PollState, item: ContainerItem, d: nat, custom: map<string, ItemStack>)
    requires item in s.tmpl
    requires forall j :: 0 <= j < |s.pool| ==> 0 <= s.pool[j] < |s.inv|
    ensures var r := Step(s, item, d, custom);
      && (s.tmpl[item].material == AIR ==> r.inv == s.inv && r.pool == s.pool && r.placed == s.placed)
      && (s.tmpl[item].material != AIR && 0 <= item.slot < |s.inv| && s.inv[item.slot].None? ==>
            r.inv == s.inv[item.slot := Built(s.tmpl[item], item.min, item.max, d)]
            && r.pool == s.pool && r.placed == s.placed + 1)
      && (s.tmpl[item].material != AIR && !(0 <= item.slot < |s.inv| && s.inv[item.slot].None?) && |s.pool| > 0 ==>
            r.inv == s.inv[s.pool[0] := Built(s.tmpl[item], item.min, item.max, d)]
            && r.pool == s.pool[1..] && r.placed == s.placed + 1)
  {
  }

  /** Two entries over two empty slots, where the pool happens to come out
      as [1, 0]: the first entry is put in its fixed slot 1, which stays in
      the pool, so the second entry takes slot 1 as well. Both count as
      placed, yet only the second is in the chest. */
  lemma FixedSlotCanBeOverwritten(a: ContainerItem, b: ContainerItem, ta: ItemStack, tb: ItemStack,
                                  draws: nat -> nat, custom: map<string, ItemStack>)
    requires a != b && a.slot == 1 && b.slot == -1
    requires ta.material == STONE && tb.material == DIRT
    ensures var s := PollState([None, None], [1, 0], 0, map[a := ta, b := tb]);
      var r := PollFrom([a, b], 0, s, 2, draws, custom);
      && r.placed == 2
      && r.inv == [None, Built(tb, b.min, b.max, draws(1))]
      && r.inv[1].value.material == DIRT
  {
    var s := PollState([None, None], [1, 0], 0, map[a := ta, b := tb]);
    var s1 := Step(s, a, draws(0), custom);
    assert s1.inv == [None, Built(ta, a.min, a.max, draws(0))] && s1.pool == [1, 0] && s1.placed == 1;
    var s2 := Step(s1, b, draws(1), custom);
    assert s2.inv == [None, Built(tb, b.min, b.max, draws(1))] && s2.pool == [0] && s2.placed == 2;
    assert PollFrom([a, b], 2, s2, 2, draws, custom) == s2;
    assert PollFrom([a, b], 1, s1, 2, draws, custom) == s2;
  }

  class ContainerPoll {
    const items: seq<ContainerItem>
    const min: int
    const max: int

    constructor (min: int, max: int, items: seq<ContainerItem>)
      ensures this.min == min && this.max == max && this.items == items
    {
      this.min := min;
      this.max := max;
      this.items := items;
    }

    /** `run(inventory, random)`: `countDraw` picks the number of entries to
        place, `shuffleDraws` drives the shuffle and `amountDraws(k)` the
        quantity of entry k; `custom` is the custom-item registry. `tmpl`
        holds the current template of every entry (and possibly of other
        items, which the poll leaves alone). */
    method Run(inventory: array<Option<ItemStack>>, countDraw: nat, shuffleDraws: nat -> nat,
               amountDraws: nat -> nat, custom: map<string, ItemStack>, ghost tmpl: map<ContainerItem, ItemStack>)
      requires forall x :: x in items ==> x in tmpl && tmpl[x] == x.templateItem
      modifies inventory, set x | x in items
      ensures var init := PollState(old(inventory[..]), Shuffled(EmptySlotsUpTo(old(inventory[..]), inventory.Length), shuffleDraws),
                                    0, tmpl);
        var fin := PollFrom(items, 0, init, DrawBetween(min, max, countDraw), amountDraws, custom);
        && inventory[..] == fin.inv
        && (forall x :: x in items ==> x.templateItem == fin.tmpl[x])
    {
      var itemsToPlace := min;
      if max > min {
        itemsToPlace := min + countDraw % (max - min + 1);
      }
      var emptySlots := CollectEmptySlots(inventory);
      emptySlots := Shuffled(emptySlots, shuffleDraws);
      var placedItems := 0;
      ghost var t := tmpl;
      ghost var final := PollFrom(items, 0, PollState(inventory[..], emptySlots, 0, t), itemsToPlace, amountDraws, custom);
      var k := 0;
      while k < |items|
        invariant 0 <= k <= |items|
        invariant t.Keys == tmpl.Keys
        invariant forall x :: x in items ==> x in t && x.templateItem == t[x]
        invariant PollFrom(items, k, PollState(inventory[..], emptySlots, placedItems, t),
                           itemsToPlace, amountDraws, custom) == final
      {
        if placedItems >= itemsToPlace || |emptySlots| == 0 {
          break;
        }
        emptySlots, placedItems, t := PlaceAt(inventory, k, amountDraws(k), custom, emptySlots, placedItems, t);
        k := k + 1;
      }
    }

    /** The k-th pass of `run`'s entry loop, with the templates it leaves. */
    method PlaceAt(inventory: array<Option<ItemStack>>, k: nat, draw: nat, custom: map<string, ItemStack>,
                   emptySlots: seq<int>, placedItems: int, ghost t: map<ContainerItem, ItemStack>)
      returns (pool: seq<int>, placed: int, ghost t': map<ContainerItem, ItemStack>)
      requires k < |items| && forall x :: x in items ==> x in t && x.templateItem == t[x]
      modifies inventory, items[k]
      ensures PollState(inventory[..], pool, placed, t') == Step(PollState(old(inventory[..]), emptySlots, placedItems, t), items[k], draw, custom)
      ensures forall x :: x in items ==> x in t' && x.templateItem == t'[x]
    {
      var containerItem := items[k];
      pool, placed := PlaceOne(inventory, containerItem, draw, custom, emptySlots, placedItems, t);
      t' := t[containerItem := Resolved(t[containerItem], custom)];
    }
  }

  /** The loop of `run` that lists the empty slots. */
  method CollectEmptySlots(inventory: array<Option<ItemStack>>) returns (emptySlots: seq<int>)
    ensures emptySlots == EmptySlotsUpTo(inventory[..], inventory.Length)
  {
    emptySlots := [];
    var i := 0;
    while i < inventory.Length
      invariant 0 <= i <= inventory.Length
      invariant emptySlots == EmptySlotsUpTo(inventory[..], i)
    {
      if inventory[i] == None {
        emptySlots := emptySlots + [i];
      }
      i := i + 1;
    }
  }

  /** One pass of `run`'s entry loop: build the entry's stack, pick its slot
      and place it. */
  method PlaceOne(inventory: array<Option<ItemStack>>, containerItem: ContainerItem, draw: nat,
                  custom: map<string, ItemStack>, emptySlots: seq<int>, placedItems: int,
                  ghost tmpl: map<ContainerItem, ItemStack>)
    returns (pool: seq<int>, placed: int)
    requires containerItem in tmpl && tmpl[containerItem] == containerItem.templateItem
    modifies inventory, containerItem
    ensures var r := Step(PollState(old(inventory[..]), emptySlots, placedItems, tmpl), containerItem, draw, custom);
      inventory[..] == r.inv && pool == r.pool && placed == r.placed
      && containerItem.templateItem == r.tmpl[containerItem]
  {
    pool, placed := emptySlots, placedItems;
    var itemStack := containerItem.BuildItem(draw, custom);
    if itemStack.None? || itemStack.value.material == AIR {
      return;
    }
    var slot: int;
    if containerItem.HasSlot() {
      slot := containerItem.slot;
      if slot < 0 || slot >= inventory.Length {
        if |pool| == 0 {
          slot := -1;
        } else {
          slot := pool[0];
          pool := pool[1..];
        }
      } else if inventory[slot] != None {
        if |pool| == 0 {
          slot := -1;
        } else {
          slot := pool[0];
          pool := pool[1..];
        }
      }
    } else {
      if |pool| == 0 {
        slot := -1;
      } else {
        slot := pool[0];
        pool := pool[1..];
      }
    }
    if 0 <= slot < inventory.Length {
      inventory[slot] := itemStack;
      placed := placed + 1;
    }
  }
}
