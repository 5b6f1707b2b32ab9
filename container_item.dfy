/** A loot entry of a chest: an item template with an optional fixed slot and
    a quantity range. Building a stack picks a quantity (at least 1) and copies
    the template; a BARRIER placeholder carrying a custom-item id is swapped
    for the real custom item once the custom-item registry knows it. */
module ChestItems {
  import opened Common
  import opened Items

  /** The amount `buildItem` gives a stack for the draw d. */
  function Quantity(min: int, max: int, d: nat): (a: int)
    ensures a >= 1
    ensures DrawBetween(min, max, d) >= 1 ==> a == DrawBetween(min, max, d)
  {
    var amount := DrawBetween(min, max, d);
    if amount <= 0 then 1 else amount
  }

  /** The quantity is min when the range is empty (but never below 1), and
      lies within the range otherwise. */
  lemma QuantityRange(min: int, max: int, d: nat)
    requires min >= 1
    ensures max <= min ==> Quantity(min, max, d) == min
    ensures max > min ==> min <= Quantity(min, max, d) <= max
  {
  }

  /** The stack `buildItem` returns for template t: none for AIR, otherwise
      the template with the chosen amount. */
  function Built(t: ItemStack, min: int, max: int, d: nat): (r: Option<ItemStack>)
    ensures r.None? <==> t.material == AIR
    ensures r.Some? ==> r.value.material == t.material && r.value.iaItemId == t.iaItemId
    ensures r.Some? ==> r.value.amount == Quantity(min, max, d) && r.value.amount >= 1
  {
    if t.material == AIR then None else Some(t.(amount := Quantity(min, max, d)))
  }

  /** The template after a `buildItem` call: a BARRIER placeholder whose
      custom-item id the registry `custom` resolves is replaced by that item;
      every other template stays. */
  function Resolved(t: ItemStack, custom: map<string, ItemStack>): (u: ItemStack)
    ensures t.material != BARRIER ==> u == t
    ensures t.iaItemId.None? ==> u == t
    ensures t.material == BARRIER && t.iaItemId.Some? ==>
      u == if t.iaItemId.value in custom then custom[t.iaItemId.value] else t
  {
    if t.material == BARRIER && t.iaItemId.Some? && t.iaItemId.value in custom then custom[t.iaItemId.value]
    else t
  }

  class ContainerItem {
    var templateItem: ItemStack
    const slot: int
    const min: int
    const max: int
    /** The template the entry was configured with. */
    ghost const configured: ItemStack

    /** The constructor keeps its own copy of the template. */
    constructor (templateItem: ItemStack, slot: int, min: int, max: int)
      ensures this.templateItem == templateItem && configured == templateItem
      ensures this.slot == slot && this.min == min && this.max == max
    {
      this.templateItem := templateItem;
      configured := templateItem;
      this.slot := slot;
      this.min := min;
      this.max := max;
    }

    /** `hasSlot()`: a fixed slot was configured. */
    predicate HasSlot() {
      slot >= 0
    }

    /** `buildItem()`; `draw` stands for the random amount and `custom` for
        the custom-item registry. The stack returned is built from the
        template as it was on entry, even when this call resolves it. */
    method BuildItem(draw: nat, custom: map<string, ItemStack>) returns (r: Option<ItemStack>)
      modifies this
      ensures r == Built(old(templateItem), min, max, draw)
      ensures templateItem == Resolved(old(templateItem), custom)
    {
      var amount := min;
      if max > min {
        amount := min + draw % (max - min + 1);
      }
      if amount <= 0 {
        amount := 1;
      }
      var itemStack := templateItem.(amount := amount);
      if templateItem.material == BARRIER {
        var realItem := ResolveDelayedItem(custom);
        if realItem.Some? {
          templateItem := realItem.value;
        }
      }
      if itemStack.material == AIR {
        return None;
      }
      return Some(itemStack);
    }

    /** `resolveDelayedItem()`: the registry's item for the template's
        custom-item id, if both exist. */
    function ResolveDelayedItem(custom: map<string, ItemStack>): (r: Option<ItemStack>)
      reads this
      ensures r.Some? <==> templateItem.iaItemId.Some? && templateItem.iaItemId.value in custom
      ensures r.Some? ==> r.value == custom[templateItem.iaItemId.value]
    {
      match templateItem.iaItemId
      case Some(id) => if id in custom then Some(custom[id]) else None
      case None => None
    }
  }
}
