/**
 * InventoryUI.cs: a panel toggled with the I key that, when opened, rebuilds
 * a dictionary from item to sprite and one UI slot per item of the player's
 * inventory.  Game objects are reduced to the values the view keeps of them.
 */
module InventoryView {
  import opened Wrappers

  datatype Sprite = Sprite(id: nat)

  /** An inventory item, with the sprite of its `SpriteRenderer` (none without one). */
  datatype Item = Item(id: nat, sprite: Option<Sprite>)

  /** A slot's `Image` component. */
  datatype Image = Image(sprite: Option<Sprite>, enabled: bool)

  /** An instantiated slot; `image` is `None` when the slot prefab has no `Image`. */
  datatype Slot = Slot(image: Option<Image>)

  /** The player's `Inventory`: its `ReadOnlyInventory` values in enumeration order, nulls included. */
  class Inventory {
    var contents: seq<Option<Item>>

    constructor (contents: seq<Option<Item>>)
      ensures this.contents == contents
    {
      this.contents := contents;
    }
  }

  /** The non-null entries of the inventory, in order. */
  function NonNull(inv: seq<Option<Item>>): (r: seq<Item>)
    ensures |r| <= |inv|
    ensures forall item :: item in r <==> Some(item) in inv
    ensures forall item :: multiset(r)[item] == multiset(inv)[Some(item)]
  {
    if |inv| == 0 then []
    else
      var rest := NonNull(inv[..|inv| - 1]);
      assert inv == inv[..|inv| - 1] + [inv[|inv| - 1]];
      assert multiset(inv) == multiset(inv[..|inv| - 1]) + multiset{inv[|inv| - 1]};
      match inv[|inv| - 1]
      case None => rest
      case Some(item) => rest + [item]
  }

  /**
   * `NonNull` keeps the order of the inventory: the entries of a
   * concatenation are those of each part, one after the other.
   */
  lemma {:induction false} NonNullAppend(a: seq<Option<Item>>, b: seq<Option<Item>>)
    ensures NonNull(a + b) == NonNull(a) + NonNull(b)
    decreases |b|
  {
    if |b| == 0 {
      assert a + b == a;
    } else {
      var init := b[..|b| - 1];
      assert (a + b)[..|a + b| - 1] == a + init;
      assert b[..|b| - 1] == init;
      NonNullAppend(a, init);
    }
  }

  /** The slot created for one item: its image shows the item's sprite and is enabled. */
  function SlotFor(item: Item, prefabHasImage: bool): (slot: Slot)
    ensures slot.image.Some? <==> prefabHasImage
    ensures slot.image.Some? ==> slot.image.value.sprite == item.sprite && slot.image.value.enabled
  {
    Slot(if prefabHasImage then Some(Image(item.sprite, true)) else None)
  }

  /** The slots the rebuild creates for `inv`: one per non-null item, in order. */
  function SlotsFor(inv: seq<Option<Item>>, prefabHasImage: bool): (r: seq<Slot>)
    ensures |r| == |NonNull(inv)|
    ensures forall k :: 0 <= k < |r| ==> r[k] == SlotFor(NonNull(inv)[k], prefabHasImage)
  {
    if |inv| == 0 then []
    else
      var rest := SlotsFor(inv[..|inv| - 1], prefabHasImage);
      match inv[|inv| - 1]
      case None => rest
      case Some(item) => rest + [SlotFor(item, prefabHasImage)]
  }

  /**
   * The dictionary the rebuild fills for `inv`: every non-null item that has a
   * sprite, mapped to that sprite, each added once.
   */
  function SpriteIndex(inv: seq<Option<Item>>): (m: map<Item, Sprite>)
    ensures forall item :: item in m <==> Some(item) in inv && item.sprite.Some?
    ensures forall item :: item in m ==> m[item] == item.sprite.value
  {
    if |inv| == 0 then map[]
    else
      var rest := SpriteIndex(inv[..|inv| - 1]);
      assert inv == inv[..|inv| - 1] + [inv[|inv| - 1]];
      match inv[|inv| - 1]
      case None => rest
      case Some(item) =>
        if item.sprite.Some? && item !in rest then rest[item := item.sprite.value] else rest
  }

  /** One more inventory entry adds at most one slot and one dictionary entry, at the end. */
  lemma RebuildStep(inv: seq<Option<Item>>, entry: Option<Item>, prefabHasImage: bool)
    ensures SlotsFor(inv + [entry], prefabHasImage) ==
      SlotsFor(inv, prefabHasImage) + (if entry.Some? then [SlotFor(entry.value, prefabHasImage)] else [])
    ensures SpriteIndex(inv + [entry]) ==
      if entry.Some? && entry.value.sprite.Some? && entry.value !in SpriteIndex(inv)
      then SpriteIndex(inv)[entry.value := entry.value.sprite.value] else SpriteIndex(inv)
  {
    assert (inv + [entry])[..|inv|] == inv;
  }

  /** Every dictionary entry belongs to an item that also got a slot. */
  lemma IndexedItemsHaveSlots(inv: seq<Option<Item>>, prefabHasImage: bool, item: Item)
    requires item in SpriteIndex(inv)
    ensures exists k :: 0 <= k < |SlotsFor(inv, prefabHasImage)| && NonNull(inv)[k] == item
  {
    var items := NonNull(inv);
    assert item in items;
    var k :| 0 <= k < |items| && items[k] == item;
  }

  class InventoryUI {
    var panelActive: bool
    var items: map<Item, Sprite>
    /** The children of the slot parent. */
    var slots: seq<Slot>
    var playerInventory: Inventory?
    const prefabHasImage: bool

    constructor (prefabHasImage: bool, items: map<Item, Sprite>, slots: seq<Slot>)
      ensures this.prefabHasImage == prefabHasImage && this.items == items && this.slots == slots
      ensures playerInventory == null && !panelActive
    {
      this.prefabHasImage := prefabHasImage;
      this.items, this.slots := items, slots;
      playerInventory := null;
      panelActive := false;
    }

    /** `Start`: finds the player's inventory (none when the scene has none) and hides the panel. */
    method Start(found: Inventory?)
      modifies this
      ensures playerInventory == found && !panelActive
      ensures items == old(items) && slots == old(slots)
    {
      playerInventory := found;
      panelActive := false;
    }

    /**
     * Shows the panel and rebuilds the dictionary and the slots from the
     * inventory; without an inventory the access raises after the panel is
     * shown and the dictionary cleared (`ok` is false).
     */
    method OpenInventory() returns (ok: bool)
      modifies this
      ensures panelActive && playerInventory == old(playerInventory)
      ensures ok <==> playerInventory != null
      ensures !ok ==> items == map[] && slots == old(slots)
      ensures ok ==> items == SpriteIndex(playerInventory.contents)
      ensures ok ==> slots == SlotsFor(playerInventory.contents, prefabHasImage)
    {
      panelActive := true;
      items := map[];
      if playerInventory == null {
        return false;
      }
      var inventoryItems := playerInventory.contents;

      var children := slots;
      for k := 0 to |children|
        invariant slots == children[k..]
        invariant panelActive && items == map[] && playerInventory == old(playerInventory)
      {
        slots := slots[1..];
      }

      for i := 0 to |inventoryItems|
        invariant items == SpriteIndex(inventoryItems[..i])
        invariant slots == SlotsFor(inventoryItems[..i], prefabHasImage)
        invariant panelActive && playerInventory == old(playerInventory)
      {
        assert inventoryItems[..i + 1] == inventoryItems[..i] + [inventoryItems[i]];
        RebuildStep(inventoryItems[..i], inventoryItems[i], prefabHasImage);
        if inventoryItems[i].None? {
          continue;
        }
        var item := inventoryItems[i].value;
        var sprite := item.sprite;
        if sprite.Some? && item !in items {
          items := items[item := sprite.value];
        }
        var slot := Slot(if prefabHasImage then Some(Image(None, false)) else None);
        if slot.image.Some? {
          slot := slot.(image := Some(Image(sprite, true)));
        }
        slots := slots + [slot];
      }
      assert inventoryItems[..|inventoryItems|] == inventoryItems;
      ok := true;
    }

    /** Hides the panel and changes nothing else. */
    method CloseInventory()
      modifies this
      ensures !panelActive
      ensures items == old(items) && slots == old(slots) && playerInventory == old(playerInventory)
    {
      panelActive := false;
    }

    /** One frame: the I key closes an open panel and opens (rebuilds) a closed one. */
    method Update(keyIDown: bool) returns (ok: bool)
      modifies this
      ensures !keyIDown ==> ok && unchanged(this)
      ensures playerInventory == old(playerInventory)
      ensures keyIDown ==> panelActive == !old(panelActive)
      ensures keyIDown && old(panelActive) ==> ok && items == old(items) && slots == old(slots)
      ensures keyIDown && !old(panelActive) ==> (ok <==> playerInventory != null)
      ensures keyIDown && !old(panelActive) && !ok ==> items == map[] && slots == old(slots)
      ensures keyIDown && !old(panelActive) && ok ==>
        items == SpriteIndex(playerInventory.contents) && slots == SlotsFor(playerInventory.contents, prefabHasImage)
    {
      ok := true;
      if keyIDown {
        if panelActive {
          CloseInventory();
        } else {
          ok := OpenInventory();
        }
      }
    }
  }
}
