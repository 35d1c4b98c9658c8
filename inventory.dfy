/** The inventory: an append-only list of item identifiers holding at most ten entries. */
module Inventory {
  import opened Terrain

  datatype Option<T> = None | Some(value: T)

  /** The item identifiers of the game's item table. */
  datatype Item = GrassBlock | DirtBlock | StoneBlock | WoodBlock | SandBlock

  const MaxInventorySize: nat := 10

  /** The texture each item is drawn with, from the item table. */
  function ItemMaterial(item: Item): (m: Material)
    ensures m != Water
  {
    match item
    case GrassBlock => Grass
    case DirtBlock => Dirt
    case StoneBlock => Stone
    case WoodBlock => Wood
    case SandBlock => Sand
  }

  /** The list after one add: appended at the tail while there is room, unchanged when full. */
  function Added(items: seq<Item>, item: Item): (r: seq<Item>)
    ensures |items| <= MaxInventorySize ==> |r| <= MaxInventorySize
    ensures |items| < MaxInventorySize ==> |r| == |items| + 1 && r[|items|] == item
    ensures |r| == |items| ==> r == items
    ensures items <= r
  {
    if |items| < MaxInventorySize then items + [item] else items
  }

  /** The list after a run of adds, one per element of `xs`, in order. */
  function AddedAll(items: seq<Item>, xs: seq<Item>): seq<Item>
    decreases |xs|
  {
    if xs == [] then items else AddedAll(Added(items, xs[0]), xs[1..])
  }

  /** From any inventory holding at most ten entries, a run of adds keeps the existing entries
      followed by as many of the new items, in order, as fit in the ten slots. */
  lemma {:induction false} AddedAllKeepsFirstTen(items: seq<Item>, xs: seq<Item>)
    requires |items| <= MaxInventorySize
    ensures var n := if |items| + |xs| <= MaxInventorySize then |xs| else MaxInventorySize - |items|;
            AddedAll(items, xs) == items + xs[..n]
    decreases |xs|
  {
    if xs != [] {
      AddedAllKeepsFirstTen(Added(items, xs[0]), xs[1..]);
      if |items| < MaxInventorySize {
        var n := if |items| + |xs| <= MaxInventorySize then |xs| else MaxInventorySize - |items|;
        assert items + [xs[0]] + xs[1..][..n - 1] == items + xs[..n];
      } else {
        assert xs[..0] == [];
      }
    }
  }

  /** Eleven adds to an empty inventory store exactly ten items; the eleventh finds it full. */
  lemma ElevenAdds(xs: seq<Item>)
    requires |xs| == MaxInventorySize + 1
    ensures AddedAll([], xs[..MaxInventorySize]) == xs[..MaxInventorySize]
    ensures Added(AddedAll([], xs[..MaxInventorySize]), xs[MaxInventorySize])
         == AddedAll([], xs[..MaxInventorySize])
  {
    AddedAllKeepsFirstTen([], xs[..MaxInventorySize]);
  }

  /** The inventory object: the module-level list the game pushes to. */
  class Inventory {
    var items: seq<Item>

    ghost predicate Valid()
      reads this
    {
      |items| <= MaxInventorySize
    }

    constructor ()
      ensures Valid() && items == []
    {
      items := [];
    }

    /** Adds `item` at the tail unless the inventory is full; `added` tells which of the two
        messages the game logs. */
    method AddItem(item: Item) returns (added: bool)
      requires Valid()
      modifies this
      ensures Valid()
      ensures added <==> |old(items)| < MaxInventorySize
      ensures items == Added(old(items), item)
    {
      if |items| < MaxInventorySize {
        items := items + [item];
        added := true;
      } else {
        added := false;
      }
    }

    /** The entry at `index`, or nothing when the index is out of range. */
    function SelectItem(index: int): (r: Option<Item>)
      reads this
      ensures r.Some? <==> 0 <= index < |items|
      ensures r.Some? ==> r.value == items[index]
    {
      if 0 <= index < |items| then Some(items[index]) else None
    }
  }
}
