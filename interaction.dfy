/** The click handler's placement decision: with at least one hit, an item in the first
    inventory slot and the game in Creative mode, a block of that item's texture appears at
    the first hit point. Every other combination leaves the scene as it was. */
module Interaction {
  import opened Terrain
  import opened Inventory
  import opened Modes

  /** One ray intersection, nearest first: the object struck and the point struck. */
  datatype Hit = Hit(object: Block, point: Vec3)

  /** The block a click adds, if any, given the hits (camera already filtered out), the
      selected item and the current mode. */
  function Placement(hits: seq<Hit>, selected: Option<Item>, mode: GameMode): (r: Option<Block>)
    ensures r.Some? <==> |hits| > 0 && selected.Some? && mode == Creative
    ensures r.Some? ==> r.value.material == ItemMaterial(selected.value)
    ensures r.Some? ==> r.value.position == hits[0].point
  {
    if |hits| > 0 then
      match selected
      case None => None
      case Some(item) =>
        if mode == Creative then Some(Block(ItemMaterial(item), hits[0].point))
        else None
    else None
  }

  /** `opt` as a list of zero or one element. */
  function ToSeq<T>(opt: Option<T>): seq<T>
  {
    match opt
    case None => []
    case Some(v) => [v]
  }

  /** Only the nearest hit's point matters: the struck object and the farther hits do not. */
  lemma PlacementUsesNearestPoint(h1: Hit, h2: Hit, rest1: seq<Hit>, rest2: seq<Hit>,
                                  selected: Option<Item>, mode: GameMode)
    requires h1.point == h2.point
    ensures Placement([h1] + rest1, selected, mode) == Placement([h2] + rest2, selected, mode)
  {
    assert ([h1] + rest1)[0] == h1 && ([h2] + rest2)[0] == h2;
  }

  /** The blocks the player has placed, in click order. */
  class Scene {
    var placed: seq<Block>

    constructor ()
      ensures placed == []
    {
      placed := [];
    }

    /** One click: read the first inventory slot and the current mode and add the block the
        placement rule yields, if any. */
    method Click(hits: seq<Hit>, inventory: Inventory, modes: ModeState)
      modifies this
      ensures placed == old(placed) + ToSeq(Placement(hits, inventory.SelectItem(0), modes.currentMode))
    {
      if |hits| > 0 {
        var selected := inventory.SelectItem(0);
        if selected.Some? {
          if modes.currentMode == Creative {
            var block := Block(ItemMaterial(selected.value), hits[0].point);
            placed := placed + [block];
          } else if modes.currentMode == Survival {
            // The game reserves this branch for a survival interaction and does nothing.
          }
        }
      }
    }
  }

  /** In Creative mode with a wood block in the first slot, clicking any point of the stone
      block at the origin adds a wood block at that point; the same click in Survival mode
      adds nothing. */
  lemma WoodOnStone(point: Vec3)
    ensures var hits := [Hit(Block(Stone, Vec3(0.0, 0.0, 0.0)), point)];
            Placement(hits, Some(WoodBlock), Creative) == Some(Block(Wood, point)) &&
            Placement(hits, Some(WoodBlock), Survival) == None
  {
  }
}
