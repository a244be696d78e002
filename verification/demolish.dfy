/** Picking things back up from a tile: objects, flooring and furniture
    (SmartBuilding/src/ModEntry.cs, DemolishOnTile). The world is a value here: each
    operation gives the tile afterwards and what the player gets back. */
module Demolish {
  import opened Wrappers
  import opened Classifier
  import opened World
  import opened Lookup
  import opened Config

  /** What the player is handed. */
  datatype Refund =
    | GiveItem(item: Item)                   // one of the removed object
    | GiveNewChest(parentSheetIndex: int)    // a fresh, empty chest of the same kind
    | GiveNamed(name: string)                // the item the engine finds by this name

  /** The tile after a demolition, the refund, and whether a chest dropped its contents. */
  datatype Demolition = Demolition(after: TileState, refund: Option<Refund>, dropsContents: bool)

  /** A removed fence is given back only when it has lost less than half a point of health. */
  function FenceRefunded(maxHealth: real, health: real): (r: bool)
    ensures health >= maxHealth ==> r
    ensures health <= maxHealth - 0.5 ==> !r
  {
    maxHealth - health < 0.5
  }

  /** A fence that is refunded at some health is refunded at any higher health. */
  lemma FenceRefundMonotone(maxHealth: real, health: real, higher: real)
    requires FenceRefunded(maxHealth, health) && health <= higher
    ensures FenceRefunded(maxHealth, higher)
  {
  }

  /** A fence at half its maximum health is refunded only when that maximum is below 1. */
  lemma FenceAtHalfHealth(maxHealth: real)
    ensures FenceRefunded(maxHealth, maxHealth / 2.0) <==> maxHealth < 1.0
  {
  }

  /** Picking up the object on a tile. A chest, recognised by the class of the item found
      by its name or by its own class, drops its contents and is replaced by a fresh chest
      of the same kind; a fence follows the health rule; anything else is handed back.
      The errors are the source's failing casts: a name-recognised chest or fence whose
      own class is not Chest or Fence. */
  function DemolishObject(here: TileState): (r: Result<Demolition>)
    ensures here.obj.None? ==> r == Ok(Demolition(here, None, false))
    ensures r.Ok? && here.obj.Some? ==> r.value.after == here.(obj := None)
    ensures r.Ok? && here.obj.Some? && r.value.refund.Some? && r.value.refund.value.GiveItem? ==>
              r.value.refund.value.item == here.obj.value.item
    ensures r.Ok? && r.value.dropsContents ==> here.obj.Some? && r.value.refund.Some? && r.value.refund.value.GiveNewChest?
    ensures r.Err? ==> here.obj.Some? && here.obj.value.item.cls != ChestClass
                       && IdentifyItemType(here.obj.value.searched) in {Chest, Fence}
    ensures here.obj.Some? && IdentifyItemType(here.obj.value.searched) == Chest ==>
              (r.Ok? <==> here.obj.value.item.cls == ChestClass)
    ensures here.obj.Some? && here.obj.value.item.cls == ChestClass ==>
              r == Ok(Demolition(here.(obj := None), Some(GiveNewChest(here.obj.value.item.parentSheetIndex)), true))
    ensures here.obj.Some? && here.obj.value.item.cls == FenceClass && IdentifyItemType(here.obj.value.searched) == Fence ==>
              r == Ok(Demolition(here.(obj := None),
                                 if FenceRefunded(here.obj.value.maxHealth, here.obj.value.health)
                                 then Some(GiveItem(here.obj.value.item)) else None,
                                 false))
    ensures here.obj.Some? && here.obj.value.item.cls !in {ChestClass, FenceClass}
            && IdentifyItemType(here.obj.value.searched) == Fence ==>
              r.Err?
    ensures here.obj.Some? && here.obj.value.item.cls != ChestClass
            && IdentifyItemType(here.obj.value.searched) !in {Chest, Fence} ==>
              r == Ok(Demolition(here.(obj := None), Some(GiveItem(here.obj.value.item)), false))
    ensures r.Ok? && here.obj.Some? && r.value.refund.None? ==>
              IdentifyItemType(here.obj.value.searched) == Fence
              && !FenceRefunded(here.obj.value.maxHealth, here.obj.value.health)
  {
    match here.obj
    case None => Ok(Demolition(here, None, false))
    case Some(o) =>
      var kind := IdentifyItemType(o.searched);
      var cleared := here.(obj := None);
      if kind == Chest then
        if o.item.cls != ChestClass then Err("object found as a chest is not a Chest")
        else Ok(Demolition(cleared, Some(GiveNewChest(o.item.parentSheetIndex)), true))
      else if o.item.cls == ChestClass then
        Ok(Demolition(cleared, Some(GiveNewChest(o.item.parentSheetIndex)), true))
      else if kind == Fence then
        if o.item.cls != FenceClass then Err("object found as a fence is not a Fence")
        else Ok(Demolition(cleared, if FenceRefunded(o.maxHealth, o.health) then Some(GiveItem(o.item)) else None, false))
      else
        Ok(Demolition(cleared, Some(GiveItem(o.item)), false))
  }

  /** The "can pick up chests" option is not consulted: under any configuration, even with
      the option off, a Chest on the tile is picked up and its contents dropped. */
  lemma ChestPickupIgnoresOption(cfg: ModConfig, here: TileState)
    requires !cfg.canDestroyChests
    requires here.obj.Some? && here.obj.value.item.cls == ChestClass
    ensures DemolishObject(here).Ok? && DemolishObject(here).value.dropsContents
    ensures DemolishObject(here).value.after.obj.None?
  {
  }

  /** Picking up the flooring on a tile: the flooring code is turned back into its item
      name and the flooring is removed. Other terrain features are left alone. */
  function DemolishFloor(here: TileState): (r: Demolition)
    ensures !r.dropsContents && r.after.obj == here.obj
    ensures here.feature.Some? && here.feature.value.Flooring? ==>
              r.after.feature.None?
              && (r.refund.Some? <==> 0 <= here.feature.value.whichFloor < |FloorNames|)
    ensures !(here.feature.Some? && here.feature.value.Flooring?) ==> r == Demolition(here, None, false)
  {
    match here.feature
    case Some(Flooring(whichFloor)) =>
      var refund := match GetFlooringNameFromId(whichFloor)
                    case Some(name) => Some(GiveNamed(name))
                    case None => None;
      Demolition(here.(feature := None), refund, false)
    case _ => Demolition(here, None, false)
  }

  /** Picking up a floor that was laid from a known floor item gives that item back by name. */
  lemma FloorRefundsItsOwnName(here: TileState, name: string)
    requires name in FloorNames
    requires here.feature == Some(Flooring(GetFlooringIdFromName(name).value))
    ensures DemolishFloor(here).refund == Some(GiveNamed(name))
  {
    FloorNameRoundTrip(name);
  }

  // ---------------------------------------------------------------------------
  // Furniture

  /** A rectangle in world pixels, as the engine's Rectangle. */
  datatype Rect = Rect(x: int, y: int, width: int, height: int)

  /** The engine's Rectangle.Intersects. */
  predicate Intersects(a: Rect, b: Rect) {
    b.x < a.x + a.width && a.x < b.x + b.width && b.y < a.y + a.height && a.y < b.y + b.height
  }

  /** The one-pixel probe at the top-left corner of a tile (tiles are 64 pixels wide). */
  function Probe(tile: Tile): Rect {
    Rect(tile.x * 64, tile.y * 64, 1, 1)
  }

  /** A piece of furniture in the location, with its bounding box. */
  datatype PlacedFurniture = PlacedFurniture(item: Item, boundingBox: Rect)

  /** The probe meets a box exactly when the tile's top-left pixel lies inside it. */
  lemma ProbeInside(box: Rect, tile: Tile)
    ensures Intersects(box, Probe(tile)) <==>
              box.x <= tile.x * 64 < box.x + box.width && box.y <= tile.y * 64 < box.y + box.height
  {
  }

  /** Picking up furniture: every piece is checked and the LAST one whose bounding box meets
      the tile is taken into the inventory and removed from the location. */
  method DemolishFurniture(furniture: seq<PlacedFurniture>, tile: Tile)
    returns (remaining: seq<PlacedFurniture>, grabbed: Option<Item>)
    ensures grabbed.None? ==> remaining == furniture
                              && forall j :: 0 <= j < |furniture| ==> !Intersects(furniture[j].boundingBox, Probe(tile))
    ensures grabbed.Some? ==>
              exists k :: 0 <= k < |furniture|
                          && Intersects(furniture[k].boundingBox, Probe(tile))
                          && (forall j :: k < j < |furniture| ==> !Intersects(furniture[j].boundingBox, Probe(tile)))
                          && grabbed.value == furniture[k].item
                          && remaining == furniture[..k] + furniture[k + 1..]
  {
    var toGrab: Option<nat> := None;
    for k := 0 to |furniture|
      invariant toGrab.None? ==> forall j :: 0 <= j < k ==> !Intersects(furniture[j].boundingBox, Probe(tile))
      invariant toGrab.Some? ==>
                  && toGrab.value < k
                  && Intersects(furniture[toGrab.value].boundingBox, Probe(tile))
                  && forall j :: toGrab.value < j < k ==> !Intersects(furniture[j].boundingBox, Probe(tile))
    {
      if Intersects(furniture[k].boundingBox, Probe(tile)) {
        toGrab := Some(k);
      }
    }
    if toGrab.Some? {
      var k := toGrab.value;
      grabbed := Some(furniture[k].item);
      remaining := furniture[..k] + furniture[k + 1..];
    } else {
      grabbed := None;
      remaining := furniture;
    }
  }
}
