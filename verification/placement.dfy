/** The placement validator: whether the held item may be queued on a tile, combining the
    engine's own checks with the mod's per-category rules and options
    (SmartBuilding/src/ModEntry.cs, CanBePlacedHere and HasAdjacentNonWaterTile). */
module Placement {
  import opened Wrappers
  import opened Config
  import opened Classifier
  import opened World

  // ---------------------------------------------------------------------------
  // Neighbouring tiles

  /** The eight offsets the source checks around a crab pot, in its order: left, right,
      up, down, up-left, up-right, down-left, down-right. */
  const Directions: seq<Tile> :=
    [Tile(-1, 0), Tile(1, 0), Tile(0, -1), Tile(0, 1), Tile(-1, -1), Tile(1, -1), Tile(-1, 1), Tile(1, 1)]

  function Offset(v: Tile, d: Tile): Tile {
    Tile(v.x + d.x, v.y + d.y)
  }

  /** `n` is one of the eight tiles that touch `v` by a side or a corner. */
  predicate IsNeighbour(v: Tile, n: Tile) {
    n != v && -1 <= n.x - v.x <= 1 && -1 <= n.y - v.y <= 1
  }

  /** Some tile in the direction list, offset from `v`, is not water. */
  predicate SomeDirectionIsDry(isWater: Tile -> bool, v: Tile) {
    exists k :: 0 <= k < |Directions| && !isWater(Offset(v, Directions[k]))
  }

  /** The crab-pot adjacency rule: any water tile will do when the option allows it, and
      otherwise some neighbouring tile must be dry. */
  predicate AdjacentNonWater(cfg: ModConfig, isWater: Tile -> bool, v: Tile) {
    cfg.crabPotsInAnyWaterTile || SomeDirectionIsDry(isWater, v)
  }

  /** The direction list reaches exactly the eight neighbours of a tile. */
  lemma DirectionsAreTheNeighbours(v: Tile, n: Tile)
    ensures IsNeighbour(v, n) <==> exists k :: 0 <= k < |Directions| && n == Offset(v, Directions[k])
  {
    if IsNeighbour(v, n) {
      var dx, dy := n.x - v.x, n.y - v.y;
      var k :=
        if dx == -1 && dy == 0 then 0 else if dx == 1 && dy == 0 then 1
        else if dx == 0 && dy == -1 then 2 else if dx == 0 && dy == 1 then 3
        else if dx == -1 && dy == -1 then 4 else if dx == 1 && dy == -1 then 5
        else if dx == -1 && dy == 1 then 6 else 7;
      assert n == Offset(v, Directions[k]);
    }
  }

  /** The adjacency rule says: the option is on, or some neighbour is not water. */
  lemma AdjacentNonWaterMeaning(cfg: ModConfig, isWater: Tile -> bool, v: Tile)
    ensures AdjacentNonWater(cfg, isWater, v) <==>
              cfg.crabPotsInAnyWaterTile || exists n :: IsNeighbour(v, n) && !isWater(n)
  {
    if exists n :: IsNeighbour(v, n) && !isWater(n) {
      var n :| IsNeighbour(v, n) && !isWater(n);
      DirectionsAreTheNeighbours(v, n);
    }
    if SomeDirectionIsDry(isWater, v) {
      var k :| 0 <= k < |Directions| && !isWater(Offset(v, Directions[k]));
      DirectionsAreTheNeighbours(v, Offset(v, Directions[k]));
    }
  }

  /** The source's loop: true at once when crab pots may go in any water tile, otherwise
      true at the first of the eight neighbours that is not water. */
  method HasAdjacentNonWaterTile(cfg: ModConfig, isWater: Tile -> bool, v: Tile) returns (r: bool)
    ensures r <==> cfg.crabPotsInAnyWaterTile || exists n :: IsNeighbour(v, n) && !isWater(n)
  {
    if cfg.crabPotsInAnyWaterTile {
      return true;
    }
    for k := 0 to |Directions|
      invariant forall j :: 0 <= j < k ==> isWater(Offset(v, Directions[j]))
    {
      var neighbour := Offset(v, Directions[k]);
      if !isWater(neighbour) {
        DirectionsAreTheNeighbours(v, neighbour);
        return true;
      }
    }
    forall n | IsNeighbour(v, n)
      ensures isWater(n)
    {
      DirectionsAreTheNeighbours(v, n);
    }
    return false;
  }

  // ---------------------------------------------------------------------------
  // The validator

  /** Hoed dirt that fertilizer may go on: no crop, or a crop still in its first phase. */
  predicate FertilizableDirt(f: Option<TerrainFeature>) {
    f.Some? && f.value.HoeDirt? && (f.value.crop.None? || f.value.crop.value.currentPhase == 0)
  }

  /** A tree that a tapper may go on: fully grown and not tapped yet. */
  predicate TappableTree(f: Option<TerrainFeature>) {
    f.Some? && f.value.Tree? && !f.value.tapped && f.value.growthStage >= 5
  }

  /** Whether the item may be queued on tile `v`, given what is on the tile, the options and
      the engine's answers. */
  function CanBePlacedHere(cfg: ModConfig, v: Tile, here: TileState, i: Item, native: Native): (r: bool)
    ensures IdentifyItemType(i) == FishTankFurniture ==> !r
    ensures r && IdentifyItemType(i) == Seed ==>
              cfg.enablePlantingCrops && here.obj.None? && here.feature.Some? && here.feature.value.HoeDirt?
    ensures r && IdentifyItemType(i) == Fertilizer ==>
              cfg.enableCropFertilizers && here.obj.None? && FertilizableDirt(here.feature)
    ensures r && IdentifyItemType(i) == TreeFertilizer ==>
              cfg.enableTreeFertilizers && here.feature.Some? && here.feature.value.Tree? && !here.feature.value.fertilized
    ensures r && IdentifyItemType(i) == Tapper ==> cfg.enableTreeTappers && TappableTree(here.feature)
    ensures r && IdentifyItemType(i) == StorageFurniture ==> cfg.enablePlacingStorageFurniture
    ensures r && IdentifyItemType(i) == CrabPot ==> native.validCrabPotLocation
    ensures r && IdentifyItemType(i) == GrassStarter ==> here.feature.None?
  {
    match IdentifyItemType(i)
    case CrabPot =>
      native.validCrabPotLocation && AdjacentNonWater(cfg, native.isWater, v)
    case GrassStarter =>
      here.feature.None?
    case Floor =>
      if here.feature.Some? then
        here.feature.value.Flooring? && cfg.enableReplacingFloors
      else if here.obj.Some? && IdentifyItemType(here.obj.value.searched) == Fence then
        true
      else
        cfg.lessRestrictiveFloorPlacement || native.totallyClearAndPlaceable
    case Chest =>
      native.totallyClearIgnoringFloors
    case Fertilizer =>
      if !cfg.enableCropFertilizers || here.obj.Some? then false
      else (match here.feature
            case Some(HoeDirt(crop)) =>
              if crop.Some? && crop.value.currentPhase != 0 then false else native.canPlantFertilizer
            case _ => false)
    case TreeFertilizer =>
      if !cfg.enableTreeFertilizers then false
      else (match here.feature
            case Some(Tree(_, _, fertilized)) => !fertilized
            case _ => false)
    case Seed =>
      if !cfg.enablePlantingCrops || here.obj.Some? then false
      else (match here.feature
            case Some(HoeDirt(_)) => native.canPlantSeed
            case _ => false)
    case Tapper =>
      if !cfg.enableTreeTappers then false
      else (match here.feature
            case Some(Tree(growthStage, tapped, _)) => !tapped && growthStage >= 5
            case _ => false)
    case Fence =>
      if here.obj.Some? then
        IsTypeOfObject(here.obj.value.item, Fence) && cfg.enableReplacingFences
      else if here.feature.Some? && here.feature.value.HoeDirt? then
        here.feature.value.crop.None?
      else
        native.totallyClearIgnoringFloors
    case FishTankFurniture =>
      false
    case StorageFurniture =>
      if IsA(i.cls, FishTankFurnitureClass) || !cfg.enablePlacingStorageFurniture then false
      else cfg.lessRestrictiveFurniturePlacement || native.furnitureCanBePlaced
    case TVFurniture =>
      cfg.lessRestrictiveFurniturePlacement || native.furnitureCanBePlaced
    case BedFurniture =>
      cfg.lessRestrictiveBedPlacement || native.furnitureCanBePlaced
    case GenericFurniture =>
      cfg.lessRestrictiveFurniturePlacement || native.furnitureCanBePlaced
    case Generic =>
      native.totallyClearIgnoringFloors
  }

  // ---------------------------------------------------------------------------
  // Properties of the validator

  /** A crab pot is accepted exactly on a tile the engine calls a crab-pot tile, when the
      option allows any water tile or one of the eight neighbours is not water. */
  lemma CrabPotRule(cfg: ModConfig, v: Tile, here: TileState, i: Item, native: Native)
    requires IdentifyItemType(i) == CrabPot
    ensures CanBePlacedHere(cfg, v, here, i, native) <==>
              native.validCrabPotLocation
              && (cfg.crabPotsInAnyWaterTile || exists n :: IsNeighbour(v, n) && !native.isWater(n))
  {
    AdjacentNonWaterMeaning(cfg, native.isWater, v);
  }

  /** A tapper is accepted exactly on an untapped tree of growth stage at least 5, when
      tappers are enabled. */
  lemma TapperRule(cfg: ModConfig, v: Tile, here: TileState, i: Item, native: Native)
    requires IdentifyItemType(i) == Tapper
    ensures CanBePlacedHere(cfg, v, here, i, native) <==> cfg.enableTreeTappers && TappableTree(here.feature)
  {
  }

  /** A fence over an object is accepted exactly when that object is itself a fence and
      replacing fences is enabled. */
  lemma FenceOverObjectRule(cfg: ModConfig, v: Tile, here: TileState, i: Item, native: Native)
    requires IdentifyItemType(i) == Fence && here.obj.Some?
    ensures CanBePlacedHere(cfg, v, here, i, native) <==>
              IdentifyItemType(here.obj.value.item) == Fence && cfg.enableReplacingFences
  {
  }

  /** A fence over hoed dirt (with no object) is accepted exactly when the dirt has no crop. */
  lemma FenceOverHoeDirtRule(cfg: ModConfig, v: Tile, here: TileState, i: Item, native: Native)
    requires IdentifyItemType(i) == Fence && here.obj.None?
    requires here.feature.Some? && here.feature.value.HoeDirt?
    ensures CanBePlacedHere(cfg, v, here, i, native) <==> here.feature.value.crop.None?
  {
  }

  /** A grass starter is accepted exactly on a tile without a terrain feature. */
  lemma GrassStarterRule(cfg: ModConfig, v: Tile, here: TileState, i: Item, native: Native)
    requires IdentifyItemType(i) == GrassStarter
    ensures CanBePlacedHere(cfg, v, here, i, native) <==> here.feature.None?
  {
  }

  /** A floor over an existing terrain feature is accepted exactly when that feature is
      flooring and replacing floors is enabled; over an object that searches as a fence it
      is always accepted. */
  lemma FloorRule(cfg: ModConfig, v: Tile, here: TileState, i: Item, native: Native)
    requires IdentifyItemType(i) == Floor
    ensures here.feature.Some? ==>
              (CanBePlacedHere(cfg, v, here, i, native) <==> here.feature.value.Flooring? && cfg.enableReplacingFloors)
    ensures here.feature.None? && here.obj.Some? && IdentifyItemType(here.obj.value.searched) == Fence ==>
              CanBePlacedHere(cfg, v, here, i, native)
  {
  }

  /** A floor on a tile with no terrain feature and no object found as a fence falls back
      to the engine's clear-tile check, which the lax floor option overrides. */
  lemma FloorFallbackRule(cfg: ModConfig, v: Tile, here: TileState, i: Item, native: Native)
    requires IdentifyItemType(i) == Floor && here.feature.None?
    requires !(here.obj.Some? && IdentifyItemType(here.obj.value.searched) == Fence)
    ensures CanBePlacedHere(cfg, v, here, i, native) <==>
              cfg.lessRestrictiveFloorPlacement || native.totallyClearAndPlaceable
  {
  }

  /** A seed is accepted exactly on hoed dirt with no object on it, when planting crops is
      enabled and the engine lets the seed be planted there. */
  lemma SeedRule(cfg: ModConfig, v: Tile, here: TileState, i: Item, native: Native)
    requires IdentifyItemType(i) == Seed
    ensures CanBePlacedHere(cfg, v, here, i, native) <==>
              && cfg.enablePlantingCrops && here.obj.None?
              && here.feature.Some? && here.feature.value.HoeDirt? && native.canPlantSeed
  {
  }

  /** Fertilizer is accepted exactly on hoed dirt with no object on it whose crop, if any,
      is still in its first phase, when crop fertilizers are enabled and the engine lets
      the fertilizer be applied. */
  lemma FertilizerRule(cfg: ModConfig, v: Tile, here: TileState, i: Item, native: Native)
    requires IdentifyItemType(i) == Fertilizer
    ensures CanBePlacedHere(cfg, v, here, i, native) <==>
              cfg.enableCropFertilizers && here.obj.None? && FertilizableDirt(here.feature) && native.canPlantFertilizer
  {
  }

  /** Tree fertilizer is accepted exactly on a tree that is not fertilized yet, when tree
      fertilizers are enabled; an object on the tile does not matter. */
  lemma TreeFertilizerRule(cfg: ModConfig, v: Tile, here: TileState, i: Item, native: Native)
    requires IdentifyItemType(i) == TreeFertilizer
    ensures CanBePlacedHere(cfg, v, here, i, native) <==>
              cfg.enableTreeFertilizers && here.feature.Some? && here.feature.value.Tree? && !here.feature.value.fertilized
  {
  }

  /** A fence with no object and no hoed dirt under it is judged as a generic object. */
  lemma FenceFallbackRule(cfg: ModConfig, v: Tile, here: TileState, i: Item, native: Native)
    requires IdentifyItemType(i) == Fence && here.obj.None?
    requires !(here.feature.Some? && here.feature.value.HoeDirt?)
    ensures CanBePlacedHere(cfg, v, here, i, native) == native.totallyClearIgnoringFloors
  {
  }

  /** A generic object is accepted exactly where the engine calls the tile clear, floors
      ignored. */
  lemma GenericRule(cfg: ModConfig, v: Tile, here: TileState, i: Item, native: Native)
    requires IdentifyItemType(i) == Generic
    ensures CanBePlacedHere(cfg, v, here, i, native) == native.totallyClearIgnoringFloors
  {
  }

  /** Furniture: the lax furniture option accepts a TV, generic furniture and (when
      enabled) storage furniture anywhere, the lax bed option accepts a bed anywhere, and
      otherwise the furniture's own placement check decides. */
  lemma FurnitureRule(cfg: ModConfig, v: Tile, here: TileState, i: Item, native: Native)
    requires IdentifyItemType(i) in {TVFurniture, GenericFurniture, BedFurniture, StorageFurniture}
    ensures IdentifyItemType(i) in {TVFurniture, GenericFurniture} ==>
              (CanBePlacedHere(cfg, v, here, i, native) <==> cfg.lessRestrictiveFurniturePlacement || native.furnitureCanBePlaced)
    ensures IdentifyItemType(i) == BedFurniture ==>
              (CanBePlacedHere(cfg, v, here, i, native) <==> cfg.lessRestrictiveBedPlacement || native.furnitureCanBePlaced)
    ensures IdentifyItemType(i) == StorageFurniture ==>
              (CanBePlacedHere(cfg, v, here, i, native) <==>
                 cfg.enablePlacingStorageFurniture && (cfg.lessRestrictiveFurniturePlacement || native.furnitureCanBePlaced))
  {
  }

  /** `lax` is `cfg` with possibly more of the three lax-placement options turned on. */
  predicate MoreLax(cfg: ModConfig, lax: ModConfig) {
    && lax == cfg.(lessRestrictiveFloorPlacement := lax.lessRestrictiveFloorPlacement,
                   lessRestrictiveFurniturePlacement := lax.lessRestrictiveFurniturePlacement,
                   lessRestrictiveBedPlacement := lax.lessRestrictiveBedPlacement)
    && (cfg.lessRestrictiveFloorPlacement ==> lax.lessRestrictiveFloorPlacement)
    && (cfg.lessRestrictiveFurniturePlacement ==> lax.lessRestrictiveFurniturePlacement)
    && (cfg.lessRestrictiveBedPlacement ==> lax.lessRestrictiveBedPlacement)
  }

  /** Turning a lax-placement option on never turns an accepted placement into a rejected one. */
  lemma LaxPlacementOnlyWidens(cfg: ModConfig, lax: ModConfig, v: Tile, here: TileState, i: Item, native: Native)
    requires MoreLax(cfg, lax) && CanBePlacedHere(cfg, v, here, i, native)
    ensures CanBePlacedHere(lax, v, here, i, native)
  {
  }

  /** A chest is judged exactly like a generic object. */
  lemma ChestIsGeneric(cfg: ModConfig, v: Tile, here: TileState, i: Item, native: Native)
    requires IdentifyItemType(i) == Chest
    ensures CanBePlacedHere(cfg, v, here, i, native) == native.totallyClearIgnoringFloors
  {
  }

  /** Under the default options no seed, fertilizer, tree fertilizer, tapper or storage
      furniture is ever accepted. */
  lemma DefaultConfigRejectsOptIns(v: Tile, here: TileState, i: Item, native: Native)
    requires IdentifyItemType(i) in {Seed, Fertilizer, TreeFertilizer, Tapper, StorageFurniture}
    ensures !CanBePlacedHere(Default(), v, here, i, native)
  {
  }
}
