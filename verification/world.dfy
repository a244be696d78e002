/** The slice of the game world the mod reads at one tile: the object and terrain feature
    on it, and the engine's own placement checks, which the model takes as given answers. */
module World {
  import opened Wrappers
  import opened Classifier

  /** A tile coordinate. The source keeps tiles as float vectors and truncates them to
      integers whenever it asks the engine about one. */
  datatype Tile = Tile(x: int, y: int)

  datatype Crop = Crop(currentPhase: int)

  /** The terrain features the mod tells apart. */
  datatype TerrainFeature =
    | Flooring(whichFloor: int)
    | HoeDirt(crop: Option<Crop>)
    | Tree(growthStage: int, tapped: bool, fertilized: bool)
    | Grass
    | OtherFeature

  /** An object standing on a tile. `searched` is what the engine's fuzzy item search
      returns for the object's name; `health` and `maxHealth` are read only from fences. */
  datatype TileObject = TileObject(item: Item, searched: Item, health: real, maxHealth: real)

  /** What occupies one tile of the current location. */
  datatype TileState = TileState(obj: Option<TileObject>, feature: Option<TerrainFeature>)

  /** The engine's answers about placing the held item on the tile in question. */
  datatype Native = Native(
    validCrabPotLocation: bool,        // CrabPot.IsValidCrabPotLocationTile
    totallyClearAndPlaceable: bool,    // isTileLocationTotallyClearAndPlaceable
    totallyClearIgnoringFloors: bool,  // isTileLocationTotallyClearAndPlaceableIgnoreFloors
    canPlantSeed: bool,                // HoeDirt.canPlantThisSeedHere(index, x, y)
    canPlantFertilizer: bool,          // HoeDirt.canPlantThisSeedHere(index, x, y, true)
    furnitureCanBePlaced: bool,        // canBePlacedHere of the furniture's own class
    isWater: Tile -> bool)             // GameLocation.isWaterTile
}
