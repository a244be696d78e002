/** The boolean options of the mod's configuration record (SmartBuilding/src/ModConfig.cs).
    The keybind options are not part of this model. */
module Config {

  datatype ModConfig = ModConfig(
    showBuildQueue: bool,
    canDestroyChests: bool,
    crabPotsInAnyWaterTile: bool,
    enableReplacingFences: bool,
    enableReplacingFloors: bool,
    lessRestrictiveFloorPlacement: bool,
    lessRestrictiveFurniturePlacement: bool,
    lessRestrictiveBedPlacement: bool,
    enablePlacingStorageFurniture: bool,
    enablePlantingCrops: bool,
    enableCropFertilizers: bool,
    enableTreeFertilizers: bool,
    enableTreeTappers: bool)

  /** No option lets a fence or a floor be queued over an existing fence or floor. */
  predicate ReplacementsOff(c: ModConfig) {
    !c.enableReplacingFences && !c.enableReplacingFloors
  }

  /** Crab pots need a neighbouring tile that is not water. */
  predicate CrabPotAdjacencyRequired(c: ModConfig) {
    !c.crabPotsInAnyWaterTile
  }

  /** Every placement falls back to the engine's own legality checks. */
  predicate LaxPlacementOff(c: ModConfig) {
    !c.lessRestrictiveFloorPlacement && !c.lessRestrictiveFurniturePlacement && !c.lessRestrictiveBedPlacement
  }

  /** None of the opt-in placement kinds (storage furniture, crops, fertilizers, tappers) is enabled. */
  predicate OptInsOff(c: ModConfig) {
    && !c.enablePlacingStorageFurniture
    && !c.enablePlantingCrops
    && !c.enableCropFertilizers
    && !c.enableTreeFertilizers
    && !c.enableTreeTappers
  }

  /** The values a freshly created configuration record holds. */
  function Default(): (c: ModConfig)
    ensures c.showBuildQueue && !c.canDestroyChests && CrabPotAdjacencyRequired(c)
    ensures ReplacementsOff(c) && LaxPlacementOff(c) && OptInsOff(c)
  {
    ModConfig(
      showBuildQueue := true,
      canDestroyChests := false,
      crabPotsInAnyWaterTile := false,
      enableReplacingFences := false,
      enableReplacingFloors := false,
      lessRestrictiveFloorPlacement := false,
      lessRestrictiveFurniturePlacement := false,
      lessRestrictiveBedPlacement := false,
      enablePlacingStorageFurniture := false,
      enablePlantingCrops := false,
      enableCropFertilizers := false,
      enableTreeFertilizers := false,
      enableTreeTappers := false)
  }
}
