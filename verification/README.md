# SmartBuilding, modelled in Dafny

SmartBuilding is a Stardew Valley mod for placing things in bulk. The player turns on
build mode, holds a key to paint tiles with the item in hand, can erase tiles, and
confirms to place everything at once. Leaving build mode or changing location refunds
everything still queued. The mod can also pick objects, floors and furniture back up.

This project models the decision and bookkeeping core of `ModEntry.cs` and the option
record in `ModConfig.cs`:

| file | module | what it holds |
|---|---|---|
| `wrappers.dfy` | `Wrappers` | `Option` (the source's nullable results) and `Result` (its failing casts) |
| `config.dfy` | `Config` | the boolean options and their defaults |
| `lookup.dfy` | `Lookup` | the floor-name/floor-code tables and the chest-type table |
| `classifier.dfy` | `Classifier` | the item model, the ordered item classifier, and the same classifier written as a rule table |
| `world.dfy` | `World` | the state of one tile and the engine checks, taken as opaque inputs |
| `placement.dfy` | `Placement` | the placement validator and the crab-pot neighbour scan |
| `demolish.dfy` | `Demolish` | picking up objects, floors and furniture, including the fence refund rule |
| `session.dfy` | `Session` | the build session: the queue of painted tiles, build mode, drawing and erasing, refunds and the confirm drain |

Pure parts are functions and lemmas: the tables, the classifier, the validator, and the
object and floor pick-up. Parts that change state step by step are imperative. The build
session is a class whose methods update the queue map, flags, held stack, refunds and
committed placements in place. What one step does to the queue, the hand and the refunds
is also written as functions on a `Ledger` value (`Draw`, `Erase`, `Cleared`). Each
method's postcondition is stated through them, and lemmas relate them to one another. The crab-pot scan, the confirm drain, erasing, clearing
and the furniture search are loops with invariants.

Several quirks of the source are kept as written:

- The floor test reads `name contains "Floor" || name contains "Path" && category == -24`.
  `&&` binds tighter, so the category only restricts paths (`ModEntry.cs:941`).
- The sapling exclusion in the seed test can never hold. An item is a seed exactly when its
  type is `"Seeds"`. `Classifier.SaplingExclusionNeverHolds` proves this (`ModEntry.cs:951`).
- Erasing starts its "tile to remove" at (0, 0) and always removes it. Erasing a tile that is
  not queued therefore drops any entry at (0, 0) without a refund. The postconditions of
  `Session.BuildSession.EraseTile` state this (`ModEntry.cs:655-673`).
- The "can pick up chests" option is read only by the settings menu (`ModEntry.cs:383-384`).
  Picking up an object removes a chest and drops its contents whatever the option says
  (`ModEntry.cs:1098-1123`), even though the menu warns about exactly this. `Demolish.DemolishObject`
  takes no configuration, and `Demolish.ChestPickupIgnoresOption` states the consequence.
- The validator's closing `return false` (`ModEntry.cs:921`) is unreachable. The switch
  covers all 15 item types, and the Dafny `match` is exhaustive in the same way.

The engine is kept abstract. Tiles are integer pairs. A tile holds an optional object and an
optional terrain feature: flooring, hoed dirt with an optional crop, a tree, grass or
something else. The engine's own checks are booleans in `World.Native`:
- whether a crab pot can go on the tile;
- whether the tile is totally clear, counting floors or ignoring them;
- whether a seed or fertilizer can be planted;
- whether furniture fits.

Water is a predicate on tiles. The held item is a `Stack` of an item and a count.

## Model

| member | source | states |
|---|---|---|
| Config.Default | SmartBuilding/src/ModConfig.cs:18-32 | the build queue is shown and the "can pick up chests" option is off by default; crab pots need a dry neighbour; fence and floor replacement, every lax-placement option and every opt-in (storage furniture, crops, fertilizers, tree fertilizers, tappers) are off by default |
| Lookup.GetFlooringIdFromName | SmartBuilding/src/ModEntry.cs:1651-1685 | a name gets a code exactly when it is one of the 13 floor and path names, and the code is that name's position in the floor table; any other name gets none |
| Lookup.GetFlooringNameFromId | SmartBuilding/src/ModEntry.cs:1687-1721 | a code gets a name exactly when it is in 0..12, and the name is the table entry for that code |
| Lookup.FloorNamesDistinct | SmartBuilding/src/ModEntry.cs:1651-1685 | no two codes share a floor name |
| Lookup.FloorNameRoundTrip | SmartBuilding/src/ModEntry.cs:1651-1721 | for each of the 13 names, turning it into a code and back gives the same name |
| Lookup.FloorIdRoundTrip | SmartBuilding/src/ModEntry.cs:1651-1721 | for each code 0..12, turning it into a name and back gives the same code |
| Lookup.GetChestType | SmartBuilding/src/ModEntry.cs:1723-1737 | a chest type exists exactly for the three chest names: "Chest" gets 130, "Stone Chest" 232 and "Junimo Chest" 256; every other name gets none |
| Lookup.ChestTypeInjective | SmartBuilding/src/ModEntry.cs:1723-1737 | different chest names give different chest types |
| Classifier.IdentifyItemType | SmartBuilding/src/ModEntry.cs:924-961 | the result is a furniture tag exactly when the item's runtime class is furniture, and storage furniture only for a StorageFurniture that is not a fish tank |
| Classifier.SaplingExclusionNeverHolds | SmartBuilding/src/ModEntry.cs:951-952 | the seed test holds exactly when the item's type is "Seeds"; the category -74 clause can never add anything |
| Classifier.ClassRuleTestsMean | SmartBuilding/src/ModEntry.cs:931-940 | each of the five class rules holds for its exact class only; the classifier's `is` checks also admit subclasses, and the two agree because the more specific classes come first |
| Classifier.NameRuleTestsMean | SmartBuilding/src/ModEntry.cs:941-958 | each of the nine name, category and type rules tests the same condition as the matching branch of the classifier |
| Classifier.ClassifyIsFirstMatch | SmartBuilding/src/ModEntry.cs:924-961 | the classifier gives the tag of the first rule that matches, in the order fish tank, storage, bed, TV, furniture, floor, chest, fence, grass starter, crab pot, seed, tree fertilizer, fertilizer, tapper, else generic |
| Classifier.IsTypeOfObject | SmartBuilding/src/ModEntry.cs:675-681 | an object is of a tag exactly when that tag is the one of the first rule of the rule table it passes; a furniture tag only ever fits furniture |
| Classifier.FurnitureIsNeverNameClassified | SmartBuilding/src/ModEntry.cs:931-940 | furniture is classified by its class before any name test, so it never gets a name-based tag |
| Classifier.FloorIff | SmartBuilding/src/ModEntry.cs:941-942 | a non-furniture item is a floor exactly when its name contains "Floor", or contains "Path" with category -24 |
| Classifier.SeedIff | SmartBuilding/src/ModEntry.cs:951-952 | an item that no earlier rule catches is a seed exactly when its type is "Seeds" |
| Placement.DirectionsAreTheNeighbours | SmartBuilding/src/ModEntry.cs:1030-1040 | the eight offsets checked reach exactly the tiles touching the given tile by a side or a corner |
| Placement.AdjacentNonWaterMeaning | SmartBuilding/src/ModEntry.cs:1021-1049 | the adjacency rule holds exactly when any water tile is allowed, or some neighbouring tile is not water |
| Placement.HasAdjacentNonWaterTile | SmartBuilding/src/ModEntry.cs:1021-1049 | the scan answers true exactly when any water tile is allowed or some neighbour is not water |
| Placement.CanBePlacedHere | SmartBuilding/src/ModEntry.cs:689-922 | fish tanks are always rejected; an accepted seed, fertilizer, tree fertilizer or tapper has its option on and a suitable tile; accepted storage furniture has its option on; an accepted crab pot is on an engine-approved crab-pot tile; an accepted grass starter has no terrain feature under it (each category's exact rule is the `...Rule` lemma of that category) |
| Placement.CrabPotRule | SmartBuilding/src/ModEntry.cs:696-697 | a crab pot is accepted exactly on an engine-approved tile where any water tile is allowed or some neighbour is not water |
| Placement.TapperRule | SmartBuilding/src/ModEntry.cs:824-847 | a tapper is accepted exactly when tappers are enabled and the tile has an untapped tree of growth stage 5 or more |
| Placement.FenceOverObjectRule | SmartBuilding/src/ModEntry.cs:848-857 | a fence over an object is accepted exactly when that object classifies as a fence and replacing fences is enabled |
| Placement.FenceOverHoeDirtRule | SmartBuilding/src/ModEntry.cs:858-873 | a fence over hoed dirt is accepted exactly when the dirt has no crop |
| Placement.GrassStarterRule | SmartBuilding/src/ModEntry.cs:698-700 | a grass starter is accepted exactly on a tile with no terrain feature |
| Placement.FloorRule | SmartBuilding/src/ModEntry.cs:701-737 | a floor over a terrain feature is accepted exactly when that feature is flooring and replacing floors is on; on a tile with no terrain feature, a floor over an object found as a fence is always accepted |
| Placement.FloorFallbackRule | SmartBuilding/src/ModEntry.cs:701-737 | a floor on a tile with no terrain feature and no object found as a fence is accepted exactly when the lax floor option is on or the engine calls the tile clear |
| Placement.SeedRule | SmartBuilding/src/ModEntry.cs:800-823 | a seed is accepted exactly on hoed dirt with no object, when planting crops is on and the engine lets the seed be planted |
| Placement.FertilizerRule | SmartBuilding/src/ModEntry.cs:740-776 | fertilizer is accepted exactly on hoed dirt with no object whose crop, if any, is in its first phase, when crop fertilizers are on and the engine agrees |
| Placement.TreeFertilizerRule | SmartBuilding/src/ModEntry.cs:777-799 | tree fertilizer is accepted exactly on an unfertilized tree, when tree fertilizers are on |
| Placement.FenceFallbackRule | SmartBuilding/src/ModEntry.cs:848-876 | a fence with neither an object nor hoed dirt under it is judged as a generic object |
| Placement.GenericRule | SmartBuilding/src/ModEntry.cs:916-917 | a generic object is accepted exactly where the engine calls the tile clear, floors ignored |
| Placement.FurnitureRule | SmartBuilding/src/ModEntry.cs:885-915 | the lax furniture option accepts a TV, generic furniture and enabled storage furniture anywhere; the lax bed option accepts a bed anywhere; otherwise the furniture's own placement check decides; storage furniture needs its option on |
| Placement.LaxPlacementOnlyWidens | SmartBuilding/src/ModEntry.cs:689-922 | turning on any of the three lax-placement options never turns an accepted placement into a rejected one |
| Placement.ChestIsGeneric | SmartBuilding/src/ModEntry.cs:738-739 | a chest is judged exactly as a generic object |
| Placement.DefaultConfigRejectsOptIns | SmartBuilding/src/ModEntry.cs:740-892 | under the default options no seed, fertilizer, tree fertilizer, tapper or storage furniture is ever accepted |
| Demolish.FenceRefunded | SmartBuilding/src/ModEntry.cs:1133-1134 | an undamaged fence is refunded, and a fence that has lost half a point of health or more is not |
| Demolish.FenceRefundMonotone | SmartBuilding/src/ModEntry.cs:1133-1134 | a fence refunded at some health is refunded at any higher health |
| Demolish.FenceAtHalfHealth | SmartBuilding/src/ModEntry.cs:1133-1134 | a fence at half its maximum health is refunded only when that maximum is below 1 |
| Demolish.DemolishObject | SmartBuilding/src/ModEntry.cs:1086-1144 | an empty tile is left alone; a successful pick-up clears the object and changes nothing else on the tile; an object of class Chest drops its contents and gives back a new chest of its own sheet index; a chest found by name fails unless its class is Chest; a Fence found as a fence is removed and handed back itself exactly when `FenceRefunded` holds for its health; a fence found by name whose class is neither Chest nor Fence fails; any other object is always handed back itself; nothing is given back only for a worn fence; the only failures are a chest or fence found by name whose own class is not Chest or Fence |
| Demolish.ChestPickupIgnoresOption | SmartBuilding/src/ModEntry.cs:1098-1123 | with the "can pick up chests" option off, a Chest on the tile is still picked up and its contents dropped: the option is never consulted |
| Demolish.DemolishFloor | SmartBuilding/src/ModEntry.cs:1154-1186 | flooring is removed and refunded by name exactly when its code is in the floor table; the object and any other terrain feature are untouched |
| Demolish.FloorRefundsItsOwnName | SmartBuilding/src/ModEntry.cs:1161-1180 | picking up a floor laid from a known floor item gives back an item of that name |
| Demolish.ProbeInside | SmartBuilding/src/ModEntry.cs:1194 | the one-pixel probe meets a bounding box exactly when the tile's top-left pixel lies inside it |
| Demolish.DemolishFurniture | SmartBuilding/src/ModEntry.cs:1188-1206 | when any furniture meets the tile, the last such piece is handed over and removed and the others stay in order; otherwise nothing changes |
| Session.GetItemInfo | SmartBuilding/src/ModEntry.cs:963-987 | a queued entry holds the item itself and the tag of the first classification rule it passes |
| Session.ReduceActiveItemByOne | SmartBuilding/src/ModEntry.cs:1016 | a held stack loses exactly one item and keeps its item; a used-up stack is gone |
| Session.Draw | SmartBuilding/src/ModEntry.cs:989-1019 | drawing on a tile adds exactly that tile, with the held item, and takes one item from the hand when build mode, a placeable held item, the validator and a free tile allow it; otherwise nothing changes; queued entries are never replaced and nothing is refunded |
| Session.Erase | SmartBuilding/src/ModEntry.cs:655-673 | erasing a queued tile removes exactly that tile and refunds its item; erasing any other tile removes the entry at (0, 0), if any, and refunds nothing; the hand is untouched |
| Session.Cleared | SmartBuilding/src/ModEntry.cs:1065-1076 | clearing empties the queue, refunds one item per queued tile, every queued item among them, and leaves the hand alone |
| Session.DrawThenErase | SmartBuilding/src/ModEntry.cs:655-673 | drawing an item on a tile and erasing that tile again restores the queue and refunds the item taken from the hand |
| Session.EraseUnqueuedLosesOrigin | SmartBuilding/src/ModEntry.cs:657-672 | erasing a tile that is not queued refunds nothing and loses the entry at (0, 0) when there is one |
| Session.DrainReachesEveryEntry | SmartBuilding/src/ModEntry.cs:268-278 | a drain of the queue reaches every queued tile with its own entry |
| Session.BuildSession.constructor | SmartBuilding/src/ModEntry.cs:47-54 | a session starts out of build mode, not drawing or erasing, with nothing queued, refunded or placed |
| Session.BuildSession.AddTile | SmartBuilding/src/ModEntry.cs:989-1019 | the queue, hand and refunds afterwards are `Draw` of those before, so an entry is added only when build mode, a placeable held item, the validator and a free tile allow it; the mode flags and placements are unchanged |
| Session.BuildSession.EraseTile | SmartBuilding/src/ModEntry.cs:655-673 | the queue, hand and refunds afterwards are `Erase` of those before: a queued tile is removed and its item refunded; erasing a tile that is not queued refunds nothing but removes any entry at (0, 0) |
| Session.BuildSession.ClearPaintedTiles | SmartBuilding/src/ModEntry.cs:1065-1076 | the queue, hand and refunds afterwards are `Cleared` of those before: every queued item is refunded, one per tile, and the queue is left empty |
| Session.BuildSession.ConfirmBuild | SmartBuilding/src/ModEntry.cs:268-278 | every queued entry is handed over for placement exactly once, and the queue is left empty |
| Session.BuildSession.ToggleBuildMode | SmartBuilding/src/ModEntry.cs:226-234 | build mode flips; turning it off is `Cleared` on the queue and refunds, turning it on keeps them |
| Session.BuildSession.Warp | SmartBuilding/src/ModEntry.cs:203-209 | changing location refunds and clears the queue and ends build mode and drawing |
| Session.BuildSession.OnInput | SmartBuilding/src/ModEntry.cs:215-297 | nothing changes before the world is ready or while a menu is open; otherwise build mode flips on the engage key, and the queue, hand and refunds go through, in order, `Cleared` when build mode is left, `Draw` at the cursor when the draw key is held in build mode and `Erase` at the cursor when the erase key is held in build mode; confirming then hands that queue over as a batch that drains it, appends the batch to the placements and empties the queue |
| Session.BuildSession.CursorMoved | SmartBuilding/src/ModEntry.cs:628-653 | while drawing the queue, hand and refunds go through `Draw` at the cursor, and then while erasing through `Erase`; the mode flags never change; outside build mode, before the world is ready or under a menu nothing changes |

## Left out

- Rendering, the HUD, the mod-settings menu, asset loading and the engine patches. These are drawing code and calls into other libraries.
- Keybind parsing and key queries. Each input event is an `InputState` of booleans.
- The three pick-up keys in the input handler. Object, floor and furniture pick-up are modelled as `Demolish` functions on a tile value. They are not wired into `BuildSession`, which holds no world.
- The world changes made when the build is confirmed (placing objects, planting, fertilizing, and the refunds for each kind of failure). `ConfirmBuild` records the entries it hands over for placement, in order. What happens to each entry afterwards is not modelled.
- `ConfirmBuild` and the other loops over the queue visit tiles in an arbitrary order. Dictionary iteration order is not modelled, and no postcondition depends on it.
- The engine routines behind the validator and pick-up: the crab-pot tile check, the clear-tile checks, seed and fertilizer planting, furniture placement, the water test and the search for an item by name. Each is an opaque input. For an object on a tile, the item the search finds is a field of the tile, `searched`.
- A search by name that finds nothing is not modelled. The found item always exists.
- Demolish.DemolishObject: the chest's contents spilling into the world and the "remove action" animation are not modelled. The result only records that the contents drop.
- Demolish.DemolishFloor: when the flooring code has no name, the source still searches for an item by that missing name before removing the flooring. The model refunds nothing and still removes the flooring; what the engine's search does with a missing name is not modelled.
- Cursor positions are whole tiles. The truncation of the engine's floating-point cursor position is not modelled.
- The engine's patch flag mirroring `_currentlyDrawing` is folded into `currentlyDrawing`.
- Session.BuildSession.AddTile: takes the held stack from the session rather than an item argument. The source always passes the player's current item. The inventory index argument is unused in the source and is dropped.
- Session.BuildSession.ClearPaintedTiles, EraseTile, ToggleBuildMode, Warp, Demolish.DemolishObject, Demolish.DemolishFurniture: refunds and pick-ups are handed over as values (a multiset, or the result's refund or grabbed item). A full inventory is not modelled: picked-up furniture is removed even when the inventory cannot take it (`ModEntry.cs:1203-1204`), and object pick-up refunds through the menu fallback. Within the session, the source uses two different inventory calls. Erasing adds the item directly and drops it when the inventory is full (`ModEntry.cs:664`). Clearing goes through the engine's menu fallback, which offers a full inventory's overflow in a menu (`ModEntry.cs:1645`). Where the item ends up is not modelled.
- Demolish.FenceRefunded: fence health is a single-precision float compared with `< 0.5f` (`ModEntry.cs:1133`). The model uses exact reals, so float rounding at the boundary is not modelled.
- Logging.
