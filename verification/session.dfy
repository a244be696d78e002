/** The selection buffer and the build-mode session around it: painting tiles with the held
    item, erasing them, leaving build mode, warping and confirming the batch
    (SmartBuilding/src/ModEntry.cs, AddTile, EraseTile, ClearPaintedTiles, OnInput, CursorMoved
    and the warp handler in Entry). */
module Session {
  import opened Wrappers
  import opened Config
  import opened Classifier
  import opened World
  import opened Placement

  /** A queued placement: the item and the tag it was classified with. */
  datatype ItemInfo = ItemInfo(item: Item, itemType: ItemType)

  /** The entry queued for an item: the item and the tag of the first classification
      rule it passes. */
  function GetItemInfo(item: Item): (r: ItemInfo)
    ensures r.item == item
    ensures r.itemType == FirstMatch(ClassificationRules, 0, item)
    ensures r.itemType.IsFurniture() <==> IsA(item.cls, FurnitureClass)
  {
    ClassifyIsFirstMatch(item);
    ItemInfo(item, IdentifyItemType(item))
  }

  /** The stack of items the player holds. */
  datatype Stack = Stack(item: Item, count: nat)

  /** One press-and-hold state of the mod's keybinds, read at an input event. */
  datatype InputState = InputState(
    worldReady: bool,
    menuOpen: bool,
    engageBuildModePressed: bool,
    drawHeld: bool,
    eraseHeld: bool,
    confirmPressed: bool)

  /** The tile EraseTile flags when the erased tile is not queued: `new Vector2()`. */
  const Origin: Tile := Tile(0, 0)

  /** How many items the player holds. */
  function Count(held: Option<Stack>): nat {
    if held.None? then 0 else held.value.count
  }

  /** The engine's reduceActiveItemByOne: one fewer in the stack, and no stack once it is used up. */
  function ReduceActiveItemByOne(held: Option<Stack>): (r: Option<Stack>)
    ensures held.Some? && held.value.count >= 1 ==> Count(r) + 1 == Count(held)
    ensures held.None? ==> r.None?
    ensures r.Some? ==> held.Some? && r.value.item == held.value.item && r.value.count >= 1
  {
    match held
    case None => None
    case Some(s) => if s.count <= 1 then None else Some(Stack(s.item, s.count - 1))
  }

  // ---------------------------------------------------------------------------
  // Counting the items a set of queued tiles holds

  /** Removing a queued tile leaves one tile fewer. */
  lemma RemoveShrinks(m: map<Tile, ItemInfo>, t: Tile)
    requires t in m
    ensures |m - {t}| == |m| - 1
  {
    assert (m - {t}).Keys == m.Keys - {t};
  }

  lemma RemoveCommutes(m: map<Tile, ItemInfo>, u: Tile, t: Tile)
    ensures m - {u} - {t} == m - {t} - {u}
  {
  }

  ghost function PickTile(m: map<Tile, ItemInfo>): Tile
    requires m != map[]
  {
    var t :| t in m; t
  }

  /** The items queued in `m`, one per tile. */
  ghost function Items(m: map<Tile, ItemInfo>): multiset<Item>
    decreases |m|
  {
    if m == map[] then multiset{}
    else
      var t := PickTile(m);
      RemoveShrinks(m, t);
      multiset{m[t].item} + Items(m - {t})
  }

  /** Taking any one tile out of a queue takes exactly its item out of the queued items,
      whichever tile Items happened to pick first. */
  lemma {:induction false} ItemsRemove(m: map<Tile, ItemInfo>, t: Tile)
    requires t in m
    ensures Items(m) == multiset{m[t].item} + Items(m - {t})
    decreases |m|
  {
    var u := PickTile(m);
    if u != t {
      RemoveShrinks(m, u);
      ItemsRemove(m - {u}, t);
      RemoveShrinks(m, t);
      ItemsRemove(m - {t}, u);
      RemoveCommutes(m, u, t);
    }
  }

  /** A queue holds exactly one item per tile. */
  lemma {:induction false} ItemsCount(m: map<Tile, ItemInfo>)
    ensures |Items(m)| == |m|
    decreases |m|
  {
    if m != map[] {
      var t := PickTile(m);
      RemoveShrinks(m, t);
      ItemsCount(m - {t});
    }
  }

  /** `batch` hands every entry of `m` over exactly once, in some order. */
  ghost predicate Drains(batch: seq<(Tile, ItemInfo)>, m: map<Tile, ItemInfo>) {
    && |batch| == |m|
    && (forall i :: 0 <= i < |batch| ==> batch[i].0 in m && m[batch[i].0] == batch[i].1)
    && (forall i, j :: 0 <= i < j < |batch| ==> batch[i].0 != batch[j].0)
  }

  /** The tiles a batch touches. */
  function Keys(batch: seq<(Tile, ItemInfo)>): set<Tile> {
    set i | 0 <= i < |batch| :: batch[i].0
  }

  lemma {:induction false} DistinctKeysCount(batch: seq<(Tile, ItemInfo)>)
    requires forall i, j :: 0 <= i < j < |batch| ==> batch[i].0 != batch[j].0
    ensures |Keys(batch)| == |batch|
  {
    if batch != [] {
      var front := batch[..|batch| - 1];
      DistinctKeysCount(front);
      assert Keys(batch) == Keys(front) + {batch[|batch| - 1].0};
      assert batch[|batch| - 1].0 !in Keys(front);
    }
  }

  lemma {:induction false} SubsetNoLarger(a: set<Tile>, b: set<Tile>)
    requires a <= b
    ensures |a| <= |b|
    decreases b
  {
    if a != {} {
      var x :| x in a;
      SubsetNoLarger(a - {x}, b - {x});
    }
  }

  /** A drain reaches every queued entry: no entry is left behind. */
  lemma DrainReachesEveryEntry(batch: seq<(Tile, ItemInfo)>, m: map<Tile, ItemInfo>, t: Tile)
    requires Drains(batch, m) && t in m
    ensures exists i :: 0 <= i < |batch| && batch[i] == (t, m[t])
  {
    DistinctKeysCount(batch);
    if t !in Keys(batch) {
      SubsetNoLarger(Keys(batch), m.Keys - {t});
      assert false;
    }
  }

  /** Part way through a drain of `m`: `batch` has handed over distinct entries of `m`, and
      `pending` holds exactly the tiles still to go. */
  ghost predicate DrainedSoFar(batch: seq<(Tile, ItemInfo)>, pending: set<Tile>, m: map<Tile, ItemInfo>) {
    && pending <= m.Keys
    && (forall i :: 0 <= i < |batch| ==> batch[i].0 in m && m[batch[i].0] == batch[i].1 && batch[i].0 !in pending)
    && (forall i, j :: 0 <= i < j < |batch| ==> batch[i].0 != batch[j].0)
    && |batch| + |pending| == |m|
  }

  lemma DrainStep(batch: seq<(Tile, ItemInfo)>, pending: set<Tile>, m: map<Tile, ItemInfo>, t: Tile)
    requires DrainedSoFar(batch, pending, m) && t in pending
    ensures DrainedSoFar(batch + [(t, m[t])], pending - {t}, m)
  {
  }

  lemma DrainDone(batch: seq<(Tile, ItemInfo)>, m: map<Tile, ItemInfo>)
    requires DrainedSoFar(batch, {}, m)
    ensures Drains(batch, m)
  {
  }

  /** Refunding one entry of the not-yet-refunded part keeps the total handed back plus
      still to hand back the same. */
  lemma RefundStep(refunded: multiset<Item>, rest: map<Tile, ItemInfo>, t: Tile)
    requires t in rest
    ensures refunded + multiset{rest[t].item} + Items(rest - {t}) == refunded + Items(rest)
  {
    ItemsRemove(rest, t);
  }

  // ---------------------------------------------------------------------------
  // The bookkeeping of one step, on values

  /** The part of a session that drawing, erasing and clearing change: the queue, the
      stack in hand and the items handed back. */
  datatype Ledger = Ledger(tiles: map<Tile, ItemInfo>, held: Option<Stack>, refunded: multiset<Item>)

  /** Whether drawing on tile `v` queues the held item: build mode is on, an item is held,
      it is placeable, the validator accepts it and the tile is not queued yet. */
  predicate Admits(cfg: ModConfig, v: Tile, here: TileState, native: Native, building: bool, q: Ledger) {
    && building
    && q.held.Some?
    && q.held.value.item.placeable
    && CanBePlacedHere(cfg, v, here, q.held.value.item, native)
    && v !in q.tiles
  }

  /** Drawing on tile `v`: an admitted item is queued there and taken from the hand. */
  function Draw(cfg: ModConfig, v: Tile, here: TileState, native: Native, building: bool, q: Ledger): (r: Ledger)
    ensures r.refunded == q.refunded
    ensures !Admits(cfg, v, here, native, building, q) ==> r == q
    ensures Admits(cfg, v, here, native, building, q) ==>
              && r.tiles.Keys == q.tiles.Keys + {v}
              && r.tiles[v].item == q.held.value.item
              && r.held == ReduceActiveItemByOne(q.held)
              && (q.held.value.count >= 1 ==> Count(r.held) + 1 == Count(q.held))
    ensures forall t :: t in q.tiles ==> t in r.tiles && r.tiles[t] == q.tiles[t]
  {
    if Admits(cfg, v, here, native, building, q) then
      Ledger(q.tiles[v := GetItemInfo(q.held.value.item)], ReduceActiveItemByOne(q.held), q.refunded)
    else q
  }

  /** Erasing tile `v`: a queued tile is removed and its item handed back; otherwise the
      tile the source flags by default, (0, 0), is removed and nothing is handed back. */
  function Erase(v: Tile, q: Ledger): (r: Ledger)
    ensures r.held == q.held
    ensures forall t :: t in r.tiles ==> t in q.tiles && r.tiles[t] == q.tiles[t]
    ensures v in q.tiles ==>
              r.tiles.Keys == q.tiles.Keys - {v} && r.refunded == q.refunded + multiset{q.tiles[v].item}
    ensures v !in q.tiles ==> r.tiles.Keys == q.tiles.Keys - {Origin} && r.refunded == q.refunded
  {
    if v in q.tiles then Ledger(q.tiles - {v}, q.held, q.refunded + multiset{q.tiles[v].item})
    else Ledger(q.tiles - {Origin}, q.held, q.refunded)
  }

  /** Clearing the queue: every queued item is handed back, one per tile. */
  ghost function Cleared(q: Ledger): (r: Ledger)
    ensures r.tiles == map[] && r.held == q.held
    ensures |r.refunded| == |q.refunded| + |q.tiles|
    ensures forall t :: t in q.tiles ==> q.tiles[t].item in r.refunded
  {
    ItemsCount(q.tiles);
    forall t | t in q.tiles
      ensures q.tiles[t].item in Items(q.tiles)
    {
      ItemsRemove(q.tiles, t);
    }
    Ledger(map[], q.held, q.refunded + Items(q.tiles))
  }

  /** Drawing an item on a tile and then erasing that tile gives the item back: the queue
      is as before, the hand holds one fewer and the item is among the refunds. */
  lemma DrawThenErase(cfg: ModConfig, v: Tile, here: TileState, native: Native, building: bool, q: Ledger)
    requires Admits(cfg, v, here, native, building, q)
    ensures Erase(v, Draw(cfg, v, here, native, building, q)) ==
              Ledger(q.tiles, ReduceActiveItemByOne(q.held), q.refunded + multiset{q.held.value.item})
  {
    assert q.tiles[v := GetItemInfo(q.held.value.item)] - {v} == q.tiles;
  }

  /** Erasing a tile that is not queued never hands anything back, and loses the entry at
      (0, 0) when there is one. */
  lemma EraseUnqueuedLosesOrigin(v: Tile, q: Ledger)
    requires v !in q.tiles && Origin in q.tiles
    ensures Erase(v, q).refunded == q.refunded
    ensures |Erase(v, q).tiles| == |q.tiles| - 1
  {
    RemoveShrinks(q.tiles, Origin);
  }

  // ---------------------------------------------------------------------------
  // The session

  class BuildSession {
    /** The queued tiles and what is to be placed on each. */
    var tilesSelected: map<Tile, ItemInfo>
    var buildingMode: bool
    var currentlyDrawing: bool
    var currentlyErasing: bool
    /** The stack in the player's hand. */
    var held: Option<Stack>
    /** Every item handed back to the player's inventory. */
    var refunded: multiset<Item>
    /** Every queued entry handed to PlaceObject, in order. */
    var committed: seq<(Tile, ItemInfo)>

    /** Outside build mode nothing is queued, and each entry carries its own item's tag. */
    ghost predicate Valid()
      reads this
    {
      && (!buildingMode ==> tilesSelected == map[])
      && (forall t :: t in tilesSelected ==> tilesSelected[t].itemType == IdentifyItemType(tilesSelected[t].item))
    }

    constructor (hand: Option<Stack>)
      ensures Valid()
      ensures tilesSelected == map[] && !buildingMode && !currentlyDrawing && !currentlyErasing
      ensures held == hand && refunded == multiset{} && committed == []
    {
      tilesSelected := map[];
      buildingMode := false;
      currentlyDrawing := false;
      currentlyErasing := false;
      held := hand;
      refunded := multiset{};
      committed := [];
    }

    /** The session's bookkeeping as a value. */
    function Snapshot(): Ledger
      reads this
    {
      Ledger(tilesSelected, held, refunded)
    }

    /** Queues the held item on tile `v` when building mode is on, an item is held, it is
        placeable, the validator accepts it and the tile is free; the hand then holds one
        fewer. An entry already on the tile is never replaced. */
    method AddTile(cfg: ModConfig, v: Tile, here: TileState, native: Native)
      requires Valid()
      modifies this
      ensures Valid()
      ensures Snapshot() == Draw(cfg, v, here, native, old(buildingMode), old(Snapshot()))
      ensures buildingMode == old(buildingMode) && currentlyDrawing == old(currentlyDrawing)
      ensures currentlyErasing == old(currentlyErasing) && committed == old(committed)
    {
      if !buildingMode {
        return;
      }
      if held.None? {
        return;
      }
      var item := held.value.item;
      if !item.placeable {
        return;
      }
      if !CanBePlacedHere(cfg, v, here, item, native) {
        return;
      }
      var info := GetItemInfo(item);
      if v !in tilesSelected {
        if CanBePlacedHere(cfg, v, here, item, native) {
          tilesSelected := tilesSelected[v := info];
          held := ReduceActiveItemByOne(held);
        }
      }
    }

    /** Erases tile `v`: a queued entry there is refunded and removed. The source always
        removes the flagged tile, which starts as (0, 0), so erasing a tile that is not
        queued removes any entry at (0, 0) without refunding it. */
    method EraseTile(v: Tile)
      requires Valid()
      modifies this
      ensures Valid()
      ensures Snapshot() == Erase(v, old(Snapshot()))
      ensures buildingMode == old(buildingMode) && committed == old(committed)
      ensures currentlyDrawing == old(currentlyDrawing) && currentlyErasing == old(currentlyErasing)
    {
      ghost var refunded0 := refunded;
      var flaggedForRemoval := Origin;
      var unvisited := tilesSelected.Keys;
      while unvisited != {}
        modifies this`refunded
        invariant unvisited <= tilesSelected.Keys
        invariant v in tilesSelected && v !in unvisited ==>
                    flaggedForRemoval == v && refunded == refunded0 + multiset{tilesSelected[v].item}
        invariant !(v in tilesSelected && v !in unvisited) ==> flaggedForRemoval == Origin && refunded == refunded0
        decreases unvisited
      {
        var t :| t in unvisited;
        if t == v {
          refunded := refunded + multiset{tilesSelected[t].item};
          flaggedForRemoval := v;
        }
        unvisited := unvisited - {t};
      }
      tilesSelected := tilesSelected - {flaggedForRemoval};
    }

    /** Refunds every queued item, one per tile, and empties the queue. */
    method ClearPaintedTiles()
      modifies this
      ensures Valid()
      ensures Snapshot() == Cleared(old(Snapshot()))
      ensures buildingMode == old(buildingMode) && committed == old(committed)
      ensures currentlyDrawing == old(currentlyDrawing) && currentlyErasing == old(currentlyErasing)
    {
      var rest := tilesSelected;
      while rest != map[]
        modifies this`refunded
        invariant refunded + Items(rest) == old(refunded) + Items(tilesSelected)
        decreases |rest|
      {
        var t :| t in rest;
        RefundStep(refunded, rest, t);
        refunded := refunded + multiset{rest[t].item};
        RemoveShrinks(rest, t);
        rest := rest - {t};
      }
      tilesSelected := map[];
    }

    /** Confirming the build hands every queued entry to PlaceObject once and then empties
        the queue. */
    method ConfirmBuild() returns (ghost batch: seq<(Tile, ItemInfo)>)
      modifies this
      ensures Valid()
      ensures tilesSelected == map[]
      ensures committed == old(committed) + batch && Drains(batch, old(tilesSelected))
      ensures buildingMode == old(buildingMode) && held == old(held) && refunded == old(refunded)
      ensures currentlyDrawing == old(currentlyDrawing) && currentlyErasing == old(currentlyErasing)
    {
      var pending := tilesSelected.Keys;
      batch := [];
      while pending != {}
        modifies this`committed
        invariant committed == old(committed) + batch
        invariant DrainedSoFar(batch, pending, tilesSelected)
        decreases pending
      {
        var t :| t in pending;
        DrainStep(batch, pending, tilesSelected, t);
        committed := committed + [(t, tilesSelected[t])];
        batch := batch + [(t, tilesSelected[t])];
        pending := pending - {t};
      }
      DrainDone(batch, tilesSelected);
      tilesSelected := map[];
    }

    /** Engaging build mode flips it; leaving it refunds and clears the queue. */
    method ToggleBuildMode()
      requires Valid()
      modifies this
      ensures Valid()
      ensures buildingMode == !old(buildingMode)
      ensures Snapshot() == if old(buildingMode) then Cleared(old(Snapshot())) else old(Snapshot())
      ensures committed == old(committed)
      ensures currentlyDrawing == old(currentlyDrawing) && currentlyErasing == old(currentlyErasing)
    {
      buildingMode := !buildingMode;
      if !buildingMode {
        ClearPaintedTiles();
      }
    }

    /** Changing location refunds and clears the queue and leaves build mode. */
    method Warp()
      requires Valid()
      modifies this
      ensures Valid()
      ensures Snapshot() == Cleared(old(Snapshot()))
      ensures !buildingMode && !currentlyDrawing
      ensures committed == old(committed)
      ensures currentlyErasing == old(currentlyErasing)
    {
      ClearPaintedTiles();
      buildingMode := false;
      currentlyDrawing := false;
    }

    /** One input event at cursor tile `cursor`: engage build mode, hold to draw, hold to
        erase, confirm, in that order. Nothing happens before the world is ready or while
        a menu is open. `batch` is what confirming hands over for placement. */
    method OnInput(cfg: ModConfig, input: InputState, cursor: Tile, here: TileState, native: Native)
      returns (ghost batch: seq<(Tile, ItemInfo)>)
      requires Valid()
      modifies this
      ensures Valid()
      ensures !input.worldReady || input.menuOpen ==>
                && Snapshot() == old(Snapshot()) && buildingMode == old(buildingMode)
                && currentlyDrawing == old(currentlyDrawing) && currentlyErasing == old(currentlyErasing)
                && committed == old(committed)
      ensures input.worldReady && !input.menuOpen ==>
                && buildingMode == (old(buildingMode) != input.engageBuildModePressed)
                && currentlyDrawing == (input.drawHeld && (buildingMode || old(currentlyDrawing)))
                && currentlyErasing == (input.eraseHeld && (buildingMode || old(currentlyErasing)))
      ensures input.worldReady && !input.menuOpen ==>
                var building := old(buildingMode) != input.engageBuildModePressed;
                var toggled := if input.engageBuildModePressed && old(buildingMode) then Cleared(old(Snapshot()))
                               else old(Snapshot());
                var drawn := if input.drawHeld && building then Draw(cfg, cursor, here, native, building, toggled)
                             else toggled;
                var erased := if input.eraseHeld && building then Erase(cursor, drawn) else drawn;
                && held == erased.held && refunded == erased.refunded
                && (input.confirmPressed ==>
                      tilesSelected == map[] && committed == old(committed) + batch && Drains(batch, erased.tiles))
                && (!input.confirmPressed ==> tilesSelected == erased.tiles && committed == old(committed))
    {
      batch := [];
      if !input.worldReady || input.menuOpen {
        return;
      }
      if input.engageBuildModePressed {
        ToggleBuildMode();
      }
      if input.drawHeld {
        if buildingMode {
          currentlyDrawing := true;
          AddTile(cfg, cursor, here, native);
        }
      } else {
        currentlyDrawing := false;
      }
      if input.eraseHeld {
        if buildingMode {
          currentlyErasing := true;
          EraseTile(cursor);
        }
      } else {
        currentlyErasing := false;
      }
      if input.confirmPressed {
        batch := ConfirmBuild();
      }
    }

    /** A cursor move keeps drawing or erasing while the keys are held. */
    method CursorMoved(cfg: ModConfig, input: InputState, cursor: Tile, here: TileState, native: Native)
      requires Valid()
      modifies this
      ensures Valid()
      ensures buildingMode == old(buildingMode) && committed == old(committed)
      ensures currentlyDrawing == old(currentlyDrawing) && currentlyErasing == old(currentlyErasing)
      ensures !input.worldReady || input.menuOpen ==> Snapshot() == old(Snapshot())
      ensures input.worldReady && !input.menuOpen ==>
                var drawn := if currentlyDrawing then Draw(cfg, cursor, here, native, buildingMode, old(Snapshot()))
                             else old(Snapshot());
                Snapshot() == if currentlyErasing then Erase(cursor, drawn) else drawn
      ensures !buildingMode ==> Snapshot() == old(Snapshot())
    {
      if !input.worldReady || input.menuOpen {
        return;
      }
      if currentlyDrawing {
        AddTile(cfg, cursor, here, native);
      }
      if currentlyErasing {
        EraseTile(cursor);
      }
    }
  }
}
