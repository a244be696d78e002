/** The item classifier: an ordered, first-match chain of runtime-class and
    name/category tests that gives every item one of fifteen placement tags
    (SmartBuilding/src/ModEntry.cs, IdentifyItemType). */
module Classifier {

  /** The engine class of an item, as far as the classifier inspects it. */
  datatype RuntimeClass =
    | FishTankFurnitureClass
    | StorageFurnitureClass
    | BedFurnitureClass
    | TVClass
    | FurnitureClass
    | ChestClass
    | FenceClass
    | ObjectClass

  /** The engine's class hierarchy: `IsA(c, base)` is the C# test `x is base` for an
      object whose class is `c`. Fish tanks are storage furniture, and every furniture
      class derives from the furniture base class. */
  predicate IsA(c: RuntimeClass, base: RuntimeClass) {
    || c == base
    || (base == StorageFurnitureClass && c == FishTankFurnitureClass)
    || (base == FurnitureClass && c in {FishTankFurnitureClass, StorageFurnitureClass, BedFurnitureClass, TVClass})
  }

  /** An engine item, reduced to what the mod reads of it. `placeable` is the engine's
      `isPlaceable()` answer for the item. */
  datatype Item = Item(
    cls: RuntimeClass,
    name: string,
    category: int,
    typeName: string,
    parentSheetIndex: int,
    placeable: bool)

  /** The placement tags. */
  datatype ItemType =
    | Fence
    | Floor
    | Chest
    | GrassStarter
    | CrabPot
    | Seed
    | Fertilizer
    | TreeFertilizer
    | Tapper
    | GenericFurniture
    | BedFurniture
    | StorageFurniture
    | FishTankFurniture
    | TVFurniture
    | Generic
  {
    predicate IsFurniture() {
      this in {GenericFurniture, BedFurniture, StorageFurniture, FishTankFurniture, TVFurniture}
    }
  }

  /** C#'s `String.Contains`: `part` occurs somewhere in `s` as a contiguous run. */
  predicate Contains(s: string, part: string)
    decreases |s|
  {
    |part| <= |s| && (s[..|part|] == part || Contains(s[1..], part))
  }

  /** The floor test as the source writes it, `Contains("Floor") || Contains("Path") && Category == -24`.
      C#'s `&&` binds tighter than `||`, so the category test applies to paths only. */
  predicate FloorTest(item: Item) {
    Contains(item.name, "Floor") || (Contains(item.name, "Path") && item.category == -24)
  }

  /** The seed test as the source writes it: type "Seeds", or category -74 with a
      sapling exclusion whose `!Equals` disjuncts negate the wrong way. */
  predicate SeedTest(item: Item) {
    || item.typeName == "Seeds"
    || (&& item.category == -74
        && !(|| Contains(item.name, "Sapling")
             || item.name != "Acorn"
             || item.name != "Maple Seed"
             || item.name != "Pine Cone"
             || item.name != "Mahogany Seed"))
  }

  function IdentifyItemType(item: Item): (r: ItemType)
    ensures r.IsFurniture() <==> IsA(item.cls, FurnitureClass)
    ensures r == StorageFurniture ==> item.cls == StorageFurnitureClass
  {
    var itemName := item.name;
    if IsA(item.cls, FishTankFurnitureClass) then FishTankFurniture
    else if IsA(item.cls, StorageFurnitureClass) then StorageFurniture
    else if IsA(item.cls, BedFurnitureClass) then BedFurniture
    else if IsA(item.cls, TVClass) then TVFurniture
    else if IsA(item.cls, FurnitureClass) then GenericFurniture
    else if FloorTest(item) then Floor
    else if Contains(itemName, "Chest") || IsA(item.cls, ChestClass) then Chest
    else if Contains(itemName, "Fence") then Fence
    else if itemName == "Grass Starter" then GrassStarter
    else if itemName == "Crab Pot" then CrabPot
    else if SeedTest(item) then Seed
    else if item.name == "Tree Fertilizer" then TreeFertilizer
    else if item.category == -19 then Fertilizer
    else if item.name == "Tapper" || item.name == "Heavy Tapper" then Tapper
    else Generic
  }

  /** Whether an object classifies as the given tag: exactly when the tag is that of the
      first rule of the rule table the object passes. */
  predicate IsTypeOfObject(o: Item, t: ItemType): (r: bool)
    ensures r <==> FirstMatch(ClassificationRules, 0, o) == t
    ensures r && t.IsFurniture() ==> IsA(o.cls, FurnitureClass)
  {
    ClassifyIsFirstMatch(o);
    IdentifyItemType(o) == t
  }

  // ---------------------------------------------------------------------------
  // The classifier as an explicit ordered rule table.

  /** A test on an item, as data. */
  datatype Test =
    | ClassIs(cls: RuntimeClass)
    | NameContains(part: string)
    | NameIs(name: string)
    | CategoryIs(category: int)
    | TypeIs(typeName: string)
    | AnyOf(left: Test, right: Test)
    | AllOf(left: Test, right: Test)

  predicate Holds(t: Test, item: Item) {
    match t
    case ClassIs(c) => item.cls == c
    case NameContains(p) => Contains(item.name, p)
    case NameIs(n) => item.name == n
    case CategoryIs(n) => item.category == n
    case TypeIs(n) => item.typeName == n
    case AnyOf(a, b) => Holds(a, item) || Holds(b, item)
    case AllOf(a, b) => Holds(a, item) && Holds(b, item)
  }

  /** One classification rule: an item that passes `test` gets `tag`. */
  datatype Rule = Rule(test: Test, tag: ItemType)

  /** The tag of the first rule of `rules`, from position `k` on, whose test `item` passes;
      Generic when there is none. */
  function FirstMatch(rules: seq<Rule>, k: nat, item: Item): ItemType
    decreases |rules| - k
  {
    if k >= |rules| then Generic
    else if Holds(rules[k].test, item) then rules[k].tag
    else FirstMatch(rules, k + 1, item)
  }

  /** The classification rules in precedence order: each furniture class by its exact
      class, most specific first, then the name, category and type tests. The seed rule
      is the test on the type string alone. */
  const ClassificationRules: seq<Rule> :=
    [ Rule(ClassIs(FishTankFurnitureClass), FishTankFurniture),
      Rule(ClassIs(StorageFurnitureClass), StorageFurniture),
      Rule(ClassIs(BedFurnitureClass), BedFurniture),
      Rule(ClassIs(TVClass), TVFurniture),
      Rule(ClassIs(FurnitureClass), GenericFurniture),
      Rule(AnyOf(NameContains("Floor"), AllOf(NameContains("Path"), CategoryIs(-24))), Floor),
      Rule(AnyOf(NameContains("Chest"), ClassIs(ChestClass)), Chest),
      Rule(NameContains("Fence"), Fence),
      Rule(NameIs("Grass Starter"), GrassStarter),
      Rule(NameIs("Crab Pot"), CrabPot),
      Rule(TypeIs("Seeds"), Seed),
      Rule(NameIs("Tree Fertilizer"), TreeFertilizer),
      Rule(CategoryIs(-19), Fertilizer),
      Rule(AnyOf(NameIs("Tapper"), NameIs("Heavy Tapper")), Tapper) ]

  /** The sapling exclusion in the seed test can never hold: no name equals both
      "Acorn" and "Maple Seed", so one of the `!Equals` disjuncts is always true. */
  lemma SaplingExclusionNeverHolds(item: Item)
    ensures SeedTest(item) <==> item.typeName == "Seeds"
  {
    if item.name == "Acorn" {
      assert item.name != "Maple Seed";
    }
  }

  /** What the tests of the five class rules say about an item: each holds for the exact
      class only, where the classifier's `is` checks also hold for subclasses. */
  lemma ClassRuleTestsMean(item: Item)
    ensures Holds(ClassificationRules[0].test, item) == (item.cls == FishTankFurnitureClass)
    ensures Holds(ClassificationRules[1].test, item) == (item.cls == StorageFurnitureClass)
    ensures Holds(ClassificationRules[2].test, item) == (item.cls == BedFurnitureClass)
    ensures Holds(ClassificationRules[3].test, item) == (item.cls == TVClass)
    ensures Holds(ClassificationRules[4].test, item) == (item.cls == FurnitureClass)
  {
  }

  /** What the tests of the nine name, category and type rules say about an item. */
  lemma NameRuleTestsMean(item: Item)
    ensures Holds(ClassificationRules[5].test, item) == FloorTest(item)
    ensures Holds(ClassificationRules[6].test, item) == (Contains(item.name, "Chest") || item.cls == ChestClass)
    ensures Holds(ClassificationRules[7].test, item) == Contains(item.name, "Fence")
    ensures Holds(ClassificationRules[8].test, item) == (item.name == "Grass Starter")
    ensures Holds(ClassificationRules[9].test, item) == (item.name == "Crab Pot")
    ensures Holds(ClassificationRules[10].test, item) == (item.typeName == "Seeds")
    ensures Holds(ClassificationRules[11].test, item) == (item.name == "Tree Fertilizer")
    ensures Holds(ClassificationRules[12].test, item) == (item.category == -19)
    ensures Holds(ClassificationRules[13].test, item) == (item.name == "Tapper" || item.name == "Heavy Tapper")
  {
    assert Holds(AllOf(NameContains("Path"), CategoryIs(-24)), item) == (Contains(item.name, "Path") && item.category == -24);
  }

  /** IdentifyItemType is the first match in the rule table. */
  lemma ClassifyIsFirstMatch(item: Item)
    ensures IdentifyItemType(item) == FirstMatch(ClassificationRules, 0, item)
  {
    SaplingExclusionNeverHolds(item);
    ClassRuleTestsMean(item);
    NameRuleTestsMean(item);
    var rs := ClassificationRules;
    forall k | 0 <= k < |rs|
      ensures FirstMatch(rs, k, item) == if Holds(rs[k].test, item) then rs[k].tag else FirstMatch(rs, k + 1, item)
    {
    }
  }

  /** Furniture never reaches the name-based rules: a furniture item classifies as one of
      the furniture tags whatever its name. */
  lemma FurnitureIsNeverNameClassified(item: Item)
    requires IsA(item.cls, FurnitureClass)
    ensures IdentifyItemType(item) !in {Floor, Chest, Fence, GrassStarter, CrabPot, Seed, TreeFertilizer, Fertilizer, Tapper, Generic}
  {
  }

  /** For a non-furniture item, the floor tag is "the name contains Floor" or
      "the name contains Path and the category is -24". */
  lemma FloorIff(item: Item)
    requires !IsA(item.cls, FurnitureClass)
    ensures IdentifyItemType(item) == Floor <==>
              Contains(item.name, "Floor") || (Contains(item.name, "Path") && item.category == -24)
  {
  }

  /** An item that none of the rules before the seed rule claims is a seed exactly when
      its type string is "Seeds". */
  lemma SeedIff(item: Item)
    requires !IsA(item.cls, FurnitureClass) && !FloorTest(item)
    requires !Contains(item.name, "Chest") && item.cls != ChestClass && !Contains(item.name, "Fence")
    requires item.name != "Grass Starter" && item.name != "Crab Pot"
    ensures IdentifyItemType(item) == Seed <==> item.typeName == "Seeds"
  {
    SaplingExclusionNeverHolds(item);
  }
}
