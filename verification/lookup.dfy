/** The fixed name/code tables the mod uses to turn item names into engine codes. */
module Lookup {
  import opened Wrappers

  /** Floor and path item names, indexed by the engine's flooring code. */
  const FloorNames: seq<string> := [
    "Wood Floor", "Stone Floor", "Weathered Floor", "Crystal Floor", "Straw Floor",
    "Gravel Path", "Wood Path", "Crystal Path", "Cobblestone Path", "Stepping Stone Path",
    "Brick Floor", "Rustic Plank Floor", "Stone Walkway Floor"]

  /** Chest item names and the chest type codes they are placed with. */
  const ChestNames: set<string> := {"Chest", "Stone Chest", "Junimo Chest"}

  /** The flooring code of a floor or path item, or None for a name the mod does not know. */
  function GetFlooringIdFromName(itemName: string): (r: Option<int>)
    ensures r.Some? ==> 0 <= r.value < |FloorNames| && FloorNames[r.value] == itemName
    ensures r.None? <==> itemName !in FloorNames
  {
    match itemName
    case "Wood Floor" => Some(0)
    case "Rustic Plank Floor" => Some(11)
    case "Straw Floor" => Some(4)
    case "Weathered Floor" => Some(2)
    case "Crystal Floor" => Some(3)
    case "Stone Floor" => Some(1)
    case "Stone Walkway Floor" => Some(12)
    case "Brick Floor" => Some(10)
    case "Wood Path" => Some(6)
    case "Gravel Path" => Some(5)
    case "Cobblestone Path" => Some(8)
    case "Stepping Stone Path" => Some(9)
    case "Crystal Path" => Some(7)
    case _ => None
  }

  /** The item name of a flooring code, or None for a code outside 0..12. */
  function GetFlooringNameFromId(id: int): (r: Option<string>)
    ensures r.Some? <==> 0 <= id < |FloorNames|
    ensures r.Some? ==> r.value == FloorNames[id]
  {
    match id
    case 0 => Some("Wood Floor")
    case 11 => Some("Rustic Plank Floor")
    case 4 => Some("Straw Floor")
    case 2 => Some("Weathered Floor")
    case 3 => Some("Crystal Floor")
    case 1 => Some("Stone Floor")
    case 12 => Some("Stone Walkway Floor")
    case 10 => Some("Brick Floor")
    case 6 => Some("Wood Path")
    case 5 => Some("Gravel Path")
    case 8 => Some("Cobblestone Path")
    case 9 => Some("Stepping Stone Path")
    case 7 => Some("Crystal Path")
    case _ => None
  }

  /** No two flooring codes share a name. */
  lemma FloorNamesDistinct()
    ensures forall i, j :: 0 <= i < j < |FloorNames| ==> FloorNames[i] != FloorNames[j]
  {
  }

  /** Looking a known floor name up and back gives the name again. */
  lemma FloorNameRoundTrip(name: string)
    requires name in FloorNames
    ensures GetFlooringIdFromName(name).Some?
    ensures GetFlooringNameFromId(GetFlooringIdFromName(name).value) == Some(name)
  {
  }

  /** Looking a known flooring code up and back gives the code again. */
  lemma FloorIdRoundTrip(id: int)
    requires 0 <= id < |FloorNames|
    ensures GetFlooringNameFromId(id).Some?
    ensures GetFlooringIdFromName(GetFlooringNameFromId(id).value) == Some(id)
  {
    FloorNamesDistinct();
  }

  /** The chest type a chest item is placed as, or None for any other name. */
  function GetChestType(itemName: string): (r: Option<int>)
    ensures r.Some? <==> itemName in ChestNames
    ensures itemName == "Chest" ==> r == Some(130)
    ensures itemName == "Stone Chest" ==> r == Some(232)
    ensures itemName == "Junimo Chest" ==> r == Some(256)
  {
    match itemName
    case "Chest" => Some(130)
    case "Stone Chest" => Some(232)
    case "Junimo Chest" => Some(256)
    case _ => None
  }

  /** Different chest names are placed as different chest types. */
  lemma ChestTypeInjective(a: string, b: string)
    requires a in ChestNames && b in ChestNames && a != b
    ensures GetChestType(a) != GetChestType(b)
  {
  }
}
