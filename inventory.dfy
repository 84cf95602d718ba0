/**
 * Block textures (objects/texturing.py) and the player's hot-bar inventory
 * (objects/inventory.py): ten slots, six of them stocked at start, one selected.
 */
module Inventories {
  import opened Settings

  /** The block textures, in the order of their ids 1..14. */
  datatype Texture =
    | Sand | Grass | Dirt | Stone | Snow | SakuraLeaves | Wood | Tnt
    | OakPlank | DiamondOre | NormalLeaves | Beehive | OakLeaves | GoldBlock

  /** The enum value of a texture: the voxel id stored for a block of it. */
  function TextureValue(t: Texture): (v: int)
    ensures 1 <= v <= 14
  {
    match t
    case Sand => 1
    case Grass => 2
    case Dirt => 3
    case Stone => 4
    case Snow => 5
    case SakuraLeaves => 6
    case Wood => 7
    case Tnt => 8
    case OakPlank => 9
    case DiamondOre => 10
    case NormalLeaves => 11
    case Beehive => 12
    case OakLeaves => 13
    case GoldBlock => 14
  }

  /** The enum lookup by value, `Texture(v)`, with None where Python raises ValueError. */
  function TextureOf(v: int): (r: Option<Texture>)
    ensures r.Some? <==> 1 <= v <= 14
  {
    if v == 1 then Some(Sand)
    else if v == 2 then Some(Grass)
    else if v == 3 then Some(Dirt)
    else if v == 4 then Some(Stone)
    else if v == 5 then Some(Snow)
    else if v == 6 then Some(SakuraLeaves)
    else if v == 7 then Some(Wood)
    else if v == 8 then Some(Tnt)
    else if v == 9 then Some(OakPlank)
    else if v == 10 then Some(DiamondOre)
    else if v == 11 then Some(NormalLeaves)
    else if v == 12 then Some(Beehive)
    else if v == 13 then Some(OakLeaves)
    else if v == 14 then Some(GoldBlock)
    else None
  }

  /** Values and lookup are inverse: every texture has its own id, and every id names one. */
  lemma TextureValueRoundTrip(t: Texture, v: int)
    ensures TextureOf(TextureValue(t)) == Some(t)
    ensures TextureOf(v).Some? ==> TextureValue(TextureOf(v).value) == v
  {
  }

  const SLOT_COUNT: int := 10

  /** The stock a new inventory starts with: grass, stone, dirt, sand, wood, TNT, then empty. */
  function InitialSlots(): seq<Option<int>>
  {
    [Some(TextureValue(Grass)), Some(TextureValue(Stone)), Some(TextureValue(Dirt)),
     Some(TextureValue(Sand)), Some(TextureValue(Wood)), Some(TextureValue(Tnt)),
     None, None, None, None]
  }

  /** The initial stock fills exactly the first six slots, each with a distinct valid block. */
  lemma InitialStock()
    ensures |InitialSlots()| == SLOT_COUNT
    ensures forall i :: 0 <= i < SLOT_COUNT ==> (InitialSlots()[i].Some? <==> i < 6)
    ensures forall i :: 0 <= i < 6 ==> TextureOf(InitialSlots()[i].value).Some?
    ensures forall i, j :: 0 <= i < j < 6 ==> InitialSlots()[i] != InitialSlots()[j]
  {
  }

  class Inventory {
    /** Each slot holds a texture id or nothing. */
    var slots: seq<Option<int>>
    var selectedSlot: int

    predicate Valid()
      reads this
    {
      |slots| == SLOT_COUNT && 0 <= selectedSlot < SLOT_COUNT
    }

    constructor()
      ensures Valid()
      ensures slots == InitialSlots() && selectedSlot == 0
    {
      var s: seq<Option<int>> := seq(SLOT_COUNT, _ => None);
      s := s[0 := Some(TextureValue(Grass))];
      s := s[1 := Some(TextureValue(Stone))];
      s := s[2 := Some(TextureValue(Dirt))];
      s := s[3 := Some(TextureValue(Sand))];
      s := s[4 := Some(TextureValue(Wood))];
      s := s[5 := Some(TextureValue(Tnt))];
      slots := s;
      selectedSlot := 0;
    }

    /** Select a slot; an index outside 0..9 is ignored. The slots themselves never change. */
    method SelectSlot(index: int)
      modifies this
      ensures slots == old(slots)
      ensures 0 <= index < SLOT_COUNT ==> selectedSlot == index
      ensures !(0 <= index < SLOT_COUNT) ==> selectedSlot == old(selectedSlot)
      ensures old(Valid()) ==> Valid()
    {
      if 0 <= index < SLOT_COUNT {
        selectedSlot := index;
      }
    }
  }
}
