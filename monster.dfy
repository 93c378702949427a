/**
 * The monster catalog: three archetypes with fixed stats, the selection of an
 * archetype from a random draw, and the monster built from a catalog row.
 */
module Monsters {
  import opened Creatures

  /** The archetypes, in the catalog's order. */
  datatype MonsterType = Dragon | Orc | Slime

  /** The number of archetypes in the catalog. */
  const MaxTypes := 3

  /** One row of the catalog. */
  datatype MonsterData = MonsterData(name: string, symbol: char, health: int, damage: int, gold: int)

  /** The catalog, indexed by archetype position. */
  const Catalog: seq<MonsterData> := [
    MonsterData("dragon", 'D', 20, 4, 100),
    MonsterData("orc", 'o', 4, 2, 25),
    MonsterData("slime", 's', 1, 1, 10)
  ]

  /** The position of an archetype in the enumeration. */
  function Index(t: MonsterType): (i: nat)
    ensures i < MaxTypes == |Catalog|
  {
    match t
    case Dragon => 0
    case Orc => 1
    case Slime => 2
  }

  /** The archetype at a position of the enumeration (the cast from int). */
  function TypeAt(i: int): (t: MonsterType)
    requires 0 <= i < MaxTypes
    ensures Index(t) == i
  {
    if i == 0 then Dragon else if i == 1 then Orc else Slime
  }

  lemma IndexRoundTrip(t: MonsterType)
    ensures TypeAt(Index(t)) == t
  {
  }

  /**
   * The archetype chosen by a random draw; the draw stands for a uniform
   * number in [0, MaxTypes - 1], which is all the selection relies on.
   */
  function GetRandomMonster(draw: int): (t: MonsterType)
    requires 0 <= draw < MaxTypes
    ensures Index(t) == draw
  {
    TypeAt(draw)
  }

  /** The stats a new monster of archetype `t` starts with: a copy of its row. */
  function Spawn(t: MonsterType): (m: Stats)
    ensures !m.IsDead() && m.damage > 0 && 10 <= m.gold <= 100
  {
    var row := Catalog[Index(t)];
    Stats(row.name, row.symbol, row.health, row.damage, row.gold)
  }

  /** The catalog's rows, archetype by archetype. */
  lemma CatalogStats()
    ensures Spawn(Dragon) == Stats("dragon", 'D', 20, 4, 100)
    ensures Spawn(Orc) == Stats("orc", 'o', 4, 2, 25)
    ensures Spawn(Slime) == Stats("slime", 's', 1, 1, 10)
  {
  }

  /** A monster: a creature whose stats come from the catalog. */
  class Monster {
    const body: Creature

    constructor (t: MonsterType)
      ensures fresh(body)
      ensures body.Snapshot() == Spawn(t)
    {
      var row := Catalog[Index(t)];
      body := new Creature(row.name, row.symbol, row.health, row.damage, row.gold);
    }
  }
}
