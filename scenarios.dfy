/**
 * Concrete plays of the game, stated as facts about the model.
 */
module Scenarios {
  import opened Creatures
  import opened Monsters
  import opened Combat
  import opened Encounters
  import opened Game

  /**
   * A new player fights a slime once: the slime dies at health 0, the player
   * takes its 10 gold and reaches level 2 with damage 2, and keeps all 10
   * health since a dead slime does not hit back.
   */
  lemma HeroKillsSlime(rest: seq<char>, coins: seq<int>)
    ensures Encounter(Combatants(NewPlayer("Hero"), Spawn(Slime)), ['f'] + rest, coins) ==
      EncounterResult(Resolved,
        Combatants(PlayerState(Stats("Hero", '@', 10, 2, 10), 2), Stats("slime", 's', 0, 1, 0)),
        rest, coins)
  {
    assert (['f'] + rest)[1..] == rest;
  }

  /**
   * A player down to 1 health who fights an orc and fails to kill it is hit
   * back for 2 and dies at health -1; the encounter ends and the game is lost.
   */
  lemma WeakPlayerMeetsOrc(p: PlayerState, rest: seq<char>, coins: seq<int>)
    requires p.body.health == 1 && 0 <= p.body.damage < 4
    ensures var e := Encounter(Combatants(p, Spawn(Orc)), ['f'] + rest, coins);
      && e.outcome == Resolved
      && e.sides.player == WithHealth(p, -1)
      && e.sides.monster == Stats("orc", 'o', 4 - p.body.damage, 2, 25)
    ensures Play(p, [1], ['f'] + rest, coins) == Lost(WithHealth(p, -1))
  {
    assert (['f'] + rest)[1..] == rest;
  }

  /**
   * A level-19 player on a single point of health who kills a slime reaches
   * level 20 and wins at once.
   */
  lemma WinAtLevelTwenty(gold: int, kinds: seq<int>, rest: seq<char>, coins: seq<int>)
    requires ValidDraws(kinds)
    ensures var p := PlayerState(Stats("Hero", '@', 1, 19, gold), 19);
      Play(p, [2] + kinds, ['f'] + rest, coins) == Won(PlayerState(Stats("Hero", '@', 1, 20, gold + 10), 20))
  {
    assert (['f'] + rest)[1..] == rest;
    assert ValidDraws([2] + kinds);
  }
}
