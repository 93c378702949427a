/**
 * Attack resolution between the player and the monster of the current
 * encounter: the monster's hit on the player, and the player's strike, which
 * either kills the monster (loot and a level) or draws a counter-attack.
 */
module Combat {
  import opened Creatures
  import opened Monsters

  /** The two sides of an encounter, as values. */
  datatype Combatants = Combatants(player: PlayerState, monster: Stats)

  /** The player's stats with a different health and nothing else changed. */
  function WithHealth(p: PlayerState, health: int): PlayerState
  {
    p.(body := p.body.(health := health))
  }

  /** The monster hits the player: only the player's health moves. */
  function MonsterStrikes(c: Combatants): (r: Combatants)
    ensures r.player == WithHealth(c.player, c.player.body.health - c.monster.damage)
    ensures r.monster == c.monster
  {
    Combatants(c.player.(body := c.player.body.(health := c.player.body.health - c.monster.damage)), c.monster)
  }

  /**
   * The player strikes the monster. A kill pays out the monster's gold and a
   * level and spares the player's health; a survivor hits back at once.
   */
  function StrikeMonster(c: Combatants): (r: Combatants)
    ensures r.monster.health == c.monster.health - c.player.body.damage
    ensures r.monster.name == c.monster.name && r.monster.symbol == c.monster.symbol
    ensures r.monster.damage == c.monster.damage
    ensures r.player.body.name == c.player.body.name && r.player.body.symbol == c.player.body.symbol
    ensures r.monster.IsDead() ==>
      && r.player.level == c.player.level + 1
      && r.player.body.damage == c.player.body.damage + 1
      && r.player.body.gold == c.player.body.gold + c.monster.gold
      && r.player.body.health == c.player.body.health
      && r.monster.gold == 0
    ensures !r.monster.IsDead() ==>
      && r.player == WithHealth(c.player, c.player.body.health - c.monster.damage)
      && r.monster.gold == c.monster.gold
  {
    var hit := c.monster.(health := c.monster.health - c.player.body.damage);
    if hit.IsDead() then
      var up := LevelledUp(c.player);
      Combatants(up.(body := up.body.(gold := up.body.gold + hit.gold)), hit.(gold := 0))
    else
      MonsterStrikes(Combatants(c.player, hit))
  }

  /** Both sides of an encounter between live objects, as values. */
  function Sides(player: Player, monster: Monster): Combatants
    reads player, player.body, monster.body
  {
    Combatants(player.Snapshot(), monster.body.Snapshot())
  }

  /** The monster's attack, applied to the player in place. */
  method AttackPlayer(player: Player, monster: Monster)
    requires player.body != monster.body
    modifies player.body
    ensures Sides(player, monster) == MonsterStrikes(old(Sides(player, monster)))
  {
    player.body.health := player.body.health - monster.body.damage;
  }

  /** The player's attack, applied to both sides in place. */
  method AttackMonster(player: Player, monster: Monster)
    requires player.body != monster.body
    modifies player, player.body, monster.body
    ensures Sides(player, monster) == StrikeMonster(old(Sides(player, monster)))
  {
    monster.body.health := monster.body.health - player.body.damage;
    if monster.body.health <= 0 {
      player.LevelUp();
      player.body.gold := player.body.gold + monster.body.gold;
      monster.body.gold := 0;
    } else {
      AttackPlayer(player, monster);
    }
  }
}
