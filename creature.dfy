/**
 * The creature record shared by the player and the monsters, and the player
 * built on it (a level on top of a creature).
 *
 * Every stat is an unbounded integer: the game moves health and gold by at
 * most a hundred per action, so the C++ `int` never comes near wrapping.
 */
module Creatures {

  /** The number of levels a player must reach to win. */
  const WinningLevel := 20

  /** A creature's stats as a value. */
  datatype Stats = Stats(name: string, symbol: char, health: int, damage: int, gold: int)
  {
    /** Death is health at zero or below; health may go negative. */
    predicate IsDead() { health <= 0 }
  }

  /** The player's stats as a value: a creature and a level. */
  datatype PlayerState = PlayerState(body: Stats, level: int)
  {
    predicate HasWon() { level >= WinningLevel }
    predicate HasLost() { body.IsDead() }
  }

  /** The stats a player starts a game with. */
  function NewPlayer(name: string): (p: PlayerState)
    ensures p.level == 1 && p.body.health == 10 && p.body.damage == 1 && p.body.gold == 0
    ensures p.body.symbol == '@' && p.body.name == name
    ensures !p.HasLost() && !p.HasWon()
  {
    PlayerState(Stats(name, '@', 10, 1, 0), 1)
  }

  /** One level gained: level and damage both rise by one, nothing else moves. */
  function LevelledUp(p: PlayerState): (r: PlayerState)
    ensures r.level == p.level + 1 && r.body.damage == p.body.damage + 1
    ensures r.body.health == p.body.health && r.body.gold == p.body.gold
    ensures r.body.name == p.body.name && r.body.symbol == p.body.symbol
  {
    PlayerState(p.body.(damage := p.body.damage + 1), p.level + 1)
  }

  /** The player after `n` level-ups in a row. */
  function LevelledUpTimes(p: PlayerState, n: nat): PlayerState
  {
    if n == 0 then p else LevelledUp(LevelledUpTimes(p, n - 1))
  }

  /** After `n` level-ups, level and damage have each risen by exactly `n`. */
  lemma {:induction false} LevelUpTimes(p: PlayerState, n: nat)
    ensures LevelledUpTimes(p, n).level == p.level + n
    ensures LevelledUpTimes(p, n).body == p.body.(damage := p.body.damage + n)
  {
    if n > 0 {
      LevelUpTimes(p, n - 1);
    }
  }

  /** A fresh player that has levelled up `n` times has level and damage `1 + n`. */
  lemma {:induction false} NewPlayerLevelledUp(name: string, n: nat)
    ensures LevelledUpTimes(NewPlayer(name), n).level == 1 + n
    ensures LevelledUpTimes(NewPlayer(name), n).body.damage == 1 + n
  {
    LevelUpTimes(NewPlayer(name), n);
  }

  /** A creature whose stats are updated in place. */
  class Creature {
    var name: string
    var symbol: char
    var health: int
    var damage: int
    var gold: int

    /** The current stats as a value. */
    function Snapshot(): Stats
      reads this
    {
      Stats(name, symbol, health, damage, gold)
    }

    constructor (name: string, symbol: char, health: int, damage: int, gold: int)
      ensures Snapshot() == Stats(name, symbol, health, damage, gold)
    {
      this.name := name;
      this.symbol := symbol;
      this.health := health;
      this.damage := damage;
      this.gold := gold;
    }

    method ReduceHealth(amount: int)
      modifies this
      ensures Snapshot() == old(Snapshot()).(health := old(health) - amount)
    {
      health := health - amount;
    }

    predicate IsDead()
      reads this
      ensures IsDead() <==> health <= 0
    {
      Snapshot().IsDead()
    }

    method AddGold(amount: int)
      modifies this
      ensures Snapshot() == old(Snapshot()).(gold := old(gold) + amount)
    {
      gold := gold + amount;
    }
  }

  /** The player: a creature of its own plus a level. */
  class Player {
    const body: Creature
    var level: int

    /** The current stats as a value. */
    function Snapshot(): PlayerState
      reads this, body
    {
      PlayerState(body.Snapshot(), level)
    }

    constructor (name: string)
      ensures fresh(body)
      ensures Snapshot() == NewPlayer(name)
    {
      body := new Creature(name, '@', 10, 1, 0);
      level := 1;
    }

    method LevelUp()
      modifies this, body
      ensures Snapshot() == LevelledUp(old(Snapshot()))
    {
      level := level + 1;
      body.damage := body.damage + 1;
    }

    predicate HasWon()
      reads this, body
      ensures HasWon() <==> level >= WinningLevel
    {
      Snapshot().HasWon()
    }

    predicate HasLost()
      reads this, body
      ensures HasLost() <==> body.health <= 0
    {
      Snapshot().HasLost()
    }
  }
}
