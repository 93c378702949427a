/**
 * One encounter: a monster is spawned and the player chooses, turn after
 * turn, to fight ('f') or to run ('r') until someone dies or the player gets
 * away.
 *
 * The console and the random generator are supplied: `inputs` holds the
 * characters read at the prompt (blanks are skipped by the read, so none
 * appear), `coins` the escape draws (any non-zero draw is
 * a successful escape, as in a C++ condition on an int). When the supplied
 * characters run out, the real program would keep prompting forever; the
 * model stops there and reports the encounter as Pending. It does the same
 * when a run is chosen and no draw is left.
 */
module Encounters {
  import opened Creatures
  import opened Monsters
  import opened Combat

  /** How an encounter ended: the player escaped, someone died, or input ran out. */
  datatype Outcome = Escaped | Resolved | Pending

  /** The effect of one choice. */
  datatype Turn =
    | Fled(coins: seq<int>)                         // a run that succeeded
    | Stood(sides: Combatants, coins: seq<int>)     // the encounter goes on to the death checks
    | AwaitingDraw                                  // a run with no draw left

  /** The effect of one typed choice on both sides, and the draws it leaves. */
  function TakeTurn(c: Combatants, choice: char, coins: seq<int>): (t: Turn)
    ensures choice == 'f' ==> t == Stood(StrikeMonster(c), coins)
    ensures choice == 'r' && coins == [] ==> t == AwaitingDraw
    ensures choice == 'r' && coins != [] && coins[0] != 0 ==> t == Fled(coins[1..])
    ensures choice == 'r' && coins != [] && coins[0] == 0 ==>
      && t.Stood?
      && t.coins == coins[1..]
      && t.sides.monster == c.monster
      && t.sides.player == WithHealth(c.player, c.player.body.health - c.monster.damage)
    ensures choice != 'f' && choice != 'r' ==> t == Stood(c, coins)
  {
    if choice == 'f' then
      Stood(StrikeMonster(c), coins)
    else if choice == 'r' then
      if coins == [] then AwaitingDraw
      else if coins[0] != 0 then Fled(coins[1..])
      else Stood(MonsterStrikes(c), coins[1..])
    else
      Stood(c, coins)
  }

  /** Where an encounter stops: how, both sides' stats, and the unread input and draws. */
  datatype EncounterResult = EncounterResult(outcome: Outcome, sides: Combatants, inputs: seq<char>, coins: seq<int>)

  /**
   * The encounter loop: take turns until a death check fires, the player
   * escapes, or the supplied input runs out.
   */
  function Encounter(c: Combatants, inputs: seq<char>, coins: seq<int>): (r: EncounterResult)
    ensures r.outcome == Resolved ==> r.sides.player.HasLost() || r.sides.monster.IsDead()
    decreases |inputs|
  {
    if inputs == [] then
      EncounterResult(Pending, c, inputs, coins)
    else
      match TakeTurn(c, inputs[0], coins)
      case AwaitingDraw => EncounterResult(Pending, c, inputs, coins)
      case Fled(rest) => EncounterResult(Escaped, c, inputs[1..], rest)
      case Stood(d, rest) =>
        if d.player.body.IsDead() || d.monster.IsDead() then
          EncounterResult(Resolved, d, inputs[1..], rest)
        else
          Encounter(d, inputs[1..], rest)
  }

  /**
   * An encounter reads a prefix of the input and of the draws, and reads at
   * least one character unless it is left pending.
   */
  lemma {:induction false} EncounterConsumesPrefix(c: Combatants, inputs: seq<char>, coins: seq<int>)
    ensures var r := Encounter(c, inputs, coins);
      && |r.inputs| <= |inputs| && r.inputs == inputs[|inputs| - |r.inputs|..]
      && |r.coins| <= |coins| && r.coins == coins[|coins| - |r.coins|..]
      && (r.outcome != Pending ==> |r.inputs| < |inputs|)
    decreases |inputs|
  {
    if inputs != [] {
      match TakeTurn(c, inputs[0], coins)
      case AwaitingDraw =>
      case Fled(rest) =>
      case Stood(d, rest) =>
        if !(d.player.HasLost() || d.monster.IsDead()) {
          EncounterConsumesPrefix(d, inputs[1..], rest);
          var r := Encounter(d, inputs[1..], rest);
          assert inputs[1..][|inputs[1..]| - |r.inputs|..] == inputs[|inputs| - |r.inputs|..];
          assert rest == coins || rest == coins[1..];
        }
    }
  }

  /** Both sides are alive. */
  predicate Alive(c: Combatants)
  {
    !c.player.HasLost() && !c.monster.IsDead()
  }

  /**
   * `c` is where an encounter that began at `start` can be while nobody has
   * died: only the two healths may have moved, and only downwards.
   */
  ghost predicate Unresolved(start: Combatants, c: Combatants)
  {
    && c.player == WithHealth(start.player, c.player.body.health)
    && c.player.body.health <= start.player.body.health
    && c.monster == start.monster.(health := c.monster.health)
    && c.monster.health <= start.monster.health
  }

  /**
   * `p` is the player after killing the monster `m` of an encounter that began
   * with player `p0`: one level, one point of damage and the monster's gold
   * gained, health no higher than at the start.
   */
  ghost predicate Rewarded(p0: PlayerState, m: Stats, p: PlayerState)
  {
    && p.level == p0.level + 1
    && p.body.damage == p0.body.damage + 1
    && p.body.gold == p0.body.gold + m.gold
    && p.body.health <= p0.body.health
    && p.body.name == p0.body.name && p.body.symbol == p0.body.symbol
  }

  /**
   * What an encounter between two live sides can end in. An escape or an
   * exhausted input leaves both alive with nothing but health changed; a
   * resolved encounter has exactly one dead side: either the player died and
   * kept level, damage and gold, or the monster died and the player gained a
   * level, a point of damage and all the monster's gold.
   */
  lemma {:induction false} EncounterOutcomes(start: Combatants, c: Combatants, inputs: seq<char>, coins: seq<int>)
    requires start.player.body.damage >= 0 && start.monster.damage >= 0
    requires Unresolved(start, c) && Alive(c)
    ensures var r := Encounter(c, inputs, coins);
      match r.outcome
      case Escaped => Unresolved(start, r.sides) && Alive(r.sides)
      case Pending => Unresolved(start, r.sides) && Alive(r.sides)
      case Resolved =>
        || (r.sides.player.HasLost() && !r.sides.monster.IsDead() && Unresolved(start, r.sides))
        || (r.sides.monster.IsDead() && !r.sides.player.HasLost()
            && Rewarded(start.player, start.monster, r.sides.player) && r.sides.monster.gold == 0)
    decreases |inputs|
  {
    if inputs != [] {
      match TakeTurn(c, inputs[0], coins)
      case AwaitingDraw =>
      case Fled(_) =>
      case Stood(d, rest) =>
        if !(d.player.body.IsDead() || d.monster.IsDead()) {
          EncounterOutcomes(start, d, inputs[1..], rest);
        }
    }
  }

  /** An unrecognised character changes nothing and the loop prompts again. */
  lemma IgnoredChoice(c: Combatants, inputs: seq<char>, coins: seq<int>)
    requires Alive(c) && inputs != [] && inputs[0] != 'f' && inputs[0] != 'r'
    ensures Encounter(c, inputs, coins) == Encounter(c, inputs[1..], coins)
  {
  }

  /** A successful run ends the encounter at once with both sides untouched. */
  lemma SuccessfulRun(c: Combatants, inputs: seq<char>, coins: seq<int>)
    requires inputs != [] && inputs[0] == 'r' && coins != [] && coins[0] != 0
    ensures Encounter(c, inputs, coins) == EncounterResult(Escaped, c, inputs[1..], coins[1..])
  {
  }

  /** A failed run costs the player the monster's damage and nothing else. */
  lemma FailedRun(c: Combatants, inputs: seq<char>, coins: seq<int>)
    requires Alive(c) && inputs != [] && inputs[0] == 'r' && coins != [] && coins[0] == 0
    ensures var d := Combatants(WithHealth(c.player, c.player.body.health - c.monster.damage), c.monster);
      Encounter(c, inputs, coins) ==
        if d.player.HasLost() then EncounterResult(Resolved, d, inputs[1..], coins[1..])
        else Encounter(d, inputs[1..], coins[1..])
  {
  }

  /** One turn that does not end the encounter by itself, followed by the death checks. */
  lemma EncounterAfterTurn(c: Combatants, inputs: seq<char>, coins: seq<int>, d: Combatants, rest: seq<int>)
    requires inputs != [] && TakeTurn(c, inputs[0], coins) == Stood(d, rest)
    ensures Encounter(c, inputs, coins) ==
      if d.player.HasLost() || d.monster.IsDead() then EncounterResult(Resolved, d, inputs[1..], rest)
      else Encounter(d, inputs[1..], rest)
  {
  }

  /**
   * The encounter loop over live objects: spawns the monster drawn by `kind`
   * and runs turns from `inputs` and `coins`, returning how it ended and the
   * unread input and draws.
   */
  method FightMonster(player: Player, kind: int, inputs: seq<char>, coins: seq<int>)
    returns (outcome: Outcome, inputsLeft: seq<char>, coinsLeft: seq<int>)
    requires 0 <= kind < MaxTypes
    modifies player, player.body
    ensures var r := Encounter(Combatants(old(player.Snapshot()), Spawn(GetRandomMonster(kind))), inputs, coins);
      outcome == r.outcome && player.Snapshot() == r.sides.player && inputsLeft == r.inputs && coinsLeft == r.coins
  {
    var monster := new Monster(GetRandomMonster(kind));
    ghost var goal := Encounter(Sides(player, monster), inputs, coins);
    var i, j := 0, 0;
    while true
      invariant 0 <= i <= |inputs| && 0 <= j <= |coins|
      invariant player.body != monster.body
      invariant Encounter(Sides(player, monster), inputs[i..], coins[j..]) == goal
      decreases |inputs| - i
    {
      if i == |inputs| {
        return Pending, inputs[i..], coins[j..];
      }
      ghost var before, unread, draws := Sides(player, monster), inputs[i..], coins[j..];
      var choice := inputs[i];
      assert unread[0] == choice && unread[1..] == inputs[i + 1..];
      if choice == 'f' {
        AttackMonster(player, monster);
      } else if choice == 'r' {
        if j == |coins| {
          return Pending, inputs[i..], coins[j..];
        }
        var coin := coins[j];
        j := j + 1;
        assert draws[0] == coin && draws[1..] == coins[j..];
        if coin != 0 {
          return Escaped, inputs[i + 1..], coins[j..];
        }
        AttackPlayer(player, monster);
      }
      i := i + 1;
      assert TakeTurn(before, choice, draws) == Stood(Sides(player, monster), coins[j..]);
      EncounterAfterTurn(before, unread, draws, Sides(player, monster), coins[j..]);
      if player.body.health <= 0 {
        break;
      }
      if monster.body.health <= 0 {
        break;
      }
    }
    return Resolved, inputs[i..], coins[j..];
  }
}
