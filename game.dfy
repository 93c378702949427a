/**
 * The game loop: encounter after encounter until the player dies (a loss) or
 * reaches the winning level (a win).
 *
 * `kinds` holds the archetype draws, one per encounter, each in
 * [0, MaxTypes - 1]; `inputs` and `coins` are the console characters and
 * escape draws, shared by all encounters in turn. When the archetype draws run
 * out, or an encounter is left pending, the game is reported Unfinished.
 */
module Game {
  import opened Creatures
  import opened Monsters
  import opened Combat
  import opened Encounters

  /** How a game ends, with the player's final stats (which the end message reports). */
  datatype GameResult = Lost(player: PlayerState) | Won(player: PlayerState) | Unfinished(player: PlayerState)

  /** Every archetype draw lies in the range the random source promises. */
  predicate ValidDraws(kinds: seq<int>)
  {
    forall k :: 0 <= k < |kinds| ==> 0 <= kinds[k] < MaxTypes
  }

  /**
   * The game from player `p` on. An escape always leads to another
   * encounter; otherwise death is checked first (a loss), then the winning
   * level (a win), and only then does the game go on.
   */
  function Play(p: PlayerState, kinds: seq<int>, inputs: seq<char>, coins: seq<int>): (r: GameResult)
    requires ValidDraws(kinds)
    ensures r.Lost? ==> r.player.HasLost()
    ensures r.Won? ==> r.player.HasWon() && !r.player.HasLost()
    decreases |kinds|
  {
    if kinds == [] then
      Unfinished(p)
    else
      var e := Encounter(Combatants(p, Spawn(GetRandomMonster(kinds[0]))), inputs, coins);
      match e.outcome
      case Pending => Unfinished(e.sides.player)
      case Escaped => Play(e.sides.player, kinds[1..], e.inputs, e.coins)
      case Resolved =>
        if e.sides.player.body.health <= 0 then Lost(e.sides.player)
        else if e.sides.player.HasWon() then Won(e.sides.player)
        else Play(e.sides.player, kinds[1..], e.inputs, e.coins)
  }

  /** An escape always leads on to the next encounter, whatever the player's stats. */
  lemma EscapeContinues(p: PlayerState, kinds: seq<int>, inputs: seq<char>, coins: seq<int>)
    requires ValidDraws(kinds) && kinds != []
    requires Encounter(Combatants(p, Spawn(GetRandomMonster(kinds[0]))), inputs, coins).outcome == Escaped
    ensures var e := Encounter(Combatants(p, Spawn(GetRandomMonster(kinds[0]))), inputs, coins);
      Play(p, kinds, inputs, coins) == Play(e.sides.player, kinds[1..], e.inputs, e.coins)
  {
  }

  /** A death in an encounter ends the game as a loss, even at the winning level. */
  lemma DeathEndsGame(p: PlayerState, kinds: seq<int>, inputs: seq<char>, coins: seq<int>)
    requires ValidDraws(kinds) && kinds != []
    requires var e := Encounter(Combatants(p, Spawn(GetRandomMonster(kinds[0]))), inputs, coins);
      e.outcome == Resolved && e.sides.player.HasLost()
    ensures Play(p, kinds, inputs, coins) ==
      Lost(Encounter(Combatants(p, Spawn(GetRandomMonster(kinds[0]))), inputs, coins).sides.player)
  {
  }

  /** A kill that leaves the player alive at the winning level ends the game as a win at once. */
  lemma WinEndsGame(p: PlayerState, kinds: seq<int>, inputs: seq<char>, coins: seq<int>)
    requires ValidDraws(kinds) && kinds != []
    requires var e := Encounter(Combatants(p, Spawn(GetRandomMonster(kinds[0]))), inputs, coins);
      e.outcome == Resolved && !e.sides.player.HasLost() && e.sides.player.HasWon()
    ensures Play(p, kinds, inputs, coins) ==
      Won(Encounter(Combatants(p, Spawn(GetRandomMonster(kinds[0]))), inputs, coins).sides.player)
  {
  }

  /** A kill that leaves the player alive below the winning level leads on to the next encounter. */
  lemma KillContinues(p: PlayerState, kinds: seq<int>, inputs: seq<char>, coins: seq<int>)
    requires ValidDraws(kinds) && kinds != []
    requires var e := Encounter(Combatants(p, Spawn(GetRandomMonster(kinds[0]))), inputs, coins);
      e.outcome == Resolved && !e.sides.player.HasLost() && !e.sides.player.HasWon()
    ensures var e := Encounter(Combatants(p, Spawn(GetRandomMonster(kinds[0]))), inputs, coins);
      Play(p, kinds, inputs, coins) == Play(e.sides.player, kinds[1..], e.inputs, e.coins)
  {
  }

  /**
   * A player between two encounters of a game that began with a new player:
   * alive, below the winning level, damage equal to level, health no higher
   * than at the start, and between 10 and 100 gold per level gained (the
   * poorest and the richest monster of the catalog).
   */
  ghost predicate OnTrack(p: PlayerState)
  {
    && 1 <= p.level < WinningLevel
    && p.body.damage == p.level
    && 0 < p.body.health <= 10
    && 10 * (p.level - 1) <= p.body.gold <= 100 * (p.level - 1)
    && p.body.symbol == '@'
  }

  /**
   * A game played on from a player on track: a win happens at exactly the
   * winning level, with the player alive; a loss happens below it; a game
   * that runs out of supplied input leaves the player still on track.
   */
  lemma {:induction false} PlayKeepsTrack(p: PlayerState, kinds: seq<int>, inputs: seq<char>, coins: seq<int>)
    requires OnTrack(p) && ValidDraws(kinds)
    ensures match Play(p, kinds, inputs, coins)
      case Won(q) =>
        && q.level == WinningLevel && q.body.damage == WinningLevel
        && 0 < q.body.health <= 10
        && 10 * (WinningLevel - 1) <= q.body.gold <= 100 * (WinningLevel - 1)
      case Lost(q) =>
        && q.body.health <= 0 && 1 <= q.level < WinningLevel && q.body.damage == q.level
        && 10 * (q.level - 1) <= q.body.gold <= 100 * (q.level - 1)
      case Unfinished(q) => OnTrack(q)
    decreases |kinds|
  {
    if kinds != [] {
      var start := Combatants(p, Spawn(GetRandomMonster(kinds[0])));
      EncounterOutcomes(start, start, inputs, coins);
      var e := Encounter(start, inputs, coins);
      if e.outcome == Escaped || (e.outcome == Resolved && !e.sides.player.HasLost() && !e.sides.player.HasWon()) {
        PlayKeepsTrack(e.sides.player, kinds[1..], e.inputs, e.coins);
      }
    }
  }

  /**
   * A whole game from a new player: it is won only at exactly level 20,
   * with damage 20 and at least 190 gold, and lost only below level 20.
   */
  lemma GameFromStart(name: string, kinds: seq<int>, inputs: seq<char>, coins: seq<int>)
    requires ValidDraws(kinds)
    ensures match Play(NewPlayer(name), kinds, inputs, coins)
      case Won(q) => q.level == WinningLevel && q.body.damage == WinningLevel && q.body.gold >= 190
      case Lost(q) => q.level < WinningLevel
      case Unfinished(q) => !q.HasLost() && !q.HasWon()
  {
    PlayKeepsTrack(NewPlayer(name), kinds, inputs, coins);
  }

  /**
   * The game loop over a live player: creates the player and runs
   * encounters until a loss, a win, or the supplied draws and input run out.
   */
  method PlayGame(name: string, kinds: seq<int>, inputs: seq<char>, coins: seq<int>) returns (result: GameResult)
    requires ValidDraws(kinds)
    ensures result == Play(NewPlayer(name), kinds, inputs, coins)
  {
    var player := new Player(name);
    var n := 0;
    var unread, draws := inputs, coins;
    while true
      invariant 0 <= n <= |kinds|
      invariant Play(player.Snapshot(), kinds[n..], unread, draws) == Play(NewPlayer(name), kinds, inputs, coins)
      decreases |kinds| - n
    {
      if n == |kinds| {
        return Unfinished(player.Snapshot());
      }
      assert kinds[n..][1..] == kinds[n + 1..];
      var outcome;
      outcome, unread, draws := FightMonster(player, kinds[n], unread, draws);
      n := n + 1;
      if outcome == Pending {
        return Unfinished(player.Snapshot());
      }
      if outcome == Escaped {
        continue;
      }
      if player.body.health <= 0 {
        result := Lost(player.Snapshot());
        break;
      }
      if player.HasWon() {
        result := Won(player.Snapshot());
        break;
      }
    }
  }
}
