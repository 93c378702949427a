# fight-monster, modelled in Dafny

A model of the text fight game in `main.cpp`: a player (`@`, 10 health,
1 damage, no gold, level 1) meets one randomly chosen monster after another
(dragon, orc or slime, copied from a fixed catalog) and, turn by turn, fights
(`f`) or tries to run (`r`). A hit that kills the monster pays its gold and one
level (level and damage both rise by one); a monster that survives a hit, or
that catches a player trying to run, hits back for its damage. An escape moves
on to the next monster. The game is lost when the player's health reaches 0 or
below, checked first, and won when the player reaches level 20.

The model has two layers.

- Values and transition functions: `Stats`, `PlayerState` and `Combatants` are
  the creatures' stats as values; `LevelledUp`, `MonsterStrikes`,
  `StrikeMonster`, `TakeTurn`, `Encounter` and `Play` are what each operation
  and each loop does to them. Their contracts and the lemmas beside them state
  what the game promises.
- Objects updated in place, as in the source: `Creature`, `Player` (a creature
  and a level) and `Monster` (a creature built from a catalog row) are classes;
  `ReduceHealth`, `AddGold`, `LevelUp`, `AttackPlayer`, `AttackMonster`,
  `FightMonster` (the encounter loop) and `PlayGame` (the game loop) are
  methods, each proved to leave the objects in exactly the state the matching
  function gives.

The console and the random generator are parameters. `inputs` holds the
characters read at the "(R)un or (F)ight" prompt, one per read and with blanks
already skipped, as the formatted read of a `char` skips whitespace; `kinds` holds one archetype
draw per encounter, each in [0, 2]; `coins` holds the escape draws, and a
non-zero draw is an escape, as in the source's `if` on an `int`. The source's
loops never end on their own when nobody dies; the model ends them when the
supplied characters or draws run out. An encounter is then `Pending` and the
game `Unfinished`.

Modules: `Creatures` (creature.dfy), `Monsters` (monster.dfy), `Combat`
(combat.dfy), `Encounters` (encounter.dfy), `Game` (game.dfy), and
`Scenarios` (scenarios.dfy), which holds concrete plays.

## Model

| member | source | states |
|---|---|---|
| Creatures.NewPlayer | main.cpp:57-63 | a new player has level 1, health 10, damage 1, gold 0, symbol '@' and the given name; it has neither lost nor won |
| Creatures.LevelledUp | main.cpp:65-69 | a level-up raises level and damage by exactly 1 and leaves health, gold, name and symbol unchanged |
| Creatures.LevelUpTimes | main.cpp:65-69 | after n level-ups, level and damage have each risen by exactly n and nothing else has changed |
| Creatures.NewPlayerLevelledUp | main.cpp:57-69 | a new player levelled up n times has level 1 + n and damage 1 + n |
| Creatures.Creature.constructor | main.cpp:32-40 | a creature starts with exactly the name, symbol, health, damage and gold it is given |
| Creatures.Creature.ReduceHealth | main.cpp:48 | health drops by the given amount and nothing else changes |
| Creatures.Creature.AddGold | main.cpp:50 | gold rises by the given amount and nothing else changes |
| Creatures.Creature.IsDead | main.cpp:49 | a creature is dead exactly when its health is 0 or below |
| Creatures.Player.constructor | main.cpp:57-63 | a constructed player holds exactly the new-player stats, in a creature of its own |
| Creatures.Player.LevelUp | main.cpp:65-69 | the player's stats afterwards are the levelled-up stats of before |
| Creatures.Player.HasWon | main.cpp:72 | the player has won exactly when its level is 20 or more |
| Creatures.Player.HasLost | main.cpp:73 | the player has lost exactly when its health is 0 or below |
| Monsters.Index | main.cpp:83-89 | every archetype has a position below the number of archetypes, which is the catalog's length |
| Monsters.TypeAt | main.cpp:120-123 | the archetype cast from a position in range has that position |
| Monsters.IndexRoundTrip | main.cpp:83-89 | casting an archetype's position back gives the same archetype |
| Monsters.GetRandomMonster | main.cpp:120-123 | a draw in [0, 2] selects the archetype at that position |
| Monsters.Spawn | main.cpp:101-118 | every catalog monster starts alive, with positive damage and between 10 and 100 gold |
| Monsters.CatalogStats | main.cpp:101-106 | dragon D 20/4/100, orc o 4/2/25, slime s 1/1/10 (health, damage, gold) |
| Monsters.Monster.constructor | main.cpp:109-118 | a new monster's creature holds exactly its archetype's catalog row |
| Combat.MonsterStrikes | main.cpp:154-160 | the monster's attack lowers the player's health by the monster's damage; nothing else on either side changes |
| Combat.StrikeMonster | main.cpp:162-186 | the monster's health drops by the player's damage; on a kill the player gains 1 level, 1 damage and the monster's gold, keeps its health, and the monster's gold becomes 0; otherwise the player loses the monster's damage in health and nothing else changes |
| Combat.AttackPlayer | main.cpp:154-160 | applied in place, the monster's attack leaves both sides as the monster-strikes function says |
| Combat.AttackMonster | main.cpp:162-186 | applied in place, the player's attack leaves both sides as the strike function says, levelling up through the player's own method |
| Encounters.TakeTurn | main.cpp:213-236 | 'f' is a strike; 'r' with a non-zero draw is an escape with both sides untouched; 'r' with a zero draw costs the player the monster's damage in health and nothing else; any other character changes nothing |
| Encounters.Encounter | main.cpp:210-247 | an encounter that ends without an escape ends only with the player or the monster dead |
| Encounters.EncounterConsumesPrefix | main.cpp:210-247 | an encounter reads a prefix of the input and of the draws, and at least one character unless it is left pending |
| Encounters.EncounterOutcomes | main.cpp:162-185 | starting from two live sides, an escape leaves both alive with only health changed; a resolved encounter has exactly one dead side: a dead player keeps level, damage and gold, a dead monster has paid one level, one damage and all its gold, and its gold is 0 |
| Encounters.IgnoredChoice | main.cpp:216-245 | a character other than 'f' or 'r' changes no stat and the loop goes on to the next character |
| Encounters.SuccessfulRun | main.cpp:220-228 | a run with a non-zero draw ends the encounter as an escape with neither side changed |
| Encounters.FailedRun | main.cpp:229-240 | a run with a zero draw lowers only the player's health, by the monster's damage, then ends the encounter if the player is dead and goes on otherwise |
| Encounters.EncounterAfterTurn | main.cpp:238-244 | after a turn that stays in the loop, the encounter ends exactly when the player or the monster is dead |
| Encounters.FightMonster | main.cpp:189-248 | the encounter loop over the objects returns the outcome, the player's final stats and the unread input and draws the encounter function gives for a monster of the drawn archetype |
| Game.Play | main.cpp:265-294 | a lost game ends with the player dead; a won game ends with the player alive and at level 20 or more, so death is checked before the win |
| Game.EscapeContinues | main.cpp:267-272 | after an escape the game goes on to the next encounter with the player as the escape left it, whatever its stats |
| Game.DeathEndsGame | main.cpp:277-284 | an encounter that ends with the player dead ends the game as a loss, even when the player's level is 20 or more |
| Game.WinEndsGame | main.cpp:286-293 | a resolved encounter that leaves the player alive at level 20 or more ends the game as a win at once |
| Game.KillContinues | main.cpp:274-294 | a resolved encounter that leaves the player alive below level 20 leads on to the next encounter with the player as the encounter left it |
| Game.PlayKeepsTrack | main.cpp:265-294 | from a player on track (alive, below level 20, damage equal to level, 10 to 100 gold per level gained), a win comes at exactly level 20 with damage 20 and the player alive, a loss comes below level 20, and a game that runs out of input leaves the player on track |
| Game.GameFromStart | main.cpp:263-294 | a game from a new player is won only at exactly level 20, with damage 20 and at least 190 gold, and lost only below level 20 |
| Game.PlayGame | main.cpp:250-297 | the game loop over a player object returns exactly the result of the game function from a new player |
| Scenarios.HeroKillsSlime | main.cpp:162-181 | a new player who fights a slime once kills it at health 0, takes 10 gold, reaches level 2 and damage 2 and keeps 10 health |
| Scenarios.WeakPlayerMeetsOrc | main.cpp:182-185 | a player with 1 health who fails to kill an orc is hit to -1 health and the game is lost |
| Scenarios.WinAtLevelTwenty | main.cpp:286-293 | a level-19 player with 1 health who kills a slime reaches level 20 and wins at once |

## Left out

- Console output: `printTable` (main.cpp:130-152), the encounter banner (main.cpp:195-204) and every narrative and end-of-game line. Only what the end messages report, the player's final stats, is kept in `GameResult`.
- Console input: the name and the choices are parameters (`name`, `inputs`). The source reads one character per prompt; at end of input the read fails, the choice stays `'\0'`, and the loop prompts forever without changing anything. The model stops at that point instead and reports `Pending`.
- `getRandomNumber` (main.cpp:11-17) and its floating-point scaling, and the seeding and discarded first draw in `main` (main.cpp:252-254): the draws are supplied values. Archetype draws are required to lie in [0, 2], which is what the generator promises; escape draws may be any integer.
- Non-termination: an encounter can go on forever on ignored input or failed escapes that never kill the player, and the game can go on forever on escapes. The model is bounded by the supplied input and draws, and ends as `Pending` or `Unfinished` when they run out.
- The getters (main.cpp:42-46, main.cpp:71) are plain field reads; the model reads the fields directly.
- C++ `int` overflow: stats move by at most a hundred per action, so unbounded integers are used.
- `ReduceHealth` and `AddGold` are modelled, but, as in the source, the attack functions change the fields directly rather than calling them.
- `Creature.IsDead` and `Player.HasLost` are modelled, but, as in the source, the loops test health directly; `Player.HasWon` is what the game loop tests, as in the source. The value types `Stats` and `PlayerState` carry the same three predicates, which the class members delegate to.
