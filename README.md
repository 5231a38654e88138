# Avatar battle engine in Dafny

This project models the turn-based battle engine of the Avatar browser game.
A human player fights a CPU opponent. Each side is a fighter with hit points
and an element: water, fire, earth, air or avatar. Each turn the player picks
a light (10), mid (20) or heavy (30) attack, or a special move. The damage is
scaled by an element matchup table (0.5x, 1.0x or 1.5x). The special move
depends on the attacker's element:

- water heals a quarter of the attacker's maximum HP;
- fire sets a 4-turn burn on the defender;
- earth sets a 2-turn stun on the defender;
- air sets a 4-turn evade on the attacker.

Burn takes 5% of maximum HP per tick. While evade lasts, a hit may be negated.
A stunned fighter loses its move. The CPU replies after each player turn. An
avatar player may switch element during their own turn. The match ends as soon
as one side is at 0 HP or below when the win check runs.

The project also models the repository's test script. The script keeps its own
copy of the tables and of the matchup function, and its matchup table differs
from the engine's.

The model has three modules.

- `GameRules` (rules.dfy) holds the character and skill tables, the matchup
  table and the damage arithmetic. It also has one value-level function per
  state change the engine makes, over snapshots `FighterState` and
  `MatchState`, plus the invariant `MatchValid`. The engine keeps that
  invariant over every sequence of calls (`Run`).
- `GameEngine` (engine.dfy) is the engine as it runs. `Fighter` and `Match`
  are classes whose methods update fields in place, as the JavaScript code
  does. Each method is proved to leave the objects in exactly the state the
  matching `GameRules` function gives.
- `TestGame` (test_game.dfy) models test_game.js: its copies of the tables, of
  `getTypeModifier` and of `createFighter`, and the facts its assertions check.

The element multipliers are kept as counts of halves. 3 stands for 1.5, 2 for
1.0 and 1 for 0.5, so `Math.floor(base * m)` becomes `base * halves / 2`.

All base damages are multiples of ten, so this is exact. The heal
`Math.floor(maxHp * 0.25)` is `maxHp / 4`, which is exact for every HP. The
burn tick `Math.floor(maxHp * 0.05)` is `maxHp / 20`. That equals the
floating-point result for the four template HPs: 100 gives 5, 120 gives 6,
90 gives 4 (from 4.5) and 110 gives 5 (from 5.5). `FighterValid` keeps every
maximum HP among those four values.

The random draws and the timer are handled as follows.

- `dodge` is the outcome of the evasion roll `Math.random() < 0.8`. It is read
  only while the target's evade counter is positive.
- The CPU's move is an argument of `CpuTurn`.
- The CPU's character is an index into `CpuKeys`, the four non-avatar keys.
- The 1500 ms timer between `endTurn` and `cpuTurn` is not modelled. After
  `EndTurn` the match either is over or waits with `turn == Cpu` until
  `CpuTurn` is called.
- `cpuTurn` has no turn check in the source, so `CpuTurn` has none either.

Some behaviour of the code is worth stating outright, because the model
keeps it exactly:

- fire's special sets the defender's burn counter to 4, overwriting any burn
  left, and deals no direct damage (game.js:181-184);
- a burn tick takes `Math.floor(maxHp * 0.05)` and is not clamped at 0, so HP
  can fall below 0 (game.js:268-271);
- the engine's table has only two weak pairs, fire→water and fire→earth
  (game.js:206-207), where the test script's copy has four (test_game.js:29-32);
- in `cpuTurn` no win check follows the player's burn tick (game.js:259-263),
  so the player can be handed the turn at 0 HP or below;
- `avatarSwitch` checks the turn but not the over flag (game.js:279-286).

## Model

| member | source | states |
|---|---|---|
| `GameRules.TemplateHp` | game.js:2-8 | every character's HP is one of 90, 100, 110, 120 |
| `GameRules.SkillDamage` | game.js:10-14 | the three basic moves have base damage 10, 20 or 30; the special move has no entry |
| `GameRules.TypeModifier` | game.js:195-210 | 1.5 exactly on water→fire, earth→fire, air→earth, fire→air; 0.5 exactly on fire→water, fire→earth; 1.0 otherwise, including identical elements and every pair involving avatar |
| `GameRules.Scaled` | game.js:159 | the result is the floor of base × halves / 2 |
| `GameRules.BasicDamage` | game.js:155-159 | a basic move's damage is exactly base × multiplier (no rounding) and lies in {5, 10, 15, 20, 30, 45}, so it is never below 5 |
| `GameRules.CreateFighter` | game.js:90-99 | a new fighter has maxHp = currentHp = the template HP and all counters at 0; it is an avatar iff its key is avatar; it satisfies the fighter invariant |
| `GameRules.HitDamage` | game.js:212-222 | applyDamage returns 0 or the amount, and anything but the amount only when the target's evade counter is positive and the roll dodges |
| `GameRules.Hit` | game.js:212-222 | an evaded hit leaves the target unchanged; otherwise HP becomes max(0, old − amount); nothing but HP ever changes; a non-negative hit keeps the fighter invariant |
| `GameRules.SpecialEffect` | game.js:172-193 | water heals the attacker to min(maxHp, hp + maxHp/4); fire sets the defender's burn to 4; earth sets the defender's stun to 2; air sets the attacker's evade to 4; avatar changes nothing; the defender's HP never changes; both fighters stay valid |
| `GameRules.Attack` | game.js:151-170 | a special move is the element's special effect; a basic move hits the defender with the scaled damage; elements, maxima and avatar flags never change |
| `GameRules.Tick` | game.js:266-277 | with burn > 0, HP drops by maxHp/20 unclamped and burn drops by 1; evade drops by 1 if positive; stun, element and maxHp are unchanged; the fighter invariant is kept and HP never rises |
| `GameRules.StartMatch` | game.js:72-126 | the player's fighter is fresh from its template except that an avatar starts as water and every other key keeps its own element; the CPU's fighter is fresh from its template; the match starts at the player's turn and not over, the values `state` is initialised with at game.js:20-21, so this is the first match after the page loads; the invariant holds |
| `GameRules.Judge` | game.js:321-331 | the player loses iff their HP ≤ 0, which takes precedence; the player wins iff their HP > 0 and the CPU's HP ≤ 0 |
| `GameRules.WinChecked` | game.js:321-331 | only the over flag changes, it is only ever set, and it is set iff the verdict is not ongoing |
| `GameRules.EndTurnStep` | game.js:225-235 | the turn passes to the CPU and only the CPU's effects tick; a running match ends iff the CPU's HP is then ≤ 0, and otherwise waits for cpuTurn; the invariant is kept |
| `GameRules.ExecuteMoveStep` | game.js:129-149 | a no-op unless it is the player's turn and the match is running; a stunned player loses one stun point, deals nothing, and only the CPU's effects tick; otherwise the attack is judged and the turn ends unless the match is over; the invariant is kept |
| `GameRules.CpuTurnStep` | game.js:237-264 | a no-op once over; a stunned CPU loses one stun point, then the player's effects tick and the turn returns with no win check; otherwise the attack is judged, and if the match goes on the player's effects tick and the turn returns; the invariant is kept |
| `GameRules.AvatarSwitchStep` | game.js:279-286 | only the player's element can change, and only when the player is an avatar and it is the player's turn, whether or not the match is over |
| `GameRules.EngineCensus` | game.js:195-210 | of the 25 ordered pairs the engine's table makes 4 super-effective, 2 weak and 19 neutral |
| `GameRules.RunKeepsValid` | game.js:129-286 | over any sequence of calls, counters stay in range (never negative), HP never exceeds maxHp, the CPU stays alive while the match runs, and the match is over only when a side is at 0 HP or below |
| `GameRules.RunKeepsOver` | game.js:129-286 | once over, always over, and no later call changes anything but an avatar's element |
| `GameRules.RunKeepsFighters` | game.js:279-286 | no sequence of calls changes a maximum HP, an avatar flag, the CPU's element, or a non-avatar player's element |
| `GameRules.ZeroDamageMeansEvaded` | game.js:155-167 | a basic hit returns 0 iff it was evaded |
| `GameRules.BurnTickNotClamped` | game.js:268-271 | a valid fighter at 3 HP with burn falls to −2 HP |
| `GameRules.PlayerBurnTickNotChecked` | game.js:259-263 | after cpuTurn the player can hold the turn at negative HP while the match is not over |
| `GameRules.AvatarSwitchAfterOver` | game.js:279-286 | an avatar player can switch element in a finished match |
| `GameEngine.Fighter.constructor` | game.js:90-99 | the new object's fields are those of `CreateFighter` |
| `GameEngine.Fighter.ApplyDamage` | game.js:212-222 | the fields and the returned amount are those of `Hit` and `HitDamage` |
| `GameEngine.Fighter.ProcessStatusEffects` | game.js:266-277 | the fields become those of `Tick` |
| `GameEngine.HandleSpecial` | game.js:172-193 | the two fighters become those of `SpecialEffect` |
| `GameEngine.PerformAttack` | game.js:151-170 | the two fighters become those of `Attack`; the amount applyDamage returned is passed back |
| `GameEngine.Match.constructor` | game.js:72-126 | the match is that of `StartMatch` with the CPU's drawn key, and it is valid; its turn and over flag are the initial values of game.js:20-21 |
| `GameEngine.Match.CheckWinCondition` | game.js:321-331 | the state becomes that of `WinChecked`, and the returned verdict is `Judge` of the old state |
| `GameEngine.Match.EndTurn` | game.js:225-235 | the state becomes that of `EndTurnStep` |
| `GameEngine.Match.ExecuteMove` | game.js:129-149 | the state becomes that of `ExecuteMoveStep` and stays valid |
| `GameEngine.Match.CpuTurn` | game.js:237-264 | the state becomes that of `CpuTurnStep` and stays valid |
| `GameEngine.Match.AvatarSwitch` | game.js:279-298 | the state becomes that of `AvatarSwitchStep` and stays valid |
| `TestGame.TestCharacterHp` | test_game.js:7-13 | the test script's HP table is the engine's |
| `TestGame.TestSkillDamage` | test_game.js:15-19 | the test script's damage table is the engine's |
| `TestGame.TestTypeModifier` | test_game.js:21-35 | 1.5 exactly on the four strong pairs; 0.5 exactly on fire→water, fire→earth, earth→air, air→fire; 1.0 otherwise |
| `TestGame.TestCreateFighter` | test_game.js:37-46 | the test script's createFighter builds the same fighter as the engine's |
| `TestGame.TestTableCensus` | test_game.js:21-35 | of the 25 ordered pairs, 4 give 1.5, 4 give 0.5 and 17 give 1.0 |
| `TestGame.TablesDisagreeExactly` | test_game.js:31-32 | the two tables differ on exactly (earth, air) and (air, fire), where the engine gives 1.0 and the test script 0.5 |
| `TestGame.DisagreementSet` | test_game.js:21-35 | the set of pairs where the tables differ is exactly {(earth, air), (air, fire)} |
| `TestGame.ModifierAssertions` | test_game.js:80-96 | every matchup assertion holds of the test script's own table |
| `TestGame.EngineAgainstModifierAssertions` | test_game.js:86-90 | the engine's table fails the assertions on earth→air and air→fire and passes the others |
| `TestGame.TableAssertions` | test_game.js:66-76 | HPs 100, 100, 120, 90, 110 and damages 10, 20, 30 |
| `TestGame.FighterCreationAssertions` | test_game.js:100-106 | a water fighter starts at 100/100 HP with no burn; only the avatar is flagged as avatar |
| `TestGame.DamageAssertions` | test_game.js:110-113 | heavy damage is 45 at 1.5x, 15 at 0.5x and 30 at 1.0x |

## Left out

- sound.js: it synthesises audio with the Web Audio API and floating-point envelopes, and has no game logic.
- DOM and presentation in game.js: `init`, the sprite and screen switching in `selectCharacter`, the arenas and name labels in `startGame`, `updateHealthUI`, `log`, the restart button and every message string. They do no bookkeeping.
- The fighter's display `name` and copied `hp` fields, and `state.map`: the battle logic never reads them.
- The map-selection screen between `selectCharacter` and `startGame`: the two are one step, the `Match` constructor, because no battle call can happen between them.
- The 1500 ms timer: the caller invokes `CpuTurn` directly, and the waiting state is `turn == Cpu` with the match not over.
- Probabilities: the 80% evasion rate and the uniform draws of the CPU's move and character are not stated. Each draw is an argument, and every property holds for every outcome.
- Keys outside the enumerations: an unknown character key makes `createFighter` read an undefined template and throw (game.js:91-94), and an unknown basic move makes `SKILLS[moveType].dmg` throw (game.js:155). An unknown element string would be neutral in `getTypeModifier` (game.js:209) and do nothing in `handleSpecial`. Elements and moves are closed datatypes here, so none of these inputs exist.
- Floating point in general: `BurnDamage` equals `Math.floor(maxHp * 0.05)` only for the template HPs. Those are the only maxima the engine creates.
- The test harness: the `passed`/`failed` counters, the console output and `process.exit` are not modelled. The facts its assertions check are lemmas.
- Restarting: `state.turn` and `state.isOver` are set only by their initialisers at game.js:20-21 and by the battle calls, so `StartMatch` is the first match after the page loads.
