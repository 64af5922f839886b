# Minimon battle engine, modelled in Dafny

This project models the core of a two-seat creature battle game for a
320x240 touch-screen device (`main.cpp`). A coin flip decides which seat is
human. Two distinct creatures are drawn from a fixed bank of six, and they
fight turn by turn until one faints or a seat retreats. The session keeps
counts of games played, human wins and CPU wins.

The model has two layers:

- A value-level model of the game logic, made of datatypes and functions:
  - `randInt`, with its draw taken as a parameter;
  - the damage formula;
  - the CPU policy;
  - the two-index draw of `assignPlayers`;
  - one pass of the battle loop (`Turn.Step`), the end-of-match tally and the whole loop (`Turn.Run`);
  - the touch-to-button mapping and the projectile flight.
- A `Game` class (module `Session`), plus `Player` and `Pokemon` objects whose fields are updated in place as in the program. Each of their methods is proved to produce exactly the state the value-level model gives.

The properties proved include:

- every pass keeps HP within 0..maxHP and PP non-negative;
- only the target can lose HP, so a tie can never happen;
- each branch of the move resolution does what the program does (retreat, no PP, utility, miss, hit, defended hit);
- at the positions `assignPlayers` gives, the projectile always hits, so the "no hit" fallback is dead code;
- the tally credits exactly the surviving seat;
- `reset` keeps spent PP;
- the HARD policy picks the first strongest candidate, including the quirk that move 0 is kept even with no PP;
- damage is at least 1 and monotone in power and attack;
- the menu and battle-button hit tests map a touch to the button that contains it.

Modules, one per file:

- `Arith`: C++ integer division and small helpers.
- `Rng`: `randInt`.
- `Touch`: screen geometry, menus, battle buttons and the projectile.
- `Combatant`: `Move`, `Pokemon`, `reset` and `fainted`.
- `Damage`: `computeDamage`.
- `Cpu`: the CPU decision.
- `Roster`: `loadBank` and the distinct-index draw.
- `Turn`: the turn engine.
- `TurnProperties`: lemmas about the turn engine.
- `Session`: the `Game` class.

Some behaviours of the code are easy to misread; the model follows the
code:

- A chosen move with no PP still ends the turn. The turn flag is swapped at the bottom of the loop for every chosen action other than RUN.
- A retreat returns from `runMatch` before `gamesPlayed++`. A retreat therefore changes no counter at all, not even "games played" (`TurnProperties.RetreatCountsNothing`).
- The HARD scan starts from move 0 whatever its PP. Move 0 can therefore be picked with no PP left, even though later moves with PP are weaker (`Cpu.HardPickKeepsEmptyFirstMove`).
- A touch outside every battle button restarts the loop without swapping turns.

Randomness works as follows. Every `randInt(a, b)` is `a + rand() % (b - a + 1)`. In the model, the value that `rand()` returned is an explicit non-negative parameter (a "draw"):

- `TurnInput` carries the draws of one pass of the loop.
- `AssignPlayers` takes the coin-flip draw, the two index draws and a finite list of redraws.

Damage is computed in exact integers. With base = max(100·attack − 45·defense, 100) hundredths, the damage is:

- power·base·(108 if HARD else 100)·variance / 20 000 000, rounded half up;
- then raised to at least 1.

## Model

| member | source | states |
|---|---|---|
| Rng.RandInt | main.cpp:109-112 | the result of `randInt(a, b)` lies in a..b for every draw |
| Rng.RandIntOnto | main.cpp:109-112 | every value of a..b is the result of some draw, so modelling draws loses no outcome |
| Arith.TruncDiv | main.cpp:628 | C++ `/` by a positive divisor truncates toward zero: the remainder has the dividend's sign and is smaller than the divisor |
| Touch.MenuButtonAt | main.cpp:191-203 | the main-menu result is 0..4, and it is k exactly when the touch lies in the closed box of button k |
| Touch.BandHeight | main.cpp:780 | a simple menu band is 1..240 pixels high |
| Touch.SimpleMenuChoice | main.cpp:780-784 | the choice is 1..n; a touch above the first band boundary gives 1; otherwise the touch lies in band r (the last band extends to the bottom) |
| Touch.FirstContaining | main.cpp:554-565 | the scan returns the first button holding the touch, or -1 exactly when no button holds it |
| Touch.BattleButtonAt | main.cpp:554-565 | the battle hit test returns -1 or a button id 0..3 |
| Touch.BattleButtonExact | main.cpp:514-528 | the 2x2 grid's buttons are disjoint: the result is k exactly when button k holds the touch, and -1 exactly when none does |
| Touch.SubmenuDifficulty | main.cpp:886-892 | the Play submenu sets EASY in its box, HARD in its box, keeps the difficulty for Start Match, EASY for any other press; stays in 0..1 |
| Touch.Overlap | main.cpp:670 | the projectile/target separation test, negated (its meaning is `OverlapMeansSharedPoint`) |
| Touch.ProjectileHit | main.cpp:641-677 | the flight of the projectile: overlap at the current step, else one 6-pixel step on while it is on screen (computed by `FlyProjectile`) |
| Touch.OverlapMeansSharedPoint | main.cpp:670 | the projectile/target test holds exactly when the closed boxes share a point |
| Touch.FlyProjectile | main.cpp:641-677 | the stepping loop reports a hit exactly when the projectile overlaps the target before leaving the screen |
| Touch.RightwardShotHits | main.cpp:641-677 | a projectile moving right from left of the target's right edge, vertically overlapping it, hits |
| Touch.LeftwardShotHits | main.cpp:641-677 | the mirror case for a projectile moving left |
| Combatant.Mon.Fainted | main.cpp:246 | `fainted()`: HP no longer positive |
| Combatant.ResetMon | main.cpp:245 | `reset()` on a creature value (its properties: `ResetRestoresHealth`, `ResetIsHealthy`, `RematchKeepsPP`) |
| Combatant.ClampAll | main.cpp:245 | the PP clamp of `reset` keeps the move list's length, raises each negative PP to 0 and changes nothing else |
| Combatant.ResetRestoresHealth | main.cpp:245 | after `reset`: full HP, not defending, same stats and moves count, every PP non-negative |
| Combatant.ClampAllKeepsNonNegative | main.cpp:245 | the clamp leaves a move list without negative PP unchanged |
| Combatant.RematchKeepsPP | main.cpp:901-903 | resetting a creature between matches restores HP but keeps every spent PP |
| Combatant.ResetIsHealthy | main.cpp:245-246 | a reset creature with positive max HP is healthy and not fainted, and `reset` is idempotent |
| Combatant.Pokemon.constructor | main.cpp:236-247 | a default creature object, before a bank entry is copied in |
| Combatant.Pokemon.Load | main.cpp:340-341 | copying a bank entry into the seat's creature sets every field |
| Combatant.Pokemon.Reset | main.cpp:245 | the in-place `reset` leaves the object equal to the value-level reset of its old value |
| Damage.BaseHundredths | main.cpp:359-360 | the base in hundredths, attack less 0.45 defense, never below 1.0 |
| Damage.RoundDamage | main.cpp:366-367 | the rounded damage is at least 1 and is the nearest integer to the raw damage, halves rounding up |
| Damage.HardPercent | main.cpp:364 | the HARD multiplier 1.08 as 108 percent, 100 percent otherwise |
| Damage.RawScaled | main.cpp:359-365 | the raw damage times 20 000 000, exact (rounded by `RoundDamage`) |
| Damage.Damage | main.cpp:357-369 | damage with the variance drawn is at least MIN_DAMAGE |
| Damage.ComputeDamage | main.cpp:357-369 | `computeDamage` never deals less than 1 |
| Damage.RoundDamageMonotone | main.cpp:366-367 | rounding is monotone |
| Damage.DamageMonotoneInPower | main.cpp:361 | with the other inputs fixed, more power never means less damage |
| Damage.DamageMonotoneInAttack | main.cpp:359-361 | with the other inputs fixed and power non-negative, a higher attack never means less damage |
| Damage.DamageExamples | main.cpp:357-369 | attack 11 against defense 6 with a 40-power move at full variance: 17 on EASY, 18 on HARD, 9 against a defender |
| Cpu.Scan | main.cpp:580-581 | the HARD scan from a given index and pick so far (its meaning is `ScanFindsFirstStrongest`) |
| Cpu.ScanFindsFirstStrongest | main.cpp:581 | the HARD scan ends on the first candidate of greatest power (candidates: move 0, and later moves with PP) |
| Cpu.HardPick | main.cpp:580-581 | the HARD pick is such a first strongest candidate |
| Cpu.FirstStrongestUnique | main.cpp:581 | there is only one first strongest candidate, so the property pins the pick down |
| Cpu.FindHardPick | main.cpp:580-581 | the imperative scan loop returns the first strongest candidate, equal to `HardPick` |
| Cpu.CpuChoice | main.cpp:571-583 | EASY gives move 0 exactly on a roll of 1..35, move 1 on 36..70, move 2 on 71..85 and RUN on 86..100; HARD gives RUN when its second roll exceeds 85 and the HARD pick otherwise |
| Cpu.EasyChoice | main.cpp:574-578 | the EASY policy's bucket chain on one roll; the result is a button id 0..3 |
| Cpu.HardPickKeepsEmptyFirstMove | main.cpp:581 | with Gengar's moves and Shadow at 0 PP, HARD still picks Shadow |
| Roster.Template | main.cpp:299-305 | the `mk` helper: full HP, three moves, a 48x48 box at the origin, not defending |
| Roster.Bank | main.cpp:294-312 | the six bank entries with their stats and moves (their properties: `BankIsGood`) |
| Roster.BankIsGood | main.cpp:294-312 | the bank holds six entries, each at full positive HP, not defending, 48x48, with three moves of non-negative power, accuracy 0..100 and positive PP |
| Roster.FirstDistinct | main.cpp:337-338 | the resample loop's result is in range, differs from the first index, and is the index of the first draw that differs from it; it runs out exactly when every draw collides |
| Roster.DistinctDrawExists | main.cpp:336-338 | with at least two entries, some draw ends the resample loop |
| Roster.PickDistinct | main.cpp:336-338 | the imperative draw gives `i1` from the first draw and `i2` as the resample loop over the remaining draws says |
| Turn.Chosen | main.cpp:544-583 | the action id is -1 exactly when the actor is human and the touch lies outside every battle button |
| Turn.MoveIndex | main.cpp:606-607 | a move id within the move list is kept, one past its end falls back to move 0; the index is always in range |
| Turn.ShotHits | main.cpp:627-629 | the projectile's launch point (the actor's facing edge, half-way down) and direction, fed to the flight |
| Turn.SpendPP | main.cpp:617 | one use of a move: its PP drops by one, nothing else about the creature or its other moves changes |
| Turn.Absorbed | main.cpp:684-685 | a defended hit is halved rounding up, so a hit of at least 1 stays between 1 and the full damage |
| Turn.TakeHit | main.cpp:684-688 | after a hit HP is the old HP less the absorbed damage, or 0 if that is negative; the defence is used up; nothing else changes |
| Turn.Healed | main.cpp:598-599 | the retreat heal is the smaller of HP + 8 and max HP |
| Turn.Tally | main.cpp:719-731 | the tally adds one game in every case and one win, to either counter, exactly when one creature fainted |
| Turn.StartMatch | main.cpp:484-488 | a match starts on seat 1's turn with both defend flags cleared and nothing else changed |
| Turn.Resolve | main.cpp:604-708 | resolving a move changes no creature's name, stats, position, box or move data: only HP, defend flags and PP |
| Turn.Step | main.cpp:491-715 | a pass keeps counters, seats and difficulty; it ends the match exactly on RUN; a stray touch changes nothing; the turn swaps after every other action |
| Turn.Run | main.cpp:484-731 | the battle loop on a finite input list: tally on a faint, stop on a retreat, `Pending` when the inputs run out (its properties: `RunAccounting`, `RetreatCountsNothing`) |
| TurnProperties.ResolveKeepsHealthy | main.cpp:604-708 | a move keeps both creatures healthy; the actor's HP is unchanged and the target's never rises |
| TurnProperties.SpendKeepsHealthy | main.cpp:617 | spending one PP of a move with PP left keeps the creature healthy |
| TurnProperties.StepKeepsHealthy | main.cpp:491-715 | every pass keeps both creatures within 0..maxHP with no negative PP; the actor never loses HP, the target never gains |
| TurnProperties.StepCannotFaintBoth | main.cpp:491-715 | from two standing creatures a pass never faints the actor, never faints both, and a retreat leaves both standing |
| TurnProperties.RetreatHealsAndEnds | main.cpp:596-603 | RUN ends the match; the actor's HP becomes the smaller of HP + 8 and max HP; the target, the turn and the counters are untouched |
| TurnProperties.RunOnePass | main.cpp:492-715 | with both creatures standing, the loop runs one pass, then stops on a retreat or continues from the new state |
| TurnProperties.NoPPTurnPasses | main.cpp:612-623 | a chosen move with no PP changes no HP and no PP, only the actor's defend flag after an attack move, and the turn passes |
| TurnProperties.UtilityMoveDefends | main.cpp:611-620 | a utility move with PP sets the actor defending and spends one PP; the target is untouched |
| TurnProperties.MissSpendsNothing | main.cpp:633-638 | a missed attack spends no PP and leaves the target untouched |
| TurnProperties.AccurateAttackSpendsOnePP | main.cpp:681-701 | an accurate attack spends exactly one PP, hit or not |
| TurnProperties.DefendedHitIsHalved | main.cpp:684-688 | a defended hit deals half the damage rounded up, at least 1, clamps HP at 0 and uses up the defence |
| TurnProperties.UndefendedHitIsFull | main.cpp:688 | an undefended hit deals the full damage, clamped at 0 HP |
| TurnProperties.StepKeepsOnField | main.cpp:492-715 | a pass from two standing creatures keeps them healthy, at most one fainted, and in place |
| TurnProperties.ShotAlwaysHitsAtBattlePositions | main.cpp:627-677 | from (40, 60) and (220, 60) with 48x48 boxes, either seat's projectile reaches the other creature |
| TurnProperties.StepKeepsPositions | main.cpp:345-346 | no pass moves a creature from its battle position |
| TurnProperties.NoHitBranchIsDead | main.cpp:695-701 | at the battle positions an accurate attack always lands the computed damage on the target |
| TurnProperties.TallyCreditsSurvivor | main.cpp:719-731 | with exactly one creature fainted, one game is added and exactly one win, to the survivor's human or CPU counter |
| TurnProperties.RunAccounting | main.cpp:481-731 | a whole match from a healthy start ends with both healthy; a decided match has exactly one faint, one more game, one credited win; otherwise counters are unchanged and both stand |
| TurnProperties.RetreatCountsNothing | main.cpp:596-603 | a match ended by a retreat changes no session counter |
| Session.Player.constructor | main.cpp:258-264 | a seat with its own fresh creature |
| Session.Game.constructor | main.cpp:290 | counters zero, EASY, the bank loaded |
| Session.Game.AssignPlayers | main.cpp:322-347 | the coin flip sets exactly one human seat; the labels; two distinct bank indices; each creature is the reset bank entry at (40, 60) or (220, 60); the game is ready for a match |
| Session.Game.PlaceCreature | main.cpp:340-346 | copying, resetting and positioning a creature in place gives the reset entry at that position |
| Session.PlacedIsReady | main.cpp:340-346 | a reset bank entry is healthy, standing and at its battle position |
| Session.Game.ChooseDifficulty | main.cpp:886-892 | the submenu leaves the difficulty `SubmenuDifficulty` gives, nothing else changes |
| Session.Game.ResolveMove | main.cpp:604-708 | the in-place move resolution leaves the two creatures as `Resolve` says |
| Session.Game.ChooseAction | main.cpp:544-583 | the action read from the touch or the CPU policy is the model's `Chosen` for the current state |
| Session.Game.PlayTurn | main.cpp:502-714 | one pass on the objects is `Step` on the game's state, with its retreat and turn flag |
| Session.Game.Battle | main.cpp:484-731 | the loop on the objects yields the ending and final state of `Run`; the game stays ready |
| Session.Game.PlayPasses | main.cpp:492-715 | the object loop stops on a retreat with `Run`'s final state, or otherwise leaves exactly what `Run` still has to do, with a creature fainted or the inputs used up |
| Session.Game.RunMatch | main.cpp:481-743 | the match, then a replay exactly when decided and the replay touch is in the top half |
| Session.Game.RecordResult | main.cpp:719-731 | the counters become the tally of the final state |
| Session.Game.Rematch | main.cpp:901-903 | both creatures reset in place: full HP, same moves and PP, still ready |

## Left out

- Drawing and timing: all LCD drawing, sleeps, colours, sprites, status text and button labels (`getPokemonColor`, `drawBackground`, `drawBattleStatus`, `drawPokemonGraphic`, `DrawMenuButton` and the highlight helpers) are output only and change no state.
- Touch polling: `WaitForTouchRelease` and `WaitForCleanPress` poll the device; the model receives the coordinates of the finished press.
- Randomness: `std::rand`, `srand` and `time` are replaced by explicit draws. Every value `randInt` can give is still reachable (`Rng.RandIntOnto`).
- Session.Game.Battle: the program's battle loop has no bound, because it waits on touches. The model consumes a finite list of per-pass inputs and ends `Pending` if they run out mid-match.
- Session.Game.AssignPlayers: the resample loop is unbounded. The model consumes a finite list of redraws and reports `ok == false`, copying no creature, if all of them collide.
- Damage.ComputeDamage: the program works in `double` (0.45, 1.08, /20.0, /100.0). The model uses the exact rational result. The two could differ only when the raw damage lies within rounding error of a .5 boundary.
- 32-bit overflow: none of the program's values comes near the `int` range (max HP 60, counters grow by one per match), so integers are unbounded.
- Overflow of the session counters is not modelled.
- `mainMenuLoop`, `main`, the instructions, statistics and credits screens are menu navigation and text. The main-menu mapping (`Touch.MenuButtonAt`), the Play submenu (`Session.Game.ChooseDifficulty`), the replay prompt (`Session.Game.RunMatch`) and the rematch (`Session.Game.Rematch`) are modelled.
- `Player.wins` is initialised to 0 and never updated, so it is not modelled.
- Button labels read `moves[0..2]` of the actor. The model allows any non-empty move list, as the move-index fallback does; every bank entry has exactly three moves (`Roster.BankIsGood`).
- `GetSimpleMenuChoice` has no caller in the program. Its arithmetic is modelled for a band count of 1..240, where the band height is positive; larger counts divide by zero in the program.
