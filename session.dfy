/** The `Game` object of the program: the bank, the two players, the
    session counters and the difficulty, with `assignPlayers`, the battle
    loop of `runMatch` and the rematch reset, all updating the objects in
    place. Each method is proved to do what the value-level model of the
    turn engine says (module Turn), whose properties are proved in module
    TurnProperties. */
module Session {
  import opened Arith
  import opened Rng
  import opened Touch
  import opened Combatant
  import opened Damage
  import opened Cpu
  import opened Roster
  import opened Turn
  import opened TurnProperties

  /** A seat: its label (`seatLabel`, as `label` is a Dafny keyword), whether
      a human plays it, and its creature (held by value in the program, so
      the object is fixed and its fields change). */
  class Player {
    var seatLabel: string
    var isHuman: bool
    const pkmn: Pokemon

    constructor ()
      ensures fresh(pkmn) && seatLabel == "" && !isHuman
    {
      seatLabel := "";
      isHuman := false;
      pkmn := new Pokemon();
    }
  }

  class Game {
    var bank: seq<Mon>
    const p1: Player
    const p2: Player
    var gamesPlayed: int
    var humanWins: int
    var cpuWins: int
    var difficulty: int

    /** The object structure: two distinct seats with distinct creatures, and
        a bank of at least two entries a match can start from (`loadBank`
        fills it with six). */
    ghost predicate Valid()
      reads this, p1, p2
    {
      && p1 != p2 && p1.pkmn != p2.pkmn
      && |bank| >= 2
      && forall k :: 0 <= k < |bank| ==> GoodTemplate(bank[k])
    }

    /** The game as the match model sees it, with `p1Turn` the loop's turn flag. */
    function State(p1Turn: bool): MatchState
      reads this, p1, p2, p1.pkmn, p2.pkmn
    {
      MatchState(p1.pkmn.Value(), p2.pkmn.Value(), p1.isHuman, p2.isHuman, p1Turn, difficulty,
                 Stats(gamesPlayed, humanWins, cpuWins))
    }

    /** Between matches, once players are assigned: both creatures healthy
        with positive maximum HP, at most one fainted, at their drawing
        positions. */
    ghost predicate Ready()
      reads this, p1, p2, p1.pkmn, p2.pkmn
    {
      Valid() && OnField(p1.pkmn.Value(), p2.pkmn.Value())
    }

    /** `Game()`: counters at zero, EASY, the bank loaded. */
    constructor ()
      ensures Valid() && bank == Bank()
      ensures gamesPlayed == 0 && humanWins == 0 && cpuWins == 0 && difficulty == 0
      ensures fresh(p1) && fresh(p2) && fresh(p1.pkmn) && fresh(p2.pkmn)
    {
      p1 := new Player();
      p2 := new Player();
      gamesPlayed, humanWins, cpuWins, difficulty := 0, 0, 0, 0;
      bank := Bank();
      BankIsGood();
    }

    /** `assignPlayers`: a coin flip for the human seat, two distinct bank
        entries copied in and reset, and the drawing positions. `ok` is false
        only if the supplied redraws run out while the indices still collide
        (the program would keep drawing); then no creature is copied. */
    method AssignPlayers(assignDraw: nat, draw1: nat, draw2: nat, redraws: seq<nat>)
      returns (i1: int, i2: int, ok: bool)
      requires Valid()
      modifies p1, p2, p1.pkmn, p2.pkmn
      ensures Valid()
      ensures p1.isHuman == (RandInt(0, 1, assignDraw) == 0) && p2.isHuman == !p1.isHuman
      ensures p1.seatLabel == "Player 1" && p2.seatLabel == "Player 2"
      ensures i1 == RandInt(0, |bank| - 1, draw1)
      ensures (if ok then Some(i2) else None) == FirstDistinct(i1, |bank|, [draw2] + redraws)
      ensures ok ==> 0 <= i1 < |bank| && 0 <= i2 < |bank| && i1 != i2
      ensures ok ==> p1.pkmn.Value() == ResetMon(bank[i1]).(x := 40, y := 60)
      ensures ok ==> p2.pkmn.Value() == ResetMon(bank[i2]).(x := 220, y := 60)
      ensures ok ==> Ready()
      ensures !ok ==> p1.pkmn.Value() == old(p1.pkmn.Value()) && p2.pkmn.Value() == old(p2.pkmn.Value())
    {
      var assignment := RandInt(0, 1, assignDraw);
      if assignment == 0 {
        p1.isHuman := true; p2.isHuman := false;
      } else {
        p1.isHuman := false; p2.isHuman := true;
      }
      p1.seatLabel := "Player 1";
      p2.seatLabel := "Player 2";

      i1, i2, ok := PickDistinct(|bank|, draw1, draw2, redraws);
      if !ok {
        return;
      }
      PlaceCreature(p1.pkmn, bank[i1], 40, 60);
      PlaceCreature(p2.pkmn, bank[i2], 220, 60);
      PlacedIsReady(bank[i1], 40);
      PlacedIsReady(bank[i2], 220);
    }

    /** `pN.pkmn = bank[i]; pN.pkmn.reset();` and the drawing position. */
    static method PlaceCreature(pk: Pokemon, m: Mon, x: int, y: int)
      modifies pk
      ensures pk.Value() == ResetMon(m).(x := x, y := y)
    {
      pk.Load(m);
      pk.Reset();
      pk.x := x;
      pk.y := y;
    }

    /** The Play submenu's difficulty selection. */
    method ChooseDifficulty(sx: int, sy: int)
      modifies this
      ensures difficulty == SubmenuDifficulty(sx, sy, old(difficulty))
      ensures bank == old(bank) && gamesPlayed == old(gamesPlayed)
      ensures humanWins == old(humanWins) && cpuWins == old(cpuWins)
    {
      if sx >= 30 && sx <= 150 && sy >= 50 && sy <= 90 {
        difficulty := 0;
      } else if sx >= 170 && sx <= 290 && sy >= 50 && sy <= 90 {
        difficulty := 1;
      } else if sx >= 30 && sx <= 290 && sy >= 110 && sy <= 150 {
      } else {
        difficulty := 0;
      }
    }

    /** The move resolution of the battle loop, on the two creature objects. */
    method ResolveMove(actor: Pokemon, target: Pokemon, mIdx: int, actorIsP1: bool,
                       accuracyDraw: nat, varianceDraw: nat)
      requires actor != target && 0 <= mIdx < |actor.moves|
      modifies actor, target
      ensures (actor.Value(), target.Value()) ==
                Resolve(old(actor.Value()), old(target.Value()), mIdx, difficulty, actorIsP1,
                        accuracyDraw, varianceDraw)
    {
      var mv := actor.moves[mIdx];
      if mv.power == 0 {
        if mv.pp <= 0 {
          // "No PP left for that move."
        } else {
          actor.defending := true;
          actor.moves := actor.moves[mIdx := mv.(pp := mv.pp - 1)];
        }
      } else {
        if mv.pp <= 0 {
          // "No PP left for that move."
        } else {
          var projX := actor.x + (if actorIsP1 then actor.w else -PROJECTILE_SIZE);
          var projY := actor.y + TruncDiv(actor.h, 2);
          var dir := if actorIsP1 then 1 else -1;
          var hit := false;
          var roll := RandInt(1, 100, accuracyDraw);
          if roll > mv.accuracy {
            // missed
          } else {
            hit := FlyProjectile(projX, projY, dir, Rect(target.x, target.y, target.w, target.h));
            if hit {
              var dmg := ComputeDamage(actor.Value(), target.Value(), mv, difficulty, varianceDraw);
              if target.defending {
                dmg := (dmg + 1) / 2;
                target.defending := false;
              }
              target.hp := target.hp - dmg;
              if target.hp < 0 {
                target.hp := 0;
              }
              actor.moves := actor.moves[mIdx := mv.(pp := mv.pp - 1)];
            } else {
              // no hit: the projectile left the screen
              actor.moves := actor.moves[mIdx := mv.(pp := mv.pp - 1)];
            }
          }
        }
      }
      if actor.defending && mv.power > 0 {
        actor.defending := false;
      }
    }

    /** The action of the pass: the pressed battle button for a human actor
        (-1 for a touch outside them all), the CPU policy otherwise. */
    method ChooseAction(p1Turn: bool, inp: TurnInput) returns (chosen: int)
      requires Playable(State(p1Turn))
      ensures chosen == Chosen(State(p1Turn), inp)
    {
      var actor := if p1Turn then p1 else p2;
      if actor.isHuman {
        chosen := BattleButtonAt(inp.touchX, inp.touchY);
      } else {
        var r := RandInt(1, 100, inp.cpuDraw);
        if difficulty == 0 {
          if r <= 35 { chosen := 0; }
          else if r <= 70 { chosen := 1; }
          else if r <= 85 { chosen := 2; }
          else { chosen := RUN; }
        } else {
          var best := FindHardPick(actor.pkmn.moves);
          chosen := if RandInt(1, 100, inp.hardDraw) <= 85 then best else RUN;
        }
      }
    }

    /** One pass of the battle loop: pick the action, then retreat or resolve
        the move. `retreated` reports the early return of `runMatch`;
        `nextTurn` is the turn flag after the pass. */
    method PlayTurn(p1Turn: bool, inp: TurnInput) returns (retreated: bool, nextTurn: bool)
      requires Valid() && Playable(State(p1Turn))
      modifies p1.pkmn, p2.pkmn
      ensures Valid()
      ensures Step(old(State(p1Turn)), inp) ==
                (if retreated then Retreat(State(nextTurn)) else Next(State(nextTurn)))
    {
      var actor := if p1Turn then p1 else p2;
      var target := if p1Turn then p2 else p1;
      var chosen := ChooseAction(p1Turn, inp);
      if chosen == -1 {
        // nothing valid pressed: the loop goes round again, same turn
        return false, p1Turn;
      }

      if chosen == RUN {
        actor.pkmn.hp := actor.pkmn.hp + RETREAT_HEAL;
        if actor.pkmn.hp > actor.pkmn.maxHP {
          actor.pkmn.hp := actor.pkmn.maxHP;
        }
        return true, p1Turn;
      }
      var mIdx := chosen;
      if mIdx >= |actor.pkmn.moves| {
        mIdx := 0;
      }
      ResolveMove(actor.pkmn, target.pkmn, mIdx, p1Turn, inp.accuracyDraw, inp.varianceDraw);
      return false, !p1Turn;
    }

    /** `runMatch` on a finite list of per-pass inputs and the touch row of
        the replay prompt: the battle, then a replay asked for by a touch in
        the top half after a decided match; a retreat never replays. */
    method RunMatch(inputs: seq<TurnInput>, replayTouchY: int) returns (ending: Ending, again: bool)
      requires Ready()
      modifies this, p1.pkmn, p2.pkmn
      ensures Ready()
      ensures bank == old(bank) && difficulty == old(difficulty)
      ensures ending == Run(StartMatch(old(State(true))), inputs).1
      ensures again <==> ending == Decided && replayTouchY < SCREEN_H / 2
      ensures State(Run(StartMatch(old(State(true))), inputs).0.p1Turn) == Run(StartMatch(old(State(true))), inputs).0
    {
      ending := Battle(inputs);
      again := ending == Decided && replayTouchY < SCREEN_H / 2;
    }

    /** The battle of `runMatch`: seat 1 starts, defend flags cleared; the
        loop runs while both creatures stand; a retreat returns at once;
        after a faint the winner is credited and one more game counted. The
        outcome and the final state are those of `Run` from `StartMatch`. */
    method Battle(inputs: seq<TurnInput>) returns (ending: Ending)
      requires Ready()
      modifies this, p1.pkmn, p2.pkmn
      ensures Ready()
      ensures bank == old(bank) && difficulty == old(difficulty)
      ensures ending == Run(StartMatch(old(State(true))), inputs).1
      ensures State(Run(StartMatch(old(State(true))), inputs).0.p1Turn) == Run(StartMatch(old(State(true))), inputs).0
    {
      p1.pkmn.defending := false;
      p2.pkmn.defending := false;
      ghost var start := State(true);
      assert start == StartMatch(old(State(true)));
      RunAccounting(start, inputs);

      var p1Turn, k, retreated := PlayPasses(inputs);
      if retreated {
        ending := Retreated;
      } else if p1.pkmn.Fainted() || p2.pkmn.Fainted() {
        RecordResult();
        ending := Decided;
      } else {
        assert inputs[k..] == [];
        ending := Pending;
      }
    }

    /** The battle loop itself, from seat 1's turn: passes run while both
        creatures stand and inputs remain, and stop at once on a retreat.
        What is left to run is what `Run` still has to do. */
    method PlayPasses(inputs: seq<TurnInput>) returns (p1Turn: bool, k: int, retreated: bool)
      requires Valid() && OnField(p1.pkmn.Value(), p2.pkmn.Value())
      modifies p1.pkmn, p2.pkmn
      ensures Valid() && OnField(p1.pkmn.Value(), p2.pkmn.Value())
      ensures 0 <= k <= |inputs|
      ensures bank == old(bank) && difficulty == old(difficulty)
      ensures retreated ==> Run(old(State(true)), inputs) == (State(p1Turn), Retreated)
      ensures !retreated ==> Run(State(p1Turn), inputs[k..]) == Run(old(State(true)), inputs)
      ensures !retreated ==> p1.pkmn.Fainted() || p2.pkmn.Fainted() || k == |inputs|
    {
      p1Turn, k, retreated := true, 0, false;
      while !p1.pkmn.Fainted() && !p2.pkmn.Fainted() && k < |inputs|
        modifies p1.pkmn, p2.pkmn
        invariant 0 <= k <= |inputs|
        invariant Valid() && OnField(p1.pkmn.Value(), p2.pkmn.Value())
        invariant Run(State(p1Turn), inputs[k..]) == Run(old(State(true)), inputs)
        decreases |inputs| - k
      {
        ghost var before := State(p1Turn);
        assert inputs[k..][0] == inputs[k] && inputs[k..][1..] == inputs[k + 1..];
        RunOnePass(before, inputs[k..]);
        StepKeepsOnField(before, inputs[k]);
        var stop, nextTurn := PlayTurn(p1Turn, inputs[k]);
        p1Turn := nextTurn;
        if stop {
          retreated := true;
          return;
        }
        k := k + 1;
      }
    }

    /** The end-of-match bookkeeping of `runMatch`. */
    method RecordResult()
      modifies this
      ensures Stats(gamesPlayed, humanWins, cpuWins) == Tally(old(State(true)))
      ensures bank == old(bank) && difficulty == old(difficulty)
    {
      if p1.pkmn.Fainted() && p2.pkmn.Fainted() {
        // "It's a tie!"
      } else if p1.pkmn.Fainted() {
        if p2.isHuman { humanWins := humanWins + 1; } else { cpuWins := cpuWins + 1; }
      } else if p2.pkmn.Fainted() {
        if p1.isHuman { humanWins := humanWins + 1; } else { cpuWins := cpuWins + 1; }
      } else {
        // "Match ended unexpectedly."
      }
      gamesPlayed := gamesPlayed + 1;
    }

    /** The rematch of the menu loop: both creatures reset, not reassigned;
        PP spent in the last match stays spent. */
    method Rematch()
      requires Ready()
      modifies p1.pkmn, p2.pkmn
      ensures Ready()
      ensures p1.pkmn.Value() == ResetMon(old(p1.pkmn.Value()))
      ensures p2.pkmn.Value() == ResetMon(old(p2.pkmn.Value()))
      ensures p1.pkmn.moves == old(p1.pkmn.moves) && p2.pkmn.moves == old(p2.pkmn.moves)
      ensures p1.pkmn.hp == p1.pkmn.maxHP && p2.pkmn.hp == p2.pkmn.maxHP
    {
      RematchKeepsPP(p1.pkmn.Value());
      RematchKeepsPP(p2.pkmn.Value());
      ResetIsHealthy(p1.pkmn.Value());
      ResetIsHealthy(p2.pkmn.Value());
      p1.pkmn.Reset();
      p2.pkmn.Reset();
    }
    }

  /** A bank entry placed on the field is healthy and standing, keeps its
      48x48 box, and is at the given position. */
  lemma PlacedIsReady(m: Mon, x: int)
    requires GoodTemplate(m)
    ensures Healthy(ResetMon(m).(x := x, y := 60))
    ensures ResetMon(m).maxHP > 0 && !ResetMon(m).Fainted()
    ensures PlacedAt(ResetMon(m).(x := x, y := 60), x)
  {
    ResetIsHealthy(m);
  }
}
