/** What the battle loop guarantees: per-pass behaviour of each branch, the
    HP and PP invariants, the positions that make every accurate shot land,
    and the accounting at the end of a match. */
module TurnProperties {
  import opened Arith
  import opened Rng
  import opened Touch
  import opened Combatant
  import opened Damage
  import opened Cpu
  import opened Turn

  // ---------------------------------------------------------------- one move

  lemma ResolveKeepsHealthy(actor: Mon, target: Mon, mIdx: int, difficulty: int, actorIsP1: bool,
                            accuracyDraw: nat, varianceDraw: nat)
    requires 0 <= mIdx < |actor.moves|
    requires Healthy(actor) && Healthy(target)
    ensures Healthy(Resolve(actor, target, mIdx, difficulty, actorIsP1, accuracyDraw, varianceDraw).0)
    ensures Healthy(Resolve(actor, target, mIdx, difficulty, actorIsP1, accuracyDraw, varianceDraw).1)
    ensures Resolve(actor, target, mIdx, difficulty, actorIsP1, accuracyDraw, varianceDraw).0.hp == actor.hp
    ensures Resolve(actor, target, mIdx, difficulty, actorIsP1, accuracyDraw, varianceDraw).1.hp <= target.hp
  {
    var mv := actor.moves[mIdx];
    if mv.pp > 0 {
      SpendKeepsHealthy(actor, mIdx);
      SpendKeepsHealthy(actor.(defending := true), mIdx);
    }
    var dmg := ComputeDamage(actor, target, mv, difficulty, varianceDraw);
    assert Absorbed(target, dmg) >= 1;
  }

  lemma SpendKeepsHealthy(m: Mon, i: int)
    requires 0 <= i < |m.moves| && Healthy(m) && m.moves[i].pp > 0
    ensures Healthy(SpendPP(m, i))
    ensures SpendPP(m, i).hp == m.hp
  {
    var n := SpendPP(m, i);
    forall j | 0 <= j < |n.moves| ensures n.moves[j].pp >= 0 {
      if j != i { assert n.moves[j] == m.moves[j]; }
    }
  }

  /** Every pass keeps both creatures within 0..maxHP and every PP non-negative;
      the actor's HP never drops and the target's never rises. */
  lemma StepKeepsHealthy(s: MatchState, inp: TurnInput)
    requires Playable(s) && BothHealthy(s)
    ensures BothHealthy(Step(s, inp).state)
    ensures Step(s, inp).state.Seat(s.p1Turn).hp >= s.Actor().hp
    ensures Step(s, inp).state.Seat(!s.p1Turn).hp <= s.Target().hp
  {
    var c := Chosen(s, inp);
    if c != -1 && c != RUN {
      ResolveKeepsHealthy(s.Actor(), s.Target(), MoveIndex(c, |s.Actor().moves|), s.difficulty, s.p1Turn,
                          inp.accuracyDraw, inp.varianceDraw);
    }
  }

  /** Since only the target can lose HP, a pass started with both creatures
      standing leaves the actor standing: a double faint cannot happen. */
  lemma StepCannotFaintBoth(s: MatchState, inp: TurnInput)
    requires Playable(s) && BothHealthy(s)
    requires !s.p1.Fainted() && !s.p2.Fainted()
    ensures !Step(s, inp).state.Seat(s.p1Turn).Fainted()
    ensures !(Step(s, inp).state.p1.Fainted() && Step(s, inp).state.p2.Fainted())
    ensures Step(s, inp).Retreat? ==> !Step(s, inp).state.p1.Fainted() && !Step(s, inp).state.p2.Fainted()
  {
    StepKeepsHealthy(s, inp);
  }

  // ----------------------------------------------------------- the branches

  /** RUN: the actor heals by 8 up to its maximum and the match ends at
      once; the turn, the target and the counters stay as they were. */
  lemma RetreatHealsAndEnds(s: MatchState, inp: TurnInput)
    requires Playable(s) && Chosen(s, inp) == RUN
    ensures Step(s, inp).Retreat?
    ensures Step(s, inp).state.Seat(s.p1Turn) ==
              s.Actor().(hp := Min(s.Actor().hp + RETREAT_HEAL, s.Actor().maxHP))
    ensures Step(s, inp).state.Seat(!s.p1Turn) == s.Target()
    ensures Step(s, inp).state.p1Turn == s.p1Turn && Step(s, inp).state.stats == s.stats
  {
  }

  /** A chosen move with no PP left, utility or attack: no HP and no PP
      changes, nothing happens to the target, yet the turn passes; the
      actor's own defend flag is dropped if the move has positive power. */
  lemma NoPPTurnPasses(s: MatchState, inp: TurnInput, i: int)
    requires Playable(s)
    requires 0 <= Chosen(s, inp) != RUN
    requires i == MoveIndex(Chosen(s, inp), |s.Actor().moves|)
    requires s.Actor().moves[i].pp <= 0
    ensures Step(s, inp).Next?
    ensures Step(s, inp).state.p1Turn == !s.p1Turn
    ensures Step(s, inp).state.Seat(!s.p1Turn) == s.Target()
    ensures Step(s, inp).state.Seat(s.p1Turn) ==
              s.Actor().(defending := s.Actor().defending && !(s.Actor().moves[i].power > 0))
  {
  }

  /** A utility move (power 0) with PP: the actor defends and uses one PP;
      everything else stays, and the turn passes. */
  lemma UtilityMoveDefends(s: MatchState, inp: TurnInput, i: int)
    requires Playable(s)
    requires 0 <= Chosen(s, inp) != RUN
    requires i == MoveIndex(Chosen(s, inp), |s.Actor().moves|)
    requires s.Actor().moves[i].power == 0 && s.Actor().moves[i].pp > 0
    ensures Step(s, inp).Next? && Step(s, inp).state.p1Turn == !s.p1Turn
    ensures Step(s, inp).state.Seat(!s.p1Turn) == s.Target()
    ensures Step(s, inp).state.Seat(s.p1Turn) ==
              s.Actor().(defending := true,
                         moves := s.Actor().moves[i := s.Actor().moves[i].(pp := s.Actor().moves[i].pp - 1)])
  {
  }

  /** An attack with PP whose accuracy roll exceeds the move's accuracy
      misses: the move keeps its PP and both HPs stay; the actor stops
      defending if the move has positive power. */
  lemma MissSpendsNothing(s: MatchState, inp: TurnInput, i: int)
    requires Playable(s)
    requires 0 <= Chosen(s, inp) != RUN
    requires i == MoveIndex(Chosen(s, inp), |s.Actor().moves|)
    requires s.Actor().moves[i].power != 0 && s.Actor().moves[i].pp > 0
    requires RandInt(1, 100, inp.accuracyDraw) > s.Actor().moves[i].accuracy
    ensures Step(s, inp).Next? && Step(s, inp).state.p1Turn == !s.p1Turn
    ensures Step(s, inp).state.Seat(!s.p1Turn) == s.Target()
    ensures Step(s, inp).state.Seat(s.p1Turn) ==
              s.Actor().(defending := s.Actor().defending && !(s.Actor().moves[i].power > 0))
  {
  }

  /** An attack with PP whose roll is within its accuracy uses exactly one PP
      of that move, on the hit and on the no-hit branch alike; the actor's HP
      stays, and the target is either hit or untouched. */
  lemma AccurateAttackSpendsOnePP(s: MatchState, inp: TurnInput, i: int)
    requires Playable(s)
    requires 0 <= Chosen(s, inp) != RUN
    requires i == MoveIndex(Chosen(s, inp), |s.Actor().moves|)
    requires s.Actor().moves[i].power != 0 && s.Actor().moves[i].pp > 0
    requires RandInt(1, 100, inp.accuracyDraw) <= s.Actor().moves[i].accuracy
    ensures Step(s, inp).Next? && Step(s, inp).state.p1Turn == !s.p1Turn
    ensures Step(s, inp).state.Seat(s.p1Turn) ==
              s.Actor().(defending := s.Actor().defending && !(s.Actor().moves[i].power > 0),
                         moves := s.Actor().moves[i := s.Actor().moves[i].(pp := s.Actor().moves[i].pp - 1)])
    ensures Step(s, inp).state.Seat(!s.p1Turn) ==
              if ShotHits(s.Actor(), s.Target(), s.p1Turn)
              then TakeHit(s.Target(), ComputeDamage(s.Actor(), s.Target(), s.Actor().moves[i], s.difficulty, inp.varianceDraw))
              else s.Target()
  {
  }

  /** A hit on a defending target deals half the damage, rounded up, clamps
      the target's HP at 0 and uses up its defend flag. */
  lemma DefendedHitIsHalved(target: Mon, dmg: int)
    requires target.defending && dmg >= MIN_DAMAGE
    ensures TakeHit(target, dmg).hp == Max(0, target.hp - (dmg + 1) / 2)
    ensures !TakeHit(target, dmg).defending
    ensures 1 <= (dmg + 1) / 2 <= dmg
  {
  }

  /** An undefended hit takes the full damage, clamped at 0 HP. */
  lemma UndefendedHitIsFull(target: Mon, dmg: int)
    requires !target.defending
    ensures TakeHit(target, dmg).hp == Max(0, target.hp - dmg)
    ensures !TakeHit(target, dmg).defending
  {
  }

  // ---------------------------------------------------- projectile geometry

  /** The positions `assignPlayers` gives: seat 1 at (40, 60), seat 2 at
      (220, 60), both 48x48. */
  predicate PlacedAt(m: Mon, x: int)
  {
    m.x == x && m.y == 60 && m.w == 48 && m.h == 48
  }

  predicate AtBattlePositions(s: MatchState)
  {
    PlacedAt(s.p1, 40) && PlacedAt(s.p2, 220)
  }

  /** The pair `assignPlayers` puts on the field: both healthy with positive
      maximum HP, at most one fainted, at their drawing positions. */
  predicate OnField(a: Mon, b: Mon)
  {
    && Healthy(a) && Healthy(b) && a.maxHP > 0 && b.maxHP > 0
    && !(a.Fainted() && b.Fainted())
    && PlacedAt(a, 40) && PlacedAt(b, 220)
  }

  /** A pass of the battle loop with both creatures standing keeps the pair
      on the field. */
  lemma StepKeepsOnField(s: MatchState, inp: TurnInput)
    requires OnField(s.p1, s.p2) && !s.p1.Fainted() && !s.p2.Fainted()
    ensures OnField(Step(s, inp).state.p1, Step(s, inp).state.p2)
  {
    StepKeepsHealthy(s, inp);
    StepCannotFaintBoth(s, inp);
    StepKeepsPositions(s, inp);
  }

  /** From those positions the projectile always reaches the other creature. */
  lemma ShotAlwaysHitsAtBattlePositions(s: MatchState)
    requires AtBattlePositions(s)
    ensures ShotHits(s.Actor(), s.Target(), s.p1Turn)
  {
    assert TruncDiv(48, 2) == 24;
    if s.p1Turn {
      RightwardShotHits(88, 84, Rect(220, 60, 48, 48));
    } else {
      LeftwardShotHits(212, 84, Rect(40, 60, 48, 48));
    }
  }

  lemma StepKeepsPositions(s: MatchState, inp: TurnInput)
    requires Playable(s) && AtBattlePositions(s)
    ensures AtBattlePositions(Step(s, inp).state)
  {
  }

  /** Hence, in a match set up by `assignPlayers`, an accurate attack always
      hits: the "no hit" fallback that still spends PP is dead code. */
  lemma NoHitBranchIsDead(s: MatchState, inp: TurnInput, i: int)
    requires Playable(s) && AtBattlePositions(s)
    requires 0 <= Chosen(s, inp) != RUN
    requires i == MoveIndex(Chosen(s, inp), |s.Actor().moves|)
    requires s.Actor().moves[i].power != 0 && s.Actor().moves[i].pp > 0
    requires RandInt(1, 100, inp.accuracyDraw) <= s.Actor().moves[i].accuracy
    ensures Step(s, inp).state.Seat(!s.p1Turn) ==
              TakeHit(s.Target(), ComputeDamage(s.Actor(), s.Target(), s.Actor().moves[i], s.difficulty, inp.varianceDraw))
  {
    ShotAlwaysHitsAtBattlePositions(s);
    AccurateAttackSpendsOnePP(s, inp, i);
  }

  // ------------------------------------------------------- a whole match

  /** The seat that did not faint is human: the winner's counter. */
  predicate SurvivorHuman(s: MatchState)
  {
    if s.p1.Fainted() then s.p2Human else s.p1Human
  }

  /** Tally with exactly one creature fainted: one more game, and exactly one
      win, for the human or the CPU counter as the surviving seat is human. */
  lemma TallyCreditsSurvivor(s: MatchState)
    requires s.p1.Fainted() != s.p2.Fainted()
    ensures Tally(s).gamesPlayed == s.stats.gamesPlayed + 1
    ensures Tally(s).humanWins == s.stats.humanWins + (if SurvivorHuman(s) then 1 else 0)
    ensures Tally(s).cpuWins == s.stats.cpuWins + (if SurvivorHuman(s) then 0 else 1)
  {
  }

  /** What a run of the loop from `s` to `f`, ending `e`, must account for:
      HP within bounds and seats unchanged; a match decided by a faint has
      exactly one creature fainted, one more game and one more win for the
      surviving seat's side; any other ending changes no counter and leaves
      both creatures standing. */
  predicate Accounted(s: MatchState, f: MatchState, e: Ending)
  {
    && BothHealthy(f)
    && f.p1Human == s.p1Human && f.p2Human == s.p2Human
    && (e == Decided ==>
          && f.p1.Fainted() != f.p2.Fainted()
          && f.stats.gamesPlayed == s.stats.gamesPlayed + 1
          && f.stats.humanWins == s.stats.humanWins + (if SurvivorHuman(f) then 1 else 0)
          && f.stats.cpuWins == s.stats.cpuWins + (if SurvivorHuman(f) then 0 else 1))
    && (e != Decided ==>
          f.stats == s.stats && !f.p1.Fainted() && !f.p2.Fainted())
  }

  /** The whole loop, from a state with both creatures healthy and at most
      one fainted, is accounted for; in particular the tie and "unexpected"
      branches of the tally never run. */
  lemma {:induction false} RunAccounting(s: MatchState, inputs: seq<TurnInput>)
    requires Playable(s) && BothHealthy(s)
    requires !(s.p1.Fainted() && s.p2.Fainted())
    ensures Accounted(s, Run(s, inputs).0, Run(s, inputs).1)
    decreases |inputs|
  {
    if s.p1.Fainted() || s.p2.Fainted() {
      TallyCreditsSurvivor(s);
    } else if inputs != [] {
      StepKeepsHealthy(s, inputs[0]);
      StepCannotFaintBoth(s, inputs[0]);
      var step := Step(s, inputs[0]);
      if step.Next? {
        var next := step.state;
        RunAccounting(next, inputs[1..]);
        assert Run(s, inputs) == Run(next, inputs[1..]);
      } else {
        assert Run(s, inputs) == (step.state, Retreated);
      }
    }
  }

  /** With both creatures standing, the loop runs one pass and then either
      stops on a retreat or goes on from the new state. */
  lemma RunOnePass(s: MatchState, inputs: seq<TurnInput>)
    requires Playable(s) && !s.p1.Fainted() && !s.p2.Fainted() && inputs != []
    ensures Step(s, inputs[0]).Retreat? ==> Run(s, inputs) == (Step(s, inputs[0]).state, Retreated)
    ensures Step(s, inputs[0]).Next? ==> Run(s, inputs) == Run(Step(s, inputs[0]).state, inputs[1..])
  {
  }

  /** A retreat ends the match with the counters as they were. */
  lemma RetreatCountsNothing(s: MatchState, inputs: seq<TurnInput>)
    requires Playable(s) && BothHealthy(s)
    requires !(s.p1.Fainted() && s.p2.Fainted())
    requires Run(s, inputs).1 == Retreated
    ensures Run(s, inputs).0.stats == s.stats
  {
    RunAccounting(s, inputs);
  }
}
