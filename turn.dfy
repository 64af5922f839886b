/** One match of `runMatch` as a state machine: `Step` is one pass of the
    battle loop, `Tally` the end-of-match bookkeeping, `Run` the whole loop. */
module Turn {
  import opened Arith
  import opened Rng
  import opened Touch
  import opened Combatant
  import opened Damage
  import opened Cpu

  const RETREAT_HEAL := 8

  /** The session counters of the game. */
  datatype Stats = Stats(gamesPlayed: int, humanWins: int, cpuWins: int)

  /** The state the battle loop works on: both creatures, which seat is
      human, whose turn it is, the difficulty and the session counters. */
  datatype MatchState = MatchState(
    p1: Mon, p2: Mon,
    p1Human: bool, p2Human: bool,
    p1Turn: bool,
    difficulty: int,
    stats: Stats)
  {
    /** The creature in seat 1 (`isP1`) or seat 2. */
    function Seat(isP1: bool): Mon { if isP1 then p1 else p2 }
    function Actor(): Mon { Seat(p1Turn) }
    function Target(): Mon { Seat(!p1Turn) }
    predicate ActorHuman() { if p1Turn then p1Human else p2Human }
    /** The state with the actor's and the target's creatures replaced. */
    function WithPair(actor: Mon, target: Mon): MatchState
    {
      if p1Turn then this.(p1 := actor, p2 := target) else this.(p1 := target, p2 := actor)
    }
  }

  /** What the world supplies to one pass of the loop: the touch of a human
      actor, and the `std::rand()` draws behind the CPU rolls (`cpuDraw`, and
      `hardDraw` on HARD), the accuracy roll and the damage variance. */
  datatype TurnInput = TurnInput(
    touchX: int, touchY: int,
    cpuDraw: nat, hardDraw: nat,
    accuracyDraw: nat, varianceDraw: nat)

  /** A pass of the loop either goes on (`Next`) or ends the match by a retreat. */
  datatype StepOutcome = Next(state: MatchState) | Retreat(state: MatchState)

  /** How a run of the loop ended: a retreat, a faint (the result is tallied),
      or, in the model only, the supplied inputs ran out mid-match. */
  datatype Ending = Retreated | Decided | Pending

  predicate Playable(s: MatchState)
  {
    |s.p1.moves| >= 1 && |s.p2.moves| >= 1
  }

  predicate BothHealthy(s: MatchState)
  {
    Healthy(s.p1) && Healthy(s.p2)
  }

  /** Everything about a creature that a turn can never change: all but HP,
      the defend flag and the PP of its moves. */
  predicate SameBody(m: Mon, n: Mon)
  {
    && n.name == m.name && n.maxHP == m.maxHP
    && n.attack == m.attack && n.defense == m.defense
    && n.x == m.x && n.y == m.y && n.w == m.w && n.h == m.h
    && |n.moves| == |m.moves|
    && forall i :: 0 <= i < |m.moves| ==>
         n.moves[i].name == m.moves[i].name && n.moves[i].power == m.moves[i].power &&
         n.moves[i].accuracy == m.moves[i].accuracy
  }

  /** The id of the action taken this pass: the pressed battle button (-1 for
      a touch outside every button) for a human, the CPU policy otherwise. */
  function Chosen(s: MatchState, inp: TurnInput): (c: int)
    requires Playable(s)
    ensures c >= -1
    ensures c == -1 <==> s.ActorHuman() && OffButtons(inp.touchX, inp.touchY)
  {
    BattleButtonExact(inp.touchX, inp.touchY);
    if s.ActorHuman() then BattleButtonAt(inp.touchX, inp.touchY)
    else CpuChoice(s.difficulty, s.Actor().moves, inp.cpuDraw, inp.hardDraw)
  }

  /** A move id past the creature's move list falls back to move 0. */
  function MoveIndex(chosen: int, n: int): (i: int)
    requires chosen >= 0 && n >= 1
    ensures 0 <= i < n
    ensures chosen < n ==> i == chosen
    ensures chosen >= n ==> i == 0
  {
    if chosen >= n then 0 else chosen
  }

  /** The animation's collision outcome: the projectile starts at the
      actor's facing edge (right edge for seat 1, 8 pixels left of the left
      edge for seat 2), half-way down, and moves toward the other side. */
  predicate ShotHits(actor: Mon, target: Mon, actorIsP1: bool)
  {
    var projX := actor.x + (if actorIsP1 then actor.w else -PROJECTILE_SIZE);
    var projY := actor.y + TruncDiv(actor.h, 2);
    ProjectileHit(projX, projY, if actorIsP1 then 1 else -1, Rect(target.x, target.y, target.w, target.h))
  }

  /** One use of move `i`. */
  function SpendPP(m: Mon, i: int): (r: Mon)
    requires 0 <= i < |m.moves|
    ensures |r.moves| == |m.moves| && r.moves[i].pp == m.moves[i].pp - 1
    ensures r.moves[i].(pp := m.moves[i].pp) == m.moves[i]
    ensures forall j :: 0 <= j < |m.moves| && j != i ==> r.moves[j] == m.moves[j]
    ensures r.(moves := m.moves) == m
  {
    m.(moves := m.moves[i := m.moves[i].(pp := m.moves[i].pp - 1)])
  }

  /** The damage a hit of `dmg` actually deals: half, rounded up, to a
      defending creature. */
  function Absorbed(target: Mon, dmg: int): (a: int)
    ensures dmg >= 1 ==> 1 <= a <= dmg
    ensures target.defending && dmg >= 0 ==> 2 * a - 1 <= dmg <= 2 * a
  {
    if target.defending then (dmg + 1) / 2 else dmg
  }

  /** A hit of `dmg`: the absorbed amount is taken off, HP stops at 0, and
      a defend flag is used up. */
  function TakeHit(target: Mon, dmg: int): (r: Mon)
    ensures r.hp >= 0 && !r.defending
    ensures r.hp == 0 || r.hp == target.hp - Absorbed(target, dmg)
    ensures target.hp - Absorbed(target, dmg) >= 0 ==> r.hp == target.hp - Absorbed(target, dmg)
    ensures r.(hp := target.hp, defending := target.defending) == target
  {
    var hp := target.hp - Absorbed(target, dmg);
    target.(hp := if hp < 0 then 0 else hp, defending := false)
  }

  /** The resolution of move `mIdx` by `actor` against `target`: the utility
      and attack branches, the PP checks, the accuracy roll and the
      projectile, then the actor's defend flag dropped after any move of
      positive power. */
  function Resolve(actor: Mon, target: Mon, mIdx: int, difficulty: int, actorIsP1: bool,
                   accuracyDraw: nat, varianceDraw: nat): (r: (Mon, Mon))
    requires 0 <= mIdx < |actor.moves|
    ensures SameBody(actor, r.0) && SameBody(target, r.1)
  {
    var mv := actor.moves[mIdx];
    var (a, t) :=
      if mv.power == 0 then
        if mv.pp <= 0 then (actor, target)
        else (SpendPP(actor.(defending := true), mIdx), target)
      else if mv.pp <= 0 then (actor, target)
      else if RandInt(1, 100, accuracyDraw) > mv.accuracy then (actor, target)
      else if ShotHits(actor, target, actorIsP1) then
        (SpendPP(actor, mIdx), TakeHit(target, ComputeDamage(actor, target, mv, difficulty, varianceDraw)))
      else (SpendPP(actor, mIdx), target);
    (if a.defending && mv.power > 0 then a.(defending := false) else a, t)
  }

  /** The actor's HP after a retreat: 8 more, capped at the maximum. */
  function Healed(m: Mon): (h: int)
    ensures h <= m.maxHP && h <= m.hp + RETREAT_HEAL
    ensures h == m.maxHP || h == m.hp + RETREAT_HEAL
  {
    if m.hp + RETREAT_HEAL > m.maxHP then m.maxHP else m.hp + RETREAT_HEAL
  }

  /** One pass of the battle loop. */
  function Step(s: MatchState, inp: TurnInput): (r: StepOutcome)
    requires Playable(s)
    ensures Playable(r.state)
    ensures r.state.stats == s.stats
    ensures r.state.p1Human == s.p1Human && r.state.p2Human == s.p2Human
    ensures r.state.difficulty == s.difficulty
    ensures r.Retreat? <==> Chosen(s, inp) == RUN
    ensures Chosen(s, inp) == -1 ==> r == Next(s)
    ensures r.state.p1Turn == (if Chosen(s, inp) == -1 || r.Retreat? then s.p1Turn else !s.p1Turn)
    ensures SameBody(s.p1, r.state.p1) && SameBody(s.p2, r.state.p2)
  {
    var c := Chosen(s, inp);
    if c == -1 then Next(s)
    else if c == RUN then
      Retreat(s.WithPair(s.Actor().(hp := Healed(s.Actor())), s.Target()))
    else
      var mIdx := MoveIndex(c, |s.Actor().moves|);
      var (a, t) := Resolve(s.Actor(), s.Target(), mIdx, s.difficulty, s.p1Turn,
                            inp.accuracyDraw, inp.varianceDraw);
      Next(s.WithPair(a, t).(p1Turn := !s.p1Turn))
  }

  /** The end-of-match bookkeeping: a win for the seat that did not faint,
      credited by whether that seat is human; nothing for a tie or for the
      unexpected case of no faint; one more game played in every case. */
  function Tally(s: MatchState): (t: Stats)
    ensures t.gamesPlayed == s.stats.gamesPlayed + 1
    ensures t.humanWins >= s.stats.humanWins && t.cpuWins >= s.stats.cpuWins
    ensures t.humanWins + t.cpuWins ==
              s.stats.humanWins + s.stats.cpuWins + (if s.p1.Fainted() != s.p2.Fainted() then 1 else 0)
  {
    var st := s.stats;
    var won :=
      if s.p1.Fainted() && s.p2.Fainted() then st
      else if s.p1.Fainted() then
        (if s.p2Human then st.(humanWins := st.humanWins + 1) else st.(cpuWins := st.cpuWins + 1))
      else if s.p2.Fainted() then
        (if s.p1Human then st.(humanWins := st.humanWins + 1) else st.(cpuWins := st.cpuWins + 1))
      else st;
    won.(gamesPlayed := won.gamesPlayed + 1)
  }

  /** The set-up at the top of `runMatch`: seat 1 moves first, no one defends. */
  function StartMatch(s: MatchState): (r: MatchState)
    ensures r.p1Turn && !r.p1.defending && !r.p2.defending
    ensures r.p1.(defending := s.p1.defending) == s.p1 && r.p2.(defending := s.p2.defending) == s.p2
    ensures r.(p1Turn := s.p1Turn, p1 := s.p1, p2 := s.p2) == s
  {
    s.(p1Turn := true, p1 := s.p1.(defending := false), p2 := s.p2.(defending := false))
  }

  /** The battle loop run on a finite list of inputs, one per pass. */
  function Run(s: MatchState, inputs: seq<TurnInput>): (MatchState, Ending)
    requires Playable(s)
    decreases |inputs|
  {
    if s.p1.Fainted() || s.p2.Fainted() then (s.(stats := Tally(s)), Decided)
    else if inputs == [] then (s, Pending)
    else
      match Step(s, inputs[0])
      case Retreat(next) => (next, Retreated)
      case Next(next) => Run(next, inputs[1..])
  }
}
