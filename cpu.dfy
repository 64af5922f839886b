/** The computer player's choice of action (a button id: moves 0..2, 3 = RUN). */
module Cpu {
  import opened Rng
  import opened Combatant

  const RUN := 3

  /** A move the HARD scan may settle on: move 0, where the scan starts
      whatever its PP, or any later move with PP left. */
  predicate Candidate(moves: seq<Move>, j: int)
    requires 0 <= j < |moves|
  {
    j == 0 || moves[j].pp > 0
  }

  /** `b` is the first candidate of greatest power among the candidates below `n`. */
  predicate FirstStrongestBelow(moves: seq<Move>, b: int, n: int)
    requires 0 <= b < |moves| && n <= |moves|
  {
    && Candidate(moves, b)
    && forall j :: 0 <= j < n && Candidate(moves, j) ==>
         moves[j].power <= moves[b].power && (moves[j].power == moves[b].power ==> b <= j)
  }

  /** The scan of the HARD policy from index i on, with `best` the pick so far:
      a move replaces it only with strictly greater power and PP left. */
  function Scan(moves: seq<Move>, i: nat, best: nat): nat
    requires best < |moves| && i <= |moves|
    decreases |moves| - i
  {
    if i == |moves| then best
    else Scan(moves, i + 1, if moves[i].power > moves[best].power && moves[i].pp > 0 then i else best)
  }

  lemma {:induction false} ScanFindsFirstStrongest(moves: seq<Move>, i: nat, best: nat)
    requires best < i <= |moves| || (best == 0 && i == 0 && |moves| > 0)
    requires best < |moves|
    requires i > 0 ==> FirstStrongestBelow(moves, best, i)
    requires i == 0 ==> best == 0
    ensures Scan(moves, i, best) < |moves|
    ensures FirstStrongestBelow(moves, Scan(moves, i, best), |moves|)
    decreases |moves| - i
  {
    if i < |moves| {
      var next := if moves[i].power > moves[best].power && moves[i].pp > 0 then i else best;
      ScanFindsFirstStrongest(moves, i + 1, next);
    }
  }

  /** The move HARD prefers: the first, by index, of greatest power among move 0
      and the moves with PP left. Move 0 is kept even with no PP. */
  function HardPick(moves: seq<Move>): (best: nat)
    requires |moves| >= 1
    ensures best < |moves|
    ensures FirstStrongestBelow(moves, best, |moves|)
  {
    ScanFindsFirstStrongest(moves, 0, 0);
    Scan(moves, 0, 0)
  }

  /** There is only one such move, so the property pins the pick down. */
  lemma FirstStrongestUnique(moves: seq<Move>, b1: int, b2: int)
    requires 0 <= b1 < |moves| && 0 <= b2 < |moves|
    requires FirstStrongestBelow(moves, b1, |moves|) && FirstStrongestBelow(moves, b2, |moves|)
    ensures b1 == b2
  {
  }

  /** The loop of the HARD policy, as the program runs it. */
  method FindHardPick(moves: seq<Move>) returns (best: nat)
    requires |moves| >= 1
    ensures best < |moves|
    ensures FirstStrongestBelow(moves, best, |moves|)
    ensures best == HardPick(moves)
  {
    best := 0;
    for i := 0 to |moves|
      invariant best < |moves|
      invariant best <= i || (i == 0 && best == 0)
      invariant i > 0 ==> FirstStrongestBelow(moves, best, i)
    {
      if moves[i].power > moves[best].power && moves[i].pp > 0 {
        best := i;
      }
    }
    FirstStrongestUnique(moves, best, HardPick(moves));
  }

  /** The EASY policy on a roll of 1..100: 35% move 0, 35% move 1, 15% move 2, 15% RUN. */
  function EasyChoice(roll: int): (c: int)
    ensures 0 <= c <= RUN
  {
    if roll <= 35 then 0
    else if roll <= 70 then 1
    else if roll <= 85 then 2
    else RUN
  }

  /** The CPU decision: EASY (difficulty 0) maps the first roll through
      `EasyChoice`; any other difficulty draws a second roll and uses the
      HARD pick when it is at most 85, RUN otherwise. */
  function CpuChoice(difficulty: int, moves: seq<Move>, draw1: nat, draw2: nat): (c: int)
    requires |moves| >= 1
    ensures c >= 0
    ensures difficulty == 0 ==> 0 <= c <= RUN
    ensures difficulty == 0 ==> (c == 0 <==> RandInt(1, 100, draw1) <= 35)
    ensures difficulty == 0 ==> (c == 1 <==> 36 <= RandInt(1, 100, draw1) <= 70)
    ensures difficulty == 0 ==> (c == 2 <==> 71 <= RandInt(1, 100, draw1) <= 85)
    ensures difficulty == 0 ==> (c == RUN <==> RandInt(1, 100, draw1) > 85)
    ensures difficulty != 0 ==> (c == RUN || (c < |moves| && FirstStrongestBelow(moves, c, |moves|)))
    ensures difficulty != 0 && RandInt(1, 100, draw2) > 85 ==> c == RUN
    ensures difficulty != 0 && RandInt(1, 100, draw2) <= 85 ==> c == HardPick(moves)
  {
    var r := RandInt(1, 100, draw1);
    if difficulty == 0 then EasyChoice(r)
    else if RandInt(1, 100, draw2) <= 85 then HardPick(moves) else RUN
  }

  /** The HARD quirk: move 0 stays the pick when no later move with PP is
      stronger, even if move 0 itself has no PP left (Gengar's Shadow at 0 PP
      against Lick, 30 power). */
  lemma HardPickKeepsEmptyFirstMove()
    ensures HardPick([Move("Shadow", 50, 90, 0), Move("Lick", 30, 95, 20), Move("Hypno", 0, 70, 8)]) == 0
  {
    var ms := [Move("Shadow", 50, 90, 0), Move("Lick", 30, 95, 20), Move("Hypno", 0, 70, 8)];
    FirstStrongestUnique(ms, HardPick(ms), 0);
  }
}
