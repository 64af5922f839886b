/** A move template and a creature taking part in a match (`Move` and
    `Pokemon` in the program), with `reset` and `fainted`. */
module Combatant {

  /** A move: power 0 marks a utility (defend) move; accuracy is out of 100;
      pp is the number of uses left. */
  datatype Move = Move(name: string, power: int, accuracy: int, pp: int)

  /** The value of a creature: its stats, its moves with their remaining PP,
      the drawn box used for collisions, and the defend flag. */
  datatype Mon = Mon(
    name: string,
    maxHP: int,
    hp: int,
    attack: int,
    defense: int,
    moves: seq<Move>,
    x: int, y: int, w: int, h: int,
    defending: bool)
  {
    /** `fainted()`: the creature is out once its HP is no longer positive. */
    predicate Fainted() { hp <= 0 }
  }

  /** What holds of every creature between turns of a match: HP within
      0..maxHP and no negative PP; at least one move, since the move index
      falls back to move 0. */
  predicate Healthy(m: Mon)
  {
    && 0 <= m.hp <= m.maxHP
    && |m.moves| >= 1
    && forall i :: 0 <= i < |m.moves| ==> m.moves[i].pp >= 0
  }

  /** The PP clamp of `reset`, applied to one move. */
  function ClampMove(mv: Move): Move
  {
    if mv.pp < 0 then mv.(pp := 0) else mv
  }

  /** `reset`'s loop over the moves: every negative PP becomes 0, nothing
      else about any move changes. */
  function ClampAll(ms: seq<Move>): (r: seq<Move>)
    ensures |r| == |ms|
    ensures forall i :: 0 <= i < |ms| ==>
              r[i].pp == (if ms[i].pp < 0 then 0 else ms[i].pp) &&
              r[i].name == ms[i].name && r[i].power == ms[i].power && r[i].accuracy == ms[i].accuracy
  {
    if ms == [] then [] else [ClampMove(ms[0])] + ClampAll(ms[1..])
  }

  /** `reset()`: HP back to the maximum, defend cleared, negative PP raised
      to 0; PP is NOT restored. */
  function ResetMon(m: Mon): Mon
  {
    m.(hp := m.maxHP, defending := false, moves := ClampAll(m.moves))
  }

  lemma ResetRestoresHealth(m: Mon)
    ensures ResetMon(m).hp == m.maxHP && !ResetMon(m).defending
    ensures ResetMon(m).maxHP == m.maxHP && ResetMon(m).name == m.name
    ensures ResetMon(m).attack == m.attack && ResetMon(m).defense == m.defense
    ensures |ResetMon(m).moves| == |m.moves|
    ensures forall i :: 0 <= i < |m.moves| ==> ResetMon(m).moves[i].pp >= 0
  {
  }

  /** A creature whose PP are all non-negative – every creature in a match –
      comes out of a reset with exactly the moves it went in with: a
      rematch keeps depleted PP. */
  lemma {:induction false} ClampAllKeepsNonNegative(ms: seq<Move>)
    requires forall i :: 0 <= i < |ms| ==> ms[i].pp >= 0
    ensures ClampAll(ms) == ms
  {
    if ms != [] {
      ClampAllKeepsNonNegative(ms[1..]);
    }
  }

  lemma RematchKeepsPP(m: Mon)
    requires Healthy(m)
    ensures ResetMon(m).moves == m.moves
  {
    ClampAllKeepsNonNegative(m.moves);
  }

  /** A reset, given positive maximum HP and at least one move, yields a
      healthy creature that has not fainted, and a second reset changes nothing. */
  lemma ResetIsHealthy(m: Mon)
    requires m.maxHP > 0 && |m.moves| >= 1
    ensures Healthy(ResetMon(m)) && !ResetMon(m).Fainted()
    ensures ResetMon(ResetMon(m)) == ResetMon(m)
  {
    RematchKeepsPP(ResetMon(m));
  }

  /** A creature object, updated in place during a match. */
  class Pokemon {
    var name: string
    var maxHP: int
    var hp: int
    var attack: int
    var defense: int
    var moves: seq<Move>
    var x: int
    var y: int
    var w: int
    var h: int
    var defending: bool

    function Value(): Mon
      reads this
    {
      Mon(name, maxHP, hp, attack, defense, moves, x, y, w, h, defending)
    }

    /** A default-constructed creature, before any roster entry is copied in. */
    constructor ()
      ensures Value() == Mon("", 0, 0, 0, 0, [], 0, 0, 0, 0, false)
    {
      name, maxHP, hp, attack, defense, moves := "", 0, 0, 0, 0, [];
      x, y, w, h, defending := 0, 0, 0, 0, false;
    }

    predicate Fainted()
      reads this
    {
      Value().Fainted()
    }

    /** Copy assignment from a value (`p1.pkmn = bank[i1]`). */
    method Load(m: Mon)
      modifies this
      ensures Value() == m
    {
      name, maxHP, hp, attack, defense, moves := m.name, m.maxHP, m.hp, m.attack, m.defense, m.moves;
      x, y, w, h, defending := m.x, m.y, m.w, m.h, m.defending;
    }

    /** `reset()`. */
    method Reset()
      modifies this
      ensures Value() == ResetMon(old(Value()))
    {
      hp := maxHP;
      defending := false;
      var ms := moves;
      for i := 0 to |ms|
        invariant |ms| == |moves|
        invariant forall j :: 0 <= j < i ==> ms[j] == ClampMove(moves[j])
        invariant forall j :: i <= j < |ms| ==> ms[j] == moves[j]
      {
        if ms[i].pp < 0 {
          ms := ms[i := ms[i].(pp := 0)];
        }
      }
      ClampAllPointwise(moves, ms);
      moves := ms;
    }
  }

  lemma ClampAllPointwise(ms: seq<Move>, rs: seq<Move>)
    requires |rs| == |ms|
    requires forall j :: 0 <= j < |ms| ==> rs[j] == ClampMove(ms[j])
    ensures rs == ClampAll(ms)
  {
    var c := ClampAll(ms);
    forall j | 0 <= j < |ms| ensures rs[j] == c[j] {
      assert c[j].pp == ClampMove(ms[j]).pp;
    }
  }
}
