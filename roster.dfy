/** The bank of creatures (`loadBank`) and the draw of two distinct bank
    indices made by `assignPlayers`. */
module Roster {
  import opened Rng
  import opened Combatant

  datatype Option<T> = None | Some(value: T)

  /** The `mk` helper of `loadBank`: full HP, a 48x48 box at the origin, not defending. */
  function Template(name: string, hp: int, atk: int, def: int, m1: Move, m2: Move, m3: Move): Mon
  {
    Mon(name, hp, hp, atk, def, [m1, m2, m3], 0, 0, 48, 48, false)
  }

  function Bank(): seq<Mon>
  {
    [ Template("Pikachu", 40, 11, 6, Move("Thunder", 40, 95, 15), Move("Quick", 40, 100, 20), Move("Growl", 0, 100, 25)),
      Template("Charmander", 45, 10, 7, Move("Ember", 40, 95, 15), Move("Scratch", 35, 100, 25), Move("Tail", 0, 100, 25)),
      Template("Squirtle", 50, 9, 9, Move("Water", 40, 95, 15), Move("Tackle", 40, 100, 25), Move("Withdraw", 0, 100, 25)),
      Template("Bulbasaur", 48, 9, 8, Move("Vine", 45, 100, 15), Move("Tackle", 40, 100, 25), Move("Seed", 0, 90, 20)),
      Template("Gengar", 55, 12, 6, Move("Shadow", 50, 90, 12), Move("Lick", 30, 95, 20), Move("Hypno", 0, 70, 8)),
      Template("Onix", 60, 11, 12, Move("RockT", 50, 90, 15), Move("Tackle", 40, 100, 25), Move("Harden", 0, 100, 20)) ]
  }

  /** A bank entry a match can start from: positive maximum HP, at full HP,
      three moves of non-negative power, accuracy within 0..100 and positive PP. */
  predicate GoodTemplate(m: Mon)
  {
    && m.maxHP > 0 && m.hp == m.maxHP && !m.defending && m.w == 48 && m.h == 48
    && |m.moves| == 3
    && forall i :: 0 <= i < 3 ==>
         m.moves[i].power >= 0 && 0 <= m.moves[i].accuracy <= 100 && m.moves[i].pp > 0
  }

  lemma BankIsGood()
    ensures |Bank()| == 6
    ensures forall k :: 0 <= k < |Bank()| ==> GoodTemplate(Bank()[k])
  {
  }

  /** The resample loop `while (i2 == i1) i2 = randInt(0, n - 1)` over the
      draws it consumes: the index of the first draw that differs from `i1`,
      or None when every supplied draw collides. */
  function FirstDistinct(i1: int, n: int, draws: seq<nat>): (r: Option<int>)
    requires n >= 1
    ensures r.Some? ==> 0 <= r.value < n && r.value != i1
    ensures r.None? <==> forall k :: 0 <= k < |draws| ==> RandInt(0, n - 1, draws[k]) == i1
    ensures r.Some? ==>
              exists k :: 0 <= k < |draws| && r.value == RandInt(0, n - 1, draws[k]) &&
                          forall j :: 0 <= j < k ==> RandInt(0, n - 1, draws[j]) == i1
  {
    if draws == [] then None
    else if RandInt(0, n - 1, draws[0]) != i1 then Some(RandInt(0, n - 1, draws[0]))
    else
      assert forall k :: 1 <= k < |draws| ==> draws[k] == draws[1..][k - 1];
      var rest := FirstDistinct(i1, n, draws[1..]);
      assert rest.Some? ==>
        exists k :: 0 <= k < |draws| && rest.value == RandInt(0, n - 1, draws[k]) &&
                    forall j :: 0 <= j < k ==> RandInt(0, n - 1, draws[j]) == i1 by {
        if rest.Some? {
          var k :| 0 <= k < |draws[1..]| && rest.value == RandInt(0, n - 1, draws[1..][k]) &&
                   forall j :: 0 <= j < k ==> RandInt(0, n - 1, draws[1..][j]) == i1;
          assert forall j :: 0 <= j < k + 1 ==> RandInt(0, n - 1, draws[j]) == i1 by {
            forall j | 0 <= j < k + 1 ensures RandInt(0, n - 1, draws[j]) == i1 {
              if j > 0 { assert draws[j] == draws[1..][j - 1]; }
            }
          }
          assert rest.value == RandInt(0, n - 1, draws[k + 1]);
        }
      }
      rest
  }

  /** With at least two entries the loop can always stop: a draw exists that
      avoids `i1`. */
  lemma DistinctDrawExists(i1: int, n: int)
    requires n >= 2 && 0 <= i1 < n
    ensures FirstDistinct(i1, n, [if i1 == 0 then 1 else 0]).Some?
  {
    var d := if i1 == 0 then 1 else 0;
    assert RandInt(0, n - 1, d) == d;
  }

  /** The index draws of `assignPlayers`: `i1` from the first draw, `i2` from
      the second and, while it equals `i1`, from the redraws in turn. `ok` is
      false only when the supplied redraws run out while still colliding. */
  method PickDistinct(n: int, draw1: nat, draw2: nat, redraws: seq<nat>) returns (i1: int, i2: int, ok: bool)
    requires n >= 1
    ensures i1 == RandInt(0, n - 1, draw1)
    ensures ok ==> 0 <= i2 < n && i2 != i1
    ensures (if ok then Some(i2) else None) == FirstDistinct(i1, n, [draw2] + redraws)
  {
    i1 := RandInt(0, n - 1, draw1);
    i2 := RandInt(0, n - 1, draw2);
    ghost var all := [draw2] + redraws;
    assert all[1..] == redraws;
    var k := 0;
    while i2 == i1 && k < |redraws|
      invariant 0 <= k <= |redraws|
      invariant 0 <= i2 < n
      invariant i2 == i1 ==> FirstDistinct(i1, n, all) == FirstDistinct(i1, n, redraws[k..])
      invariant i2 != i1 ==> FirstDistinct(i1, n, all) == Some(i2)
    {
      assert redraws[k..][1..] == redraws[k + 1..];
      i2 := RandInt(0, n - 1, redraws[k]);
      k := k + 1;
    }
    ok := i2 != i1;
  }
}
