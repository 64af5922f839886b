/** `computeDamage` in exact integer arithmetic. The program works in
    doubles: base = max(attack - 0.45 * defense, 1.0), raw = base * power / 20,
    times 1.08 on HARD, times a variance of randInt(85, 100) / 100, rounded
    half up and raised to at least MIN_DAMAGE. Scaling every factor to an
    integer (base in hundredths, the HARD factor and the variance in
    percent) gives raw = N / DAMAGE_SCALE with N an integer. */
module Damage {
  import opened Arith
  import opened Rng
  import opened Combatant

  const MIN_DAMAGE := 1
  /** 100 (base in hundredths) * 20 (power divisor) * 100 (HARD factor in percent) * 100 (variance in percent). */
  const DAMAGE_SCALE := 20_000_000

  /** 100 * max(attack - 0.45 * defense, 1.0). */
  function BaseHundredths(attack: int, defense: int): (b: int)
    ensures b >= 100
    ensures b >= 100 * attack - 45 * defense
  {
    Max(100 * attack - 45 * defense, 100)
  }

  /** The difficulty factor in percent: 1.08 on HARD (difficulty 1) for both sides. */
  function HardPercent(difficulty: int): int
  {
    if difficulty == 1 then 108 else 100
  }

  /** `(int)(n / DAMAGE_SCALE + 0.5)` raised to MIN_DAMAGE: the nearest
      integer to n / DAMAGE_SCALE, halves rounded up, but never below 1.
      (Truncation toward zero and the floor taken here differ only below 1,
      where the clamp hides the difference.) */
  function RoundDamage(n: int): (r: int)
    ensures r >= MIN_DAMAGE
    ensures 2 * n < (2 * r + 1) * DAMAGE_SCALE
    ensures r > MIN_DAMAGE ==> (2 * r - 1) * DAMAGE_SCALE <= 2 * n
  {
    var d := (2 * n + DAMAGE_SCALE) / (2 * DAMAGE_SCALE);
    if d < MIN_DAMAGE then MIN_DAMAGE else d
  }

  /** The scaled raw damage N (raw = N / DAMAGE_SCALE). */
  function RawScaled(attack: int, defense: int, power: int, difficulty: int, variance: int): int
  {
    BaseHundredths(attack, defense) * power * HardPercent(difficulty) * variance
  }

  /** The damage formula with the variance already drawn. */
  function Damage(attack: int, defense: int, power: int, difficulty: int, variance: int): (dmg: int)
    ensures dmg >= MIN_DAMAGE
  {
    RoundDamage(RawScaled(attack, defense, power, difficulty, variance))
  }

  /** `computeDamage(att, def, m)`; `varianceDraw` is the draw behind its `randInt(85, 100)`. */
  function ComputeDamage(att: Mon, def: Mon, mv: Move, difficulty: int, varianceDraw: nat): (dmg: int)
    ensures dmg >= MIN_DAMAGE
  {
    Damage(att.attack, def.defense, mv.power, difficulty, RandInt(85, 100, varianceDraw))
  }

  lemma RoundDamageMonotone(n1: int, n2: int)
    requires n1 <= n2
    ensures RoundDamage(n1) <= RoundDamage(n2)
  {
    var s := 2 * DAMAGE_SCALE;
    assert (2 * n1 + DAMAGE_SCALE) / s <= (2 * n2 + DAMAGE_SCALE) / s by {
      DivMonotone(2 * n1 + DAMAGE_SCALE, 2 * n2 + DAMAGE_SCALE, s);
    }
  }

  lemma DivMonotone(a: int, b: int, d: int)
    requires a <= b && d > 0
    ensures a / d <= b / d
  {
    assert a == (a / d) * d + a % d;
    assert b == (b / d) * d + b % d;
    if a / d > b / d {
      MulMonotone(b / d + 1, a / d, d);
      assert false;
    }
  }

  /** With the variance and difficulty fixed, more power never means less damage. */
  lemma DamageMonotoneInPower(attack: int, defense: int, p: int, q: int, difficulty: int, variance: int)
    requires p <= q
    requires 85 <= variance <= 100
    ensures Damage(attack, defense, p, difficulty, variance) <= Damage(attack, defense, q, difficulty, variance)
  {
    var b := BaseHundredths(attack, defense);
    var k := HardPercent(difficulty);
    MulMonotone(p, q, b);
    assert b * p <= b * q;
    MulMonotone(b * p, b * q, k);
    MulMonotone(b * p * k, b * q * k, variance);
    RoundDamageMonotone(RawScaled(attack, defense, p, difficulty, variance),
                        RawScaled(attack, defense, q, difficulty, variance));
  }

  /** With the variance and difficulty fixed, a higher attack stat never means
      less damage from a move of non-negative power. */
  lemma DamageMonotoneInAttack(a1: int, a2: int, defense: int, power: int, difficulty: int, variance: int)
    requires a1 <= a2
    requires power >= 0
    requires 85 <= variance <= 100
    ensures Damage(a1, defense, power, difficulty, variance) <= Damage(a2, defense, power, difficulty, variance)
  {
    var b1 := BaseHundredths(a1, defense);
    var b2 := BaseHundredths(a2, defense);
    var k := HardPercent(difficulty);
    assert b1 <= b2;
    MulMonotone(b1, b2, power);
    MulMonotone(b1 * power, b2 * power, k);
    MulMonotone(b1 * power * k, b2 * power * k, variance);
    RoundDamageMonotone(RawScaled(a1, defense, power, difficulty, variance),
                        RawScaled(a2, defense, power, difficulty, variance));
  }

  /** The worked examples: attack 11 against defense 6 with a 40-power move at
      full variance is 16.6, so 17, on EASY and 17.928, so 18, on HARD; a
      defending target takes (17 + 1) / 2 = 9 of the first. */
  lemma DamageExamples()
    ensures Damage(11, 6, 40, 0, 100) == 17
    ensures Damage(11, 6, 40, 1, 100) == 18
    ensures (Damage(11, 6, 40, 0, 100) + 1) / 2 == 9
  {
    assert RawScaled(11, 6, 40, 0, 100) == 332_000_000;
    assert RawScaled(11, 6, 40, 1, 100) == 358_560_000;
  }
}
