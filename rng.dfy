/** The program's only source of randomness, `randInt`, with the draw of
    `std::rand()` passed in as a parameter. */
module Rng {

  /** `randInt(a, b)`: `a + rand() % (b - a + 1)`, where `draw` stands for the
      non-negative value that `std::rand()` returned. */
  function RandInt(a: int, b: int, draw: nat): (r: int)
    requires a <= b
    ensures a <= r <= b
  {
    a + draw % (b - a + 1)
  }

  /** Every value of the range is produced by some draw, so an injected draw
      can stand for any outcome of the generator. */
  lemma RandIntOnto(a: int, b: int, v: int)
    requires a <= v <= b
    ensures RandInt(a, b, v - a) == v
  {
    assert 0 <= v - a < b - a + 1;
  }
}
