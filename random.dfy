/** The random number generator as the synthesis uses it. Its algorithm
    (a Mersenne twister in the library) is not part of this model: the
    value of a draw is an arbitrary function `source` of the seed and of
    the kinds of all draws made since seeding, which is exactly what makes
    a run reproducible. */
module Randomness {

  /** `rand()` (uniform) or `randNorm()` (standard normal). */
  datatype DrawKind = Uniform | Normal

  /** The value of a draw from the seed and the kinds of the draws since
      seeding, the current one included. */
  datatype Source = Source(valueOf: (int, seq<DrawKind>) -> real)
  {
    function Value(seed: int, draws: seq<DrawKind>): real
    {
      valueOf(seed, draws)
    }
  }

  /** The draws of c in-band wavevectors: `rand, randNorm, rand` each. */
  function Triples(c: nat): (s: seq<DrawKind>)
    ensures |s| == 3 * c
  {
    if c == 0 then [] else Triples(c - 1) + [Uniform, Normal, Uniform]
  }

  /** The draws of a + b wavevectors are those of a followed by those of b. */
  lemma {:induction false} TriplesAdd(a: nat, b: nat)
    ensures Triples(a + b) == Triples(a) + Triples(b)
    decreases b
  {
    if b > 0 {
      TriplesAdd(a, b - 1);
      assert Triples(a + b) == Triples(a + b - 1) + [Uniform, Normal, Uniform];
    }
  }

  /** A history that continues with the draws of one more wavevector ends
      with the draws of c + 1 wavevectors when it ended with those of c. */
  lemma {:induction false} HistoryStep(before: seq<DrawKind>, c: nat, c': nat)
    requires c' == c + 1
    ensures before + Triples(c) + [Uniform, Normal, Uniform] == before + Triples(c')
  {
    assert Triples(c') == Triples(c) + [Uniform, Normal, Uniform];
  }

  /** Draw 3t of the sequence is a `rand`, draw 3t+1 a `randNorm` and draw
      3t+2 again a `rand`, for every wavevector t. */
  lemma {:induction false} TriplesOrder(c: nat, t: nat)
    requires t < c
    ensures Triples(c)[3 * t] == Uniform
    ensures Triples(c)[3 * t + 1] == Normal
    ensures Triples(c)[3 * t + 2] == Uniform
    decreases c
  {
    if t < c - 1 {
      TriplesOrder(c - 1, t);
    }
  }

  /** The generator state a synthesis starts from: the value source, the
      seed, and the draws already made since seeding. */
  datatype Stream = Stream(source: Source, seed: int, before: seq<DrawKind>)

  /** The value of the last draw of `history`, counted from the start. */
  function Draw(st: Stream, history: seq<DrawKind>): real
  {
    st.source.Value(st.seed, st.before + history)
  }

  class Random {
    const source: Source
    var seed: int
    var calls: seq<DrawKind>

    /** The current state, as a stream to continue from. */
    function State(): (st: Stream)
      reads this
      ensures st.seed == seed && st.before == calls && st.source == source
    {
      Stream(source, seed, calls)
    }

    constructor(source: Source, seed: int)
      ensures this.source == source && this.seed == seed && calls == []
    {
      this.source := source;
      this.seed := seed;
      calls := [];
    }

    /** `random.seed(s)`: restart the sequence of draws. */
    method Seed(s: int)
      modifies this
      ensures seed == s && calls == []
    {
      seed := s;
      calls := [];
    }

    /** `random.rand()` */
    method Rand() returns (r: real)
      modifies this
      ensures seed == old(seed) && calls == old(calls) + [Uniform]
      ensures r == source.Value(seed, calls)
    {
      calls := calls + [Uniform];
      r := source.Value(seed, calls);
    }

    /** `random.randNorm()` */
    method RandNorm() returns (r: real)
      modifies this
      ensures seed == old(seed) && calls == old(calls) + [Normal]
      ensures r == source.Value(seed, calls)
    {
      calls := calls + [Normal];
      r := source.Value(seed, calls);
    }
  }
}
