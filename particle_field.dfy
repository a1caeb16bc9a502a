/**
 * The galaxy point field: the loop that fills the vertex buffer with one
 * (x, y, z) triple per particle, drawing from the C library's random stream.
 *
 * Floating-point values are not modelled. Each slot of the buffer holds a
 * Coord term that records how its value was built and from which draws, so
 * that the layout of the buffer, the draws each particle consumes and the
 * order of the writes can be stated exactly.
 */
module ParticleField {

  /** Number of particles (128 * 1024). */
  const PARTICLES: nat := 128 * 1024
  /** Floats per particle in the vertex buffer. */
  const FLOATS_PER_PARTICLE: nat := 3
  /** Calls of rand() per particle: arm, radial, and four per axis. */
  const DRAWS_PER_PARTICLE: nat := 14
  /** Calls of rand() summed into one jitter term. */
  const JITTER_DRAWS: nat := 4

  /** The angle alpha of one particle once it is rotated into its arm: it is
      determined by the arm index and by the radial draw, which also gives the
      radius r = 4 * alpha before the rotation. */
  datatype Alpha = Alpha(arm: int, radialDraw: int)

  /** The two jitter amplitudes: 4 - 0.2 * alpha for x and z, 2 - 0.1 * alpha for y. */
  datatype Amplitude = Planar(alpha: Alpha) | Vertical(alpha: Alpha)

  /** The value held by one float of the buffer, as the term that computed it. */
  datatype Coord =
    | Zero                                          // 0.0f
    | SinBase(alpha: Alpha)                         // r * sin(alpha)
    | CosBase(alpha: Alpha)                         // r * cos(alpha)
    | Jitter(amplitude: Amplitude, draws: seq<int>) // amplitude * (2 - sum of draws / RAND_MAX)
    | Plus(lhs: Coord, rhs: Coord)                   // lhs += rhs

  /** Every draw of the stream lies in [0, randMax]. */
  ghost predicate DrawsInRange(draw: nat -> int, randMax: nat) {
    forall k: nat :: 0 <= draw(k) <= randMax
  }

  /** The draws at positions from .. from + count - 1 of the stream. The
      ensures clauses only spell out the comprehension for the solver. */
  function Draws(draw: nat -> int, from: nat, count: nat): (d: seq<int>)
    ensures |d| == count
    ensures forall k :: 0 <= k < count ==> d[k] == draw(from + k)
  {
    seq(count, k requires 0 <= k => draw(from + k))
  }

  /** The arm index int(3 * (d / float(RAND_MAX))), computed in exact
      arithmetic: the truncation of a non-negative quotient is Dafny's
      division. */
  function ArmIndex(d: int, randMax: nat): (arm: int)
    requires 0 < randMax && 0 <= d <= randMax
    ensures 0 <= arm <= 3
    ensures arm == 3 <==> d == randMax
  {
    (3 * d) / randMax
  }

  /** The three floats of the particle whose fourteen draws start at position
      from of the stream, in the order the loop body consumes them: arm,
      radial, then four draws each for the x, y and z jitter. */
  function ParticleCoords(draw: nat -> int, from: nat, randMax: nat): (p: seq<Coord>)
    requires 0 < randMax && DrawsInRange(draw, randMax)
    ensures |p| == FLOATS_PER_PARTICLE
  {
    var alpha := Alpha(ArmIndex(draw(from), randMax), draw(from + 1));
    [Plus(SinBase(alpha), Jitter(Planar(alpha), Draws(draw, from + 2, JITTER_DRAWS))),
     Plus(Zero, Jitter(Vertical(alpha), Draws(draw, from + 6, JITTER_DRAWS))),
     Plus(CosBase(alpha), Jitter(Planar(alpha), Draws(draw, from + 10, JITTER_DRAWS)))]
  }

  /** The first 3 * n floats of the buffer once n particles have been
      generated from the stream starting at position start. */
  function Galaxy(draw: nat -> int, start: nat, randMax: nat, n: nat): (buffer: seq<Coord>)
    requires 0 < randMax && DrawsInRange(draw, randMax)
    ensures |buffer| == FLOATS_PER_PARTICLE * n
  {
    if n == 0 then []
    else
      Galaxy(draw, start, randMax, n - 1)
      + ParticleCoords(draw, start + DRAWS_PER_PARTICLE * (n - 1), randMax)
  }

  /** std::rand() as a stream of draws with a cursor: the k-th call returns
      draw(k). The seed is not modelled; the stream is a parameter. */
  class RandomStream {
    const draw: nat -> int
    /** RAND_MAX, which the C library chooses. */
    const randMax: nat
    /** How many draws have been taken. */
    var cursor: nat

    ghost predicate Valid() {
      0 < randMax && DrawsInRange(draw, randMax)
    }

    constructor (draw: nat -> int, randMax: nat)
      requires 0 < randMax && DrawsInRange(draw, randMax)
      ensures Valid() && this.draw == draw && this.randMax == randMax && cursor == 0
    {
      this.draw := draw;
      this.randMax := randMax;
      cursor := 0;
    }

    /** std::rand() */
    method Rand() returns (d: int)
      requires Valid()
      modifies this
      ensures cursor == old(cursor) + 1
      ensures d == draw(old(cursor)) && 0 <= d <= randMax
    {
      d := draw(cursor);
      cursor := cursor + 1;
    }
  }

  /** The four rand() calls of one jitter sum, in stream order. */
  method JitterDraws(rng: RandomStream) returns (d: seq<int>)
    requires rng.Valid()
    modifies rng
    ensures rng.cursor == old(rng.cursor) + JITTER_DRAWS
    ensures d == Draws(rng.draw, old(rng.cursor), JITTER_DRAWS)
  {
    var d0 := rng.Rand();
    var d1 := rng.Rand();
    var d2 := rng.Rand();
    var d3 := rng.Rand();
    d := [d0, d1, d2, d3];
  }

  /** One iteration of the fill loop: writes the base position of particle i
      with y set to 0, then adds a jitter term to each of its three floats. */
  method FillParticle(vertexData: array<Coord>, i: nat, rng: RandomStream)
    requires rng.Valid()
    requires FLOATS_PER_PARTICLE * i + FLOATS_PER_PARTICLE <= vertexData.Length
    modifies vertexData, rng
    ensures rng.cursor == old(rng.cursor) + DRAWS_PER_PARTICLE
    ensures vertexData[FLOATS_PER_PARTICLE * i .. FLOATS_PER_PARTICLE * i + FLOATS_PER_PARTICLE] == ParticleCoords(rng.draw, old(rng.cursor), rng.randMax)
    ensures forall j :: 0 <= j < vertexData.Length && !(FLOATS_PER_PARTICLE * i <= j < FLOATS_PER_PARTICLE * i + FLOATS_PER_PARTICLE) ==> vertexData[j] == old(vertexData[j])
  {
    ghost var from := rng.cursor;
    var b := FLOATS_PER_PARTICLE * i;

    var armDraw := rng.Rand();
    var arm := ArmIndex(armDraw, rng.randMax);
    var radialDraw := rng.Rand();
    var alpha := Alpha(arm, radialDraw);

    vertexData[b + 0] := SinBase(alpha);
    vertexData[b + 1] := Zero;
    vertexData[b + 2] := CosBase(alpha);

    var xDraws := JitterDraws(rng);
    vertexData[b + 0] := Plus(vertexData[b + 0], Jitter(Planar(alpha), xDraws));
    var yDraws := JitterDraws(rng);
    vertexData[b + 1] := Plus(vertexData[b + 1], Jitter(Vertical(alpha), yDraws));
    var zDraws := JitterDraws(rng);
    vertexData[b + 2] := Plus(vertexData[b + 2], Jitter(Planar(alpha), zDraws));

    assert vertexData[b .. b + FLOATS_PER_PARTICLE] == ParticleCoords(rng.draw, from, rng.randMax);
  }

  /** The whole fill: a zero-initialised buffer of 3 * PARTICLES floats,
      filled particle by particle. */
  method GenerateGalaxy(rng: RandomStream) returns (vertexData: array<Coord>)
    requires rng.Valid()
    modifies rng
    ensures fresh(vertexData)
    ensures vertexData.Length == FLOATS_PER_PARTICLE * PARTICLES
    ensures vertexData[..] == Galaxy(rng.draw, old(rng.cursor), rng.randMax, PARTICLES)
    ensures rng.cursor == old(rng.cursor) + DRAWS_PER_PARTICLE * PARTICLES
  {
    vertexData := new Coord[FLOATS_PER_PARTICLE * PARTICLES](_ => Zero);
    ghost var start := rng.cursor;
    for i := 0 to PARTICLES
      invariant rng.cursor == start + DRAWS_PER_PARTICLE * i
      invariant vertexData[..FLOATS_PER_PARTICLE * i] == Galaxy(rng.draw, start, rng.randMax, i)
    {
      ghost var before := vertexData[..];
      FillParticle(vertexData, i, rng);
      FilledPrefixGrows(before, vertexData[..], rng.draw, start, rng.randMax, i);
    }
    assert vertexData[..] == vertexData[..FLOATS_PER_PARTICLE * PARTICLES];
  }

  /** One more iteration extends the filled prefix by one particle. */
  lemma {:induction false} FilledPrefixGrows(before: seq<Coord>, after: seq<Coord>, draw: nat -> int, start: nat, randMax: nat, i: nat)
    requires 0 < randMax && DrawsInRange(draw, randMax)
    requires |before| == |after| && FLOATS_PER_PARTICLE * i + FLOATS_PER_PARTICLE <= |after|
    requires before[..FLOATS_PER_PARTICLE * i] == Galaxy(draw, start, randMax, i)
    requires forall j :: 0 <= j < |after| && !(FLOATS_PER_PARTICLE * i <= j < FLOATS_PER_PARTICLE * i + FLOATS_PER_PARTICLE) ==> after[j] == before[j]
    requires after[FLOATS_PER_PARTICLE * i .. FLOATS_PER_PARTICLE * i + FLOATS_PER_PARTICLE] == ParticleCoords(draw, start + DRAWS_PER_PARTICLE * i, randMax)
    ensures after[..FLOATS_PER_PARTICLE * (i + 1)] == Galaxy(draw, start, randMax, i + 1)
  {
    // The new prefix is the old one followed by the three floats just written.
  }

  /** Generating more particles leaves the floats of the earlier ones as they were. */
  lemma {:induction false} GalaxyPrefix(draw: nat -> int, start: nat, randMax: nat, m: nat, n: nat)
    requires 0 < randMax && DrawsInRange(draw, randMax)
    requires m <= n
    ensures Galaxy(draw, start, randMax, n)[..FLOATS_PER_PARTICLE * m] == Galaxy(draw, start, randMax, m)
  {
    if m < n {
      GalaxyPrefix(draw, start, randMax, m, n - 1);
      var shorter := Galaxy(draw, start, randMax, n - 1);
      assert Galaxy(draw, start, randMax, n)[..FLOATS_PER_PARTICLE * m] == shorter[..FLOATS_PER_PARTICLE * m];
    }
  }

  /** Particle i occupies floats 3i, 3i+1 and 3i+2: x is its base sine term
      plus the jitter of draws 14i+2 .. 14i+5, y is 0 plus the jitter of draws
      14i+6 .. 14i+9, and z is its base cosine term plus the jitter of draws
      14i+10 .. 14i+13; its arm comes from draw 14i and its radius from draw
      14i+1 (draws counted from start). */
  lemma {:induction false} GalaxyParticle(draw: nat -> int, start: nat, randMax: nat, n: nat, i: nat)
    requires 0 < randMax && DrawsInRange(draw, randMax)
    requires i < n
    ensures var from := start + DRAWS_PER_PARTICLE * i;
            var alpha := Alpha(ArmIndex(draw(from), randMax), draw(from + 1));
            var buffer := Galaxy(draw, start, randMax, n);
            && buffer[FLOATS_PER_PARTICLE * i .. FLOATS_PER_PARTICLE * i + FLOATS_PER_PARTICLE] == ParticleCoords(draw, from, randMax)
            && buffer[FLOATS_PER_PARTICLE * i] == Plus(SinBase(alpha), Jitter(Planar(alpha), Draws(draw, from + 2, JITTER_DRAWS)))
            && buffer[FLOATS_PER_PARTICLE * i + 1] == Plus(Zero, Jitter(Vertical(alpha), Draws(draw, from + 6, JITTER_DRAWS)))
            && buffer[FLOATS_PER_PARTICLE * i + 2] == Plus(CosBase(alpha), Jitter(Planar(alpha), Draws(draw, from + 10, JITTER_DRAWS)))
  {
    GalaxyPrefix(draw, start, randMax, i + 1, n);
    var buffer := Galaxy(draw, start, randMax, n);
    var upTo := Galaxy(draw, start, randMax, i + 1);
    assert buffer[FLOATS_PER_PARTICLE * i .. FLOATS_PER_PARTICLE * i + FLOATS_PER_PARTICLE] == upTo[FLOATS_PER_PARTICLE * i .. FLOATS_PER_PARTICLE * i + FLOATS_PER_PARTICLE];
  }

  /** Float j of the buffer is written by iteration j / 3, as its component j % 3. */
  lemma {:induction false} GalaxySlot(draw: nat -> int, start: nat, randMax: nat, n: nat, j: nat)
    requires 0 < randMax && DrawsInRange(draw, randMax)
    requires j < FLOATS_PER_PARTICLE * n
    ensures Galaxy(draw, start, randMax, n)[j]
         == ParticleCoords(draw, start + DRAWS_PER_PARTICLE * (j / FLOATS_PER_PARTICLE), randMax)[j % FLOATS_PER_PARTICLE]
  {
    var i := j / FLOATS_PER_PARTICLE;
    assert j == FLOATS_PER_PARTICLE * i + j % FLOATS_PER_PARTICLE;
    GalaxyParticle(draw, start, randMax, n, i);
  }

  /** After the loop no float still holds the buffer's initial zero: every one
      is the result of a `+=` of its particle's iteration. */
  lemma {:induction false} GalaxyFullyWritten(draw: nat -> int, start: nat, randMax: nat, n: nat, j: nat)
    requires 0 < randMax && DrawsInRange(draw, randMax)
    requires j < FLOATS_PER_PARTICLE * n
    ensures Galaxy(draw, start, randMax, n)[j].Plus?
  {
    GalaxySlot(draw, start, randMax, n, j);
  }

  /** The first n particles depend on draws start .. start + 14n - 1 and on no
      other draw of the stream. */
  lemma {:induction false} GalaxyReadsOnlyItsDraws(draw: nat -> int, other: nat -> int, start: nat, randMax: nat, n: nat)
    requires 0 < randMax && DrawsInRange(draw, randMax) && DrawsInRange(other, randMax)
    requires forall k :: start <= k < start + DRAWS_PER_PARTICLE * n ==> draw(k) == other(k)
    ensures Galaxy(draw, start, randMax, n) == Galaxy(other, start, randMax, n)
  {
    if n > 0 {
      GalaxyReadsOnlyItsDraws(draw, other, start, randMax, n - 1);
      var from := start + DRAWS_PER_PARTICLE * (n - 1);
      assert Draws(draw, from + 2, JITTER_DRAWS) == Draws(other, from + 2, JITTER_DRAWS);
      assert Draws(draw, from + 6, JITTER_DRAWS) == Draws(other, from + 6, JITTER_DRAWS);
      assert Draws(draw, from + 10, JITTER_DRAWS) == Draws(other, from + 10, JITTER_DRAWS);
    }
  }
}
