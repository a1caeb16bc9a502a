/**
 * How the point field is read back on the way to the screen: the whole
 * buffer is uploaded once, attribute 0 is a tightly packed three-float
 * position, and every frame draws PARTICLES points starting at vertex 0.
 */
module PointDraw {
  import opened Wrappers
  import opened ParticleField

  /** sizeof(GLfloat) */
  const FLOAT_BYTES: nat := 4
  /** Components of attribute 0. */
  const ATTRIB_COMPONENTS: nat := 3
  /** Bytes from one vertex to the next: 3 * sizeof(GLfloat). */
  const ATTRIB_STRIDE: nat := 3 * FLOAT_BYTES
  /** Byte offset of vertex 0 in the buffer. */
  const ATTRIB_OFFSET: nat := 0 * FLOAT_BYTES
  /** The first vertex and the number of vertices of the point draw. */
  const DRAW_FIRST: nat := 0
  const DRAW_COUNT: nat := PARTICLES

  /** Size in bytes of the upload: sizeof(GLfloat) * vertexData.size(). */
  function BufferBytes(vertexData: seq<Coord>): nat
  {
    FLOAT_BYTES * |vertexData|
  }

  /** The position the draw fetches for vertex v: ATTRIB_COMPONENTS floats
      starting ATTRIB_OFFSET + v * ATTRIB_STRIDE bytes into the upload, or None
      when some of those bytes lie past its end. */
  function FetchVertex(vertexData: seq<Coord>, v: nat): (p: Option<seq<Coord>>)
    ensures p.Some? <==> ATTRIB_OFFSET + v * ATTRIB_STRIDE + ATTRIB_COMPONENTS * FLOAT_BYTES <= BufferBytes(vertexData)
    ensures p.Some? ==> |p.value| == ATTRIB_COMPONENTS
  {
    var first := (ATTRIB_OFFSET + v * ATTRIB_STRIDE) / FLOAT_BYTES;
    assert first == ATTRIB_COMPONENTS * v;
    if first + ATTRIB_COMPONENTS <= |vertexData| then Some(vertexData[first .. first + ATTRIB_COMPONENTS])
    else None
  }

  /** The stride, the offset and the draw count agree with the fill: vertex v
      of the draw is exactly particle v, the vertices drawn tile the whole
      upload, and the vertex after the last one drawn would lie outside it. */
  lemma DrawFetchesEveryParticle(draw: nat -> int, start: nat, randMax: nat)
    requires 0 < randMax && DrawsInRange(draw, randMax)
    ensures var buffer := Galaxy(draw, start, randMax, PARTICLES);
            && (forall v :: DRAW_FIRST <= v < DRAW_FIRST + DRAW_COUNT ==>
                  FetchVertex(buffer, v) == Some(ParticleCoords(draw, start + DRAWS_PER_PARTICLE * v, randMax)))
            && ATTRIB_OFFSET + (DRAW_FIRST + DRAW_COUNT) * ATTRIB_STRIDE == BufferBytes(buffer)
            && FetchVertex(buffer, DRAW_FIRST + DRAW_COUNT).None?
  {
    var buffer := Galaxy(draw, start, randMax, PARTICLES);
    forall v | DRAW_FIRST <= v < DRAW_FIRST + DRAW_COUNT
      ensures FetchVertex(buffer, v) == Some(ParticleCoords(draw, start + DRAWS_PER_PARTICLE * v, randMax))
    {
      GalaxyParticle(draw, start, randMax, PARTICLES, v);
      assert (ATTRIB_OFFSET + v * ATTRIB_STRIDE) / FLOAT_BYTES == FLOATS_PER_PARTICLE * v;
    }
  }
}
