/** Grid coordinates of the game world: column indices, planet-qualified
    column keys, entity positions and the wrap-around of a planet's surface. */
module Geometry {

  /** A column (or chunk) index in the horizontal plane. */
  datatype Index2 = Index2(x: int, y: int)

  /** A three-dimensional block or chunk index. */
  datatype Index3 = Index3(x: int, y: int, z: int) {
    function Plus(o: Index3): (r: Index3)
      ensures r == Index3(x + o.x, y + o.y, z + o.z)
    {
      Index3(x + o.x, y + o.y, z + o.z)
    }
  }

  /** The extent of a planet along one horizontal axis, in columns. */
  type PlanetSize = n: int | n > 0 witness 1

  /** The part of a planet the entity cache needs: its id and its horizontal size. */
  datatype Planet = Planet(id: int, sizeX: PlanetSize, sizeY: PlanetSize)

  /** A column on a given planet: the key of the subscription ledger. */
  datatype PlanetIndex2 = PlanetIndex2(planet: int, column: Index2)

  /** An entity position: the planet, the chunk holding the block, and the
      block within that chunk (the sub-block float offset is not modelled). */
  datatype Coordinate = Coordinate(planet: int, chunkIndex: Index3, blockInChunk: Index3)

  /** Wrap-around of one coordinate onto a planet axis (Euclidean remainder). */
  function Wrap(v: int, size: PlanetSize): (r: int)
    ensures 0 <= r < size
  {
    v % size
  }

  /** Two values of one window narrower than the planet wrap to the same
      column only if they are equal. */
  lemma WrapInjective(a: int, b: int, size: PlanetSize)
    requires a <= b < a + size
    requires Wrap(a, size) == Wrap(b, size)
    ensures a == b
  {
    var qa, qb := a / size, b / size;
    assert a - Wrap(a, size) == size * qa;
    assert b - Wrap(b, size) == size * qb;
    assert b - a == size * (qb - qa);
    if qb - qa >= 1 {
      MulAtLeast(size, qb - qa);
    } else if qb - qa <= -1 {
      MulAtLeast(size, qa - qb);
    }
  }

  lemma MulAtLeast(n: int, k: int)
    requires n > 0 && k >= 1
    ensures n * k >= n
  {
    assert n * k == n + n * (k - 1);
  }

  /** Index2.NormalizeXY(planet.Size): both coordinates wrapped onto the planet. */
  function NormalizeXY(i: Index2, planet: Planet): (r: Index2)
    ensures 0 <= r.x < planet.sizeX && 0 <= r.y < planet.sizeY
  {
    Index2(Wrap(i.x, planet.sizeX), Wrap(i.y, planet.sizeY))
  }

  /** The horizontal chunk index of a position. */
  function ChunkXY(c: Coordinate): Index2 {
    Index2(c.chunkIndex.x, c.chunkIndex.y)
  }

  /** The planet-qualified column a position lies in. */
  function ColumnOf(c: Coordinate): PlanetIndex2 {
    PlanetIndex2(c.planet, ChunkXY(c))
  }
}
