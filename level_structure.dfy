/** The level data model: 2D vertices, walls, polygonal sectors and a level.
    Numbers that the level stores as floating-point values (coordinates,
    heights, brightness) are reals; texture identifiers are integers. */
module LevelStructure {
  import opened Wrappers

  /** A 2D point in map space; `y` is the map's depth axis, not the vertical one. */
  datatype Vector2D = Vector2D(x: real, y: real)

  /** The partial-height wall data attached to one polygon edge. */
  datatype Wall = Wall(bottomHeight: real, topHeight: real, textureId: int)

  /** A polygonal sector. Wall `i` belongs to the edge that starts at vertex `i`. */
  datatype LevelSector = LevelSector(
    floorHeight: real,
    ceilingHeight: real,
    floorTextureId: int,
    ceilingTextureId: int,
    brightness: real,
    vertices: seq<Vector2D>,
    walls: seq<Wall>)

  /** A level: its sectors in order, with an optional name and texture atlas path. */
  datatype Level = Level(sectors: seq<LevelSector>, name: Option<string>, textureAtlas: Option<string>)

  /** The documented invariants of a sector: one wall per vertex and a
      brightness between 0.0 and 1.0. */
  predicate ValidSector(s: LevelSector) {
    |s.walls| == |s.vertices| && 0.0 <= s.brightness <= 1.0
  }

  /** A level is valid when each of its sectors is; the optional fields are free. */
  predicate ValidLevel(l: Level) {
    forall i :: 0 <= i < |l.sectors| ==> ValidSector(l.sectors[i])
  }

  /** A directed segment between two vertices. */
  datatype Edge = Edge(start: Vector2D, end: Vector2D) {
    function Reversed(): Edge { Edge(end, start) }
  }

  /** The edge that wall `i` of a sector stands on: from vertex `i` to the next
      vertex, the last vertex wrapping round to the first. */
  function WallEdge(s: LevelSector, i: nat): Edge
    requires i < |s.vertices|
  {
    Edge(s.vertices[i], s.vertices[NextIndex(i, |s.vertices|)])
  }

  /** `(i + 1) % n` for an index `i < n`: the following index, 0 after the last. */
  function NextIndex(i: nat, n: nat): (j: nat)
    requires i < n
    ensures j == (i + 1) % n
    ensures j < n
  {
    if i + 1 < n then i + 1 else 0
  }

  /** The edges of a sector's walls form one closed loop through its vertices:
      every edge starts at vertex `i`, ends where the next edge starts, and the
      loop ends back at vertex 0. */
  lemma WallEdgesFormLoop(s: LevelSector)
    requires |s.vertices| > 0
    ensures forall i :: 0 <= i < |s.vertices| ==>
      WallEdge(s, i).start == s.vertices[i] &&
      WallEdge(s, i).end == WallEdge(s, (i + 1) % |s.vertices|).start
    ensures WallEdge(s, |s.vertices| - 1).end == s.vertices[0]
  {
  }

  /** Whether a level is valid depends on its sectors alone. */
  lemma ValidLevelIgnoresOptionalFields(l: Level, name: Option<string>, atlas: Option<string>)
    ensures ValidLevel(l) <==> ValidLevel(Level(l.sectors, name, atlas))
  {
  }
}
