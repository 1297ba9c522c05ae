/** The earlier segment renderer: the same floor and ceiling, but every wall
    becomes a bottom and a top quad whatever its heights. */
module SegmentRenderer {
  import opened LevelStructure
  import opened Materials
  import opened Pieces
  import LevelRenderer

  /** The two quads of wall `i`, over the edge from vertex `i` to the next. */
  function SegmentWallPieces(s: LevelSector, i: nat): seq<Piece>
    requires i < |s.vertices| && i < |s.walls|
  {
    var v1 := s.vertices[i];
    var v2 := s.vertices[NextIndex(i, |s.vertices|)];
    var w := s.walls[i];
    [Quad(v1, v2, s.floorHeight, s.floorHeight + w.bottomHeight, w.textureId, s.brightness),
     Quad(v1, v2, s.ceilingHeight - w.topHeight, s.ceilingHeight, w.textureId, s.brightness * 0.8)]
  }

  /** The quads of walls `0 .. k-1`, in wall order. */
  function SegmentWallsUpTo(s: LevelSector, k: nat): seq<Piece>
    requires k <= |s.vertices| <= |s.walls|
  {
    if k == 0 then [] else SegmentWallsUpTo(s, k - 1) + SegmentWallPieces(s, k - 1)
  }

  /** Everything `drawSegment` adds to its group, in order. */
  function SegmentPieces(s: LevelSector): seq<Piece>
    requires Drawable(s)
  {
    [FloorPiece(s), CeilingPiece(s)] + SegmentWallsUpTo(s, |s.vertices|)
  }

  /** Walls `0 .. k-1` give two quads each; the `m`-th quad of wall `i` is at `2i + m`. */
  lemma {:induction false} SegmentWallsUpToAt(s: LevelSector, k: nat, i: nat, m: nat)
    requires k <= |s.vertices| <= |s.walls|
    requires i < k && m < 2
    ensures |SegmentWallsUpTo(s, k)| == 2 * k
    ensures SegmentWallsUpTo(s, k)[2 * i + m] == SegmentWallPieces(s, i)[m]
  {
    if i < k - 1 {
      SegmentWallsUpToAt(s, k - 1, i, m);
    } else if k > 1 {
      SegmentWallsUpToAt(s, k - 1, 0, 0);
    }
  }

  /** The segment renderer draws `2 + 2n` pieces: the floor, the ceiling,
      then for wall `i`, at `2 + 2i`, a bottom quad from the floor up by
      `bottomHeight` at the sector's brightness and, right after it, a top
      quad from `topHeight` below the ceiling up to it at 0.8 times the
      brightness, both over wall `i`'s edge with its texture. */
  lemma SegmentPiecesWall(s: LevelSector, i: nat)
    requires Drawable(s) && i < |s.vertices|
    ensures var P := SegmentPieces(s);
      var w := s.walls[i];
      var e := WallEdge(s, i);
      |P| == 2 + 2 * |s.vertices| &&
      P[0] == Floor(s.vertices, s.floorHeight, s.floorTextureId, s.brightness) &&
      P[1] == Ceiling(s.vertices, s.ceilingHeight, s.ceilingTextureId, s.brightness) &&
      P[2 + 2 * i] == Quad(e.start, e.end, s.floorHeight, s.floorHeight + w.bottomHeight, w.textureId, s.brightness) &&
      P[3 + 2 * i] == Quad(e.start, e.end, s.ceilingHeight - w.topHeight, s.ceilingHeight, w.textureId, s.brightness * 0.8)
  {
    var n := |s.vertices|;
    SegmentWallsUpToAt(s, n, i, 0);
    SegmentWallsUpToAt(s, n, i, 1);
  }

  /** The plane heights of wall `i`'s two quads are exactly `bottomHeight`
      and `topHeight`, whatever their sign: the -1/-1 sentinel of a solid
      wall gives two planes of height -1. */
  lemma SegmentQuadHeights(s: LevelSector, i: nat)
    requires Drawable(s) && i < |s.vertices|
    ensures var P := SegmentPieces(s);
      3 + 2 * i < |P| && P[2 + 2 * i].Quad? && P[3 + 2 * i].Quad? &&
      QuadHeight(P[2 + 2 * i]) == s.walls[i].bottomHeight &&
      QuadHeight(P[3 + 2 * i]) == s.walls[i].topHeight
  {
    SegmentPiecesWall(s, i);
  }

  lemma {:induction false} WallsAgree(s: LevelSector, k: nat)
    requires k <= |s.vertices| <= |s.walls|
    requires forall j :: 0 <= j < k ==> !LevelRenderer.IsPortal(s.walls[j])
    ensures LevelRenderer.WallsUpTo(s, k) == SegmentWallsUpTo(s, k)
  {
    if k > 0 {
      WallsAgree(s, k - 1);
    }
  }

  /** The two renderers draw the same pieces for a sector exactly when none
      of its walls is a portal: a portal wall is one full-height quad in the
      sector renderer but two quads here. */
  lemma RenderersAgree(s: LevelSector)
    requires Drawable(s)
    ensures LevelRenderer.SectorPieces(s) == SegmentPieces(s) <==>
      forall j :: 0 <= j < |s.vertices| ==> !LevelRenderer.IsPortal(s.walls[j])
  {
    var n := |s.vertices|;
    LevelRenderer.SectorPiecesCount(s);
    SegmentWallsUpToAt(s, n, 0, 0);
    if forall j :: 0 <= j < n ==> !LevelRenderer.IsPortal(s.walls[j]) {
      WallsAgree(s, n);
    }
  }

  /** The renderer object: its own material cache, filled as segments are drawn. */
  class SegmentRenderer {
    const materials: MaterialCache

    constructor ()
      ensures fresh(materials) && materials.Valid() && materials.entries == map[]
    {
      materials := new MaterialCache();
    }

    /** Builds the mesh group of a sector: the floor, the ceiling, then two
        quads per wall in index order, every mesh with the cached material
        for its texture and brightness; the cache gains exactly the keys the
        pieces ask for and keeps every entry it had. */
    method DrawSegment(s: LevelSector) returns (group: seq<Mesh>)
      requires materials.Valid() && Drawable(s)
      modifies materials
      ensures materials.Valid()
      ensures Recorded(group, SegmentPieces(s), old(materials.State()), materials.State())
      ensures materials.entries.Keys == old(materials.entries).Keys + Keys(SegmentPieces(s))
      ensures Extends(old(materials.entries), materials.entries)
    {
      var n := |s.vertices|;
      ghost var head := [FloorPiece(s), CeilingPiece(s)];
      group := AddFloorAndCeiling(materials, s);
      ghost var drawn := head;
      ghost var before := old(materials.State());
      var i := 0;
      while i < n
        invariant 0 <= i <= n
        invariant drawn == head + SegmentWallsUpTo(s, i)
        invariant materials.Valid()
        invariant Recorded(group, drawn, before, materials.State())
      {
        group := DrawSegmentWall(s, i, group, drawn, before);
        assert drawn + SegmentWallPieces(s, i) == head + SegmentWallsUpTo(s, i + 1);
        drawn := drawn + SegmentWallPieces(s, i);
        i := i + 1;
      }
      RecordedCache(group, drawn, before, materials.State());
    }

    /** One turn of `drawSegment`'s wall loop: the bottom and the top quad of
        wall `i` added to the group with their cached materials. */
    method DrawSegmentWall(s: LevelSector, i: nat, group: seq<Mesh>, ghost done: seq<Piece>,
      ghost before: CacheState)
      returns (group': seq<Mesh>)
      requires materials.Valid() && Drawable(s) && i < |s.vertices|
      requires Recorded(group, done, before, materials.State())
      modifies materials
      ensures materials.Valid()
      ensures |group'| == |group| + |SegmentWallPieces(s, i)| && group'[..|group|] == group
      ensures materials.State() == Filled(old(materials.State()), SegmentWallPieces(s, i))
      ensures Extends(old(materials.entries), materials.entries)
      ensures Recorded(group', done + SegmentWallPieces(s, i), before, materials.State())
    {
      ghost var start := materials.State();
      var n := |s.vertices|;
      var nextI := (i + 1) % n;
      assert nextI == NextIndex(i, n);
      var v1, v2, wall := s.vertices[i], s.vertices[nextI], s.walls[i];
      var bottom := Quad(v1, v2, s.floorHeight, s.floorHeight + wall.bottomHeight, wall.textureId, s.brightness);
      var top := Quad(v1, v2, s.ceilingHeight - wall.topHeight, s.ceilingHeight, wall.textureId, s.brightness * 0.8);
      group' := AddMesh(materials, group, done, before, bottom);
      group' := AddMesh(materials, group', done + [bottom], before, top);
      assert SegmentWallPieces(s, i) == [bottom, top];
      assert done + [bottom] + [top] == done + [bottom, top];
      RecordedStep(group, group', done, [bottom, top], before, start, materials.State());
    }
  }
}
