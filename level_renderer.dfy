/** The sector renderer: a sector becomes its floor, its ceiling and, wall by
    wall, either one full-height quad or a bottom and a top quad. */
module LevelRenderer {
  import opened LevelStructure
  import opened Materials
  import opened Pieces
  import LevelData

  /** A wall with either height negative. The renderer draws such a wall as
      one quad over the full floor-to-ceiling height. */
  predicate IsPortal(w: Wall) {
    w.bottomHeight < 0.0 || w.topHeight < 0.0
  }

  /** The quads of wall `i`, over the edge from vertex `i` to the next vertex. */
  function WallPieces(s: LevelSector, i: nat): seq<Piece>
    requires i < |s.vertices| && i < |s.walls|
  {
    var v1 := s.vertices[i];
    var v2 := s.vertices[NextIndex(i, |s.vertices|)];
    var w := s.walls[i];
    if IsPortal(w) then
      [Quad(v1, v2, s.floorHeight, s.ceilingHeight, w.textureId, s.brightness)]
    else
      [Quad(v1, v2, s.floorHeight, s.floorHeight + w.bottomHeight, w.textureId, s.brightness),
       Quad(v1, v2, s.ceilingHeight - w.topHeight, s.ceilingHeight, w.textureId, s.brightness * 0.8)]
  }

  /** The quads of walls `0 .. k-1`, in wall order. */
  function WallsUpTo(s: LevelSector, k: nat): seq<Piece>
    requires k <= |s.vertices| <= |s.walls|
  {
    if k == 0 then [] else WallsUpTo(s, k - 1) + WallPieces(s, k - 1)
  }

  /** Everything `drawSector` adds to its group, in order. */
  function SectorPieces(s: LevelSector): seq<Piece>
    requires Drawable(s)
  {
    [FloorPiece(s), CeilingPiece(s)] + WallsUpTo(s, |s.vertices|)
  }

  /** The number of walls in `ws` that the renderer treats as portals. */
  function PortalCount(ws: seq<Wall>): nat {
    if ws == [] then 0
    else PortalCount(ws[..|ws| - 1]) + (if IsPortal(ws[|ws| - 1]) then 1 else 0)
  }

  /** Where the quads of wall `i` start in the piece list. */
  function WallOffset(s: LevelSector, i: nat): int
    requires i <= |s.walls|
  {
    2 + 2 * i - PortalCount(s.walls[..i])
  }

  lemma {:induction false} PortalCountBounds(ws: seq<Wall>)
    ensures PortalCount(ws) <= |ws|
    ensures PortalCount(ws) == 0 <==> forall j :: 0 <= j < |ws| ==> !IsPortal(ws[j])
  {
    if ws != [] {
      var init := ws[..|ws| - 1];
      PortalCountBounds(init);
      assert forall j :: 0 <= j < |init| ==> init[j] == ws[j];
    }
  }

  lemma PortalCountStep(ws: seq<Wall>, i: nat)
    requires i < |ws|
    ensures PortalCount(ws[..i + 1]) == PortalCount(ws[..i]) + (if IsPortal(ws[i]) then 1 else 0)
  {
    assert ws[..i + 1][..i] == ws[..i];
  }

  /** The quads of walls `0 .. k-1` number `2k` less one per portal. */
  lemma {:induction false} WallsUpToLength(s: LevelSector, k: nat)
    requires k <= |s.vertices| <= |s.walls|
    ensures |WallsUpTo(s, k)| == WallOffset(s, k) - 2
  {
    if k > 0 {
      WallsUpToLength(s, k - 1);
      PortalCountStep(s.walls, k - 1);
    } else {
      assert s.walls[..0] == [];
    }
  }

  /** The `m`-th quad of wall `i < k` sits at wall `i`'s offset plus `m`. */
  lemma {:induction false} WallsUpToAt(s: LevelSector, k: nat, i: nat, m: nat)
    requires k <= |s.vertices| <= |s.walls|
    requires i < k && m < |WallPieces(s, i)|
    ensures 0 <= WallOffset(s, i) - 2 + m < |WallsUpTo(s, k)|
    ensures WallsUpTo(s, k)[WallOffset(s, i) - 2 + m] == WallPieces(s, i)[m]
  {
    var prev, last := WallsUpTo(s, k - 1), WallPieces(s, k - 1);
    assert WallsUpTo(s, k) == prev + last;
    if i < k - 1 {
      WallsUpToAt(s, k - 1, i, m);
      assert (prev + last)[WallOffset(s, i) - 2 + m] == prev[WallOffset(s, i) - 2 + m];
    } else {
      WallsUpToLength(s, k - 1);
      assert WallOffset(s, i) - 2 + m == |prev| + m;
      assert (prev + last)[|prev| + m] == last[m];
    }
  }

  /** The piece list starts with the floor and the ceiling, the walls follow
      in index order, and there are `2 + 2n` pieces less one per portal
      wall: between `n + 2` and `2n + 2`, the maximum exactly when no wall is
      a portal. */
  lemma SectorPiecesCount(s: LevelSector)
    requires Drawable(s)
    ensures var n := |s.vertices|;
      var P := SectorPieces(s);
      |P| == 2 + 2 * n - PortalCount(s.walls[..n]) &&
      n + 2 <= |P| <= 2 * n + 2 &&
      (|P| == 2 * n + 2 <==> forall j :: 0 <= j < n ==> !IsPortal(s.walls[j]))
    ensures SectorPieces(s)[0] == Floor(s.vertices, s.floorHeight, s.floorTextureId, s.brightness)
    ensures SectorPieces(s)[1] == Ceiling(s.vertices, s.ceilingHeight, s.ceilingTextureId, s.brightness)
    ensures WallOffset(s, 0) == 2
  {
    var n := |s.vertices|;
    WallsUpToLength(s, n);
    PortalCountBounds(s.walls[..n]);
    assert forall j :: 0 <= j < n ==> s.walls[..n][j] == s.walls[j];
    assert s.walls[..0] == [];
  }

  /** Wall `i` becomes, at its offset, one quad from floor to ceiling at the
      sector's brightness when it is a portal; otherwise a bottom quad from
      the floor up by `bottomHeight` at the sector's brightness followed by a
      top quad from `topHeight` below the ceiling up to it at 0.8 times the
      brightness. Every quad spans the edge from vertex `i` to vertex
      `(i + 1) mod n` and uses wall `i`'s texture; the next wall's quads
      follow directly. */
  lemma SectorPiecesWall(s: LevelSector, i: nat)
    requires Drawable(s) && i < |s.vertices|
    ensures var P := SectorPieces(s);
      var o := WallOffset(s, i);
      var w := s.walls[i];
      var e := WallEdge(s, i);
      if IsPortal(w) then
        2 <= o < |P| && WallOffset(s, i + 1) == o + 1 &&
        P[o] == Quad(e.start, e.end, s.floorHeight, s.ceilingHeight, w.textureId, s.brightness)
      else
        2 <= o && o + 1 < |P| && WallOffset(s, i + 1) == o + 2 &&
        P[o] == Quad(e.start, e.end, s.floorHeight, s.floorHeight + w.bottomHeight, w.textureId, s.brightness) &&
        P[o + 1] == Quad(e.start, e.end, s.ceilingHeight - w.topHeight, s.ceilingHeight, w.textureId, s.brightness * 0.8)
  {
    var n := |s.vertices|;
    PortalCountStep(s.walls, i);
    PortalCountBounds(s.walls[..i]);
    var P, W := SectorPieces(s), WallsUpTo(s, n);
    var o := WallOffset(s, i);
    WallsUpToAt(s, n, i, 0);
    assert P[o] == W[o - 2];
    if !IsPortal(s.walls[i]) {
      WallsUpToAt(s, n, i, 1);
      assert P[o + 1] == W[o - 1];
    }
  }

  /** The plane heights of wall `i`'s quads: the sector's full height for a
      portal, otherwise exactly `bottomHeight` and `topHeight`. None is
      negative when the floor is not above the ceiling, because a wall that
      is not a portal has no negative height. */
  lemma SectorQuadHeights(s: LevelSector, i: nat)
    requires Drawable(s) && i < |s.vertices|
    ensures var P := SectorPieces(s);
      var o := WallOffset(s, i);
      var w := s.walls[i];
      0 <= o < |P| && P[o].Quad? &&
      (IsPortal(w) ==> QuadHeight(P[o]) == s.ceilingHeight - s.floorHeight) &&
      (!IsPortal(w) ==>
        o + 1 < |P| && P[o + 1].Quad? &&
        QuadHeight(P[o]) == w.bottomHeight >= 0.0 && QuadHeight(P[o + 1]) == w.topHeight >= 0.0)
  {
    SectorPiecesWall(s, i);
  }

  lemma {:induction false} WallsUpToOrigin(s: LevelSector, k: nat, q: nat)
    requires k <= |s.vertices| <= |s.walls|
    requires q < |WallsUpTo(s, k)|
    ensures var p := WallsUpTo(s, k)[q];
      p.Quad? && (p.brightness == s.brightness || p.brightness == s.brightness * 0.8) &&
      exists i :: 0 <= i < k && WallEdge(s, i) == Edge(p.v1, p.v2) && p.textureId == s.walls[i].textureId
  {
    var prev := WallsUpTo(s, k - 1);
    assert WallsUpTo(s, k) == prev + WallPieces(s, k - 1);
    if q < |prev| {
      WallsUpToOrigin(s, k - 1, q);
    } else {
      assert WallEdge(s, k - 1) == Edge(WallsUpTo(s, k)[q].v1, WallsUpTo(s, k)[q].v2);
    }
  }

  /** Every piece after the floor and the ceiling is a quad drawn for some
      wall `i`: it spans wall `i`'s edge, uses its texture, and is lit at the
      sector's brightness or 0.8 times it. */
  lemma SectorQuadOrigin(s: LevelSector, q: nat)
    requires Drawable(s) && 2 <= q < |SectorPieces(s)|
    ensures var p := SectorPieces(s)[q];
      p.Quad? && (p.brightness == s.brightness || p.brightness == s.brightness * 0.8) &&
      exists i :: 0 <= i < |s.vertices| && WallEdge(s, i) == Edge(p.v1, p.v2) && p.textureId == s.walls[i].textureId
  {
    WallsUpToOrigin(s, |s.vertices|, q - 2);
  }

  /** In a valid sector every piece is lit within [0, 1], so two pieces of
      the sector share a cached material exactly when they use the same
      texture and the same whole percentage of brightness. */
  lemma SectorPiecesShareMaterial(s: LevelSector, j: nat, k: nat)
    requires ValidSector(s) && Drawable(s)
    requires j < |SectorPieces(s)| && k < |SectorPieces(s)|
    ensures var P := SectorPieces(s);
      0.0 <= P[j].brightness <= 1.0 &&
      (Key(P[j]) == Key(P[k]) <==>
        P[j].textureId == P[k].textureId && (P[j].brightness * 100.0).Floor == (P[k].brightness * 100.0).Floor)
  {
    if j >= 2 { SectorQuadOrigin(s, j); }
    if k >= 2 { SectorQuadOrigin(s, k); }
    var P := SectorPieces(s);
    MaterialKeyShared(P[j].textureId, P[j].brightness, P[k].textureId, P[k].brightness);
  }

  /** Portal walls per shipped sector: one in the start room, two in the
      triangle, none elsewhere. */
  lemma ShippedLevelPortalCounts()
    ensures PortalCount(LevelData.LevelData[0].walls) == 1
    ensures PortalCount(LevelData.LevelData[1].walls) == 0
    ensures PortalCount(LevelData.LevelData[2].walls) == 0
    ensures PortalCount(LevelData.LevelData[3].walls) == 2
    ensures PortalCount(LevelData.LevelData[4].walls) == 0
  {
    var L := LevelData.LevelData;
    PortalCountBounds(L[1].walls);
    PortalCountBounds(L[2].walls);
    PortalCountBounds(L[4].walls);
    var ws := L[0].walls;
    assert ws[..3][..2] == ws[..2] && ws[..2][..1] == ws[..1] && ws[..1][..0] == [];
    assert PortalCount(ws[..1]) == 0;
    assert PortalCount(ws[..2]) == 1;
    assert PortalCount(ws[..3]) == 1;
    ws := L[3].walls;
    assert ws[..2][..1] == ws[..1] && ws[..1][..0] == [];
    assert PortalCount(ws[..1]) == 0;
    assert PortalCount(ws[..2]) == 1;
  }

  lemma FullSectorPiecesCount(s: LevelSector)
    requires 0 < |s.vertices| == |s.walls|
    ensures |SectorPieces(s)| == 2 + 2 * |s.walls| - PortalCount(s.walls)
  {
    SectorPiecesCount(s);
    assert s.walls[..|s.vertices|] == s.walls;
  }

  /** The shipped level's sectors draw 9, 10, 12, 6 and 10 pieces. */
  lemma ShippedLevelPieceCounts()
    ensures forall i :: 0 <= i < |LevelData.LevelData| ==> Drawable(LevelData.LevelData[i])
    ensures |SectorPieces(LevelData.LevelData[0])| == 9
    ensures |SectorPieces(LevelData.LevelData[1])| == 10
    ensures |SectorPieces(LevelData.LevelData[2])| == 12
    ensures |SectorPieces(LevelData.LevelData[3])| == 6
    ensures |SectorPieces(LevelData.LevelData[4])| == 10
  {
    var L := LevelData.LevelData;
    ShippedLevelPortalCounts();
    FullSectorPiecesCount(L[0]);
    FullSectorPiecesCount(L[1]);
    FullSectorPiecesCount(L[2]);
    FullSectorPiecesCount(L[3]);
    FullSectorPiecesCount(L[4]);
  }

  /** The renderer object: its material cache, filled as sectors are drawn. */
  class LevelRenderer {
    const materials: MaterialCache

    constructor ()
      ensures fresh(materials) && materials.Valid() && materials.entries == map[]
    {
      materials := new MaterialCache();
    }

    /** Builds the mesh group of a sector: the floor, the ceiling, then each
        wall's quads in index order, every mesh with the cached material for
        its texture and brightness. The cache gains exactly the keys the
        pieces ask for and keeps every entry it had. */
    method DrawSector(s: LevelSector) returns (group: seq<Mesh>)
      requires materials.Valid() && Drawable(s)
      modifies materials
      ensures materials.Valid()
      ensures Recorded(group, SectorPieces(s), old(materials.State()), materials.State())
      ensures materials.entries.Keys == old(materials.entries).Keys + Keys(SectorPieces(s))
      ensures Extends(old(materials.entries), materials.entries)
    {
      var n := |s.vertices|;
      ghost var head := [FloorPiece(s), CeilingPiece(s)];
      group := AddFloorAndCeiling(materials, s);
      ghost var drawn := head;
      ghost var before := old(materials.State());
      var i := 0;
      while i < n
        invariant 0 <= i <= n
        invariant drawn == head + WallsUpTo(s, i)
        invariant materials.Valid()
        invariant Recorded(group, drawn, before, materials.State())
      {
        group := DrawWall(s, i, group, drawn, before);
        ghost var more := WallPieces(s, i);
        assert WallsUpTo(s, i + 1) == WallsUpTo(s, i) + more;
        assert drawn + more == head + WallsUpTo(s, i + 1);
        drawn := drawn + more;
        i := i + 1;
      }
      assert drawn == SectorPieces(s);
      RecordedCache(group, drawn, before, materials.State());
    }
  
    /** One turn of `drawSector`'s wall loop: the quads of wall `i` added to
        the group with their cached materials. */
    method DrawWall(s: LevelSector, i: nat, group: seq<Mesh>, ghost done: seq<Piece>,
      ghost before: CacheState) returns (group': seq<Mesh>)
      requires materials.Valid() && Drawable(s) && i < |s.vertices|
      requires Recorded(group, done, before, materials.State())
      modifies materials
      ensures materials.Valid()
      ensures |group'| == |group| + |WallPieces(s, i)| && group'[..|group|] == group
      ensures materials.State() == Filled(old(materials.State()), WallPieces(s, i))
      ensures Extends(old(materials.entries), materials.entries)
      ensures Recorded(group', done + WallPieces(s, i), before, materials.State())
    {
      ghost var start := materials.State();
      var n := |s.vertices|;
      var nextI := (i + 1) % n;
      assert nextI == NextIndex(i, n);
      var v1, v2, wall := s.vertices[i], s.vertices[nextI], s.walls[i];
      if IsPortal(wall) {
        var full := Quad(v1, v2, s.floorHeight, s.ceilingHeight, wall.textureId, s.brightness);
        group' := AddMesh(materials, group, done, before, full);
        assert WallPieces(s, i) == [full];
        RecordedStep(group, group', done, [full], before, start, materials.State());
      } else {
        var bottom := Quad(v1, v2, s.floorHeight, s.floorHeight + wall.bottomHeight, wall.textureId, s.brightness);
        var top := Quad(v1, v2, s.ceilingHeight - wall.topHeight, s.ceilingHeight, wall.textureId, s.brightness * 0.8);
        group' := AddMesh(materials, group, done, before, bottom);
        group' := AddMesh(materials, group', done + [bottom], before, top);
        assert WallPieces(s, i) == [bottom, top];
        assert done + [bottom] + [top] == done + [bottom, top];
        RecordedStep(group, group', done, [bottom, top], before, start, materials.State());
      }
    }
  }
}
