/** The level the program ships with: five sectors laid out around a square
    start room, every one with floor 0 and ceiling 3. */
module LevelData {
  import opened Wrappers
  import opened LevelStructure

  const LevelData: seq<LevelSector> := [
    LevelSector(0.0, 3.0, 1, 2, 0.8,
      [Vector2D(-2.0, -2.0), Vector2D(2.0, -2.0), Vector2D(2.0, 2.0), Vector2D(-2.0, 2.0)],
      [Wall(0.0, 1.0, 3), Wall(-1.0, -1.0, 4), Wall(0.0, 1.0, 5), Wall(0.0, 1.0, 6)]),
    LevelSector(0.0, 3.0, 7, 8, 0.7,
      [Vector2D(-2.0, 2.0), Vector2D(2.0, 2.0), Vector2D(2.0, 6.0), Vector2D(-2.0, 6.0)],
      [Wall(1.0, 0.5, 9), Wall(1.0, 0.5, 10), Wall(0.0, 0.5, 11), Wall(1.0, 0.5, 12)]),
    LevelSector(0.0, 3.0, 13, 14, 0.6,
      [Vector2D(2.0, 2.0), Vector2D(2.0, 6.0), Vector2D(6.0, 7.0), Vector2D(7.0, 4.0), Vector2D(5.0, 1.0)],
      [Wall(1.0, 0.5, 15), Wall(1.0, 0.5, 16), Wall(1.0, 0.5, 17), Wall(1.0, 0.5, 18), Wall(1.0, 0.5, 19)]),
    LevelSector(0.0, 3.0, 20, 21, 0.5,
      [Vector2D(-2.0, 6.0), Vector2D(2.0, 6.0), Vector2D(0.0, 9.0)],
      [Wall(0.0, 0.5, 22), Wall(-1.0, -1.0, 23), Wall(-1.0, -1.0, 24)]),
    LevelSector(0.0, 3.0, 25, 26, 0.9,
      [Vector2D(-2.0, -2.0), Vector2D(-2.0 - 5.0, -8.0), Vector2D(2.0 - 5.0, -8.0), Vector2D(2.0, -2.0)],
      [Wall(1.0, 0.5, 27), Wall(1.0, 0.5, 28), Wall(1.0, 0.5, 29), Wall(0.0, 1.0, 30)])
  ]

  /** The first wall texture id of each sector; a sector's wall ids run on
      consecutively from it. */
  const WallTextureBase: seq<int> := [3, 9, 15, 22, 27]

  /** Five sectors with 4, 4, 5, 3 and 4 vertices: each is at least a triangle. */
  lemma LevelDataShape()
    ensures |LevelData| == 5
    ensures |LevelData[0].vertices| == 4 && |LevelData[1].vertices| == 4 && |LevelData[2].vertices| == 5
    ensures |LevelData[3].vertices| == 3 && |LevelData[4].vertices| == 4
    ensures forall i :: 0 <= i < |LevelData| ==> |LevelData[i].vertices| >= 3
  {
  }

  /** Every sector meets the documented invariants (one wall per vertex,
      brightness in [0, 1]) and has floor 0 below ceiling 3, so the shipped
      level is a valid `Level` whatever its name and atlas. */
  lemma LevelDataValid(name: Option<string>, atlas: Option<string>)
    ensures forall i :: 0 <= i < |LevelData| ==> ValidSector(LevelData[i])
    ensures forall i :: 0 <= i < |LevelData| ==>
      LevelData[i].floorHeight == 0.0 < LevelData[i].ceilingHeight == 3.0
    ensures ValidLevel(Level(LevelData, name, atlas))
  {
  }

  /** The sector brightnesses are 0.8, 0.7, 0.6, 0.5 and 0.9. */
  lemma LevelDataBrightness()
    ensures seq(|LevelData|, i requires 0 <= i < |LevelData| => LevelData[i].brightness) == [0.8, 0.7, 0.6, 0.5, 0.9]
  {
  }

  /** Wall texture ids run consecutively within a sector, and each sector's
      run ends before the next sector's begins. */
  lemma WallTextureIdsLayout()
    ensures |WallTextureBase| == |LevelData|
    ensures forall i, j :: 0 <= i < |LevelData| && 0 <= j < |LevelData[i].walls| ==>
      LevelData[i].walls[j].textureId == WallTextureBase[i] + j
    ensures forall i, k :: 0 <= i < k < |LevelData| ==>
      WallTextureBase[i] + |LevelData[i].walls| <= WallTextureBase[k]
  {
    forall i, j | 0 <= i < |LevelData| && 0 <= j < |LevelData[i].walls|
      ensures LevelData[i].walls[j].textureId == WallTextureBase[i] + j
    {
      assert i == 0 || i == 1 || i == 2 || i == 3 || i == 4;
    }
  }

  /** No two walls of the level share a texture id, as the comment on
      `textureId` ("unique texture identifier") demands. */
  lemma WallTextureIdsDistinct()
    ensures forall i, j, k, l ::
      0 <= i < |LevelData| && 0 <= j < |LevelData[i].walls| &&
      0 <= k < |LevelData| && 0 <= l < |LevelData[k].walls| &&
      (i != k || j != l) ==>
      LevelData[i].walls[j].textureId != LevelData[k].walls[l].textureId
  {
    WallTextureIdsLayout();
  }

  /** Three pairs of walls stand on the same edge walked in opposite directions:
      the start room's north wall and the north room's south wall, the north
      room's north wall and the triangle's south wall, and the start room's
      south wall and the south room's last wall. */
  lemma SharedEdgesReversed()
    ensures WallEdge(LevelData[1], 0) == WallEdge(LevelData[0], 2).Reversed()
    ensures WallEdge(LevelData[3], 0) == WallEdge(LevelData[1], 2).Reversed()
    ensures WallEdge(LevelData[4], 3) == WallEdge(LevelData[0], 0).Reversed()
  {
  }

  /** The pentagon's first edge is the north room's east edge walked in the
      SAME direction: the level does not keep shared edges reversed throughout. */
  lemma SharedEdgeNotReversed()
    ensures WallEdge(LevelData[2], 0) == WallEdge(LevelData[1], 1)
    ensures WallEdge(LevelData[2], 0) != WallEdge(LevelData[1], 1).Reversed()
  {
  }

  /** Exactly three walls carry negative heights, all the sentinel pair -1/-1:
      the start room's east wall and the triangle's two slanted walls. */
  lemma NegativeHeightWalls()
    ensures forall i, j :: 0 <= i < |LevelData| && 0 <= j < |LevelData[i].walls| ==>
      ((LevelData[i].walls[j].bottomHeight < 0.0 || LevelData[i].walls[j].topHeight < 0.0) <==>
       (i, j) in {(0, 1), (3, 1), (3, 2)})
    ensures forall i, j ::
      (0 <= i < |LevelData| && 0 <= j < |LevelData[i].walls| &&
       (LevelData[i].walls[j].bottomHeight < 0.0 || LevelData[i].walls[j].topHeight < 0.0)) ==>
      LevelData[i].walls[j].bottomHeight == -1.0 && LevelData[i].walls[j].topHeight == -1.0
  {
    forall i, j | 0 <= i < |LevelData| && 0 <= j < |LevelData[i].walls|
      ensures (LevelData[i].walls[j].bottomHeight < 0.0 || LevelData[i].walls[j].topHeight < 0.0) <==>
              (i, j) in {(0, 1), (3, 1), (3, 2)}
    {
      assert i == 0 || i == 1 || i == 2 || i == 3 || i == 4;
    }
  }
}
