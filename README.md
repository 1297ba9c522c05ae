# Sector level data, sector rendering and the texture picker

This project models the data core of a small Build/Doom-style level engine written in
TypeScript on top of a 3D library:

- the level data model (`Vector2D`, `Wall`, `LevelSector`, `Level`) with its documented
  invariants: one wall per vertex, wall `i` on the edge from vertex `i` to the next,
  brightness in [0, 1];
- the five-sector level the program ships with, as a constant, with lemmas about its
  shape, validity, texture ids, shared edges and sentinel walls;
- the two sector renderers (`LevelRenderer.drawSector` and the earlier
  `SegmentRenderer.drawSegment`). The 3D library is abstracted away, so a renderer builds
  an ordered list of pieces: the floor outline, the ceiling outline, then one or two wall
  quads per wall. Each quad is `(v1, v2, bottomY, topY, textureId, brightness)`. Each piece
  gets its material from a memoising cache keyed by
  `textureId * 1000 + floor(brightness * 100)`;
- the 8-entry colour palette lookup, with JavaScript's truncating `%`;
- the texture picker's selection cursor (`changeSelection`), its preview cubes
  (`createTextureCubes`) and the guarded read of the selected cube in
  `updateCubePositions`.

Modules: `Wrappers` (Option), `JsNumber` (truncating remainder), `LevelStructure`,
`LevelData`, `Materials` (palette, cache key, `MaterialCache` class), `Pieces` (piece and
mesh values, the shared "add a mesh" step), `LevelRenderer`, `SegmentRenderer`,
`TextureManager`. Code that only computes a value is written as functions and lemmas. Code
that updates state is written as classes: `MaterialCache` holds the `materials` map, the
renderer classes hold a cache, and `TextureManager` holds `textureArray`, `cubes` and
`selectedIndex`. Their methods say what they do to that state. The draw loops are `while`
loops, and each is proved against a specification function (`SectorPieces`,
`SegmentPieces`).

Notes on the code as written:

- `isPortal` (LevelRenderer.ts:41-43) holds when EITHER height is negative, and the branch
  it guards (LevelRenderer.ts:72-83, commented "Portal: full height wall") draws one quad
  over the full floor-to-ceiling height. `IsPortal` is that predicate, and the lemmas
  describe what the renderer does with it.
- The renderers need only one vertex, plus one wall per vertex (`Pieces.Drawable`), to
  draw a sector. All shipped sectors have at least 3 (`LevelData.LevelDataShape`).
- `SegmentRenderer` has no portal branch. A -1/-1 wall therefore gives two quads of plane
  height -1 (`SegmentRenderer.SegmentQuadHeights`). `LevelRenderer` draws the same wall as
  one full-height quad, and it does the same for any wall with either height negative. The
  two renderers produce the same pieces exactly when none of a sector's walls has a negative
  height, that is, none is a portal in the sense of `IsPortal` (`SegmentRenderer.RenderersAgree`).
- `changeSelection` adds the length once before taking `%`. A step further back than
  `-len - selectedIndex` therefore leaves a negative index, unless
  `selectedIndex + delta + len` is a multiple of `len`, whose remainder is `-0`, which reads
  entry 0 (`TextureManager.NextSelectionNonNegative`). `updateCubePositions` only checks
  `selectedIndex < cubes.length`, so it would then read `cubes[-k]`, which is `undefined`,
  and fail (`TextureManager.TextureManager.UpdateSelectionFrame`). Steps of at least
  `-len` from a valid index never do this (`TextureManager.NextSelectionInRange`).
- The shipped level does not keep shared edges reversed throughout. The pentagon's first
  edge runs in the same direction as the north room's east edge
  (`LevelData.SharedEdgeNotReversed`).

## Model

| member | source | states |
|---|---|---|
| JsNumber.Rem | TextureManager.ts:147 | JavaScript `a % b` for a positive divisor: the result has the dividend's sign, is smaller in magnitude than the divisor, and differs from the dividend by a multiple of it |
| JsNumber.RemOfNonNegative | TextureManager.ts:147 | on a non-negative dividend the truncating and the Euclidean remainder agree |
| JsNumber.RemUnique | TextureManager.ts:147 | those three properties determine the truncating remainder uniquely |
| LevelStructure.NextIndex | LevelRenderer.ts:66 | `nextI = (i + 1) % n` is the following index, and 0 after the last; always a valid index |
| LevelStructure.WallEdgesFormLoop | types/LevelStructure.ts:7-27 | wall `i`'s edge starts at vertex `i` and ends where wall `i+1 mod n`'s edge starts; the last edge closes the polygon at vertex 0 |
| LevelStructure.ValidLevelIgnoresOptionalFields | types/LevelStructure.ts:31-35 | a level's validity depends on its sectors only; the optional `name` and `textureAtlas` impose nothing |
| LevelData.LevelDataShape | LevelData.ts:4-100 | the level has 5 sectors with 4, 4, 5, 3 and 4 vertices, so each has at least 3 |
| LevelData.LevelDataValid | LevelData.ts:4-100 | every sector satisfies `LevelStructure.ValidSector`, the invariants of types/LevelStructure.ts:23 and :27: it has as many walls as vertices and a brightness in [0, 1], and floor 0 below ceiling 3; the level satisfies `LevelStructure.ValidLevel` whatever its name and atlas |
| LevelData.LevelDataBrightness | LevelData.ts:10-86 | the sector brightnesses are 0.8, 0.7, 0.6, 0.5 and 0.9 |
| LevelData.WallTextureIdsLayout | LevelData.ts:17-98 | within a sector the wall texture ids run on consecutively from 3, 9, 15, 22 and 27, and each sector's run ends before the next one's begins |
| LevelData.WallTextureIdsDistinct | LevelData.ts:17-98 | no two walls of the level share a texture id, as the "unique texture identifier" comment at types/LevelStructure.ts:11 demands |
| LevelData.SharedEdgesReversed | LevelData.ts:11-91 | sector 1 wall 0 is sector 0 wall 2 reversed, sector 3 wall 0 is sector 1 wall 2 reversed, sector 4 wall 3 is sector 0 wall 0 reversed |
| LevelData.SharedEdgeNotReversed | LevelData.ts:30-51 | sector 2 wall 0 is the same directed edge as sector 1 wall 1, not its reverse |
| LevelData.NegativeHeightWalls | LevelData.ts:17-79 | a wall has a negative height exactly when it is sector 0 wall 1 or sector 3 wall 1 or 2, and those are all -1/-1 |
| Materials.ColorLookup | LevelRenderer.ts:13-25 | `ColorFromTextureId`, the model of `getColorFromTextureId` over `Palette`, is defined exactly for non-negative ids and multiples of 8 (JavaScript `-0`); if so it returns entry `textureId mod 8` of the 8 colours; it has period 8 on non-negative ids; the copy at SegmentRenderer.ts:12-24 is identical |
| Materials.MaterialKeyShared | LevelRenderer.ts:28 | about `MaterialKey`, the model of the cache key `textureId * 1000 + Math.floor(brightness * 100)`: for brightness in [0, 1] the brightness part of the key is in [0, 100], and two requests share a key exactly when they have the same texture id and the same `floor(brightness * 100)` |
| Materials.Fetch | LevelRenderer.ts:27-39 | `getMaterial` as a function of the cache: afterwards the key is cached and the result is its entry, the cache gains exactly that key and keeps every entry; a hit leaves the cache as it was; a miss returns a material in the texture's palette colour at the request's brightness and counts one more material |
| Materials.FetchKeepsValid | LevelRenderer.ts:30-35 | a miss creates a material that is none of the cached ones, so every cached material keeps a serial below the count and no two keys hold the same material |
| Materials.MaterialCache.constructor | LevelRenderer.ts:7 | a renderer's `materials` map starts empty |
| Materials.MaterialCache.GetMaterial | LevelRenderer.ts:27-39 | the new cache and the result are `Fetch` of the old cache; the key is cached and the returned material is its entry; a hit changes nothing; a miss stores one new material, distinct from every cached one, built from the palette colour and the request's brightness; no entry is ever removed or replaced; the cache stays valid, with no two keys holding the same material (the same code is at SegmentRenderer.ts:26-38) |
| Pieces.AddMesh | LevelRenderer.ts:79-83 | adding a mesh fetches the piece's material (the cache becomes `Fetch` of the cache at the call), appends exactly one mesh, the piece with that material, to the group, keeps every entry cached at the call, and extends the record of the draw by the piece |
| Pieces.FilledAppend | LevelRenderer.ts:45-109 | about `Filled`, the cache after `getMaterial` has been called for a run of pieces in order: fetching the materials of one run of pieces and then of another leaves the cache as fetching for both runs in order |
| Pieces.FilledGrows | LevelRenderer.ts:27-39 | `Filled`: fetching the materials of a run of pieces adds exactly their keys to the cache and keeps every entry |
| Pieces.FilledValid | LevelRenderer.ts:30-35 | `Filled`: fetching the materials of a run of pieces keeps the cache valid: serials below the count, no material under two keys |
| Pieces.FilledCreates | LevelRenderer.ts:30-35 | in `Filled`, a key not cached before is filled by the first piece of the run asking for it: its material has that piece's palette colour and brightness |
| Pieces.RecordedCache | LevelRenderer.ts:27-39 | after a recorded draw from a valid cache, the cache is valid and has gained exactly the drawn pieces' keys, keeping every entry; each new key holds a material in the palette colour and brightness of the first piece asking for it; meshes with different keys hold different materials |
| Pieces.RecordedStep | LevelRenderer.ts:64-109 | extending a recorded draw keeps the meshes already in the group, appends one mesh per new piece, keeps every entry cached at that point, and leaves the cache as that point's cache with the new pieces' materials fetched in order |
| Pieces.AddFloorAndCeiling | LevelRenderer.ts:48-62 | the group is the outline at floor height with the floor texture, then the outline at ceiling height with the ceiling texture, both at sector brightness, each with its cached material, and the cache is the one at the call with those two materials fetched in order |
| LevelRenderer.SectorPiecesCount | LevelRenderer.ts:45-109 | about `SectorPieces`, the pieces `drawSector` adds: the floor, the ceiling, then the `WallPieces` of each wall in index order (`WallsUpTo`); that is `2 + 2n` pieces less one per portal wall, between `n + 2` and `2n + 2`, the maximum exactly when no wall is a portal (`IsPortal`, the model of `isPortal` at LevelRenderer.ts:41-43: either height negative) |
| LevelRenderer.SectorPiecesWall | LevelRenderer.ts:65-108 | in `SectorPieces`, at offset `WallOffset(s, i)` stand the `WallPieces(s, i)` of wall `i`: one quad from floor to ceiling at sector brightness if `IsPortal` holds. Otherwise it gives a bottom quad from the floor up by `bottomHeight` at brightness `b`, then a top quad from `topHeight` below the ceiling up to the ceiling at `b * 0.8`. Every quad spans vertex `i` to vertex `i+1 mod n` and uses wall `i`'s texture; the next wall follows directly |
| LevelRenderer.SectorQuadHeights | LevelRenderer.ts:132 | the quad heights `topY - bottomY` of wall `i` are the sector height for a portal, and exactly `bottomHeight` and `topHeight` (both non-negative) otherwise |
| LevelRenderer.SectorQuadOrigin | LevelRenderer.ts:65-108 | every piece after the floor and the ceiling is a quad of some wall `i`: it lies on `i`'s edge, uses its texture, and is lit at `b` or `b * 0.8` |
| LevelRenderer.SectorPiecesShareMaterial | LevelRenderer.ts:27-39 | in a valid sector every piece's brightness is in [0, 1], so two pieces share a cache entry exactly when their texture ids and `floor(brightness * 100)` are equal (with `Pieces.RecordedCache`: pieces with different keys get different materials) |
| LevelRenderer.ShippedLevelPortalCounts | LevelRenderer.ts:41-43 | counting walls with `IsPortal`: in the shipped level the start room has one portal wall and the triangle has two; the other sectors have none |
| LevelRenderer.ShippedLevelPieceCounts | LevelRenderer.ts:45-109 | every shipped sector can be drawn, and they draw 9, 10, 12, 6 and 10 pieces |
| LevelRenderer.LevelRenderer.constructor | LevelRenderer.ts:5-11 | a new renderer has its own empty material cache |
| LevelRenderer.LevelRenderer.DrawSector | LevelRenderer.ts:45-113 | the returned group is exactly `SectorPieces(s)` in order, each piece with the cached material for its key; the cache is the old cache with the materials of those pieces fetched in order, so it gains exactly the pieces' keys, keeps every entry, and stays valid |
| LevelRenderer.LevelRenderer.DrawWall | LevelRenderer.ts:65-108 | one turn of the wall loop keeps the group's meshes and appends one mesh per quad of wall `i`; the cache becomes the cache at the call with those quads' materials fetched, keeping every entry |
| SegmentRenderer.SegmentPiecesWall | SegmentRenderer.ts:43-89 | `SegmentPieces`, the pieces `drawSegment` adds, are `2 + 2n` pieces: floor, ceiling, then for wall `i` at `2 + 2i` its `SegmentWallPieces`, a bottom quad (floor to floor + `bottomHeight`, brightness `b`) and a top quad (ceiling - `topHeight` to ceiling, brightness `b * 0.8`), on the edge from vertex `i` to vertex `i+1 mod n`, with wall `i`'s texture |
| SegmentRenderer.SegmentQuadHeights | SegmentRenderer.ts:112 | the two quad heights `topY - bottomY` of wall `i` are exactly `bottomHeight` and `topHeight`, so a -1 height gives -1 |
| SegmentRenderer.RenderersAgree | SegmentRenderer.ts:59-89 | the segment renderer and the sector renderer produce the same pieces for a sector (`SegmentPieces(s) == SectorPieces(s)`) exactly when no wall satisfies `IsPortal`, i.e. none has a negative height |
| SegmentRenderer.SegmentRenderer.constructor | SegmentRenderer.ts:4-10 | a new renderer has its own empty material cache |
| SegmentRenderer.SegmentRenderer.DrawSegment | SegmentRenderer.ts:40-93 | the returned group is exactly `SegmentPieces(s)` in order with cached materials; the cache is the old cache with those pieces' materials fetched in order, so it gains exactly their keys, keeps every entry, and stays valid |
| SegmentRenderer.SegmentRenderer.DrawSegmentWall | SegmentRenderer.ts:60-89 | one turn of the wall loop keeps the group's meshes and appends wall `i`'s bottom and top quads; the cache becomes the cache at the call with those two materials fetched, keeping every entry |
| TextureManager.CubesFor | TextureManager.ts:113-118 | one cube per texture set, in order, with that set's material and render order 1000 |
| TextureManager.NextSelectionInRange | TextureManager.ts:147 | about `NextSelection(index, delta, len)`, the model of `changeSelection`'s update: `index` itself when `len` is 0, otherwise the truncating `(index + delta + len) % len`. When `index + delta + len >= 0` (in particular for a valid index and `delta >= -len`), the new selection is `(index + delta) mod len`, in [0, len) |
| TextureManager.NextSelectionNonNegative | TextureManager.ts:147 | `NextSelection`: the new selection is below `len` always, and non-negative exactly when `index + delta + len` is non-negative or a multiple of `len` |
| TextureManager.NextSelectionWraps | TextureManager.ts:147 | `NextSelection`: stepping +1 from the last set selects the first; stepping -1 from the first selects the last |
| TextureManager.NextSelectionUndo | TextureManager.ts:147 | `NextSelection`: from a valid index, a step `d` with `abs(d) <= len` followed by `-d` restores the index |
| TextureManager.TextureManager.constructor | TextureManager.ts:36-61 | a new picker has no texture sets, no cubes, and selection 0 |
| TextureManager.TextureManager.FinishLoading | TextureManager.ts:94-107 | the sets that loaded are appended in order, then one cube per texture set is appended; the selection is unchanged |
| TextureManager.TextureManager.CreateTextureCubes | TextureManager.ts:110-121 | `cubes` grows by exactly `CubesFor(textureArray)`; nothing else changes |
| TextureManager.TextureManager.UpdateSelectionFrame | TextureManager.ts:138-141 | the frame follows `cubes[selectedIndex]` exactly when `0 <= selectedIndex < cubes.length`, stays put exactly when `selectedIndex >= cubes.length`, and fails on the `undefined` read exactly when the index is negative |
| TextureManager.TextureManager.ChangeSelection | TextureManager.ts:144-148 | only `selectedIndex` changes. It is unchanged when there are no texture sets, and otherwise becomes `(selectedIndex + delta + len) % len` with truncating `%`. From a non-negative index with `delta >= -len` it lands in [0, len) |

## Left out

- `TextureManager.loadTextures`: the asset download, the texture loader and the try/catch around them are I/O. `FinishLoading` takes the texture sets that did load as a parameter, then does the pushes and the cube creation.
- Colour, normal and roughness maps, and material construction, are reduced to opaque ids. So is `cube.material.depthTest = false`, which changes the set's shared material.
- Cube positions and rotations in `createTextureCubes` and `updateCubePositions` are 3D vector maths in floating point. `UpdateSelectionFrame` models only the guarded read of the selected cube.
- `createShape` and `createWallGeometry` use sqrt, atan2 and 3D transforms. The model keeps their inputs (outline, `v1`, `v2`, `bottomY`, `topY`) and the plane height `topY - bottomY`.
- `scene.add(group)` and the `Group`/`Mesh` objects: a draw method returns the group's meshes as a sequence.
- Material colour: `Material.color` is the palette value, or None when the palette read is `undefined`. The scaling by brightness and the 3D library's handling of an undefined colour are not computed.
- Floating point: heights, coordinates and brightness are reals. The cache key is computed on reals, and binary64 rounding can lower `floor(brightness * 100)` by one. For example, 0.7 × 0.8 × 100 is 55.99999999999999 in binary64, which gives key part 55 where the model gives 56.
- Texture ids, `delta` and `selectedIndex` are integers. Non-integer JavaScript numbers in these places are not modelled. A result of `-0` is 0.
- LevelRenderer.LevelRenderer.DrawSector: requires a non-empty vertex list and at least one wall per vertex, because the code throws a TypeError otherwise, and that throw is not modelled. With no vertices it throws in `createShape` (LevelRenderer.ts:49, reading `vertices[0].x`) before any material is fetched. With a wall missing it throws when `isPortal` reads the missing wall (LevelRenderer.ts:69-72). By then the floor, the ceiling and the earlier walls have already had their materials cached.
- SegmentRenderer.SegmentRenderer.DrawSegment: same requirement, for the same unmodelled TypeError. With no vertices it throws at SegmentRenderer.ts:44, before any material is fetched. With a wall missing it throws on reading `wall.bottomHeight` (SegmentRenderer.ts:70), after the floor, the ceiling and the earlier walls have had their materials cached.
- `LevelSegment`, the parameter type of `drawSegment`, is not exported by `types/LevelStructure.ts`. `drawSegment` is modelled over `LevelSector`, whose fields it reads.
- `MapRenderer.ts` (canvas drawing), `HelpOverlay.ts` (DOM) and `App.tsx` (render-loop setup) are not part of this model.
- Sector location, ray/wall picking, collision and sector editing do not appear in the modelled source files and are not part of this model.
