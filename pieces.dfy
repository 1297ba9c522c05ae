/** What a renderer adds to a sector's mesh group, once the 3D library is
    abstracted away: the floor and ceiling outlines and one quad per wall
    part, each with the texture and brightness it asks the material cache for. */
module Pieces {
  import opened LevelStructure
  import opened Materials

  /** A floor or ceiling is the sector outline placed at height `y`; a quad is
      the vertical wall part over edge `v1 -> v2` between heights `bottomY`
      and `topY` (the inputs of the wall-geometry builder). */
  datatype Piece =
    | Floor(outline: seq<Vector2D>, y: real, textureId: int, brightness: real)
    | Ceiling(outline: seq<Vector2D>, y: real, textureId: int, brightness: real)
    | Quad(v1: Vector2D, v2: Vector2D, bottomY: real, topY: real, textureId: int, brightness: real)

  /** A mesh of the group: a piece with the material it was given. */
  datatype Mesh = Mesh(piece: Piece, material: Material)

  /** The material-cache key a piece asks for. */
  function Key(p: Piece): int {
    MaterialKey(p.textureId, p.brightness)
  }

  /** The keys a sequence of pieces asks for. */
  function Keys(ps: seq<Piece>): set<int> {
    set p | p in ps :: Key(p)
  }

  /** The plane height the wall-geometry builder computes, `topY - bottomY`;
      it is negative when the quad is upside down. */
  function QuadHeight(q: Piece): real
    requires q.Quad?
  {
    q.topY - q.bottomY
  }

  /** What drawing a sector needs: the outline builder reads vertex 0, and
      wall `i` is read for every vertex `i`. */
  predicate Drawable(s: LevelSector) {
    0 < |s.vertices| <= |s.walls|
  }

  function FloorPiece(s: LevelSector): Piece {
    Floor(s.vertices, s.floorHeight, s.floorTextureId, s.brightness)
  }

  function CeilingPiece(s: LevelSector): Piece {
    Ceiling(s.vertices, s.ceilingHeight, s.ceilingTextureId, s.brightness)
  }

  /** The meshes are the pieces, in order, each carrying the cached material
      for its key. */
  ghost predicate MeshesUse(meshes: seq<Mesh>, pieces: seq<Piece>, entries: map<int, Material>) {
    |meshes| == |pieces| &&
    forall k :: 0 <= k < |meshes| ==>
      meshes[k].piece == pieces[k] && Key(pieces[k]) in entries && meshes[k].material == entries[Key(pieces[k])]
  }

  lemma KeysAppend(a: seq<Piece>, b: seq<Piece>)
    ensures Keys(a + b) == Keys(a) + Keys(b)
  {
    forall key | key in Keys(a + b) ensures key in Keys(a) + Keys(b) {
      var p :| p in a + b && Key(p) == key;
    }
    forall key | key in Keys(a) + Keys(b) ensures key in Keys(a + b) {
      if key in Keys(a) {
        var p :| p in a && Key(p) == key;
        assert p in a + b;
      } else {
        var p :| p in b && Key(p) == key;
        assert p in a + b;
      }
    }
  }

  /** Every key a sequence of pieces asks for is the key of one of its
      positions. */
  lemma KeysAt(ps: seq<Piece>, k: int)
    ensures k in Keys(ps) <==> exists i :: 0 <= i < |ps| && Key(ps[i]) == k
  {
    if k in Keys(ps) {
      var p :| p in ps && Key(p) == k;
      var i :| 0 <= i < |ps| && ps[i] == p;
      assert Key(ps[i]) == k;
    }
    if exists i :: 0 <= i < |ps| && Key(ps[i]) == k {
      var i :| 0 <= i < |ps| && Key(ps[i]) == k;
      assert ps[i] in ps;
    }
  }

  /** The cache after the materials of `ps` are fetched in order, starting
      from `st`. */
  function Filled(st: CacheState, ps: seq<Piece>): CacheState
    decreases |ps|
  {
    if ps == [] then st
    else
      var last := ps[|ps| - 1];
      Fetch(Filled(st, ps[..|ps| - 1]), last.textureId, last.brightness).0
  }

  /** Fetching for `a` then for `b` is fetching for `a + b`. */
  lemma {:induction false} FilledAppend(st: CacheState, a: seq<Piece>, b: seq<Piece>)
    ensures Filled(st, a + b) == Filled(Filled(st, a), b)
    decreases |b|
  {
    if b == [] {
      assert a + b == a;
    } else {
      var n := |b| - 1;
      assert (a + b)[..|a + b| - 1] == a + b[..n];
      assert (a + b)[|a + b| - 1] == b[n];
      FilledAppend(st, a, b[..n]);
    }
  }

  /** Fetching keeps every entry, adds exactly the keys asked for, and keeps
      the cache valid. */
  lemma {:induction false} FilledGrows(st: CacheState, ps: seq<Piece>)
    ensures Filled(st, ps).entries.Keys == st.entries.Keys + Keys(ps)
    ensures Extends(st.entries, Filled(st, ps).entries)
    decreases |ps|
  {
    if ps != [] {
      var n := |ps| - 1;
      FilledGrows(st, ps[..n]);
      KeysAppend(ps[..n], [ps[n]]);
      assert ps[..n] + [ps[n]] == ps;
      assert Keys([ps[n]]) == {Key(ps[n])};
    }
  }

  /** Fetching the materials of `ps` keeps a valid cache valid. */
  lemma {:induction false} FilledValid(st: CacheState, ps: seq<Piece>)
    requires ValidState(st)
    ensures ValidState(Filled(st, ps))
    decreases |ps|
  {
    if ps != [] {
      var n := |ps| - 1;
      FilledValid(st, ps[..n]);
      FetchKeepsValid(Filled(st, ps[..n]), ps[n].textureId, ps[n].brightness);
    }
  }

  /** `ps[j]` is the first piece of `ps` asking for its key. */
  predicate FirstWithKey(ps: seq<Piece>, j: nat)
    requires j < |ps|
  {
    forall i :: 0 <= i < j ==> Key(ps[i]) != Key(ps[j])
  }

  /** A key that was not cached is filled by the first piece asking for it:
      its material has that piece's palette colour and brightness. */
  lemma {:induction false} FilledCreates(st: CacheState, ps: seq<Piece>, j: nat)
    requires j < |ps| && Key(ps[j]) !in st.entries && FirstWithKey(ps, j)
    ensures Key(ps[j]) in Filled(st, ps).entries
    ensures Filled(st, ps).entries[Key(ps[j])].color == ColorFromTextureId(ps[j].textureId)
    ensures Filled(st, ps).entries[Key(ps[j])].scale == ps[j].brightness
    decreases |ps|
  {
    var n := |ps| - 1;
    var init := ps[..n];
    var mid := Filled(st, init);
    if j < n {
      assert FirstWithKey(init, j) by {
        forall i | 0 <= i < j ensures Key(init[i]) != Key(init[j]) {
          assert init[i] == ps[i];
        }
      }
      FilledCreates(st, init, j);
      assert init[j] == ps[j];
    } else {
      FilledGrows(st, init);
      KeysAt(init, Key(ps[n]));
      assert Key(ps[n]) !in Keys(init) by {
        forall i | 0 <= i < |init| ensures Key(init[i]) != Key(ps[n]) {
          assert init[i] == ps[i];
        }
      }
      assert Key(ps[n]) !in mid.entries;
    }
  }

  /** A group built since the cache was `before`: its meshes are `drawn`, in
      order, each with the cached material of `after` for its key, and
      `after` is `before` with the materials of `drawn` fetched in order. */
  ghost predicate Recorded(group: seq<Mesh>, drawn: seq<Piece>, before: CacheState, after: CacheState) {
    MeshesUse(group, drawn, after.entries) && after == Filled(before, drawn)
  }

  /** What a recorded group promises about the cache: it stays valid, it
      gains exactly the keys of the drawn pieces and keeps every entry; each
      new key holds a material in the palette colour and at the brightness
      of the first piece asking for it; and meshes with different keys hold
      different materials. */
  lemma RecordedCache(group: seq<Mesh>, drawn: seq<Piece>, before: CacheState, after: CacheState)
    requires ValidState(before) && Recorded(group, drawn, before, after)
    ensures ValidState(after)
    ensures after.entries.Keys == before.entries.Keys + Keys(drawn)
    ensures Extends(before.entries, after.entries)
    ensures forall j :: 0 <= j < |drawn| && Key(drawn[j]) !in before.entries && FirstWithKey(drawn, j) ==>
      after.entries[Key(drawn[j])].color == ColorFromTextureId(drawn[j].textureId) &&
      after.entries[Key(drawn[j])].scale == drawn[j].brightness
    ensures forall j, k :: 0 <= j < |group| && 0 <= k < |group| && Key(drawn[j]) != Key(drawn[k]) ==>
      group[j].material != group[k].material
  {
    FilledGrows(before, drawn);
    FilledValid(before, drawn);
    forall j | 0 <= j < |drawn| && Key(drawn[j]) !in before.entries && FirstWithKey(drawn, j)
      ensures after.entries[Key(drawn[j])].color == ColorFromTextureId(drawn[j].textureId)
      ensures after.entries[Key(drawn[j])].scale == drawn[j].brightness
    {
      FilledCreates(before, drawn, j);
    }
  }

  /** Extending a recorded group by the pieces `more`, as seen from the
      cache at the start of the extension: the meshes already in the group
      stay as they are, one mesh is appended per piece, every entry is kept,
      and the cache is the one at the start with the materials of `more`
      fetched in order. */
  lemma RecordedStep(group: seq<Mesh>, group': seq<Mesh>, done: seq<Piece>, more: seq<Piece>,
    before: CacheState, mid: CacheState, after: CacheState)
    requires Recorded(group, done, before, mid) && Recorded(group', done + more, before, after)
    ensures after == Filled(mid, more)
    ensures Extends(mid.entries, after.entries)
    ensures |group'| == |group| + |more| && group'[..|group|] == group
  {
    FilledAppend(before, done, more);
    FilledGrows(mid, more);
    forall k | 0 <= k < |group| ensures group'[k] == group[k] {
      assert (done + more)[k] == done[k];
    }
  }

  /** `group.add(new Mesh(geometry, getMaterial(textureId, brightness)))`:
      fetch the piece's material and append the mesh to the group. */
  method AddMesh(cache: MaterialCache, group: seq<Mesh>, ghost drawn: seq<Piece>, ghost before: CacheState, p: Piece)
    returns (group': seq<Mesh>)
    requires cache.Valid() && Recorded(group, drawn, before, cache.State())
    modifies cache
    ensures cache.Valid()
    ensures cache.State() == Fetch(old(cache.State()), p.textureId, p.brightness).0
    ensures Key(p) in cache.entries && group' == group + [Mesh(p, cache.entries[Key(p)])]
    ensures Extends(old(cache.entries), cache.entries)
    ensures Recorded(group', drawn + [p], before, cache.State())
  {
    var m := cache.GetMaterial(p.textureId, p.brightness);
    group' := group + [Mesh(p, m)];
    assert (drawn + [p])[..|drawn|] == drawn;
  }

  /** The first two meshes a renderer adds for a sector: the outline at
      floor height with the floor texture, then the outline at ceiling height
      with the ceiling texture, both at the sector's brightness. */
  method AddFloorAndCeiling(cache: MaterialCache, s: LevelSector) returns (group: seq<Mesh>)
    requires cache.Valid()
    modifies cache
    ensures cache.Valid()
    ensures Recorded(group, [FloorPiece(s), CeilingPiece(s)], old(cache.State()), cache.State())
  {
    ghost var before := cache.State();
    var floor, ceiling := FloorPiece(s), CeilingPiece(s);
    ghost var none: seq<Piece> := [];
    assert Recorded([], none, before, before);
    group := AddMesh(cache, [], none, before, floor);
    assert none + [floor] == [floor];
    group := AddMesh(cache, group, [floor], before, ceiling);
    assert [floor] + [ceiling] == [floor, ceiling];
  }
}
