/** Colour lookup and the memoising material table that both renderers keep.
    A material is an opaque value: a serial number standing for the object
    identity of the created material, plus what it was built from. */
module Materials {
  import opened Wrappers
  import JsNumber

  /** The eight-entry colour palette, as 24-bit RGB values. */
  const Palette: seq<int> := [
    0x8B4513, // brown
    0x696969, // gray
    0x2F4F4F, // dark slate gray
    0x800000, // maroon
    0x556B2F, // dark olive green
    0x483D8B, // dark slate blue
    0x8B0000, // dark red
    0x2E8B57  // sea green
  ]

  /** `colors[textureId % colors.length]`. JavaScript's `%` keeps the sign of
      the dividend, so a negative id reads a negative index and yields
      `undefined` (None), except for multiples of 8, whose remainder `-0`
      reads entry 0. */
  function ColorFromTextureId(textureId: int): (c: Option<int>)
  {
    var i := JsNumber.Rem(textureId, |Palette|);
    if 0 <= i then Some(Palette[i]) else None
  }

  /** The lookup is defined exactly for non-negative ids and multiples of 8,
      reads entry `textureId mod 8` of the palette, and repeats every 8 ids. */
  lemma ColorLookup(textureId: int)
    ensures ColorFromTextureId(textureId).Some? <==> (textureId >= 0 || textureId % 8 == 0)
    ensures ColorFromTextureId(textureId).Some? ==> ColorFromTextureId(textureId) == Some(Palette[textureId % 8])
    ensures textureId >= 0 ==> ColorFromTextureId(textureId + 8) == ColorFromTextureId(textureId)
  {
    var r := JsNumber.Rem(textureId, 8);
    if textureId < 0 {
      if r == 0 {
        assert textureId % 8 == 0;
      } else {
        assert (textureId - r) % 8 == 0;
        assert textureId % 8 == r + 8;
      }
    }
  }

  /** The cache key of a (texture, brightness) request:
      `textureId * 1000 + Math.floor(brightness * 100)`. */
  function MaterialKey(textureId: int, brightness: real): int {
    textureId * 1000 + (brightness * 100.0).Floor
  }

  /** For brightness in [0, 1] the brightness part of the key lies in
      [0, 100], so two requests share a key exactly when they name the same
      texture and the same whole percentage of brightness. */
  lemma MaterialKeyShared(t1: int, b1: real, t2: int, b2: real)
    requires 0.0 <= b1 <= 1.0 && 0.0 <= b2 <= 1.0
    ensures 0 <= (b1 * 100.0).Floor <= 100
    ensures MaterialKey(t1, b1) == MaterialKey(t2, b2) <==>
      (t1 == t2 && (b1 * 100.0).Floor == (b2 * 100.0).Floor)
  {
    var f1, f2 := (b1 * 100.0).Floor, (b2 * 100.0).Floor;
    assert 0 <= f1 <= 100 && 0 <= f2 <= 100;
    if t1 < t2 {
      assert t1 * 1000 + 1000 <= t2 * 1000;
    } else if t2 < t1 {
      assert t2 * 1000 + 1000 <= t1 * 1000;
    }
  }

  /** A material: `serial` stands for its identity; it is coloured with the
      palette entry of its texture scaled by the brightness of the request
      that created it. */
  datatype Material = Material(serial: nat, color: Option<int>, scale: real)

  /** The contents of a `materials` map together with the number of
      materials created so far, which is the next material's serial. */
  datatype CacheState = CacheState(entries: map<int, Material>, created: nat)

  /** Every cached material was created before the current count, and no
      two keys hold the same material object. */
  predicate ValidState(st: CacheState) {
    (forall k :: k in st.entries ==> st.entries[k].serial < st.created) &&
    (forall k1, k2 :: k1 in st.entries && k2 in st.entries && k1 != k2 ==>
      st.entries[k1].serial != st.entries[k2].serial)
  }

  /** The entries of `after` extend those of `before`: nothing is removed or
      overwritten. */
  ghost predicate Extends(before: map<int, Material>, after: map<int, Material>) {
    forall k :: k in before ==> k in after && after[k] == before[k]
  }

  /** What `getMaterial(textureId, brightness)` does to the cache and what it
      returns: the cached material for the key, or on a miss a new material
      in the palette colour of the texture at the request's brightness,
      stored under the key. */
  function Fetch(st: CacheState, textureId: int, brightness: real): (r: (CacheState, Material))
    ensures MaterialKey(textureId, brightness) in r.0.entries
    ensures r.1 == r.0.entries[MaterialKey(textureId, brightness)]
    ensures r.0.entries.Keys == st.entries.Keys + {MaterialKey(textureId, brightness)}
    ensures Extends(st.entries, r.0.entries)
    ensures MaterialKey(textureId, brightness) in st.entries ==> r.0 == st
    ensures MaterialKey(textureId, brightness) !in st.entries ==>
      r.1.color == ColorFromTextureId(textureId) && r.1.scale == brightness &&
      r.0.created == st.created + 1
  {
    var key := MaterialKey(textureId, brightness);
    if key in st.entries then (st, st.entries[key])
    else
      var m := Material(st.created, ColorFromTextureId(textureId), brightness);
      (CacheState(st.entries[key := m], st.created + 1), m)
  }

  /** Fetching keeps a valid cache valid, and a material created on a miss
      is none of the materials already cached. */
  lemma FetchKeepsValid(st: CacheState, textureId: int, brightness: real)
    requires ValidState(st)
    ensures ValidState(Fetch(st, textureId, brightness).0)
    ensures MaterialKey(textureId, brightness) !in st.entries ==>
      forall k :: k in st.entries ==> st.entries[k] != Fetch(st, textureId, brightness).1
  {
  }

  /** The `materials` map of a renderer, filled in place by `GetMaterial`. */
  class MaterialCache {
    var entries: map<int, Material>
    /** The number of materials created so far; the next one's serial. */
    var created: nat

    ghost function State(): CacheState
      reads this
    {
      CacheState(entries, created)
    }

    ghost predicate Valid()
      reads this
    {
      ValidState(State())
    }

    constructor ()
      ensures Valid() && entries == map[] && created == 0
    {
      entries := map[];
      created := 0;
    }

    /** Returns the material for the request's key, allocating and storing a
        new one on a miss. Existing entries are never removed or replaced. */
    method GetMaterial(textureId: int, brightness: real) returns (m: Material)
      requires Valid()
      modifies this
      ensures Valid()
      ensures (State(), m) == Fetch(old(State()), textureId, brightness)
      ensures MaterialKey(textureId, brightness) in entries
      ensures m == entries[MaterialKey(textureId, brightness)]
      ensures MaterialKey(textureId, brightness) in old(entries) ==>
        entries == old(entries) && created == old(created)
      ensures MaterialKey(textureId, brightness) !in old(entries) ==>
        m == Material(old(created), ColorFromTextureId(textureId), brightness) &&
        entries == old(entries)[MaterialKey(textureId, brightness) := m] &&
        created == old(created) + 1
      ensures MaterialKey(textureId, brightness) !in old(entries) ==>
        forall k :: k in old(entries) ==> old(entries)[k] != m
      ensures Extends(old(entries), entries)
    {
      var key := MaterialKey(textureId, brightness);
      if key !in entries {
        var material := Material(created, ColorFromTextureId(textureId), brightness);
        entries := entries[key := material];
        created := created + 1;
      }
      m := entries[key];
    }
  }
}
