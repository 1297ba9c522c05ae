/** The texture picker: loaded texture sets, one preview cube per set, and a
    selection cursor that steps through the sets with wrap-around. */
module TextureManager {
  import JsNumber

  /** A loaded texture set. The colour, normal and roughness maps and the
      material built from them are opaque; `material` stands for the material. */
  datatype TextureSet = TextureSet(name: string, material: nat)

  /** A preview cube: the material of its texture set and its render order. */
  datatype Cube = Cube(material: nat, renderOrder: int)

  /** What one `updateCubePositions` call does to the selection frame: move
      it onto a cube, leave it where it is, or fail reading `position` of the
      `undefined` that a negative index yields. */
  datatype FrameUpdate = FollowCube(cube: Cube) | KeepFrame | TypeError

  /** The render order given to every preview cube. */
  const CubeRenderOrder := 1000

  /** The cube `createTextureCubes` builds for texture set `t`. */
  function CubeFor(t: TextureSet): Cube {
    Cube(t.material, CubeRenderOrder)
  }

  /** The cubes for a sequence of texture sets, one per set, in order. */
  function CubesFor(ts: seq<TextureSet>): (cs: seq<Cube>)
    ensures |cs| == |ts|
    ensures forall k :: 0 <= k < |ts| ==> cs[k].material == ts[k].material && cs[k].renderOrder == CubeRenderOrder
  {
    seq(|ts|, k requires 0 <= k < |ts| => CubeFor(ts[k]))
  }

  /** The new selection after `changeSelection(delta)` over `len` texture
      sets: unchanged when there are none, otherwise
      `(index + delta + len) % len` with JavaScript's truncating `%`. */
  function NextSelection(index: int, delta: int, len: nat): int {
    if len == 0 then index else JsNumber.Rem(index + delta + len, len)
  }

  /** From any index, a step of at least `-len - index` lands in [0, len);
      in particular every step of at least `-len` from a valid index does. */
  lemma NextSelectionInRange(index: int, delta: int, len: nat)
    requires len > 0 && index + delta + len >= 0
    ensures 0 <= NextSelection(index, delta, len) < len
    ensures NextSelection(index, delta, len) == (index + delta) % len
  {
    JsNumber.RemOfNonNegative(index + delta + len, len);
    ShiftByModulus(index + delta, len);
  }

  lemma ShiftByModulus(a: int, n: int)
    requires n > 0
    ensures (a + n) % n == a % n
  {
    assert a + n == n * (a / n + 1) + a % n;
    ModOfDecomposition(a + n, n, a / n + 1, a % n);
  }

  lemma ModOfDecomposition(a: int, n: int, q: int, r: int)
    requires n > 0 && 0 <= r < n && a == n * q + r
    ensures a % n == r
  {
    var q' := a / n;
    var r' := a % n;
    assert n * (q - q') == r' - r;
    JsNumber.OnlyZeroMultipleIsSmall(n, q - q');
  }

  /** The new selection is a valid index exactly when `index + delta + len`
      is non-negative or a multiple of `len` (JavaScript's `-0`); a step
      further back than that leaves a negative index. */
  lemma NextSelectionNonNegative(index: int, delta: int, len: nat)
    requires len > 0
    ensures 0 <= NextSelection(index, delta, len) <==>
      (index + delta + len >= 0 || (index + delta + len) % len == 0)
    ensures NextSelection(index, delta, len) < len
  {
    var a := index + delta + len;
    var r := NextSelection(index, delta, len);
    if a < 0 {
      if r == 0 {
        assert (a - r) % len == 0;
      } else {
        assert r < 0;
        if a % len == 0 {
          JsNumber.RemUnique(a, len, 0);
        }
      }
    }
  }

  /** Stepping forward from the last set selects the first; stepping back
      from the first selects the last. */
  lemma NextSelectionWraps(len: nat)
    requires len > 0
    ensures NextSelection(len - 1, 1, len) == 0
    ensures NextSelection(0, -1, len) == len - 1
  {
    JsNumber.RemOfNonNegative(2 * len, len);
    ModOfDecomposition(2 * len, len, 2, 0);
    JsNumber.RemOfNonNegative(len - 1, len);
    ModOfDecomposition(len - 1, len, 0, len - 1);
  }

  /** From a valid index, a step of at most `len` either way followed by the
      opposite step returns to the same index. */
  lemma NextSelectionUndo(index: int, delta: int, len: nat)
    requires 0 <= index < len
    requires JsNumber.Abs(delta) <= len
    ensures NextSelection(NextSelection(index, delta, len), -delta, len) == index
  {
    NextSelectionInRange(index, delta, len);
    NextSelectionInRange(NextSelection(index, delta, len), -delta, len);
    UndoStep(index, delta, len);
  }

  lemma UndoStep(index: int, delta: int, n: int)
    requires 0 <= index < n
    ensures ((index + delta) % n - delta) % n == index
  {
    var a := index + delta;
    var q := a / n;
    assert a == n * q + a % n;
    ModOfDecomposition(a % n - delta, n, -q, index);
  }

  class TextureManager {
    var textureArray: seq<TextureSet>
    var cubes: seq<Cube>
    var selectedIndex: int

    /** An empty picker with the first set selected. The cube container and
        the selection frame are scene objects and are not modelled. */
    constructor ()
      ensures textureArray == [] && cubes == [] && selectedIndex == 0
    {
      textureArray := [];
      cubes := [];
      selectedIndex := 0;
    }

    /** The bookkeeping end of `loadTextures`: each set that loaded is pushed
        in order (the download itself is left to the caller, who passes the
        sets that succeeded), then the preview cubes are created. */
    method FinishLoading(loaded: seq<TextureSet>)
      modifies this
      ensures textureArray == old(textureArray) + loaded
      ensures cubes == old(cubes) + CubesFor(textureArray)
      ensures selectedIndex == old(selectedIndex)
    {
      var i := 0;
      while i < |loaded|
        invariant 0 <= i <= |loaded|
        invariant textureArray == old(textureArray) + loaded[..i]
        invariant cubes == old(cubes) && selectedIndex == old(selectedIndex)
      {
        textureArray := textureArray + [loaded[i]];
        assert loaded[..i + 1] == loaded[..i] + [loaded[i]];
        i := i + 1;
      }
      assert loaded[..|loaded|] == loaded;
      CreateTextureCubes();
    }

    /** Appends one cube per texture set, in array order. */
    method CreateTextureCubes()
      modifies this`cubes
      ensures cubes == old(cubes) + CubesFor(textureArray)
    {
      var index := 0;
      while index < |textureArray|
        invariant 0 <= index <= |textureArray|
        invariant |cubes| == |old(cubes)| + index
        invariant cubes[..|old(cubes)|] == old(cubes)
        invariant forall k :: 0 <= k < index ==> cubes[|old(cubes)| + k] == CubeFor(textureArray[k])
      {
        cubes := cubes + [CubeFor(textureArray[index])];
        index := index + 1;
      }
    }

    /** The selection-frame step of `updateCubePositions`: the selected cube
        is read only when `selectedIndex < cubes.length`; a negative index
        passes that guard and reads `undefined`. */
    method UpdateSelectionFrame() returns (u: FrameUpdate)
      ensures u.FollowCube? <==> 0 <= selectedIndex < |cubes|
      ensures u.FollowCube? ==> u.cube == cubes[selectedIndex]
      ensures u == KeepFrame <==> selectedIndex >= |cubes|
      ensures u == TypeError <==> selectedIndex < 0
    {
      if selectedIndex < |cubes| {
        if selectedIndex >= 0 {
          u := FollowCube(cubes[selectedIndex]);
        } else {
          u := TypeError;
        }
      } else {
        u := KeepFrame;
      }
    }

    /** Moves the selection by `delta` with wrap-around; does nothing while no
        texture set is loaded. Only `selectedIndex` changes. */
    method ChangeSelection(delta: int)
      modifies this`selectedIndex
      ensures selectedIndex == NextSelection(old(selectedIndex), delta, |textureArray|)
      ensures |textureArray| == 0 ==> selectedIndex == old(selectedIndex)
      ensures |textureArray| > 0 && 0 <= old(selectedIndex) && -|textureArray| <= delta ==>
        0 <= selectedIndex < |textureArray|
    {
      if |textureArray| == 0 {
        return;
      }
      if 0 <= selectedIndex && -|textureArray| <= delta {
        NextSelectionInRange(selectedIndex, delta, |textureArray|);
      }
      selectedIndex := JsNumber.Rem(selectedIndex + delta + |textureArray|, |textureArray|);
    }
  }
}
