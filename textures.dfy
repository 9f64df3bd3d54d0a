/**
  * The texture-size policy of dist/spherical-image.module.js: WebGL 1 needs
  * power-of-two textures for mipmapping and wrapping, so a picture whose
  * width or height is not a power of two is redrawn into a canvas whose sides
  * are the next power of two, clamped to the GPU's `maxTextureSize`.
  *
  * Pictures are values: their kind, an identity (standing for the DOM
  * element), and their integer width and height. The GPU limit is a
  * parameter.
  */
module Textures {

  /** 2^k. */
  function Pow2(k: nat): (r: nat)
    ensures r >= 1
  {
    if k == 0 then 1 else 2 * Pow2(k - 1)
  }

  lemma {:induction false} Pow2Monotone(j: nat, k: nat)
    requires j <= k
    ensures Pow2(j) <= Pow2(k)
  {
    if j < k {
      Pow2Monotone(j, k - 1);
    }
  }

  /**
    * JavaScript's `&` on two non-negative integers below 2^31, written out bit
    * by bit from the least significant bit.
    */
  function BitAnd(a: nat, b: nat): (r: nat)
    ensures r <= a && r <= b
  {
    if a == 0 || b == 0 then 0
    else 2 * BitAnd(a / 2, b / 2) + (if a % 2 == 1 && b % 2 == 1 then 1 else 0)
  }

  lemma {:induction false} BitAndSelf(a: nat)
    ensures BitAnd(a, a) == a
  {
    if a != 0 {
      BitAndSelf(a / 2);
    }
  }

  /** `value & (value - 1)`; for `value` 0 this is `0 & -1`, which is 0. */
  function AndPredecessor(v: nat): nat {
    if v == 0 then 0 else BitAnd(v, v - 1)
  }

  /** `isPowerOfTwo`: `(value & (value - 1)) === 0 && value !== 0`. */
  predicate IsPowerOfTwo(v: nat) {
    AndPredecessor(v) == 0 && v != 0
  }

  /** The bit trick recognises exactly the positive powers of two. */
  lemma IsPowerOfTwoIff(v: nat)
    ensures IsPowerOfTwo(v) <==> exists k: nat :: Pow2(k) == v
  {
    if IsPowerOfTwo(v) {
      var k := DetectedIsPower(v);
      assert Pow2(k) == v;
    }
    if exists k: nat :: Pow2(k) == v {
      var k: nat :| Pow2(k) == v;
      PowerIsDetected(k);
    }
  }

  lemma {:induction false} PowerIsDetected(k: nat)
    ensures IsPowerOfTwo(Pow2(k))
  {
    if k > 0 {
      PowerIsDetected(k - 1);
      var v := Pow2(k);
      assert v / 2 == Pow2(k - 1) && (v - 1) / 2 == v / 2 - 1;
      assert BitAnd(v, v - 1) == 2 * BitAnd(v / 2, v / 2 - 1);
    }
  }

  lemma {:induction false} DetectedIsPower(v: nat) returns (k: nat)
    requires IsPowerOfTwo(v)
    ensures Pow2(k) == v
  {
    if v == 1 {
      k := 0;
    } else if v % 2 == 0 {
      assert (v - 1) / 2 == v / 2 - 1;
      assert BitAnd(v, v - 1) == 2 * BitAnd(v / 2, v / 2 - 1);
      var j := DetectedIsPower(v / 2);
      k := j + 1;
    } else {
      assert (v - 1) / 2 == v / 2;
      BitAndSelf(v / 2);
      assert false;
    }
  }

  /** ⌈log₂ v⌉, the exponent `Math.ceil(Math.log(value) / Math.LN2)` computes for v ≥ 1. */
  function CeilLog2(v: nat): nat
    decreases v
  {
    if v <= 1 then 0 else 1 + CeilLog2((v + 1) / 2)
  }

  lemma {:induction false} CeilLog2Bounds(v: nat)
    requires v >= 1
    ensures Pow2(CeilLog2(v)) >= v
    ensures CeilLog2(v) > 0 ==> Pow2(CeilLog2(v) - 1) < v
  {
    if v > 1 {
      CeilLog2Bounds((v + 1) / 2);
    }
  }

  /**
    * `ceilPowerOfTwo`: `Math.pow(2, ⌈log₂ value⌉)`. For `value` 0 the
    * logarithm is −∞ and the power is 0.
    */
  function CeilPowerOfTwo(v: nat): (r: nat)
    ensures v >= 1 ==> r >= v && IsPowerOfTwo(r)
    ensures v == 0 ==> r == 0
  {
    if v == 0 then 0
    else
      CeilLog2Bounds(v);
      PowerIsDetected(CeilLog2(v));
      Pow2(CeilLog2(v))
  }

  /** No power of two at least `v` is smaller than `ceilPowerOfTwo(v)`. */
  lemma CeilPowerOfTwoLeast(v: nat, k: nat)
    requires v >= 1 && Pow2(k) >= v
    ensures CeilPowerOfTwo(v) <= Pow2(k)
  {
    CeilLog2Bounds(v);
    var c := CeilLog2(v);
    if k < c {
      Pow2Monotone(k, c - 1);
    } else {
      Pow2Monotone(c, k);
    }
  }

  /** A side that is already a power of two is its own ceiling, and only such a side is. */
  lemma CeilPowerOfTwoFixed(v: nat)
    requires v >= 1
    ensures CeilPowerOfTwo(v) == v <==> IsPowerOfTwo(v)
  {
    if IsPowerOfTwo(v) {
      var k := DetectedIsPower(v);
      CeilPowerOfTwoLeast(v, k);
    }
  }

  datatype PictureKind = Image | Canvas | Video

  /** A DOM picture: its kind, the element it stands for, and its size in pixels. */
  datatype Picture = Picture(kind: PictureKind, id: nat, width: nat, height: nat)

  /** What `updateTexture` accepts: a URL string or an element. */
  datatype TextureSource = Url(url: string) | Element(picture: Picture)

  /** The 1 × 1 canvas every mesh starts with. */
  const EMPTY_TEXTURE_ID: nat := 0
  const EMPTY_TEXTURE: Picture := Picture(Canvas, EMPTY_TEXTURE_ID, 1, 1)

  /** `isPowerOfTwoImage`: both sides are powers of two. */
  predicate IsPowerOfTwoImage(p: Picture) {
    IsPowerOfTwo(p.width) && IsPowerOfTwo(p.height)
  }

  /** The side `resizeImage` draws at: `Math.min(ceilPowerOfTwo(side), maxTextureSize)`. */
  function ResizedSide(side: nat, maxTextureSize: nat): (r: nat)
    ensures r <= maxTextureSize
    ensures r == CeilPowerOfTwo(side) || r == maxTextureSize
  {
    if CeilPowerOfTwo(side) < maxTextureSize then CeilPowerOfTwo(side) else maxTextureSize
  }

  /**
    * A resized side covers the original side unless the GPU limit cuts it, and
    * it is a power of two whenever the limit is one (WebGL limits are).
    */
  lemma ResizedSideProperties(side: nat, maxTextureSize: nat)
    requires side >= 1 && IsPowerOfTwo(maxTextureSize)
    ensures IsPowerOfTwo(ResizedSide(side, maxTextureSize))
    ensures ResizedSide(side, maxTextureSize) >= side || ResizedSide(side, maxTextureSize) == maxTextureSize
    ensures side <= maxTextureSize ==> ResizedSide(side, maxTextureSize) >= side
  {
    if side <= maxTextureSize {
      var k := DetectedIsPower(maxTextureSize);
      CeilPowerOfTwoLeast(side, k);
    }
  }

  /**
    * `resizeImage`: a new canvas (the element `freshId`) of the resized
    * sides, with the picture drawn into it.
    */
  function ResizeImage(p: Picture, maxTextureSize: nat, freshId: nat): (r: Picture)
    ensures r.kind == Canvas && r.id == freshId
    ensures r.width <= maxTextureSize && r.height <= maxTextureSize
  {
    Picture(Canvas, freshId, ResizedSide(p.width, maxTextureSize), ResizedSide(p.height, maxTextureSize))
  }

  /**
    * The base texture the bundle keeps for a loaded image or a canvas: the
    * picture itself when both sides are powers of two, otherwise its resized
    * copy.
    */
  function PowerOfTwoTexture(p: Picture, maxTextureSize: nat, freshId: nat): (r: Picture)
    ensures IsPowerOfTwoImage(p) ==> r == p
    ensures !IsPowerOfTwoImage(p) ==> r.kind == Canvas && r.id == freshId
    ensures !IsPowerOfTwoImage(p) ==> r.width <= maxTextureSize && r.height <= maxTextureSize
  {
    if IsPowerOfTwoImage(p) then p else ResizeImage(p, maxTextureSize, freshId)
  }

  /**
    * With a power-of-two GPU limit, the kept texture of a non-empty picture is
    * always a power-of-two picture no larger than the limit in any resized
    * side, and keeping it a second time changes nothing.
    */
  lemma PowerOfTwoTextureIsPowerOfTwo(p: Picture, maxTextureSize: nat, freshId: nat, otherId: nat)
    requires p.width >= 1 && p.height >= 1 && IsPowerOfTwo(maxTextureSize)
    ensures IsPowerOfTwoImage(PowerOfTwoTexture(p, maxTextureSize, freshId))
    ensures var t := PowerOfTwoTexture(p, maxTextureSize, freshId);
            PowerOfTwoTexture(t, maxTextureSize, otherId) == t
  {
    ResizedSideProperties(p.width, maxTextureSize);
    ResizedSideProperties(p.height, maxTextureSize);
  }
}
