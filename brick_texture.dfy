/**
 * BrickTextureApplier: generates a procedural brick albedo texture and a flat
 * normal map of textureSize x textureSize pixels and assigns them to up to
 * four materials, enabling the normal-map keyword only on the bumped ones.
 */
module BrickTexture {
  import opened RowMajor

  newtype byte = x: int | 0 <= x < 256

  /** UnityEngine.Color32. */
  datatype Color32 = Color32(r: byte, g: byte, b: byte, a: byte)

  const Mortar: Color32 := Color32(200, 200, 200, 255)
  const Brick: Color32 := Color32(150, 60, 40, 255)
  /** The tangent-space normal (0, 0, 1) encoded as a colour. */
  const FlatNormal: Color32 := Color32(128, 128, 255, 255)

  /** The smallest texture size ApplyTextures generates. */
  const MinTextureSize: int := 4
  const DefaultTextureSize: int := 64

  datatype Vec2 = Vec2(x: real, y: real)
  const DefaultTiling: Vec2 := Vec2(3.0, 3.0)

  /**
   * Pixel (x, y) is mortar on every 16th row, and on every 16th column within
   * the lower 8-row half (y % 16 < 8; Texture2D rows run bottom to top) of
   * each 16-row course.
   */
  predicate IsMortar(x: nat, y: nat)
    ensures IsMortar(x, y) <==> y % 16 == 0 || (x % 16 == 0 && y % 16 < 8)
  {
    HalfCourse(y);
    y % 16 == 0 || (x % 16 == 0 && (y / 8) % 2 == 0)
  }

  function BrickPixel(x: nat, y: nat): (c: Color32)
    ensures c == Mortar || c == Brick
    ensures c == Mortar <==> IsMortar(x, y)
  {
    if IsMortar(x, y) then Mortar else Brick
  }

  /** The brick texture's pixel array: index y * size + x holds pixel (x, y). */
  function BrickImage(size: nat): (img: seq<Color32>)
    ensures |img| == size * size
    ensures forall i :: 0 <= i < |img| ==> img[i] == Mortar || img[i] == Brick
  {
    seq(size * size, i requires 0 <= i < size * size => BrickPixel(i % size, i / size))
  }

  /** Each pixel of the image is the pattern's colour at its own (x, y), and so is mortar or brick. */
  lemma BrickImageAt(size: nat, x: nat, y: nat)
    requires x < size && y < size
    ensures y * size + x < |BrickImage(size)|
    ensures BrickImage(size)[y * size + x] == BrickPixel(x, y)
  {
    IndexInRange(x, y, size);
    IndexDecomposes(x, y, size);
  }

  /** The first row of the texture is all mortar. */
  lemma FirstRowIsMortar(size: nat, x: nat)
    requires x < size
    ensures x < |BrickImage(size)| && BrickImage(size)[x] == Mortar
  {
    BrickImageAt(size, x, 0);
  }

  /** The upper half of every course (y % 16 >= 8) has no vertical joints: it is brick throughout. */
  lemma UpperHalfOfCourseIsBrick(x: nat, y: nat)
    requires y % 16 >= 8
    ensures BrickPixel(x, y) == Brick
  {
    var q, r := y / 16, y % 16;
    assert y / 8 == 2 * q + 1;
  }

  /** Bit 3 of y, read off the quotient by 8 or off the remainder by 16. */
  lemma HalfCourse(y: nat)
    ensures (y / 8) % 2 == (y % 16) / 8
  {
    var q, r := y / 16, y % 16;
    assert y == 16 * q + r;
    assert y / 8 == 2 * q + r / 8;
  }

  /** The pattern repeats every 16 pixels in both directions. */
  lemma PatternPeriod(x: nat, y: nat)
    ensures IsMortar(x, y) == IsMortar(x % 16, y % 16)
  {
    HalfCourse(y);
    HalfCourse(y % 16);
  }

  /** Reducing modulo a multiple of 16 keeps the remainder modulo 16. */
  lemma ModOfMultiple(a: nat, m: nat)
    requires m > 0 && m % 16 == 0
    ensures (a % m) % 16 == a % 16
  {
    var q, r := a / m, a % m;
    var k := m / 16;
    assert m == k * 16;
    var c := q * k;
    assert q * m == c * 16 by {
      assert q * m == q * (k * 16);
    }
    assert a == c * 16 + r;
  }

  /**
   * With Repeat wrapping, pixel (x, y) of the tiled surface shows texture
   * pixel (x % size, y % size): a texture whose size is a multiple of 16, such
   * as the default 64, tiles without a seam in the pattern.
   */
  lemma TilesSeamlessly(x: nat, y: nat, size: nat)
    requires size > 0 && size % 16 == 0
    ensures IsMortar(x % size, y % size) == IsMortar(x, y)
  {
    PatternPeriod(x, y);
    PatternPeriod(x % size, y % size);
    ModOfMultiple(x, size);
    ModOfMultiple(y, size);
  }

  /** The default texture size is kept by the clamp and tiles seamlessly. */
  lemma DefaultSizeTilesSeamlessly(x: nat, y: nat)
    ensures ClampedSize(DefaultTextureSize) == DefaultTextureSize
    ensures IsMortar(x % DefaultTextureSize, y % DefaultTextureSize) == IsMortar(x, y)
  {
    TilesSeamlessly(x, y, DefaultTextureSize);
  }

  /** The brick pixels CreateBrickTexture uploads, filled row by row. */
  method BrickPixels(size: nat) returns (pixels: array<Color32>)
    ensures pixels.Length == size * size
    ensures pixels[..] == BrickImage(size)
  {
    pixels := new Color32[size * size];
    ghost var image := BrickImage(size);
    var start := 0;
    for y := 0 to size
      invariant start == y * size
      invariant forall i :: 0 <= i < start ==> pixels[i] == image[i]
    {
      MulMonotone(y + 1, size, size);
      assert (y + 1) * size == start + size;
      FillBrickRow(pixels, size, y, start);
      start := start + size;
    }
    assert pixels[..] == image;
  }

  /** The inner loop of CreateBrickTexture: writes row y, which starts at index `start`, and nothing else. */
  method FillBrickRow(pixels: array<Color32>, size: nat, y: nat, start: nat)
    requires pixels.Length == size * size && y < size
    requires start == y * size && start + size <= pixels.Length
    modifies pixels
    ensures forall i :: start <= i < start + size ==> pixels[i] == BrickImage(size)[i]
    ensures forall i :: 0 <= i < start ==> pixels[i] == old(pixels[i])
    ensures forall i :: start + size <= i < pixels.Length ==> pixels[i] == old(pixels[i])
  {
    ghost var image := BrickImage(size);
    for x := 0 to size
      invariant forall i :: start <= i < start + x ==> pixels[i] == image[i]
      invariant forall i :: 0 <= i < start ==> pixels[i] == old(pixels[i])
      invariant forall i :: start + x <= i < pixels.Length ==> pixels[i] == old(pixels[i])
    {
      BrickImageAt(size, x, y);
      pixels[start + x] := BrickPixel(x, y);
    }
  }

  /** The normal-map pixels CreateFlatNormalMap uploads. */
  method FlatNormalPixels(size: nat) returns (pixels: array<Color32>)
    ensures pixels.Length == size * size
    ensures forall i :: 0 <= i < pixels.Length ==> pixels[i] == FlatNormal
  {
    pixels := new Color32[size * size];
    for i := 0 to pixels.Length
      invariant forall j :: 0 <= j < i ==> pixels[j] == FlatNormal
    {
      pixels[i] := FlatNormal;
    }
  }

  /** A Texture2D after SetPixels32: its size and a copy of its pixels. */
  class Texture2D {
    const size: nat
    const pixels: seq<Color32>

    constructor (size: nat, pixels: seq<Color32>)
      ensures this.size == size && this.pixels == pixels
    {
      this.size := size;
      this.pixels := pixels;
    }
  }

  method CreateBrickTexture(size: nat) returns (texture: Texture2D)
    ensures fresh(texture)
    ensures texture.size == size && texture.pixels == BrickImage(size)
  {
    var pixels := BrickPixels(size);
    texture := new Texture2D(size, pixels[..]);
  }

  method CreateFlatNormalMap(size: nat) returns (texture: Texture2D)
    ensures fresh(texture)
    ensures texture.size == size && |texture.pixels| == size * size
    ensures forall i :: 0 <= i < |texture.pixels| ==> texture.pixels[i] == FlatNormal
  {
    var pixels := FlatNormalPixels(size);
    texture := new Texture2D(size, pixels[..]);
  }

  /** The material state ApplyToMaterial sets: _MainTex and its scale, the _NORMALMAP keyword and _BumpMap. */
  class Material {
    var mainTex: Texture2D?
    var mainTexScale: Vec2
    var normalMapEnabled: bool
    var bumpMap: Texture2D?

    constructor ()
      ensures mainTex == null && bumpMap == null && !normalMapEnabled
    {
      mainTex, bumpMap := null, null;
      mainTexScale := Vec2(1.0, 1.0);
      normalMapEnabled := false;
    }
  }

  /** The size ApplyTextures generates for a configured textureSize. */
  function ClampedSize(n: int): (r: nat)
    ensures r >= MinTextureSize
    ensures n >= MinTextureSize ==> r == n
    ensures n < MinTextureSize ==> r == MinTextureSize
  {
    if n < MinTextureSize then MinTextureSize else n
  }

  class BrickTextureApplier {
    const diffuseMaterial: Material?
    const specularMaterial: Material?
    const bumpedMaterial: Material?
    const bumpedSpecularMaterial: Material?
    var textureSize: int
    const tiling: Vec2
    var brickTexture: Texture2D?
    var normalTexture: Texture2D?

    constructor (diffuse: Material?, specular: Material?, bumped: Material?, bumpedSpecular: Material?, textureSize: int)
      ensures diffuseMaterial == diffuse && specularMaterial == specular
      ensures bumpedMaterial == bumped && bumpedSpecularMaterial == bumpedSpecular
      ensures this.textureSize == textureSize && tiling == DefaultTiling
      ensures brickTexture == null && normalTexture == null
    {
      diffuseMaterial, specularMaterial := diffuse, specular;
      bumpedMaterial, bumpedSpecularMaterial := bumped, bumpedSpecular;
      this.textureSize := textureSize;
      tiling := DefaultTiling;
      brickTexture, normalTexture := null, null;
    }

    /** A null material is left alone; otherwise the albedo is set, and the normal map and its keyword exactly when one is given. */
    method ApplyToMaterial(material: Material?, albedo: Texture2D, normal: Texture2D?)
      modifies material
      ensures material != null ==>
        material.mainTex == albedo && material.mainTexScale == tiling &&
        material.normalMapEnabled == (normal != null) && material.bumpMap == normal
    {
      if material == null {
        return;
      }
      material.mainTex := albedo;
      material.mainTexScale := tiling;
      if normal != null {
        material.normalMapEnabled := true;
        material.bumpMap := normal;
      } else {
        material.normalMapEnabled := false;
        material.bumpMap := null;
      }
    }

    /**
     * Clamps the size, regenerates both textures and assigns them in the
     * order diffuse, specular, bumped, bumped-specular. Every material gets
     * the brick albedo; the bumped ones get the normal map. The same material
     * may sit in several slots, and then its last slot decides.
     */
    method ApplyTextures()
      modifies this`textureSize, this`brickTexture, this`normalTexture
      modifies diffuseMaterial, specularMaterial, bumpedMaterial, bumpedSpecularMaterial
      ensures textureSize == ClampedSize(old(textureSize))
      ensures brickTexture != null && fresh(brickTexture)
      ensures brickTexture.size == textureSize && brickTexture.pixels == BrickImage(textureSize)
      ensures normalTexture != null && fresh(normalTexture)
      ensures normalTexture.size == textureSize && |normalTexture.pixels| == textureSize * textureSize
      ensures forall i :: 0 <= i < |normalTexture.pixels| ==> normalTexture.pixels[i] == FlatNormal
      ensures forall m :: m in [diffuseMaterial, specularMaterial, bumpedMaterial, bumpedSpecularMaterial] && m != null ==>
        m.mainTex == brickTexture && m.mainTexScale == tiling
      ensures forall m :: m in [bumpedMaterial, bumpedSpecularMaterial] && m != null ==>
        m.normalMapEnabled && m.bumpMap == normalTexture
      ensures forall m :: m in [diffuseMaterial, specularMaterial] && m != null && m !in [bumpedMaterial, bumpedSpecularMaterial] ==>
        !m.normalMapEnabled && m.bumpMap == null
    {
      if textureSize < MinTextureSize {
        textureSize := MinTextureSize;
      }
      var size: nat := textureSize;
      brickTexture := CreateBrickTexture(size);
      normalTexture := CreateFlatNormalMap(size);
      ApplyToMaterial(diffuseMaterial, brickTexture, null);
      ApplyToMaterial(specularMaterial, brickTexture, null);
      ApplyToMaterial(bumpedMaterial, brickTexture, normalTexture);
      ApplyToMaterial(bumpedSpecularMaterial, brickTexture, normalTexture);
    }
  }
}
