/** Coordinate mapping between original-image space and the square model
    space, and the packing of the padded canvas into the encoder's planar
    byte tensor (utils/canvas.ts). */
module Canvas {
  import opened SamTypes

  /** JavaScript's Math.round on an exact value: the nearest integer, a
      half rounded towards positive infinity. */
  function Round(x: real): (n: int)
    ensures x - 0.5 < n as real <= x + 0.5
  {
    (x + 0.5).Floor
  }

  function Max(a: int, b: int): (m: int)
    ensures m >= a && m >= b && (m == a || m == b)
  {
    if a >= b then a else b
  }

  /** Scale factor that fits the longer side `m` exactly into the target. */
  function ScaleFor(m: nat, targetSize: nat): (s: real)
    requires m > 0
    ensures s >= 0.0 && s * m as real == targetSize as real
  {
    targetSize as real / m as real
  }

  /** A side of length `d`, scaled by target / m (m the longer side) and
      rounded with Math.round: it fits the target, exactly when it is the
      longer side, and stays within half a pixel of the exact length. */
  function ScaledLength(d: nat, m: nat, targetSize: nat): (n: int)
    requires 0 < d <= m
    ensures 0 <= n <= targetSize
    ensures d == m ==> n == targetSize
    ensures -0.5 < n as real - d as real * ScaleFor(m, targetSize) <= 0.5
  {
    var s := ScaleFor(m, targetSize);
    assert d as real * s <= m as real * s;
    Round(d as real * s)
  }

  /** Offset that centres a scaled side in the target: half the free space,
      rounded down (Math.floor of an exact half). */
  function CentringOffset(targetSize: nat, scaled: int): (o: int)
    requires 0 <= scaled <= targetSize
    ensures o == (targetSize - scaled) / 2
    ensures 0 <= o && o + scaled <= targetSize
  {
    ((targetSize - scaled) as real / 2.0).Floor
  }

  /** The mapping record of an image drawn, scaled along its longer side and
      centred, into a targetSize x targetSize canvas: the scale fits the
      longer side exactly and the point map is the affine map of the
      record's own scale and offsets. */
  function ResizeImageToTargetSize(image: Image, targetSize: nat): (r: ResizeImageResult)
    requires Loaded(image)
    ensures r.originalWidth == image.naturalWidth && r.originalHeight == image.naturalHeight
    ensures r.scale * Max(image.naturalWidth, image.naturalHeight) as real == targetSize as real
    ensures MapsAffinely(r)
  {
    var w, h := image.naturalWidth, image.naturalHeight;
    var scale := ScaleFor(Max(w, h), targetSize);
    var scaledWidth := ScaledLength(w, Max(w, h), targetSize);
    var scaledHeight := ScaledLength(h, Max(w, h), targetSize);
    var offsetX := CentringOffset(targetSize, scaledWidth);
    var offsetY := CentringOffset(targetSize, scaledHeight);
    ResizeImageResult(scale, w, h, scaledWidth, scaledHeight, offsetX, offsetY,
      (x: real, y: real) => Point(x * scale + offsetX as real, y * scale + offsetY as real))
  }

  /** The record's point map is the affine map built from its own scale and
      offsets. */
  ghost predicate MapsAffinely(r: ResizeImageResult) {
    forall x: real, y: real ::
      r.mapOriginalToCanvasCoords(x, y) == Point(x * r.scale + r.offsetX as real, y * r.scale + r.offsetY as real)
  }

  /** Both scaled sides fit in the target, the longer one exactly, and each is
      within half a pixel of the exact scaled length. */
  lemma ResizeScaledSides(image: Image, targetSize: nat)
    requires Loaded(image)
    ensures var r := ResizeImageToTargetSize(image, targetSize);
      && 0 <= r.scaledWidth <= targetSize && 0 <= r.scaledHeight <= targetSize
      && (image.naturalWidth >= image.naturalHeight ==> r.scaledWidth == targetSize)
      && (image.naturalHeight >= image.naturalWidth ==> r.scaledHeight == targetSize)
      && -0.5 < r.scaledWidth as real - image.naturalWidth as real * r.scale <= 0.5
      && -0.5 < r.scaledHeight as real - image.naturalHeight as real * r.scale <= 0.5
  {
  }

  /** The offsets centre the scaled image: each is half the free space,
      rounded down, so the scaled image lies inside the canvas, and the
      longer side has no free space. */
  lemma ResizeCentres(image: Image, targetSize: nat)
    requires Loaded(image)
    ensures var r := ResizeImageToTargetSize(image, targetSize);
      && r.offsetX == (targetSize - r.scaledWidth) / 2
      && r.offsetY == (targetSize - r.scaledHeight) / 2
      && 0 <= r.offsetX && r.offsetX + r.scaledWidth <= targetSize
      && 0 <= r.offsetY && r.offsetY + r.scaledHeight <= targetSize
      && (image.naturalWidth >= image.naturalHeight ==> r.offsetX == 0)
      && (image.naturalHeight >= image.naturalWidth ==> r.offsetY == 0)
  {
    ResizeScaledSides(image, targetSize);
  }

  /** A square image fills the canvas with no offset, through the same path
      as any other image. */
  lemma SquareImageIsNotOffset(side: nat, targetSize: nat)
    requires side > 0
    ensures var r := ResizeImageToTargetSize(Image(side, side), targetSize);
      r.scaledWidth == r.scaledHeight == targetSize && r.offsetX == 0 && r.offsetY == 0
  {
    ResizeCentres(Image(side, side), targetSize);
    ResizeScaledSides(Image(side, side), targetSize);
  }

  /** The origin of the original image lands on the canvas at the offsets. */
  lemma OriginMapsToOffset(image: Image, targetSize: nat)
    requires Loaded(image)
    ensures var r := ResizeImageToTargetSize(image, targetSize);
      r.mapOriginalToCanvasCoords(0.0, 0.0) == Point(r.offsetX as real, r.offsetY as real)
  {
  }

  /** An 800 x 600 image in a 1024 canvas: scale 1.28, 1024 x 768, offset (0, 128). */
  lemma LandscapeExample()
    ensures var r := ResizeImageToTargetSize(Image(800, 600), 1024);
      && r.scale == 1.28
      && r.scaledWidth == 1024 && r.scaledHeight == 768
      && r.offsetX == 0 && r.offsetY == 128
  {
    var r := ResizeImageToTargetSize(Image(800, 600), 1024);
    assert r.scale == 1.28;
    assert 600.0 * 1.28 == 768.0;
  }

  /** Rounding is half a pixel in canvas space, which is 1 / (2 * scale)
      pixels in image space: a 4000 x 3002 image is drawn 769 pixels high at
      scale 0.256, and 769 / 0.256 is more than 3003.9. */
  lemma DownscaleRoundingExample()
    ensures var r := ResizeImageToTargetSize(Image(4000, 3002), 1024);
      && r.scale == 0.256 && r.scaledHeight == 769
      && r.scaledHeight as real > (3002.0 + 1.9) * r.scale
  {
    var r := ResizeImageToTargetSize(Image(4000, 3002), 1024);
    assert r.scale == 0.256;
    assert 3002.0 * 0.256 == 768.512;
  }

  // ---------------------------------------------------------------------
  // Encoder packing: interleaved RGBA to planar RGB

  /** Channel `c` of the first `size` pixels of an interleaved RGBA buffer. */
  function Plane(rgba: seq<Byte>, size: nat, c: nat): (p: seq<Byte>)
    requires c < 4 && 4 * size <= |rgba|
    ensures |p| == size
  {
    seq(size, i requires 0 <= i < size => rgba[4 * i + c])
  }

  /** The planar layout the encoder consumes: all red bytes, then all green,
      then all blue; alpha is dropped. */
  function PlanarRgb(rgba: seq<Byte>, size: nat): seq<Byte>
    requires 4 * size <= |rgba|
  {
    Plane(rgba, size, 0) + Plane(rgba, size, 1) + Plane(rgba, size, 2)
  }

  /** Output cell c * size + i holds channel c of pixel i. */
  lemma PlanarRgbAt(rgba: seq<Byte>, size: nat, c: nat, i: nat)
    requires 4 * size <= |rgba| && c < 3 && i < size
    ensures |PlanarRgb(rgba, size)| == 3 * size
    ensures PlanarRgb(rgba, size)[c * size + i] == rgba[4 * i + c]
  {
    if c == 0 {
    } else if c == 1 {
      assert c * size + i == size + i;
    } else {
      assert c * size + i == 2 * size + i;
    }
  }

  /** Every output cell comes from exactly one colour byte: cell k holds
      channel k / size (never the alpha channel) of pixel k % size. */
  lemma PlanarRgbCell(rgba: seq<Byte>, size: nat, k: nat)
    requires 4 * size <= |rgba| && k < 3 * size
    ensures k / size < 3
    ensures PlanarRgb(rgba, size)[k] == rgba[4 * (k % size) + k / size]
  {
    var c := if k < size then 0 else if k < 2 * size then 1 else 2;
    var i := k - c * size;
    DivModOf(k, size, c, i);
    PlanarRgbAt(rgba, size, c, i);
  }

  /** k = c * size + i with 0 <= i < size determines k / size and k % size. */
  lemma DivModOf(k: nat, size: nat, c: nat, i: nat)
    requires k == c * size + i && i < size
    ensures k / size == c && k % size == i
  {
    var q, r := k / size, k % size;
    assert (q - c) * size == i - r;
    NonzeroMultiple(q - c, size);
  }

  lemma NonzeroMultiple(d: int, n: int)
    requires n >= 0
    ensures d == 0 || d * n >= n || d * n <= -n
  {
  }

  /** The red, green and blue bytes of pixel i agree in both buffers. */
  predicate SameRgb(a: seq<Byte>, b: seq<Byte>, i: nat)
    requires 4 * i + 3 <= |a| && 4 * i + 3 <= |b|
  {
    a[4 * i] == b[4 * i] && a[4 * i + 1] == b[4 * i + 1] && a[4 * i + 2] == b[4 * i + 2]
  }

  /** The alpha bytes are never read: buffers that differ only in alpha pack
      to the same tensor. */
  lemma PlanarRgbIgnoresAlpha(a: seq<Byte>, b: seq<Byte>, size: nat)
    requires |a| == |b| == 4 * size
    requires forall i :: 0 <= i < size ==> SameRgb(a, b, i)
    ensures PlanarRgb(a, size) == PlanarRgb(b, size)
  {
    forall c | 0 <= c < 3 ensures Plane(a, size, c) == Plane(b, size, c) {
      forall i | 0 <= i < size ensures Plane(a, size, c)[i] == Plane(b, size, c)[i] {
        assert SameRgb(a, b, i);
      }
    }
  }

  /** imageDataToUint8Tensor: repack the targetSize x targetSize canvas into
      a `[1, 3, S, S]` byte tensor, one pass over the pixels writing three
      strided cells per pixel. */
  method ImageDataToUint8Tensor(data: seq<Byte>, targetSize: nat) returns (t: ByteTensor)
    requires |data| == 4 * (targetSize * targetSize)
    ensures t.dims == [1, 3, targetSize, targetSize]
    ensures |t.data| == 3 * (targetSize * targetSize) == Size(t.dims)
    ensures t.data == PlanarRgb(data, targetSize * targetSize)
  {
    var size := targetSize * targetSize;
    var out := new Byte[3 * size](_ => 0);
    for i := 0 to size
      invariant forall j :: 0 <= j < i ==> out[j] == data[4 * j]
      invariant forall j :: size <= j < size + i ==> out[j] == data[4 * (j - size) + 1]
      invariant forall j :: 2 * size <= j < 2 * size + i ==> out[j] == data[4 * (j - 2 * size) + 2]
    {
      out[i] := data[i * 4];
      out[i + size] := data[i * 4 + 1];
      out[i + size * 2] := data[i * 4 + 2];
    }
    forall k | 0 <= k < 3 * size ensures out[k] == PlanarRgb(data, size)[k] {
      if k < size {
        PlanarRgbAt(data, size, 0, k);
      } else if k < 2 * size {
        PlanarRgbAt(data, size, 1, k - size);
      } else {
        PlanarRgbAt(data, size, 2, k - 2 * size);
      }
    }
    ImageShapeSize(targetSize);
    t := ByteTensor(out[..], [1, 3, targetSize, targetSize]);
  }

  lemma ImageShapeSize(targetSize: nat)
    ensures Size([1, 3, targetSize, targetSize]) == 3 * (targetSize * targetSize)
  {
    SizeOf4(1, 3, targetSize, targetSize);
  }
}
