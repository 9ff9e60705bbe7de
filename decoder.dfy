/** The decode-side tensor codec of the mask decoder (decoder.ts): packing
    the prompt into the model's input tensors, and unpacking the model's
    score and mask tensors into scores and RGBA rasters. */
module Decoder {
  import opened SamTypes

  // ---------------------------------------------------------------------
  // Input packing

  /** `flatMap(p => [p.x, p.y])`: the interleaved `[x0, y0, x1, y1, ...]`
      buffer of the `point_coords` tensor. */
  function PackPointCoords(points: seq<Point>): (r: seq<real>)
    ensures |r| == 2 * |points|
    ensures forall k :: 0 <= k < |points| ==> r[2 * k] == points[k].x && r[2 * k + 1] == points[k].y
  {
    if points == [] then []
    else
      var rest := PackPointCoords(points[1..]);
      assert forall k :: 1 <= k < |points| ==> points[1..][k - 1] == points[k];
      [points[0].x, points[0].y] + rest
  }

  /** How the model reads a `[1, N, 2]` coordinate buffer: N points, each an
      (x, y) pair. */
  function UnpackPointCoords(buf: seq<real>): (points: seq<Point>)
    requires |buf| % 2 == 0
    ensures |points| == |buf| / 2
  {
    if buf == [] then [] else [Point(buf[0], buf[1])] + UnpackPointCoords(buf[2..])
  }

  /** Reading the packed buffer gives back the points, in order. */
  lemma {:induction false} UnpackPackPointCoords(points: seq<Point>)
    ensures UnpackPointCoords(PackPointCoords(points)) == points
  {
    if points != [] {
      var buf := PackPointCoords(points);
      assert buf[2..] == PackPointCoords(points[1..]);
      UnpackPackPointCoords(points[1..]);
    }
  }

  /** Every even-length buffer is the packing of the points it is read as. */
  lemma {:induction false} PackUnpackPointCoords(buf: seq<real>)
    requires |buf| % 2 == 0
    ensures PackPointCoords(UnpackPointCoords(buf)) == buf
  {
    if buf != [] {
      PackUnpackPointCoords(buf[2..]);
      var points := UnpackPointCoords(buf);
      assert points[1..] == UnpackPointCoords(buf[2..]);
    }
  }

  /** `map(p => BigInt(p.label))`: the `point_labels` buffer. */
  function PackPointLabels(points: seq<LabelPoint>): (r: seq<int>)
    ensures |r| == |points|
    ensures forall k :: 0 <= k < |points| ==> r[k] == points[k].labelValue
  {
    if points == [] then []
    else
      var rest := PackPointLabels(points[1..]);
      assert forall k :: 1 <= k < |points| ==> points[1..][k - 1] == points[k];
      [points[0].labelValue] + rest
  }

  /** The 4-element `boxes` buffer. */
  function PackBox(b: Box): (r: seq<real>)
    ensures |r| == 4
  {
    [b.topLeft.x, b.topLeft.y, b.bottomRight.x, b.bottomRight.y]
  }

  /** How the model reads a `[1, 4]` box buffer: top-left then bottom-right. */
  function UnpackBox(buf: seq<real>): Box
    requires |buf| == 4
  {
    Box(Point(buf[0], buf[1]), Point(buf[2], buf[3]))
  }

  /** The box buffer holds exactly the two corners, in order, and every
      4-element buffer is the packing of some box. */
  lemma BoxRoundTrip(b: Box, buf: seq<real>)
    requires |buf| == 4
    ensures UnpackBox(PackBox(b)) == b
    ensures PackBox(UnpackBox(buf)) == buf
  {
  }

  /** The named input tensors of one decode call, built fresh from the
      options. */
  function BuildFeeds(options: DecodeOptions): (f: DecodeFeeds)
    ensures f.imageEmbed.dims == [1, 256, 64, 64] && f.imageEmbed.data == options.imageEmbed
    ensures f.highResFeat1.dims == [1, 32, 256, 256] && f.highResFeat1.data == options.highResFeat1
    ensures f.highResFeat2.dims == [1, 64, 128, 128] && f.highResFeat2.data == options.highResFeat2
    ensures f.pointCoords.dims == [1, |options.pointCoords|, 2] && |f.pointCoords.data| == 2 * |options.pointCoords|
    ensures UnpackPointCoords(f.pointCoords.data) == options.pointCoords
    ensures f.pointLabels.dims == [1, |options.pointCoords|]
    ensures |f.pointLabels.data| == |options.pointLabels|
    ensures forall k :: 0 <= k < |options.pointLabels| ==> f.pointLabels.data[k] == options.pointLabels[k].labelValue
    ensures f.boxes.dims == [1, 4] && |f.boxes.data| == 4 && UnpackBox(f.boxes.data) == options.boxes
    ensures f.maskInput.dims == [1, 1, 256, 256] && f.maskInput.data == options.maskInput
  {
    var numPoints := |options.pointCoords|;
    UnpackPackPointCoords(options.pointCoords);
    DecodeFeeds(
      Tensor(options.imageEmbed, [1, 256, 64, 64]),
      Tensor(options.highResFeat1, [1, 32, 256, 256]),
      Tensor(options.highResFeat2, [1, 64, 128, 128]),
      Tensor(PackPointCoords(options.pointCoords), [1, numPoints, 2]),
      IntTensor(PackPointLabels(options.pointLabels), [1, numPoints]),
      Tensor(PackBox(options.boxes), [1, 4]),
      Tensor(options.maskInput, [1, 1, 256, 256]))
  }

  predicate TensorShaped(t: Tensor) {
    |t.data| == Size(t.dims)
  }

  /** Every input tensor holds exactly as many elements as its shape says. */
  predicate FeedsShaped(f: DecodeFeeds) {
    && TensorShaped(f.imageEmbed) && TensorShaped(f.highResFeat1) && TensorShaped(f.highResFeat2)
    && TensorShaped(f.pointCoords) && |f.pointLabels.data| == Size(f.pointLabels.dims)
    && TensorShaped(f.boxes) && TensorShaped(f.maskInput)
  }

  /** The feeds agree with their declared shapes exactly when the embeddings
      have their fixed sizes, there is one label per coordinate pair and the
      mask hint is 256 x 256. */
  lemma BuildFeedsShaped(options: DecodeOptions)
    ensures FeedsShaped(BuildFeeds(options)) <==>
      && EmbeddingsShaped(EncodeResult(options.imageEmbed, options.highResFeat1, options.highResFeat2))
      && |options.pointLabels| == |options.pointCoords|
      && |options.maskInput| == MaskInputLength
  {
    var n := |options.pointCoords|;
    SizeOf4(1, 256, 64, 64);
    SizeOf4(1, 32, 256, 256);
    SizeOf4(1, 64, 128, 128);
    SizeOf3(1, n, 2);
    SizeOf2(1, n);
    SizeOf2(1, 4);
    SizeOf4(1, 1, 256, 256);
  }

  // ---------------------------------------------------------------------
  // Scores

  /** The integer n of Number.prototype.toFixed(2): the magnitude of x in
      hundredths rounded to the nearest integer, a tie going to the larger
      magnitude, with the sign of x. */
  function Cents(x: real): (n: int)
    ensures -0.5 <= n as real - x * 100.0 <= 0.5
    ensures (x >= 0.0 ==> n >= 0) && (x <= 0.0 ==> n <= 0)
  {
    if x < 0.0 then -((-x) * 100.0 + 0.5).Floor else (x * 100.0 + 0.5).Floor
  }

  /** Number.prototype.toFixed(2) read back as a number: within half a
      hundredth of x, and a whole number of hundredths. */
  function ToFixed2(x: real): (r: real)
    ensures -0.005 <= r - x <= 0.005
    ensures (r * 100.0).Floor as real == r * 100.0
  {
    var n := Cents(x);
    assert (n as real / 100.0) * 100.0 == n as real;
    n as real / 100.0
  }

  /** A value that already has two decimals is left as it is. */
  lemma ToFixed2Idempotent(x: real)
    ensures ToFixed2(ToFixed2(x)) == ToFixed2(x)
  {
    var n := Cents(x);
    var r := n as real / 100.0;
    assert r * 100.0 == n as real;
    if r < 0.0 {
      assert ((-r) * 100.0 + 0.5).Floor == -n;
    } else {
      assert (r * 100.0 + 0.5).Floor == n;
    }
  }

  /** A value exactly halfway between n and n + 1 hundredths, of either
      sign, gets the integer of larger magnitude. */
  lemma TieCents(n: nat)
    ensures Cents((n as real + 0.5) / 100.0) == n + 1
    ensures Cents(-((n as real + 0.5) / 100.0)) == -(n + 1)
  {
    var x := (n as real + 0.5) / 100.0;
    assert x * 100.0 == n as real + 0.5;
    assert (x * 100.0 + 0.5).Floor == n + 1;
  }

  /** Ties go away from zero on both sides: n.5 hundredths becomes n + 1
      hundredths, and its negation -(n + 1) hundredths. */
  lemma ToFixed2Ties(n: nat)
    ensures ToFixed2((n as real + 0.5) / 100.0) == (n + 1) as real / 100.0
    ensures ToFixed2(-((n as real + 0.5) / 100.0)) == -((n + 1) as real / 100.0)
  {
    TieCents(n);
  }

  /** A raw confidence as a percentage with two decimals. */
  function PercentScore(v: real): (p: real)
    ensures -0.005 <= p - v * 100.0 <= 0.005
    ensures (p * 100.0).Floor as real == p * 100.0
  {
    ToFixed2(v * 100.0)
  }

  lemma PercentScoreExamples()
    ensures PercentScore(0.8734) == 87.34
    ensures PercentScore(1.0) == 100.0
  {
    assert 0.8734 * 100.0 == 87.34;
    assert (87.34 * 100.0 + 0.5).Floor == 8734;
    assert (100.0 * 100.0 + 0.5).Floor == 10000;
  }

  /** The scores of a `[1, count]` score tensor, in order. */
  function ScoresOf(t: Tensor): seq<real>
    requires IsScoreVector(t)
  {
    seq(t.dims[1], i requires 0 <= i < t.dims[1] => PercentScore(t.data[i]))
  }

  /** processIouPredictions */
  method ProcessIouPredictions(t: Tensor) returns (scores: seq<real>)
    requires IsScoreVector(t)
    ensures |scores| == t.dims[1]
    ensures forall i :: 0 <= i < |scores| ==> scores[i] == PercentScore(t.data[i])
    ensures scores == ScoresOf(t)
  {
    var count := t.dims[1];
    scores := [];
    for i := 0 to count
      invariant |scores| == i
      invariant forall k :: 0 <= k < i ==> scores[k] == PercentScore(t.data[k])
    {
      var percent := PercentScore(t.data[i]);
      scores := scores + [percent];
    }
  }

  // ---------------------------------------------------------------------
  // Masks

  const DefaultColor: seq<Byte> := [0, 114, 189, 255]
  const Transparent: seq<Byte> := [0, 0, 0, 0]

  /** A mask value paints its pixel opaque in the default colour when it is
      positive; otherwise the pixel stays all zero. */
  function PixelColor(v: real): (c: seq<Byte>)
    ensures |c| == 4
  {
    if v > 0.0 then DefaultColor else Transparent
  }

  /** The four RGBA bytes of pixel j. */
  function Pixel(rgba: seq<Byte>, j: nat): seq<Byte>
    requires 4 * j + 4 <= |rgba|
  {
    rgba[4 * j .. 4 * j + 4]
  }

  lemma PixelOfPrefix(a: seq<Byte>, b: seq<Byte>, j: nat)
    requires 4 * j + 4 <= |a|
    ensures Pixel(a + b, j) == Pixel(a, j)
  {
    assert (a + b)[4 * j .. 4 * j + 4] == a[4 * j .. 4 * j + 4];
  }

  /** The RGBA raster of a single-channel mask: the pixels of the values, in
      order. */
  function Rasterize(values: seq<real>): (r: seq<Byte>)
    ensures |r| == 4 * |values|
  {
    if values == [] then [] else Rasterize(values[..|values| - 1]) + PixelColor(values[|values| - 1])
  }

  lemma PixelOfLast(a: seq<Byte>, c: seq<Byte>, j: nat)
    requires |a| == 4 * j && |c| == 4
    ensures Pixel(a + c, j) == c
  {
    assert (a + c)[4 * j .. 4 * j + 4] == c;
  }

  /** Pixel j of the raster is painted from value j alone. */
  lemma {:induction false} RasterizePixel(values: seq<real>, j: nat)
    requires j < |values|
    ensures 4 * j + 4 <= |Rasterize(values)|
    ensures Pixel(Rasterize(values), j) == PixelColor(values[j])
  {
    var n := |values| - 1;
    var front := Rasterize(values[..n]);
    assert Rasterize(values) == front + PixelColor(values[n]);
    if j < n {
      RasterizePixel(values[..n], j);
      assert values[..n][j] == values[j];
      PixelOfPrefix(front, PixelColor(values[n]), j);
    } else {
      PixelOfLast(front, PixelColor(values[n]), j);
    }
  }

  /** A 2 x 2 mask [0, 0, 1, 0] has exactly one opaque pixel, at index 2. */
  lemma RasterizeExample()
    ensures Rasterize([0.0, 0.0, 1.0, 0.0]) == Transparent + Transparent + DefaultColor + Transparent
  {
    assert [0.0, 0.0, 1.0, 0.0][..3] == [0.0, 0.0, 1.0];
    assert [0.0, 0.0, 1.0][..2] == [0.0, 0.0];
    assert [0.0, 0.0][..1] == [0.0];
    assert [0.0][..0] == [];
  }

  function MaskImage(values: seq<real>, width: nat, height: nat): ImageData
    requires |values| == height * width
  {
    ImageData(width, height, Rasterize(values))
  }

  /** Rasterizing one more value appends that value's pixel. */
  lemma RasterizeSnoc(values: seq<real>, j: nat)
    requires j < |values|
    ensures Rasterize(values[..j + 1]) == Rasterize(values[..j]) + PixelColor(values[j])
  {
    assert values[..j + 1][..j] == values[..j];
  }

  /** A blank run of n bytes, as `new ImageData` allocates it. */
  function Blank(n: nat): (z: seq<Byte>)
    ensures |z| == n
  {
    seq(n, _ => 0)
  }

  /** The body of the painting loop for pixel j of a buffer whose pixels
      from j on are still blank: a positive value writes the default
      colour's four bytes. */
  method PaintPixel(buf: array<Byte>, j: nat, v: real, ghost painted: seq<Byte>)
    requires 4 * j == |painted| && 4 * j + 4 <= buf.Length && buf[..] == painted + Blank(buf.Length - 4 * j)
    modifies buf
    ensures buf[..] == painted + PixelColor(v) + Blank(buf.Length - 4 * j - 4)
  {
    assert buf[4 * j .. 4 * j + 4] == Transparent;
    if v > 0.0 {
      buf[j * 4 + 0] := DefaultColor[0];
      buf[j * 4 + 1] := DefaultColor[1];
      buf[j * 4 + 2] := DefaultColor[2];
      buf[j * 4 + 3] := DefaultColor[3];
    }
    assert buf[..] == painted + PixelColor(v) + Blank(buf.Length - 4 * j - 4);
  }

  /** `new ImageData(width, height)` (all zero) followed by the painting loop
      over its pixels. */
  method PaintMask(values: seq<real>, width: nat, height: nat) returns (imageData: ImageData)
    requires |values| == height * width
    ensures imageData == MaskImage(values, width, height)
  {
    var size := |values|;
    var buf := new Byte[4 * size](_ => 0);
    assert buf[..] == Rasterize(values[..0]) + Blank(4 * size);
    for j := 0 to size
      invariant buf[..] == Rasterize(values[..j]) + Blank(4 * size - 4 * j)
    {
      PaintPixel(buf, j, values[j], Rasterize(values[..j]));
      RasterizeSnoc(values, j);
    }
    assert values[..size] == values;
    imageData := ImageData(width, height, buf[..]);
  }

  lemma NextMultiple(i: nat, size: nat)
    ensures (i + 1) * size == i * size + size
  {
  }

  /** Mask i of `count` masks of `size` values ends within the buffer. */
  lemma SliceWithin(i: nat, count: nat, size: nat)
    requires i < count
    ensures (i + 1) * size == i * size + size <= count * size
  {
    var rest := count - (i + 1);
    assert count * size == (i + 1) * size + rest * size;
    assert rest * size >= 0;
  }

  /** The `height * width` values of mask i of a `[1, count, height, width]`
      tensor. */
  function MaskSlice(t: Tensor, i: nat): (s: seq<real>)
    requires IsMaskStack(t) && i < t.dims[1]
    ensures |s| == t.dims[2] * t.dims[3]
  {
    var size := t.dims[2] * t.dims[3];
    SliceWithin(i, t.dims[1], size);
    t.data[i * size .. i * size + size]
  }

  /** The display masks of a mask tensor, paired with the scores by index. */
  function MasksOf(t: Tensor, iou: seq<real>): seq<DecodeMask>
    requires IsMaskStack(t) && |iou| >= t.dims[1]
  {
    seq(t.dims[1], i requires 0 <= i < t.dims[1] =>
      DecodeMask(MaskImage(MaskSlice(t, i), t.dims[3], t.dims[2]), iou[i]))
  }

  /** The low resolution masks of a mask tensor: raw values, raster and score. */
  function LowResMasksOf(t: Tensor, iou: seq<real>): seq<DecodeLowResMask>
    requires IsMaskStack(t) && |iou| >= t.dims[1]
  {
    seq(t.dims[1], i requires 0 <= i < t.dims[1] =>
      DecodeLowResMask(MaskImage(MaskSlice(t, i), t.dims[3], t.dims[2]), MaskSlice(t, i), iou[i]))
  }

  /** processMasks: one raster per mask, then the pairing with the scores. */
  method ProcessMasks(t: Tensor, iouPredictions: seq<real>) returns (maskResults: seq<DecodeMask>)
    requires IsMaskStack(t) && |iouPredictions| >= t.dims[1]
    ensures maskResults == MasksOf(t, iouPredictions)
  {
    var count, height, width := t.dims[1], t.dims[2], t.dims[3];
    var size := height * width;
    ghost var expected := MasksOf(t, iouPredictions);
    var masks: seq<ImageData> := [];
    for i := 0 to count
      invariant |masks| == i
      invariant forall k :: 0 <= k < i ==> masks[k] == expected[k].imageData
    {
      MaskSliceAt(t, i);
      var mask := t.data[i * size .. i * size + size];
      var imageData := PaintMask(mask, width, height);
      masks := masks + [imageData];
    }
    maskResults := [];
    for i := 0 to count
      invariant |maskResults| == i
      invariant forall k :: 0 <= k < i ==> maskResults[k] == expected[k]
    {
      var mask := DecodeMask(masks[i], iouPredictions[i]);
      maskResults := maskResults + [mask];
    }
  }

  /** processLowResMasks: raw slice, raster and score of every mask. */
  method ProcessLowResMasks(t: Tensor, iouPredictions: seq<real>) returns (lowResMasks: seq<DecodeLowResMask>)
    requires IsMaskStack(t) && |iouPredictions| >= t.dims[1]
    ensures lowResMasks == LowResMasksOf(t, iouPredictions)
  {
    var count, height, width := t.dims[1], t.dims[2], t.dims[3];
    var size := height * width;
    ghost var expected := LowResMasksOf(t, iouPredictions);
    lowResMasks := [];
    for i := 0 to count
      invariant |lowResMasks| == i
      invariant forall k :: 0 <= k < i ==> lowResMasks[k] == expected[k]
    {
      MaskSliceAt(t, i);
      var data := t.data[i * size .. i * size + size];
      var imageData := PaintMask(data, width, height);
      lowResMasks := lowResMasks + [DecodeLowResMask(imageData, data, iouPredictions[i])];
    }
  }

  /** The decode result built from the model's outputs. */
  function ProcessOutput(o: RawDecodeOutput): (r: DecodeResult)
    requires WellFormedOutput(o)
    ensures |r.masks| == |r.iouPredictions| == |r.lowResMasks| == o.iouPredictions.dims[1]
  {
    var iouPredictions := ScoresOf(o.iouPredictions);
    DecodeResult(MasksOf(o.masks, iouPredictions), iouPredictions, LowResMasksOf(o.lowResMasks, iouPredictions))
  }

  /** One full decode: pack the options, run the model, unpack its outputs. */
  function Decoding(engine: DecodeEngine, options: DecodeOptions): (r: DecodeResult)
    ensures |r.masks| == |r.iouPredictions| == |r.lowResMasks|
  {
    ProcessOutput(engine(BuildFeeds(options)))
  }

  /** The three lists have one entry per mask, and mask i, low resolution
      mask i and score i carry the same score, in the model's order. */
  lemma ScoresAligned(o: RawDecodeOutput, i: nat)
    requires WellFormedOutput(o) && i < o.iouPredictions.dims[1]
    ensures var r := ProcessOutput(o);
      && |r.masks| == |r.iouPredictions| == |r.lowResMasks| == o.iouPredictions.dims[1]
      && r.masks[i].iouPrediction == r.lowResMasks[i].iouPrediction == r.iouPredictions[i]
      && r.iouPredictions[i] == PercentScore(o.iouPredictions.data[i])
  {
  }

  /** Mask i depends only on elements [i * size, (i + 1) * size) of the
      tensor. */
  lemma MaskReadsOnlyItsSlice(t: Tensor, u: Tensor, iou: seq<real>, i: nat)
    requires IsMaskStack(t) && t.dims == u.dims && |u.data| == |t.data|
    requires |iou| >= t.dims[1] && i < t.dims[1]
    requires forall k :: i * (t.dims[2] * t.dims[3]) <= k < (i + 1) * (t.dims[2] * t.dims[3]) ==> t.data[k] == u.data[k]
    ensures MasksOf(t, iou)[i] == MasksOf(u, iou)[i]
    ensures LowResMasksOf(t, iou)[i] == LowResMasksOf(u, iou)[i]
  {
    var size := t.dims[2] * t.dims[3];
    SliceWithin(i, t.dims[1], size);
    var start := i * size;
    forall k | 0 <= k < size ensures MaskSlice(t, i)[k] == MaskSlice(u, i)[k] {
      assert t.data[start + k] == u.data[start + k];
    }
    assert MaskSlice(t, i) == MaskSlice(u, i);
  }

  /** The raw values of the low resolution masks, one after the other. */
  function JoinedData(masks: seq<DecodeLowResMask>): seq<real> {
    if masks == [] then [] else JoinedData(masks[..|masks| - 1]) + masks[|masks| - 1].data
  }

  /** The low resolution slices partition the tensor: joined back together
      they give the whole buffer. */
  lemma LowResMasksPartition(t: Tensor, iou: seq<real>)
    requires IsMaskStack(t) && |iou| >= t.dims[1]
    ensures JoinedData(LowResMasksOf(t, iou)) == t.data
  {
    var masks := LowResMasksOf(t, iou);
    var size := t.dims[2] * t.dims[3];
    forall k | 0 <= k < |masks| ensures SliceOf(masks, t.data, size, k) {
      MaskSliceAt(t, k);
    }
    JoinedPrefix(masks, t.data, size, |masks|);
    assert masks[..|masks|] == masks;
    assert t.data[..|masks| * size] == t.data;
  }

  /** Mask i is the i-th run of height * width elements of the buffer. */
  lemma MaskSliceAt(t: Tensor, i: nat)
    requires IsMaskStack(t) && i < t.dims[1]
    ensures i * (t.dims[2] * t.dims[3]) + t.dims[2] * t.dims[3] <= |t.data|
    ensures MaskSlice(t, i) == t.data[i * (t.dims[2] * t.dims[3]) .. i * (t.dims[2] * t.dims[3]) + t.dims[2] * t.dims[3]]
  {
    SliceWithin(i, t.dims[1], t.dims[2] * t.dims[3]);
  }

  lemma JoinedSnoc(masks: seq<DecodeLowResMask>, n: nat)
    requires 0 < n <= |masks|
    ensures JoinedData(masks[..n]) == JoinedData(masks[..n - 1]) + masks[n - 1].data
  {
    assert masks[..n][..n - 1] == masks[..n - 1];
  }

  /** Mask k holds the k-th run of `size` elements of `data`. */
  predicate SliceOf(masks: seq<DecodeLowResMask>, data: seq<real>, size: nat, k: nat)
    requires k < |masks|
  {
    k * size + size <= |data| && masks[k].data == data[k * size .. k * size + size]
  }

  /** Joining the first n of a run of consecutive `size`-element slices of
      `data` gives the first n * size elements. */
  lemma {:induction false} JoinedPrefix(masks: seq<DecodeLowResMask>, data: seq<real>, size: nat, n: nat)
    requires n <= |masks|
    requires forall k :: 0 <= k < |masks| ==> SliceOf(masks, data, size, k)
    ensures n * size <= |data| && JoinedData(masks[..n]) == data[..n * size]
  {
    if n > 0 {
      var start := (n - 1) * size;
      JoinedPrefix(masks, data, size, n - 1);
      JoinedSnoc(masks, n);
      NextMultiple(n - 1, size);
      assert SliceOf(masks, data, size, n - 1);
      assert data[..start + size] == data[..start] + data[start .. start + size];
    }
  }

  /** SAMDecoder: owns the decoder inference session. */
  class SamDecoder {
    const modelPath: string
    var session: Option<DecodeEngine>

    constructor (modelPath: string)
      ensures this.modelPath == modelPath && session == None
    {
      this.modelPath := modelPath;
      session := None;
    }

    /** init: the session the runtime creates from the model file. */
    method Init(engine: DecodeEngine)
      modifies this
      ensures session == Some(engine)
    {
      session := Some(engine);
    }

    /** decode: fails before init; otherwise packs the options, runs the
        model once and unpacks its outputs. */
    method Decode(options: DecodeOptions) returns (r: Result<DecodeResult>)
      ensures session == None ==> r == Failure(SessionNotInitialized)
      ensures session != None ==> r == Success(Decoding(session.value, options))
    {
      if session == None {
        return Failure(SessionNotInitialized);
      }
      var engine := session.value;
      var feeds := BuildFeeds(options);
      var result := engine(feeds);
      var iouPredictions := ProcessIouPredictions(result.iouPredictions);
      var masks := ProcessMasks(result.masks, iouPredictions);
      var lowResMasks := ProcessLowResMasks(result.lowResMasks, iouPredictions);
      r := Success(DecodeResult(masks, iouPredictions, lowResMasks));
    }
  }
}
