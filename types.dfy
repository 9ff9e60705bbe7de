/** Records shared by the segmentation session, the decoder codec and the
    coordinate mapper (the declarations of types/index.ts), plus the shapes of
    the tensors exchanged with the inference engine. JavaScript numbers are
    modelled as `real`; typed-array bytes as `Byte`. */
module SamTypes {

  /** An element of a Uint8Array / Uint8ClampedArray. */
  type Byte = b: int | 0 <= b < 256

  datatype Option<T> = None | Some(value: T)

  /** The exceptions the core throws, one constructor per distinct message. */
  datatype Error =
    | ResizeResultMissing    // no mapping record yet: prepare has not run
    | EncodeCacheMissing     // no embeddings yet: prepare has not run
    | PreviousDecodeMissing  // refine before any decode
    | SessionNotInitialized  // the inference session was never created
    | LowResMaskMissing      // the previous result has no low resolution mask

  datatype Result<T> = Success(value: T) | Failure(error: Error)

  datatype Point = Point(x: real, y: real)

  /** A prompt point. `labelValue` (`label` is a reserved word in Dafny) is
      1 for foreground and 0 for background. */
  datatype LabelPoint = LabelPoint(x: real, y: real, labelValue: int)

  datatype Box = Box(topLeft: Point, bottomRight: Point)

  /** The three embedding buffers produced once per image by the encoder. */
  datatype EncodeResult = EncodeResult(imageEmbed: seq<real>, highResFeat1: seq<real>, highResFeat2: seq<real>)

  const ImageEmbedLength: nat := 1 * 256 * 64 * 64
  const HighResFeat1Length: nat := 1 * 32 * 256 * 256
  const HighResFeat2Length: nat := 1 * 64 * 128 * 128
  /** The mask hint is a 256 x 256 single-channel buffer. */
  const MaskInputLength: nat := 256 * 256

  predicate EmbeddingsShaped(e: EncodeResult) {
    && |e.imageEmbed| == ImageEmbedLength
    && |e.highResFeat1| == HighResFeat1Length
    && |e.highResFeat2| == HighResFeat2Length
  }

  /** The complete input of one decode call. */
  datatype DecodeOptions = DecodeOptions(
    imageEmbed: seq<real>,
    highResFeat1: seq<real>,
    highResFeat2: seq<real>,
    pointCoords: seq<Point>,
    pointLabels: seq<LabelPoint>,
    boxes: Box,
    maskInput: seq<real>)

  /** A raster of `width` x `height` RGBA pixels, four bytes per pixel. */
  datatype ImageData = ImageData(width: nat, height: nat, data: seq<Byte>)

  datatype DecodeMask = DecodeMask(imageData: ImageData, iouPrediction: real)

  datatype DecodeLowResMask = DecodeLowResMask(imageData: ImageData, data: seq<real>, iouPrediction: real)

  datatype DecodeResult = DecodeResult(
    masks: seq<DecodeMask>,
    iouPredictions: seq<real>,
    lowResMasks: seq<DecodeLowResMask>)

  /** The part of an HTMLImageElement the core reads: its natural size. */
  datatype Image = Image(naturalWidth: nat, naturalHeight: nat)

  /** An image that has finished loading has a positive natural size. */
  predicate Loaded(image: Image) {
    image.naturalWidth > 0 && image.naturalHeight > 0
  }

  /** The mapping record of one prepared image (its canvas and context are
      drawing state and are not kept). */
  datatype ResizeImageResult = ResizeImageResult(
    scale: real,
    originalWidth: nat,
    originalHeight: nat,
    scaledWidth: int,
    scaledHeight: int,
    offsetX: int,
    offsetY: int,
    mapOriginalToCanvasCoords: (real, real) -> Point)

  /** The parameters handed to resizeImageDataToTargetSizeImage: crop the
      region [offsetX, offsetY, viewWidth, viewHeight] of `imageData` and
      stretch it to targetWidth x targetHeight. */
  datatype ResizeImageDataOptions = ResizeImageDataOptions(
    imageData: ImageData,
    targetWidth: nat,
    targetHeight: nat,
    offsetX: int,
    offsetY: int,
    viewWidth: int,
    viewHeight: int)

  // ---------------------------------------------------------------------
  // Tensors exchanged with the inference engine

  datatype Tensor = Tensor(data: seq<real>, dims: seq<nat>)
  datatype ByteTensor = ByteTensor(data: seq<Byte>, dims: seq<nat>)
  datatype IntTensor = IntTensor(data: seq<int>, dims: seq<nat>)

  /** Number of elements a tensor of shape `dims` holds. */
  function Size(dims: seq<nat>): nat {
    if dims == [] then 1 else dims[0] * Size(dims[1..])
  }

  lemma SizeOf2(a: nat, b: nat)
    ensures Size([a, b]) == a * b
  {
    var dims: seq<nat> := [a, b];
    assert dims[1..][1..] == [];
    assert dims[1..] == [b];
    assert Size(dims[1..]) == b * Size([]);
  }

  lemma SizeOf3(a: nat, b: nat, c: nat)
    ensures Size([a, b, c]) == a * (b * c)
  {
    var dims: seq<nat> := [a, b, c];
    SizeOf2(b, c);
    assert dims[1..] == [b, c];
  }

  lemma SizeOf4(a: nat, b: nat, c: nat, d: nat)
    ensures Size([a, b, c, d]) == a * (b * (c * d))
  {
    var dims: seq<nat> := [a, b, c, d];
    SizeOf3(b, c, d);
    assert dims[1..] == [b, c, d];
  }

  /** The named inputs of the mask decoder model. */
  datatype DecodeFeeds = DecodeFeeds(
    imageEmbed: Tensor,
    highResFeat1: Tensor,
    highResFeat2: Tensor,
    pointCoords: Tensor,
    pointLabels: IntTensor,
    boxes: Tensor,
    maskInput: Tensor)

  /** The named outputs of the mask decoder model. */
  datatype RawDecodeOutput = RawDecodeOutput(masks: Tensor, iouPredictions: Tensor, lowResMasks: Tensor)

  /** `[1, count]` scores. */
  predicate IsScoreVector(t: Tensor) {
    |t.dims| == 2 && t.dims[0] == 1 && |t.data| == t.dims[1]
  }

  /** `[1, count, height, width]` masks stored mask after mask. */
  predicate IsMaskStack(t: Tensor) {
    && |t.dims| == 4 && t.dims[0] == 1 && t.dims[2] > 0 && t.dims[3] > 0
    && |t.data| == t.dims[1] * (t.dims[2] * t.dims[3])
  }

  /** The shapes the decoder model always returns: as many masks, low
      resolution masks and scores, the low resolution ones 256 x 256. */
  predicate WellFormedOutput(o: RawDecodeOutput) {
    && IsScoreVector(o.iouPredictions)
    && IsMaskStack(o.masks)
    && IsMaskStack(o.lowResMasks)
    && o.masks.dims[1] == o.iouPredictions.dims[1]
    && o.lowResMasks.dims[1] == o.iouPredictions.dims[1]
    && o.lowResMasks.dims[2] == 256 && o.lowResMasks.dims[3] == 256
  }

  const NoMasks: RawDecodeOutput :=
    RawDecodeOutput(Tensor([], [1, 0, 1, 1]), Tensor([], [1, 0]), Tensor([], [1, 0, 256, 256]))

  /** The decoder inference session (`session.run`), an opaque capability. */
  type DecodeEngine = run: DecodeFeeds -> RawDecodeOutput | forall f :: WellFormedOutput(run(f))
    witness (f: DecodeFeeds) => NoMasks

  /** The encoder inference session, an opaque capability. */
  type EncodeEngine = ByteTensor -> EncodeResult
}
