/** The interactive segmentation session (sam-interaction.ts): one image,
    its cached embeddings and mapping record, the prompt being edited
    (points, box, mask hint) and the last decode result. */
module Interaction {
  import opened SamTypes
  import opened Canvas
  import opened Decoder
  import opened SamModel

  /** `points.map(p => ({ x: p.x, y: p.y }))`: the coordinates of labelled
      points, in order. */
  function CoordsOf(points: seq<LabelPoint>): (coords: seq<Point>)
    ensures |coords| == |points|
    ensures forall i :: 0 <= i < |points| ==> coords[i] == Point(points[i].x, points[i].y)
  {
    seq(|points|, i requires 0 <= i < |points| => Point(points[i].x, points[i].y))
  }

  /** Adding a point to the labels adds its coordinates to the coordinate
      list: `addPoint` keeps the lists as `setPoints` builds them. */
  lemma CoordsOfAppend(points: seq<LabelPoint>, p: LabelPoint)
    ensures CoordsOf(points + [p]) == CoordsOf(points) + [Point(p.x, p.y)]
  {
  }

  /** The crop handed to resizeImageDataToTargetSizeImage for one mask: the
      region the scaled image occupies in the square canvas, stretched back
      to the original size. */
  function CropOf(r: ResizeImageResult, imageData: ImageData): ResizeImageDataOptions {
    ResizeImageDataOptions(imageData, r.originalWidth, r.originalHeight,
      r.offsetX, r.offsetY, r.scaledWidth, r.scaledHeight)
  }

  /** One crop per mask, in the masks' order. */
  function CropsOf(r: ResizeImageResult, masks: seq<DecodeMask>): (crops: seq<ResizeImageDataOptions>)
    ensures |crops| == |masks|
    ensures forall i :: 0 <= i < |masks| ==> crops[i] == CropOf(r, masks[i].imageData)
  {
    seq(|masks|, i requires 0 <= i < |masks| => CropOf(r, masks[i].imageData))
  }

  /** For a record made by prepare, the crop window is the part of the canvas
      the image was drawn on: it lies inside the canvas, has the scaled
      image's size, and the image's origin maps to its top-left corner; the
      crop is stretched back to the image's own size. */
  lemma CropWindowIsDrawnImage(image: Image, targetSize: nat, imageData: ImageData)
    requires Loaded(image)
    ensures var r := ResizeImageToTargetSize(image, targetSize);
      var crop := CropOf(r, imageData);
      && crop.targetWidth == image.naturalWidth && crop.targetHeight == image.naturalHeight
      && 0 <= crop.offsetX && crop.offsetX + crop.viewWidth <= targetSize
      && 0 <= crop.offsetY && crop.offsetY + crop.viewHeight <= targetSize
      && crop.viewWidth == r.scaledWidth && crop.viewHeight == r.scaledHeight
      && r.mapOriginalToCanvasCoords(0.0, 0.0) == Point(crop.offsetX as real, crop.offsetY as real)
  {
    ResizeCentres(image, targetSize);
  }

  /** The value of `refine`'s mask hint: the raw data of the first low
      resolution mask of the previous result. */
  function RefineHint(previous: Option<DecodeResult>): (r: Result<seq<real>>)
    ensures previous.None? ==> r == Failure(PreviousDecodeMissing)
    ensures previous.Some? && previous.value.lowResMasks == [] ==> r == Failure(LowResMaskMissing)
    ensures previous.Some? && previous.value.lowResMasks != [] ==> r == Success(previous.value.lowResMasks[0].data)
  {
    match previous
    case None => Failure(PreviousDecodeMissing)
    case Some(result) =>
      if result.lowResMasks == [] then Failure(LowResMaskMissing) else Success(result.lowResMasks[0].data)
  }

  /** The hint is always mask 0, whatever the scores: two results that agree
      on their first low resolution mask give the same hint. */
  lemma RefineHintIgnoresScores(a: DecodeResult, b: DecodeResult)
    requires a.lowResMasks != [] && b.lowResMasks != [] && a.lowResMasks[0].data == b.lowResMasks[0].data
    ensures RefineHint(Some(a)) == RefineHint(Some(b))
  {
  }

  /** The loop of `decode` that maps every mask back onto the original
      image. */
  method CropMasks(resize: ResizeImageResult, decoded: seq<DecodeMask>) returns (masks: seq<ResizeImageDataOptions>)
    ensures masks == CropsOf(resize, decoded)
  {
    masks := [];
    for i := 0 to |decoded|
      invariant |masks| == i
      invariant forall k :: 0 <= k < i ==> masks[k] == CropOf(resize, decoded[k].imageData)
    {
      var crop := ResizeImageDataOptions(decoded[i].imageData, resize.originalWidth, resize.originalHeight,
        resize.offsetX, resize.offsetY, resize.scaledWidth, resize.scaledHeight);
      masks := masks + [crop];
    }
  }

  /** The result of one `decode` call: the crops and the decode result. */
  datatype DecodeOutcome = DecodeOutcome(masks: seq<ResizeImageDataOptions>, result: DecodeResult)

  /** SAMInteraction */
  class SamInteraction {
    const sam: Sam
    var image: Image
    var encodeCache: Option<EncodeResult>
    var resizeImageResult: Option<ResizeImageResult>
    var pointCoords: seq<Point>
    var pointLabels: seq<LabelPoint>
    var boxes: Box
    var maskInput: seq<real>
    var previousDecodeResult: Option<DecodeResult>

    /** The two point lists are parallel: coordinate i is the position of
        labelled point i. */
    ghost predicate Valid()
      reads this
    {
      pointCoords == CoordsOf(pointLabels)
    }

    /** The prompt being edited. */
    ghost function Prompt(): (seq<Point>, seq<LabelPoint>, Box, seq<real>)
      reads this
    {
      (pointCoords, pointLabels, boxes, maskInput)
    }

    constructor (sam: Sam, image: Image)
      ensures Valid()
      ensures this.sam == sam && this.image == image
      ensures encodeCache == None && resizeImageResult == None && previousDecodeResult == None
      ensures pointCoords == [] && pointLabels == []
      ensures boxes == Box(Point(0.0, 0.0), Point(0.0, 0.0))
      ensures |maskInput| == MaskInputLength && forall i :: 0 <= i < |maskInput| ==> maskInput[i] == 0.0
    {
      this.sam := sam;
      this.image := image;
      encodeCache := None;
      resizeImageResult := None;
      pointCoords := [];
      pointLabels := [];
      boxes := Box(Point(0.0, 0.0), Point(0.0, 0.0));
      maskInput := seq(MaskInputLength, _ => 0.0);
      previousDecodeResult := None;
    }

    /** setEncodeCache: embeddings and mapping record restored together. */
    method SetEncodeCache(encodeCache: EncodeResult, resizeImageResult: ResizeImageResult)
      requires Valid()
      modifies this
      ensures Valid()
      ensures this.encodeCache == Some(encodeCache) && this.resizeImageResult == Some(resizeImageResult)
      ensures Prompt() == old(Prompt()) && image == old(image) && previousDecodeResult == old(previousDecodeResult)
    {
      this.encodeCache := Some(encodeCache);
      this.resizeImageResult := Some(resizeImageResult);
    }

    /** setPoints: the labels as given and their coordinates. */
    method SetPoints(points: seq<LabelPoint>)
      modifies this
      ensures Valid()
      ensures pointLabels == points
      ensures boxes == old(boxes) && maskInput == old(maskInput)
      ensures image == old(image) && encodeCache == old(encodeCache)
      ensures resizeImageResult == old(resizeImageResult) && previousDecodeResult == old(previousDecodeResult)
    {
      pointLabels := points;
      pointCoords := CoordsOf(points);
    }

    /** addPoint: one more entry at the end of both lists. */
    method AddPoint(point: LabelPoint)
      requires Valid()
      modifies this
      ensures Valid()
      ensures pointLabels == old(pointLabels) + [point]
      ensures pointCoords == old(pointCoords) + [Point(point.x, point.y)]
      ensures boxes == old(boxes) && maskInput == old(maskInput)
      ensures image == old(image) && encodeCache == old(encodeCache)
      ensures resizeImageResult == old(resizeImageResult) && previousDecodeResult == old(previousDecodeResult)
    {
      CoordsOfAppend(pointLabels, point);
      pointLabels := pointLabels + [point];
      pointCoords := pointCoords + [Point(point.x, point.y)];
    }

    /** setBox: replaces the box and nothing else. */
    method SetBox(box: Box)
      requires Valid()
      modifies this
      ensures Valid()
      ensures boxes == box
      ensures pointCoords == old(pointCoords) && pointLabels == old(pointLabels) && maskInput == old(maskInput)
      ensures image == old(image) && encodeCache == old(encodeCache)
      ensures resizeImageResult == old(resizeImageResult) && previousDecodeResult == old(previousDecodeResult)
    {
      boxes := box;
    }

    /** setMaskInput: replaces the mask hint and nothing else. */
    method SetMaskInput(maskInput: seq<real>)
      requires Valid()
      modifies this
      ensures Valid()
      ensures this.maskInput == maskInput
      ensures pointCoords == old(pointCoords) && pointLabels == old(pointLabels) && boxes == old(boxes)
      ensures image == old(image) && encodeCache == old(encodeCache)
      ensures resizeImageResult == old(resizeImageResult) && previousDecodeResult == old(previousDecodeResult)
    {
      this.maskInput := maskInput;
    }

    /** mapOriginalToCanvasCoords: fails before prepare; afterwards the
        record's own map, which for a record made by prepare is the affine
        map of its scale and offsets. */
    function MapOriginalToCanvasCoords(point: Point): (r: Result<Point>)
      reads this
      ensures resizeImageResult.None? ==> r == Failure(ResizeResultMissing)
      ensures resizeImageResult.Some? ==> r.Success?
      ensures resizeImageResult.Some? && MapsAffinely(resizeImageResult.value) ==>
        r.value == Point(point.x * resizeImageResult.value.scale + resizeImageResult.value.offsetX as real,
                         point.y * resizeImageResult.value.scale + resizeImageResult.value.offsetY as real)
    {
      if resizeImageResult.None? then Failure(ResizeResultMissing)
      else Success(resizeImageResult.value.mapOriginalToCanvasCoords(point.x, point.y))
    }

    /** createDecodeOptions: the cached embeddings with the given prompt;
        nothing can be built before the image is encoded. */
    function CreateDecodeOptions(pointCoords: seq<Point>, pointLabels: seq<LabelPoint>, boxes: Box, maskInput: seq<real>): (r: Result<DecodeOptions>)
      reads this
      ensures r.Failure? <==> encodeCache.None?
      ensures r.Failure? ==> r.error == EncodeCacheMissing
      ensures r.Success? ==>
        && EncodeResult(r.value.imageEmbed, r.value.highResFeat1, r.value.highResFeat2) == encodeCache.value
        && r.value.pointCoords == pointCoords && r.value.pointLabels == pointLabels
        && r.value.boxes == boxes && r.value.maskInput == maskInput
    {
      if encodeCache.None? then Failure(EncodeCacheMissing)
      else
        var cache := encodeCache.value;
        Success(DecodeOptions(cache.imageEmbed, cache.highResFeat1, cache.highResFeat2,
          pointCoords, pointLabels, boxes, maskInput))
    }

    /** getDecodeOptions: the options of the current prompt. */
    function GetDecodeOptions(): (r: Result<DecodeOptions>)
      reads this
      ensures r.Failure? <==> encodeCache.None?
      ensures r.Failure? ==> r.error == EncodeCacheMissing
      ensures r.Success? ==>
        && EncodeResult(r.value.imageEmbed, r.value.highResFeat1, r.value.highResFeat2) == encodeCache.value
        && (r.value.pointCoords, r.value.pointLabels, r.value.boxes, r.value.maskInput) == Prompt()
    {
      CreateDecodeOptions(pointCoords, pointLabels, boxes, maskInput)
    }

    /** The model receives exactly the current prompt: reading its point and
        box tensors back gives the points and the box, and the embedding and
        mask tensors hold the cached buffers and the hint. */
    lemma DecodeOptionsReachModel()
      requires encodeCache.Some?
      ensures var feeds := BuildFeeds(GetDecodeOptions().value);
        && feeds.imageEmbed.data == encodeCache.value.imageEmbed
        && feeds.highResFeat1.data == encodeCache.value.highResFeat1
        && feeds.highResFeat2.data == encodeCache.value.highResFeat2
        && UnpackPointCoords(feeds.pointCoords.data) == pointCoords
        && feeds.pointLabels.data == PackPointLabels(pointLabels)
        && UnpackBox(feeds.boxes.data) == boxes
        && feeds.maskInput.data == maskInput
    {
      UnpackPackPointCoords(pointCoords);
      BoxRoundTrip(boxes, PackBox(boxes));
    }

    /** The options `refine` decodes with: the current points and box, and the
        previous result's first low resolution mask as the hint. */
    function RefineOptions(): (r: Result<DecodeOptions>)
      reads this
      ensures RefineHint(previousDecodeResult).Failure? ==> r == Failure(RefineHint(previousDecodeResult).error)
      ensures RefineHint(previousDecodeResult).Success? && encodeCache.None? ==> r == Failure(EncodeCacheMissing)
      ensures RefineHint(previousDecodeResult).Success? && encodeCache.Some? ==>
        && r.Success?
        && EncodeResult(r.value.imageEmbed, r.value.highResFeat1, r.value.highResFeat2) == encodeCache.value
        && r.value.pointCoords == pointCoords && r.value.pointLabels == pointLabels && r.value.boxes == boxes
        && r.value.maskInput == previousDecodeResult.value.lowResMasks[0].data
    {
      if previousDecodeResult.None? then Failure(PreviousDecodeMissing)
      else if previousDecodeResult.value.lowResMasks == [] then Failure(LowResMaskMissing)
      else CreateDecodeOptions(pointCoords, pointLabels, boxes, previousDecodeResult.value.lowResMasks[0].data)
    }

    /** With a well-shaped cache, a parallel prompt and a 256 x 256 hint, the
        current options fill every model input with exactly as many values
        as its shape declares. */
    lemma GetDecodeOptionsShaped()
      requires Valid() && encodeCache.Some? && EmbeddingsShaped(encodeCache.value)
      requires |maskInput| == MaskInputLength
      ensures GetDecodeOptions().Success? && FeedsShaped(BuildFeeds(GetDecodeOptions().value))
    {
      BuildFeedsShaped(GetDecodeOptions().value);
    }

    /** prepare: with a cache, returns it and changes nothing (the encoder is
        not run). Otherwise records the mapping of the image drawn into the
        encoder's square canvas, then encodes that canvas; a failed encode
        leaves the mapping recorded and the cache empty. */
    method Prepare(canvasPixels: seq<Byte>) returns (r: Result<EncodeResult>)
      requires Valid()
      requires encodeCache.None? ==>
        Loaded(image) && |canvasPixels| == 4 * (sam.encoder.targetSize * sam.encoder.targetSize)
      modifies this, sam.encoder
      ensures Valid()
      ensures Prompt() == old(Prompt()) && image == old(image) && previousDecodeResult == old(previousDecodeResult)
      ensures sam.encoder.session == old(sam.encoder.session)
      ensures old(encodeCache).Some? ==>
        && r == Success(old(encodeCache).value)
        && encodeCache == old(encodeCache) && resizeImageResult == old(resizeImageResult)
        && sam.encoder.encodeCalls == old(sam.encoder.encodeCalls)
      ensures old(encodeCache).None? ==>
        resizeImageResult == Some(ResizeImageToTargetSize(image, sam.encoder.targetSize))
      ensures old(encodeCache).None? && old(sam.encoder.session).None? ==>
        && r == Failure(SessionNotInitialized) && encodeCache == None
        && sam.encoder.encodeCalls == old(sam.encoder.encodeCalls)
      ensures old(encodeCache).None? && old(sam.encoder.session).Some? ==>
        && encodeCache == Some(old(sam.encoder.session).value(ImageTensor(canvasPixels, sam.encoder.targetSize)))
        && r == Success(encodeCache.value)
        && sam.encoder.encodeCalls == old(sam.encoder.encodeCalls) + 1
    {
      if encodeCache.Some? {
        return Success(encodeCache.value);
      }
      var imageTensor, resize := sam.Prepare(image, canvasPixels);
      resizeImageResult := Some(resize);
      var encoded := sam.Encode(imageTensor);
      if encoded.Failure? {
        return Failure(encoded.error);
      }
      encodeCache := Some(encoded.value);
      r := Success(encoded.value);
    }

    /** decode: fails before prepare, or when the decoder has no session;
        otherwise keeps the decoder's result as the previous result and
        returns, with it, one crop per mask in the masks' order. */
    method Decode(options: DecodeOptions) returns (r: Result<DecodeOutcome>)
      requires Valid()
      modifies this
      ensures Valid()
      ensures Prompt() == old(Prompt()) && image == old(image)
      ensures encodeCache == old(encodeCache) && resizeImageResult == old(resizeImageResult)
      ensures resizeImageResult.None? ==>
        r == Failure(ResizeResultMissing) && previousDecodeResult == old(previousDecodeResult)
      ensures resizeImageResult.Some? && sam.decoder.session.None? ==>
        r == Failure(SessionNotInitialized) && previousDecodeResult == old(previousDecodeResult)
      ensures resizeImageResult.Some? && sam.decoder.session.Some? ==>
        var result := Decoding(sam.decoder.session.value, options);
        && previousDecodeResult == Some(result)
        && r == Success(DecodeOutcome(CropsOf(resizeImageResult.value, result.masks), result))
    {
      if resizeImageResult.None? {
        return Failure(ResizeResultMissing);
      }
      var decoded := sam.Decode(options);
      if decoded.Failure? {
        return Failure(decoded.error);
      }
      var result := decoded.value;
      previousDecodeResult := Some(result);
      var masks := CropMasks(resizeImageResult.value, result.masks);
      r := Success(DecodeOutcome(masks, result));
    }

    /** refine: decodes the current points and box again with the previous
        result's first low resolution mask as the hint, keeps the new result
        and returns its crops. The session's own mask hint is left as it
        is. */
    method Refine() returns (r: Result<seq<ResizeImageDataOptions>>)
      requires Valid()
      modifies this
      ensures Valid()
      ensures Prompt() == old(Prompt()) && image == old(image)
      ensures encodeCache == old(encodeCache) && resizeImageResult == old(resizeImageResult)
      ensures old(RefineOptions()).Failure? ==>
        r == Failure(old(RefineOptions()).error) && previousDecodeResult == old(previousDecodeResult)
      ensures old(RefineOptions()).Success? && resizeImageResult.None? ==>
        r == Failure(ResizeResultMissing) && previousDecodeResult == old(previousDecodeResult)
      ensures old(RefineOptions()).Success? && resizeImageResult.Some? && sam.decoder.session.None? ==>
        r == Failure(SessionNotInitialized) && previousDecodeResult == old(previousDecodeResult)
      ensures old(RefineOptions()).Success? && resizeImageResult.Some? && sam.decoder.session.Some? ==>
        var result := Decoding(sam.decoder.session.value, old(RefineOptions()).value);
        && previousDecodeResult == Some(result)
        && r == Success(CropsOf(resizeImageResult.value, result.masks))
    {
      if previousDecodeResult.None? {
        return Failure(PreviousDecodeMissing);
      }
      var previous := previousDecodeResult.value;
      if previous.lowResMasks == [] {
        return Failure(LowResMaskMissing);
      }
      var maskInput := previous.lowResMasks[0].data;
      var options := CreateDecodeOptions(pointCoords, pointLabels, boxes, maskInput);
      if options.Failure? {
        return Failure(options.error);
      }
      var outcome := Decode(options.value);
      if outcome.Failure? {
        return Failure(outcome.error);
      }
      previousDecodeResult := Some(outcome.value.result);
      r := Success(outcome.value.masks);
    }
  }
}
