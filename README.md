# Segment Anything 2 in the browser: session, decoder codec and coordinate mapping

This project models the logic behind interactive segmentation in
`segment-anything-model`. There are three parts.

- **The interactive session `SAMInteraction`.** It holds:
  - the cached image embeddings;
  - the mapping record of the prepared image;
  - the prompt being edited: parallel point lists, a box and a 256 x 256 mask hint;
  - the last decode result.

  It guards the encode-once / decode-many protocol. `prepare` encodes at most once. Decode options need the embeddings, `decode` needs the mapping record, and `refine` needs a previous result. `refine` feeds the first low-resolution mask of the previous result back as the mask hint.
- **The decoder's tensor codec `SAMDecoder`.** On the way in, it packs the prompt into the model's input tensors. On the way out, it unpacks the model's `[1, count]` score tensor and `[1, count, H, W]` mask tensors into scores rounded to two decimals and RGBA rasters. Pixel `j` of a raster is painted `(0, 114, 189, 255)` when its value is positive and stays all zero otherwise. Masks and scores are paired by index.
- **The canvas arithmetic.**
  - `resizeImageToTargetSize` gives the scale that fits the longer side, the rounded scaled sides, the floor-centred offsets and the affine point map.
  - `imageDataToUint8Tensor` repacks interleaved RGBA into planar RGB: cell `c * S * S + i` is byte `4 * i + c`.

`SAMEncoder` and `SAM` are modelled as the thin owners of the inference sessions that they are.

Files:
- `types.dfy` (`SamTypes`): the records, the error kinds and the tensor shapes.
- `canvas.dfy` (`Canvas`): the resize arithmetic and the planar repack.
- `decoder.dfy` (`Decoder`): the codec and the `SamDecoder` class.
- `sam.dfy` (`SamModel`): `SamEncoder` and `Sam`.
- `interaction.dfy` (`Interaction`): the `SamInteraction` class.

Modelling choices:
- **Inference sessions** are function values handed to `Init`. `InferenceSession.create` and `session.run` are outside the model.
  - A decoder session is a `DecodeEngine`. That is a function whose every output has the shapes the decoder model returns: as many masks, low-resolution masks and scores, and 256 x 256 low-resolution masks.
  - The encoder keeps a ghost count of its runs, so a contract can say when the encoder model is not run.
- **Exceptions** are `Failure` values. There is one error kind per distinct thrown message, plus `LowResMaskMissing` for `refine` reading `lowResMasks[0]` of an empty list, which is a `TypeError` in JavaScript.
- **Numbers.** JavaScript numbers are `real`. `Math.round(x)` is `floor(x + 1/2)`. `Math.floor` of an exact half is `int` division. `toFixed(2)` rounds the magnitude half up and keeps the sign.

Two behaviours of the source worth knowing:
- `refine` passes the previous low-resolution mask to `decode` as the hint but does not store it in the session's `maskInput` field (sam-interaction.ts:161-163). `Interaction.SamInteraction.Refine` states that the prompt, hint included, is left unchanged.
- Rounding moves a scaled side by up to half a pixel on the canvas, which is 1 / (2 * scale) pixels of the image. So a scaled side divided by the scale is guaranteed to be within one image pixel of the original side only when the scale is at least 1/2; below that it can miss. `Canvas.DownscaleRoundingExample` shows a 4000 x 3002 image whose height reads back more than 1.9 pixels too tall.

## Model

| member | source | states |
|---|---|---|
| Canvas.Round | src/segment-anything-model/utils/canvas.ts:58-59 | Math.round gives an integer within half a unit of its argument, a half going up |
| Canvas.ScaleFor | src/segment-anything-model/utils/canvas.ts:57 | the scale times the longer side is exactly the target size |
| Canvas.ScaledLength | src/segment-anything-model/utils/canvas.ts:58-59 | a scaled side fits in the target, equals it for the longer side, and is within half a pixel of the exact scaled length |
| Canvas.CentringOffset | src/segment-anything-model/utils/canvas.ts:66-67 | the offset is half the free space rounded down, is non-negative, and keeps the scaled side inside the canvas |
| Canvas.ResizeImageToTargetSize | src/segment-anything-model/utils/canvas.ts:53-91 | the record keeps the original size, its scale fits the longer side exactly, and its point map is the affine map of the record's own scale and offsets |
| Canvas.ResizeScaledSides | src/segment-anything-model/utils/canvas.ts:57-59 | both scaled sides lie in [0, target], the longer side's equals the target, and each is within half a pixel of side * scale |
| Canvas.ResizeCentres | src/segment-anything-model/utils/canvas.ts:66-67 | the offsets are floor((target - scaled) / 2), the scaled image lies inside the canvas, and the longer axis has offset 0 |
| Canvas.SquareImageIsNotOffset | src/segment-anything-model/utils/canvas.ts:53-67 | a square image fills the whole canvas with offsets (0, 0) through the general path |
| Canvas.OriginMapsToOffset | src/segment-anything-model/utils/canvas.ts:70-75 | the image origin maps to (offsetX, offsetY) |
| Canvas.LandscapeExample | src/segment-anything-model/utils/canvas.ts:53-67 | 800 x 600 into 1024: scale 1.28, 1024 x 768, offsets (0, 128) |
| Canvas.DownscaleRoundingExample | src/segment-anything-model/utils/canvas.ts:57-59 | 4000 x 3002 into 1024: scale 0.256, height 769, more than 1.9 image pixels beyond the exact height |
| Canvas.PlanarRgbAt | src/segment-anything-model/utils/canvas.ts:105-109 | the packed buffer has 3 * S * S cells and cell c * S * S + i is byte 4 * i + c |
| Canvas.PlanarRgbCell | src/segment-anything-model/utils/canvas.ts:105-109 | every output cell k comes from exactly one colour byte, channel k / (S * S) < 3 of pixel k % (S * S), so the three write ranges cover the output without overlap |
| Canvas.PlanarRgbIgnoresAlpha | src/segment-anything-model/utils/canvas.ts:105-109 | canvases that differ only in alpha bytes pack to the same tensor |
| Canvas.ImageDataToUint8Tensor | src/segment-anything-model/utils/canvas.ts:98-112 | the loop fills an array of 3 * S * S bytes that is the planar RGB of the canvas, with shape [1, 3, S, S] whose size is the data length |
| Decoder.PackPointCoords | src/segment-anything-model/decoder.ts:101 | the coordinate buffer has 2 * N cells with x_k at 2k and y_k at 2k + 1 |
| Decoder.UnpackPackPointCoords | src/segment-anything-model/decoder.ts:101 | reading the packed coordinate buffer as (x, y) pairs gives back the points in order |
| Decoder.PackUnpackPointCoords | src/segment-anything-model/decoder.ts:116 | every even-length buffer is the packing of the points it is read as |
| Decoder.PackPointLabels | src/segment-anything-model/decoder.ts:102 | one label per labelled point, in the same order |
| Decoder.BoxRoundTrip | src/segment-anything-model/decoder.ts:103-108 | the box buffer is exactly [topLeft.x, topLeft.y, bottomRight.x, bottomRight.y]: packing and reading are inverse both ways |
| Decoder.BuildFeeds | src/segment-anything-model/decoder.ts:100-120 | the seven input tensors have their declared shapes; the embeddings and the hint are the options' buffers; the coordinate buffer has 2 * N cells and reads back as the points; label k is point k's label; the box buffer has 4 cells and reads back as the box |
| Decoder.BuildFeedsShaped | src/segment-anything-model/decoder.ts:112-120 | every input tensor holds as many values as its shape declares iff the embeddings have their fixed sizes, there is one label per point and the hint has 256 * 256 values |
| Decoder.Cents | src/segment-anything-model/decoder.ts:23 | the integer n of toFixed(2) is within 0.5 of x * 100, so n / 100 is within half a hundredth of x, and n has the sign of x |
| Decoder.ToFixed2 | src/segment-anything-model/decoder.ts:23 | toFixed(2) read back is within 0.005 of its argument and a whole number of hundredths |
| Decoder.ToFixed2Idempotent | src/segment-anything-model/decoder.ts:23 | rounding an already rounded value changes nothing |
| Decoder.TieCents | src/segment-anything-model/decoder.ts:23 | the toFixed(2) integer of a value exactly n.5 hundredths is n + 1, and of its negation -(n + 1) |
| Decoder.ToFixed2Ties | src/segment-anything-model/decoder.ts:23 | for every n, a value exactly n.5 hundredths becomes n + 1 hundredths and its negation -(n + 1) hundredths: ties round away from zero on both signs |
| Decoder.PercentScoreExamples | src/segment-anything-model/decoder.ts:23-24 | 0.8734 becomes 87.34 and 1 becomes 100 |
| Decoder.PercentScore | src/segment-anything-model/decoder.ts:23 | `Number(v * 100).toFixed(2)` read back is within 0.005 of v * 100 and a whole number of hundredths |
| Decoder.ProcessIouPredictions | src/segment-anything-model/decoder.ts:18-28 | exactly count scores, score i being data[i] * 100 to two decimals |
| Decoder.PixelColor | src/segment-anything-model/decoder.ts:4 | each mask value yields one four-byte RGBA pixel |
| Decoder.RasterizePixel | src/segment-anything-model/decoder.ts:40-47 | RGBA bytes 4j..4j+3 of a raster are the default colour if value j is positive and all zero otherwise |
| Decoder.RasterizeExample | src/segment-anything-model/decoder.ts:40-47 | the 2 x 2 mask [0, 0, 1, 0] has one opaque pixel, the third |
| Decoder.PaintPixel | src/segment-anything-model/decoder.ts:41-46 | painting pixel j of a buffer still blank from j on appends that value's pixel and leaves the rest blank |
| Decoder.PaintMask | src/segment-anything-model/decoder.ts:39-47 | the freshly allocated ImageData, once painted, is the raster of the mask values |
| Decoder.MaskSlice | src/segment-anything-model/decoder.ts:38 | mask i has height * width values |
| Decoder.MaskSliceAt | src/segment-anything-model/decoder.ts:38 | the run [i * size, (i + 1) * size) of mask i lies within the buffer |
| Decoder.ProcessMasks | src/segment-anything-model/decoder.ts:30-62 | the two loops return one raster per mask, in index order, each paired with score i |
| Decoder.ProcessLowResMasks | src/segment-anything-model/decoder.ts:64-92 | one entry per mask, in index order, with its raw slice, its raster and score i |
| Decoder.ProcessOutput | src/segment-anything-model/decoder.ts:127-137 | the unpacked result has as many masks, low-resolution masks and scores as the score tensor declares |
| Decoder.Decoding | src/segment-anything-model/decoder.ts:123-137 | one decode, the model run on the packed options and its outputs unpacked, gives equally many masks, low-resolution masks and scores |
| Decoder.ScoresAligned | src/segment-anything-model/decoder.ts:127-135 | the three lists have count entries, and mask i, low-resolution mask i and score i carry the same score |
| Decoder.MaskReadsOnlyItsSlice | src/segment-anything-model/decoder.ts:38 | mask i depends only on elements [i * size, (i + 1) * size) of the tensor |
| Decoder.LowResMasksPartition | src/segment-anything-model/decoder.ts:73 | the raw low-resolution slices, joined in order, give back the whole tensor |
| Decoder.SamDecoder.constructor | src/segment-anything-model/decoder.ts:10-12 | a new decoder keeps its model path and has no session |
| Decoder.SamDecoder.Init | src/segment-anything-model/decoder.ts:14-16 | init installs the session |
| Decoder.SamDecoder.Decode | src/segment-anything-model/decoder.ts:94-138 | fails with no session; otherwise the result is the model run once on the packed options and unpacked |
| SamModel.SamEncoder.constructor | src/segment-anything-model/encoder.ts:11-14 | a new encoder keeps its target size and model path, has no session and has not run |
| SamModel.SamEncoder.Init | src/segment-anything-model/encoder.ts:16-18 | init installs the session |
| SamModel.SamEncoder.Prepare | src/segment-anything-model/encoder.ts:20-29 | prepare returns the resize record of the image and the planar tensor of the canvas |
| SamModel.SamEncoder.Encode | src/segment-anything-model/encoder.ts:31-52 | fails with no session and does not run; otherwise runs the model exactly once on the tensor |
| SamModel.Sam.constructor | src/segment-anything-model/sam.ts:11-23 | a 1024-pixel encoder and a decoder with their model paths and no sessions |
| SamModel.Sam.Init | src/segment-anything-model/sam.ts:25-33 | both sessions installed |
| SamModel.Sam.Prepare | src/segment-anything-model/sam.ts:35-37 | delegates to the encoder's prepare |
| SamModel.Sam.Encode | src/segment-anything-model/sam.ts:39-41 | delegates to the encoder's encode |
| SamModel.Sam.Decode | src/segment-anything-model/sam.ts:43-45 | delegates to the decoder's decode |
| Interaction.CoordsOf | src/segment-anything-model/sam-interaction.ts:43 | one coordinate per labelled point, coordinate i being (x_i, y_i) |
| Interaction.CoordsOfAppend | src/segment-anything-model/sam-interaction.ts:46-49 | adding a labelled point adds exactly its coordinates at the end of the coordinate list |
| Interaction.CropsOf | src/segment-anything-model/sam-interaction.ts:137-148 | one crop per mask, in the masks' order, each taking the scaled-image window to the original size |
| Interaction.CropWindowIsDrawnImage | src/segment-anything-model/sam-interaction.ts:138-146 | for a record made by prepare, the crop targets the natural size, and its window is the scaled image's, inside the canvas, with the image origin at its top-left |
| Interaction.CropMasks | src/segment-anything-model/sam-interaction.ts:135-148 | the loop builds exactly the crops of the masks, in order |
| Interaction.RefineHint | src/segment-anything-model/sam-interaction.ts:157-161 | no previous result fails; an empty low-resolution list fails; otherwise the hint is the data of low-resolution mask 0 |
| Interaction.RefineHintIgnoresScores | src/segment-anything-model/sam-interaction.ts:161 | the hint depends on mask 0 only, never on which mask scores highest |
| Interaction.SamInteraction.constructor | src/segment-anything-model/sam-interaction.ts:18-34 | a new session has no cache, no record, no previous result, empty point lists, a zero box and a 256 * 256 all-zero hint |
| Interaction.SamInteraction.SetEncodeCache | src/segment-anything-model/sam-interaction.ts:36-39 | cache and record set together, nothing else changes |
| Interaction.SamInteraction.SetPoints | src/segment-anything-model/sam-interaction.ts:41-44 | the labels become the given points and the coordinates their positions, in parallel; nothing else changes |
| Interaction.SamInteraction.AddPoint | src/segment-anything-model/sam-interaction.ts:46-49 | one entry appended to each list, earlier entries kept, the lists stay parallel, nothing else changes |
| Interaction.SamInteraction.SetBox | src/segment-anything-model/sam-interaction.ts:51-53 | the box is replaced and nothing else changes |
| Interaction.SamInteraction.SetMaskInput | src/segment-anything-model/sam-interaction.ts:55-57 | the hint is replaced and nothing else changes |
| Interaction.SamInteraction.MapOriginalToCanvasCoords | src/segment-anything-model/sam-interaction.ts:59-67 | fails before a record exists; otherwise succeeds, and for an affine record gives (x * scale + offsetX, y * scale + offsetY) |
| Interaction.SamInteraction.CreateDecodeOptions | src/segment-anything-model/sam-interaction.ts:82-98 | fails iff there is no cache; otherwise the embeddings are the cache's and the prompt fields are the arguments |
| Interaction.SamInteraction.GetDecodeOptions | src/segment-anything-model/sam-interaction.ts:122-124 | fails iff there is no cache; otherwise the embeddings are the cache's and the prompt is the current prompt |
| Interaction.SamInteraction.DecodeOptionsReachModel | src/segment-anything-model/sam-interaction.ts:122-124 | the model's input tensors carry the cached embeddings, read back as the current points and box, and hold the current labels and hint |
| Interaction.SamInteraction.GetDecodeOptionsShaped | src/segment-anything-model/sam-interaction.ts:122-124 | with a well-shaped cache, parallel point lists and a 256 * 256 hint, every model input has its declared size |
| Interaction.SamInteraction.RefineOptions | src/segment-anything-model/sam-interaction.ts:156-162 | refine's options fail with the hint's error or a missing cache; otherwise they are the current points and box with low-resolution mask 0 as the hint |
| Interaction.SamInteraction.Prepare | src/segment-anything-model/sam-interaction.ts:69-80 | with a cache, returns it, changes nothing and does not run the encoder; otherwise records the resize first, then caches and returns the encoding of the canvas tensor, one encoder run; the prompt is untouched |
| Interaction.SamInteraction.Decode | src/segment-anything-model/sam-interaction.ts:126-154 | fails without a record or a decoder session and changes nothing; otherwise the previous result becomes the decoder's result and the crops of its masks are returned in order |
| Interaction.SamInteraction.Refine | src/segment-anything-model/sam-interaction.ts:156-170 | fails as its options do and changes nothing; otherwise decodes the refine options, replaces the previous result and returns its crops, with the session's prompt and hint unchanged |

## Left out

- **Numbers.** Float32 storage, BigInt64 labels and IEEE double rounding are not modelled. Numbers are exact reals. `toFixed(2)` is modelled on the exact decimal value, not on the nearest double, so results can differ from the browser when a value is not exactly representable.
- **Canvas drawing** (`createCanvas`, `fillRect`, `drawImage`, `getImageData`) is not modelled. The RGBA bytes of the prepared canvas are a parameter of `Prepare`. The canvas and context fields of the resize record are not kept.
- **Crops.** The pixel resampling of `resizeImageDataToTargetSizeImage` is not modelled, and neither is `imageDataToCanvas`. `decode` returns the crop parameters it hands over, not the canvases produced.
- `showMasks` is left out. Apart from throwing when there is no mapping record (sam-interaction.ts:101-103), it only builds canvases it never uses, so it has no observable effect. `console.warn` and `console.log` are left out too.
- **Image size.** `Canvas.ResizeImageToTargetSize` requires both sides of the image to be positive.
  - When both sides are 0, JavaScript computes an infinite scale and NaN sides, which the model does not represent.
  - When only one side is 0, JavaScript computes finite values. For example, a 0 x 5 image into 1024 gives scale 204.8, sides 0 and 1024, and offsets 512 and 0. The model excludes these images too, so that case is not modelled.
- **Inference sessions.** `InferenceSession.create`, `session.run` and the `onnxruntime-web` environment settings in `SAM.init` (wasm paths, proxy) are outside the model. Engines are parameters.
  - The shape guarantee of decoder output is an assumption about the model, carried by the `DecodeEngine` type, and is not checked.
  - The encoder's output is not checked for shape, as in the source.
- The `Tensor` constructor's check that the data length matches the shape is not modelled. `Decoder.BuildFeedsShaped` states when it holds.
- **Aliasing.** The model holds every list and buffer as a value, so the sharing of arrays and objects in the source is not represented. Three consequences are not captured:
  - `setPoints` and `setMaskInput` store the caller's array (sam-interaction.ts:42, 56). A later `addPoint`, or a change by the caller, therefore also changes the caller's array.
  - `getDecodeOptions` puts the session's own `pointCoords` and `pointLabels` arrays into the options (sam-interaction.ts:91-92, 123). A later `addPoint` pushes onto those same arrays (sam-interaction.ts:47-48). So `opts = getDecodeOptions(); addPoint(p); decode(opts)` decodes with `p` in the source, because the packing at decoder.ts:100-102 reads the grown arrays. `Interaction.SamInteraction.GetDecodeOptions` returns a snapshot without `p`.
  - `decode` returns the same result object it stores as `previousDecodeResult` (sam-interaction.ts:133, 150-153). A caller who changes `result.lowResMasks[0].data` therefore changes the hint of the next `refine` (sam-interaction.ts:161).
- Asynchrony and overlapping calls on one session are not modelled. Every method runs to completion before the next.
- The feature cache (IndexedDB), image loading (`utils/image.ts`) and the type declarations in `types/index.ts` have no behaviour of their own. Only their records are used.
- Interaction.SamInteraction.MapOriginalToCanvasCoords: states the affine result only for records whose map is affine, which every record made by prepare is; a record given to `setEncodeCache` may carry any map.
