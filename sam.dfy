/** The encoder side of the model (encoder.ts) and the SAM facade that owns
    one encoder and one decoder (sam.ts). The inference sessions are
    function values handed to `Init`; the canvas the image is drawn on is
    represented by its RGBA bytes. */
module SamModel {
  import opened SamTypes
  import opened Canvas
  import opened Decoder

  const TargetSize: nat := 1024
  const EncoderModelPath: string := "/models/sam2_image_encoder_1024.onnx"
  const DecoderModelPath: string := "/models/sam2_mask_decoder_1024.onnx"

  /** The `[1, 3, S, S]` encoder input of a prepared S x S canvas. */
  function ImageTensor(canvasPixels: seq<Byte>, targetSize: nat): ByteTensor
    requires |canvasPixels| == 4 * (targetSize * targetSize)
  {
    ByteTensor(PlanarRgb(canvasPixels, targetSize * targetSize), [1, 3, targetSize, targetSize])
  }

  /** SAMEncoder: owns the encoder inference session. `encodeCalls` counts
      the runs of the encoder model, so that callers can state when no
      encoding happens. */
  class SamEncoder {
    const targetSize: nat
    const modelPath: string
    var session: Option<EncodeEngine>
    ghost var encodeCalls: nat

    constructor (targetSize: nat, modelPath: string)
      ensures this.targetSize == targetSize && this.modelPath == modelPath
      ensures session == None && encodeCalls == 0
    {
      this.targetSize := targetSize;
      this.modelPath := modelPath;
      session := None;
      encodeCalls := 0;
    }

    /** init: the session the runtime creates from the model file. */
    method Init(engine: EncodeEngine)
      modifies this
      ensures session == Some(engine) && encodeCalls == old(encodeCalls)
    {
      session := Some(engine);
    }

    /** prepare: the mapping record of the image drawn into the square
        canvas, and that canvas packed as the encoder's input tensor. */
    method Prepare(image: Image, canvasPixels: seq<Byte>) returns (imageTensor: ByteTensor, resize: ResizeImageResult)
      requires Loaded(image) && |canvasPixels| == 4 * (targetSize * targetSize)
      ensures resize == ResizeImageToTargetSize(image, targetSize)
      ensures imageTensor == ImageTensor(canvasPixels, targetSize)
    {
      resize := ResizeImageToTargetSize(image, targetSize);
      imageTensor := ImageDataToUint8Tensor(canvasPixels, targetSize);
    }

    /** encode: fails before init; otherwise one run of the encoder model. */
    method Encode(imageTensor: ByteTensor) returns (r: Result<EncodeResult>)
      modifies this
      ensures session == old(session)
      ensures old(session).None? ==> r == Failure(SessionNotInitialized) && encodeCalls == old(encodeCalls)
      ensures old(session).Some? ==>
        r == Success(old(session).value(imageTensor)) && encodeCalls == old(encodeCalls) + 1
    {
      if session.None? {
        return Failure(SessionNotInitialized);
      }
      var result := session.value(imageTensor);
      encodeCalls := encodeCalls + 1;
      r := Success(result);
    }
  }

  /** SAM: a 1024-pixel encoder and its mask decoder. */
  class Sam {
    const encoder: SamEncoder
    const decoder: SamDecoder

    constructor ()
      ensures fresh(encoder) && fresh(decoder)
      ensures encoder.targetSize == TargetSize && encoder.modelPath == EncoderModelPath
      ensures decoder.modelPath == DecoderModelPath
      ensures encoder.session == None && encoder.encodeCalls == 0 && decoder.session == None
    {
      encoder := new SamEncoder(TargetSize, EncoderModelPath);
      decoder := new SamDecoder(DecoderModelPath);
    }

    /** init: both sessions, the encoder's first (the runtime settings it
        also makes are not modelled). */
    method Init(encodeEngine: EncodeEngine, decodeEngine: DecodeEngine)
      modifies encoder, decoder
      ensures encoder.session == Some(encodeEngine) && decoder.session == Some(decodeEngine)
      ensures encoder.encodeCalls == old(encoder.encodeCalls)
    {
      encoder.Init(encodeEngine);
      decoder.Init(decodeEngine);
    }

    method Prepare(image: Image, canvasPixels: seq<Byte>) returns (imageTensor: ByteTensor, resize: ResizeImageResult)
      requires Loaded(image) && |canvasPixels| == 4 * (encoder.targetSize * encoder.targetSize)
      ensures resize == ResizeImageToTargetSize(image, encoder.targetSize)
      ensures imageTensor == ImageTensor(canvasPixels, encoder.targetSize)
    {
      imageTensor, resize := encoder.Prepare(image, canvasPixels);
    }

    method Encode(imageTensor: ByteTensor) returns (r: Result<EncodeResult>)
      modifies encoder
      ensures encoder.session == old(encoder.session)
      ensures old(encoder.session).None? ==>
        r == Failure(SessionNotInitialized) && encoder.encodeCalls == old(encoder.encodeCalls)
      ensures old(encoder.session).Some? ==>
        r == Success(old(encoder.session).value(imageTensor)) && encoder.encodeCalls == old(encoder.encodeCalls) + 1
    {
      r := encoder.Encode(imageTensor);
    }

    method Decode(options: DecodeOptions) returns (r: Result<DecodeResult>)
      ensures decoder.session == None ==> r == Failure(SessionNotInitialized)
      ensures decoder.session != None ==> r == Success(Decoding(decoder.session.value, options))
    {
      r := decoder.Decode(options);
    }
  }
}
