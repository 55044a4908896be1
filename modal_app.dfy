/**
 * The serverless recognition service (`modal_app.py`): a container class
 * whose models are loaded once on start, its `process_image` pipeline, and
 * the HTTP endpoint that base64-encodes the binary parts of the result.
 */
module ModalApp {
  import opened Common
  import opened Vision
  import opened MlService
  import Base64

  /** The stone prompts of the serverless service (five of the local seven). */
  const ModalStonePrompts: seq<string> := [
    "a painted stone with artwork",
    "a decorated rock with drawing",
    "a stone with painted picture",
    "hand painted pebble art",
    "rock painting craft"]

  /** The fixed `is_stone` threshold of the serverless pipeline. */
  const ModalThreshold: real := 0.05

  /** `MLService`: the libraries of the container image and what `load_models` sets. */
  class MLService {
    const backend: Backend
    var loaded: bool
    var stonePrompts: seq<string>
    var notStonePrompts: seq<string>
    var stoneTextFeatures: seq<Vector>
    var notStoneTextFeatures: seq<Vector>

    /** The models are loaded and the prompt features are those of the prompts. */
    ghost predicate Valid()
      reads this
    {
      && loaded
      && |stonePrompts| > 0 && |notStonePrompts| > 0
      && stoneTextFeatures == EncodePrompts(backend, stonePrompts)
      && notStoneTextFeatures == EncodePrompts(backend, notStonePrompts)
    }

    constructor (backend: Backend)
      ensures this.backend == backend && !loaded
    {
      this.backend := backend;
      loaded := false;
      stonePrompts := [];
      notStonePrompts := [];
      stoneTextFeatures := [];
      notStoneTextFeatures := [];
    }

    /** `load_models`: the five stone and three other prompts and their text features. */
    method LoadModels()
      modifies this
      ensures Valid()
      ensures stonePrompts == ModalStonePrompts && notStonePrompts == NotStonePrompts
    {
      stonePrompts := ModalStonePrompts;
      notStonePrompts := NotStonePrompts;
      stoneTextFeatures := EncodePrompts(backend, ModalStonePrompts);
      notStoneTextFeatures := EncodePrompts(backend, NotStonePrompts);
      loaded := true;
    }

    /** The score of a photo cropped to a box, computed on the crop in memory. */
    function CropScore(imageBytes: Bytes, box: Box): real
      reads this
      requires Valid()
    {
      Score(backend.encodeCrop(imageBytes, box), stoneTextFeatures, notStoneTextFeatures)
    }

    /**
     * `process_image`: no foreground gives the no-object result; otherwise
     * the padded, clamped crop is classified (score strictly above 0.05), a
     * non-stone keeps its crop and thumbnail but no embedding, and a stone's
     * embedding is the very feature vector that was classified.
     */
    function ProcessImage(imageBytes: Bytes): (r: MLResult)
      reads this
      requires Valid()
      ensures WellShaped(r)
      ensures backend.foregroundBox(imageBytes).None? ==> r == NoObject
      ensures backend.foregroundBox(imageBytes).Some? ==>
                var (width, height) := backend.imageSize(imageBytes);
                var box := PadBox(backend.foregroundBox(imageBytes).value, width, height);
                && r.croppedImage == Some(backend.cropJpeg(imageBytes, box, CropQuality))
                && r.thumbnail == Some(backend.thumbnailJpeg(imageBytes, box))
                && r.confidence == CropScore(imageBytes, box)
                && (r.isStone <==> r.confidence > ModalThreshold)
                && (r.isStone ==> r.embedding == Some(backend.encodeCrop(imageBytes, box)))
    {
      match backend.foregroundBox(imageBytes)
      case None => NoObject
      case Some(bbox) =>
        var (width, height) := backend.imageSize(imageBytes);
        var box := PadBox(bbox, width, height);
        var cropped := backend.cropJpeg(imageBytes, box, CropQuality);
        var thumbnail := backend.thumbnailJpeg(imageBytes, box);
        var features := backend.encodeCrop(imageBytes, box);
        var score := Score(features, stoneTextFeatures, notStoneTextFeatures);
        if !(score > ModalThreshold) then MLResult(false, score, None, Some(cropped), Some(thumbnail))
        else MLResult(true, score, Some(features), Some(cropped), Some(thumbnail))
    }
  }

  /** A binary field of the JSON response: None, raw bytes, or their base64 text. */
  datatype Payload = Absent | Raw(bytes: Bytes) | Encoded(text: string)

  /** The response of `process_image_api`. */
  datatype ApiResult = ApiResult(
    isStone: bool,
    confidence: real,
    embedding: Option<Vector>,
    croppedImage: Payload,
    thumbnail: Payload)

  /** A result field before encoding. */
  function AsPayload(field: Option<Bytes>): Payload {
    match field
    case None => Absent
    case Some(b) => Raw(b)
  }

  /** Encodes a field that is present and non-empty, leaves any other as it is. */
  function EncodeIfPresent(field: Payload): (r: Payload)
    ensures field.Raw? && field.bytes != [] ==> r.Encoded? && Base64.Decode(r.text) == Some(field.bytes)
    ensures !(field.Raw? && field.bytes != []) ==> r == field
  {
    if field.Raw? && field.bytes != [] then
      Base64.RoundTrip(field.bytes);
      Encoded(Base64.Encode(field.bytes))
    else field
  }

  /**
   * `process_image_api`: decode the request, run the pipeline, and replace
   * `cropped_image` and `thumbnail` by their base64 text when they are
   * present and non-empty. A request that is not base64 fails.
   */
  method ProcessImageApi(imageBase64: string, service: MLService) returns (r: Option<ApiResult>)
    requires service.Valid()
    ensures Base64.Decode(imageBase64).None? ==> r.None?
    ensures Base64.Decode(imageBase64).Some? ==>
              var m := service.ProcessImage(Base64.Decode(imageBase64).value);
              && r.Some?
              && r.value.isStone == m.isStone && r.value.confidence == m.confidence
              && r.value.embedding == m.embedding
              && r.value.croppedImage == EncodeIfPresent(AsPayload(m.croppedImage))
              && r.value.thumbnail == EncodeIfPresent(AsPayload(m.thumbnail))
  {
    var imageBytes := Base64.Decode(imageBase64);
    if imageBytes.None? {
      return None;
    }
    var m := service.ProcessImage(imageBytes.value);
    var result := ApiResult(m.isStone, m.confidence, m.embedding, AsPayload(m.croppedImage), AsPayload(m.thumbnail));
    if result.croppedImage.Raw? && result.croppedImage.bytes != [] {
      Base64.RoundTrip(result.croppedImage.bytes);
      result := result.(croppedImage := Encoded(Base64.Encode(result.croppedImage.bytes)));
    }
    if result.thumbnail.Raw? && result.thumbnail.bytes != [] {
      Base64.RoundTrip(result.thumbnail.bytes);
      result := result.(thumbnail := Encoded(Base64.Encode(result.thumbnail.bytes)));
    }
    return Some(result);
  }
}
