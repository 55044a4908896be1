/**
 * The unified recognition entry point (`src/services/ml_service.py`): run
 * the local pipeline (crop, classify, embed) or hand the photo to the remote
 * service, and the three shapes of result the local pipeline produces.
 */
module MlService {
  import opened Common
  import opened Vision
  import Config

  /** The result dictionary: `is_stone`, `confidence`, `embedding`, `cropped_image`, `thumbnail`. */
  datatype MLResult = MLResult(
    isStone: bool,
    confidence: real,
    embedding: Option<Vector>,
    croppedImage: Option<Bytes>,
    thumbnail: Option<Bytes>)

  /** The result for a photo in which no foreground was found. */
  const NoObject: MLResult := MLResult(false, 0.0, None, None, None)

  /**
   * The shapes a pipeline result can take: an embedding exactly for a stone,
   * crop and thumbnail present together, and a missing crop only with a
   * negative decision at confidence 0.0.
   */
  predicate WellShaped(r: MLResult) {
    && (r.embedding.Some? <==> r.isStone)
    && (r.croppedImage.None? <==> r.thumbnail.None?)
    && (r.croppedImage.None? ==> !r.isStone && r.confidence == 0.0)
  }

  /**
   * `_process_local`: crop; if that fails the no-object result; otherwise
   * classify the crop, and only for a stone compute the embedding of the
   * same cropped bytes.
   */
  function ProcessLocal(clip: ClipService, imageBytes: Bytes): (r: MLResult)
    requires clip.Valid()
    ensures WellShaped(r)
    ensures r.croppedImage.None? <==> clip.SmartCropStone(imageBytes).None?
    ensures r.croppedImage.None? ==> r == NoObject
    ensures r.croppedImage.Some? ==>
              var (cropped, thumbnail) := clip.SmartCropStone(imageBytes).value;
              && r.croppedImage == Some(cropped) && r.thumbnail == Some(thumbnail)
              && r.confidence == clip.ImageScore(cropped)
              && (r.isStone <==> r.confidence > DefaultThreshold)
              && (r.isStone ==> r.embedding == Some(clip.GetEmbedding(cropped)))
  {
    match clip.SmartCropStone(imageBytes)
    case None => NoObject
    case Some((cropped, thumbnail)) =>
      var (isStone, confidence) := clip.IsStone(cropped, DefaultThreshold);
      if !isStone then MLResult(false, confidence, None, Some(cropped), Some(thumbnail))
      else MLResult(true, confidence, Some(clip.GetEmbedding(cropped)), Some(cropped), Some(thumbnail))
  }

  /**
   * `process_image`: the local pipeline exactly when `use_local_ml` is set,
   * the remote service otherwise.
   */
  function ProcessImage(settings: Config.Settings, clip: ClipService, remote: Bytes -> MLResult,
                        imageBytes: Bytes): (r: MLResult)
    requires clip.Valid()
    ensures settings.useLocalMl ==> r == ProcessLocal(clip, imageBytes) && WellShaped(r)
    ensures !settings.useLocalMl ==> r == remote(imageBytes)
  {
    if settings.useLocalMl then ProcessLocal(clip, imageBytes) else remote(imageBytes)
  }

  /**
   * Lemma: a stone's embedding is the feature vector of the very crop that
   * was classified, so its score is the reported confidence.
   */
  lemma EmbeddingOfClassifiedCrop(clip: ClipService, imageBytes: Bytes)
    requires clip.Valid()
    ensures var r := ProcessLocal(clip, imageBytes);
            r.isStone ==>
              && r.embedding == Some(clip.backend.encodeImage(r.croppedImage.value))
              && Score(r.embedding.value, clip.stoneTextFeatures, clip.notStoneTextFeatures) == r.confidence
  {
  }
}
