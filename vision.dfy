/**
 * The local recognition service (`src/services/clip_service.py`): crop the
 * stone out of a photo, decide whether it is a painted stone and compute its
 * CLIP embedding. The image libraries (PIL, rembg) and the CLIP network are
 * the uninterpreted functions of `Backend`; the box geometry, the prompt
 * lists, the score and the decision are modelled exactly.
 */
module Vision {
  import opened Common

  /** A PIL crop box `(left, top, right, bottom)`. */
  datatype Box = Box(left: int, top: int, right: int, bottom: int)

  /** The foreign libraries, as functions of their inputs. */
  datatype Backend = Backend(
    /** `Image.open(b).size`. */
    imageSize: Bytes -> (nat, nat),
    /** `remove(image).getbbox()`: the box of the non-transparent pixels, None when there are none. */
    foregroundBox: Bytes -> Option<Box>,
    /** The image cropped to a box and saved as JPEG at the given quality. */
    cropJpeg: (Bytes, Box, nat) -> Bytes,
    /** The image cropped to a box, shrunk to fit 200x200 and saved as JPEG at quality 85. */
    thumbnailJpeg: (Bytes, Box) -> Bytes,
    /** The normalized CLIP image features of a decoded image. */
    encodeImage: Bytes -> Vector,
    /** The normalized CLIP image features of the image cropped to a box, without re-encoding. */
    encodeCrop: (Bytes, Box) -> Vector,
    /** The normalized CLIP text features of a prompt. */
    encodeText: string -> Vector)

  /** Pixels added on each side of the foreground box. */
  const Padding: int := 20

  /** JPEG quality of the saved crop. */
  const CropQuality: nat := 90

  /** JPEG quality of `crop_to_center`'s output. */
  const CenterQuality: nat := 85

  /** The default `is_stone` threshold. */
  const DefaultThreshold: real := 0.05

  /** The default `crop_to_center` ratio. */
  const DefaultRatio: real := 0.7

  /** The prompts describing a painted stone. */
  const StonePrompts: seq<string> := [
    "a painted stone with artwork",
    "a decorated rock with drawing",
    "a stone with painted picture",
    "hand painted pebble art",
    "rock painting craft",
    "decorated stone with dragonfly",
    "painted rock with flowers"]

  /** The prompts describing what is not a stone. */
  const NotStonePrompts: seq<string> := [
    "a photograph of a person",
    "a screenshot of text",
    "a blank white image"]

  function Max(a: int, b: int): int { if a < b then b else a }
  function Min(a: int, b: int): int { if a < b then a else b }

  /** The box lies within a `width` x `height` image. */
  predicate InImage(b: Box, width: int, height: int) {
    0 <= b.left <= b.right <= width && 0 <= b.top <= b.bottom <= height
  }

  predicate Contains(outer: Box, inner: Box) {
    outer.left <= inner.left && outer.top <= inner.top
    && inner.right <= outer.right && inner.bottom <= outer.bottom
  }

  /**
   * The padded crop box: each side moved outwards by `Padding` and clamped
   * to the image. It lies within the image, moves no side by more than the
   * padding, and contains the foreground box whenever that lies in the image.
   */
  function PadBox(b: Box, width: int, height: int): (p: Box)
    ensures 0 <= p.left && 0 <= p.top && p.right <= width && p.bottom <= height
    ensures (p.left == 0 || p.left == b.left - Padding) && (p.top == 0 || p.top == b.top - Padding)
    ensures (p.right == width || p.right == b.right + Padding)
         && (p.bottom == height || p.bottom == b.bottom + Padding)
    ensures b.left - Padding <= p.left && b.top - Padding <= p.top
         && p.right <= b.right + Padding && p.bottom <= b.bottom + Padding
    ensures InImage(b, width, height) ==> InImage(p, width, height) && Contains(p, b)
  {
    Box(Max(0, b.left - Padding), Max(0, b.top - Padding),
        Min(width, b.right + Padding), Min(height, b.bottom + Padding))
  }

  /** Python's `int(x)` for a float: truncation toward zero. */
  function Trunc(x: real): (n: int)
    ensures 0.0 <= x ==> n as real <= x < n as real + 1.0
    ensures x < 0.0 ==> n as real - 1.0 < x <= n as real
  {
    if 0.0 <= x then x.Floor else -((-x).Floor)
  }

  /**
   * The `crop_to_center` box: `int(width * ratio)` by `int(height * ratio)`,
   * offset by half the margin (floor division). The margins on the two sides
   * differ by at most one pixel, and for a ratio in [0, 1] the box lies in
   * the image.
   */
  function CenterBox(width: nat, height: nat, ratio: real): (b: Box)
    ensures b.right - b.left == Trunc(width as real * ratio)
    ensures b.bottom - b.top == Trunc(height as real * ratio)
    ensures 0 <= (width - b.right) - b.left <= 1 && 0 <= (height - b.bottom) - b.top <= 1
    ensures 0.0 <= ratio <= 1.0 ==> InImage(b, width, height)
  {
    var newWidth := Trunc(width as real * ratio);
    var newHeight := Trunc(height as real * ratio);
    var left := (width - newWidth) / 2;
    var top := (height - newHeight) / 2;
    ScaledWithin(width, ratio);
    ScaledWithin(height, ratio);
    Box(left, top, left + newWidth, top + newHeight)
  }

  lemma ScaledWithin(n: nat, ratio: real)
    ensures 0.0 <= ratio <= 1.0 ==> 0 <= Trunc(n as real * ratio) <= n
  {
    if 0.0 <= ratio <= 1.0 {
      assert 0.0 <= n as real * ratio <= n as real * 1.0;
    }
  }

  function Sum(s: seq<real>): real {
    if s == [] then 0.0 else s[0] + Sum(s[1..])
  }

  /** `tensor.mean()`. */
  function Mean(s: seq<real>): real
    requires |s| > 0
  {
    Sum(s) / |s| as real
  }

  /** The dot product of two feature vectors, over their common length. */
  function Dot(u: Vector, v: Vector): real {
    if u == [] || v == [] then 0.0 else u[0] * v[0] + Dot(u[1..], v[1..])
  }

  /** `image_features @ text_features.T`: one similarity per prompt. */
  function Similarities(features: Vector, texts: seq<Vector>): (r: seq<real>)
    ensures |r| == |texts| && forall i :: 0 <= i < |texts| ==> r[i] == Dot(features, texts[i])
  {
    seq(|texts|, i requires 0 <= i < |texts| => Dot(features, texts[i]))
  }

  /** The stone score: mean similarity to the stone prompts minus mean similarity to the others. */
  function Score(features: Vector, stoneTexts: seq<Vector>, notStoneTexts: seq<Vector>): real
    requires |stoneTexts| > 0 && |notStoneTexts| > 0
  {
    Mean(Similarities(features, stoneTexts)) - Mean(Similarities(features, notStoneTexts))
  }

  lemma {:induction false} SumBounds(s: seq<real>, lo: real, hi: real)
    requires forall i :: 0 <= i < |s| ==> lo <= s[i] <= hi
    ensures |s| as real * lo <= Sum(s) <= |s| as real * hi
  {
    if s != [] {
      SumBounds(s[1..], lo, hi);
    }
  }

  /** Lemma: a mean lies between the bounds of its elements. */
  lemma MeanBounds(s: seq<real>, lo: real, hi: real)
    requires |s| > 0
    requires forall i :: 0 <= i < |s| ==> lo <= s[i] <= hi
    ensures lo <= Mean(s) <= hi
  {
    SumBounds(s, lo, hi);
    var n := |s| as real;
    assert lo * n <= Sum(s) <= hi * n;
    assert lo <= Sum(s) / n by {
      assert lo == (lo * n) / n;
    }
    assert Sum(s) / n <= hi by {
      assert hi == (hi * n) / n;
    }
  }

  /**
   * Lemma: when every prompt similarity is a cosine in [-1, 1], as it is for
   * normalized features, the score lies in [-2, 2].
   */
  lemma ScoreRange(features: Vector, stoneTexts: seq<Vector>, notStoneTexts: seq<Vector>)
    requires |stoneTexts| > 0 && |notStoneTexts| > 0
    requires forall i :: 0 <= i < |stoneTexts| ==> -1.0 <= Dot(features, stoneTexts[i]) <= 1.0
    requires forall i :: 0 <= i < |notStoneTexts| ==> -1.0 <= Dot(features, notStoneTexts[i]) <= 1.0
    ensures -2.0 <= Score(features, stoneTexts, notStoneTexts) <= 2.0
  {
    MeanBounds(Similarities(features, stoneTexts), -1.0, 1.0);
    MeanBounds(Similarities(features, notStoneTexts), -1.0, 1.0);
  }

  /** The text features of each prompt, in order. */
  function EncodePrompts(backend: Backend, prompts: seq<string>): (r: seq<Vector>)
    ensures |r| == |prompts| && forall i :: 0 <= i < |prompts| ==> r[i] == backend.encodeText(prompts[i])
  {
    seq(|prompts|, i requires 0 <= i < |prompts| => backend.encodeText(prompts[i]))
  }

  /** `CLIPService`: the loaded model and the precomputed prompt features. */
  class ClipService {
    const backend: Backend
    const stonePrompts: seq<string>
    const notStonePrompts: seq<string>
    const stoneTextFeatures: seq<Vector>
    const notStoneTextFeatures: seq<Vector>

    /** The prompt features are those of the prompts, and there is at least one of each. */
    ghost predicate Valid() {
      && |stonePrompts| > 0 && |notStonePrompts| > 0
      && stoneTextFeatures == EncodePrompts(backend, stonePrompts)
      && notStoneTextFeatures == EncodePrompts(backend, notStonePrompts)
    }

    /** `__init__`: loads the model and encodes the seven stone and three other prompts. */
    constructor (backend: Backend)
      ensures Valid()
      ensures this.backend == backend
      ensures stonePrompts == StonePrompts && notStonePrompts == NotStonePrompts
    {
      this.backend := backend;
      stonePrompts := StonePrompts;
      notStonePrompts := NotStonePrompts;
      stoneTextFeatures := EncodePrompts(backend, StonePrompts);
      notStoneTextFeatures := EncodePrompts(backend, NotStonePrompts);
    }

    /** The score of an image: its features against the two prompt lists. */
    function ImageScore(imageBytes: Bytes): real
      requires Valid()
    {
      Score(backend.encodeImage(imageBytes), stoneTextFeatures, notStoneTextFeatures)
    }

    /**
     * `is_stone`: the decision is "score strictly above the threshold", and
     * the confidence returned is the score itself.
     */
    function IsStone(imageBytes: Bytes, threshold: real): (r: (bool, real))
      requires Valid()
      ensures r.1 == ImageScore(imageBytes)
      ensures r.0 <==> r.1 > threshold
    {
      var score := ImageScore(imageBytes);
      (score > threshold, score)
    }

    /** `get_embedding`: the features of the decoded image. */
    function GetEmbedding(imageBytes: Bytes): (v: Vector)
      requires Valid()
      ensures Score(v, stoneTextFeatures, notStoneTextFeatures) == ImageScore(imageBytes)
    {
      backend.encodeImage(imageBytes)
    }

    /** The padded crop box for a photo, when it has a foreground. */
    function CropBox(imageBytes: Bytes): (r: Option<Box>)
      ensures r.None? <==> backend.foregroundBox(imageBytes).None?
      ensures r.Some? ==> r.value == PadBox(backend.foregroundBox(imageBytes).value,
                                            backend.imageSize(imageBytes).0, backend.imageSize(imageBytes).1)
    {
      match backend.foregroundBox(imageBytes)
      case None => None
      case Some(b) =>
        var (width, height) := backend.imageSize(imageBytes);
        Some(PadBox(b, width, height))
    }

    /**
     * `smart_crop_stone`: None when background removal leaves nothing,
     * otherwise the photo cropped to the padded box (JPEG quality 90) and
     * its thumbnail.
     */
    function SmartCropStone(imageBytes: Bytes): (r: Option<(Bytes, Bytes)>)
      ensures r.None? <==> CropBox(imageBytes).None?
      ensures r.Some? ==> r.value.0 == backend.cropJpeg(imageBytes, CropBox(imageBytes).value, CropQuality)
      ensures r.Some? ==> r.value.1 == backend.thumbnailJpeg(imageBytes, CropBox(imageBytes).value)
    {
      match CropBox(imageBytes)
      case None => None
      case Some(box) => Some((backend.cropJpeg(imageBytes, box, CropQuality), backend.thumbnailJpeg(imageBytes, box)))
    }

    /** `crop_to_center`: the photo cropped to the centred box (JPEG quality 85). */
    function CropToCenter(imageBytes: Bytes, ratio: real): (r: Bytes)
      ensures r == backend.cropJpeg(imageBytes,
                     CenterBox(backend.imageSize(imageBytes).0, backend.imageSize(imageBytes).1, ratio),
                     CenterQuality)
    {
      var (width, height) := backend.imageSize(imageBytes);
      backend.cropJpeg(imageBytes, CenterBox(width, height, ratio), CenterQuality)
    }
  }

  /** The module-level `_clip_service`, created on first use. */
  class ClipServiceHolder {
    const backend: Backend
    var instance: ClipService?

    constructor (backend: Backend)
      ensures this.backend == backend && instance == null
    {
      this.backend := backend;
      instance := null;
    }

    /**
     * `get_clip_service`: constructs the service on the first call and
     * returns that same instance on every later one.
     */
    method GetClipService() returns (s: ClipService)
      modifies this
      ensures old(instance) != null ==> s == old(instance)
      ensures old(instance) == null ==> fresh(s) && s.Valid() && s.backend == backend
      ensures instance == s
    {
      if instance == null {
        instance := new ClipService(backend);
      }
      s := instance;
    }
  }
}
