/**
 * The non-learned parts of the emotion pipeline (EmotionDetectionViewModel.kt):
 * choosing the largest detected face, expanding and clamping its box, the crop
 * guard, packing pixels into the classifier's RGB input, and the decision rule
 * that turns the classifier's probability vector into a label. The face
 * detector and the classifier are foreign calls: their results are inputs.
 */
module EmotionDetection {
  import opened Wrappers
  import opened KotlinInt

  /** The FER-2013 label order the classifier's outputs follow. */
  const EmotionLabels: seq<string> := ["Angry", "Disgust", "Fear", "Happy", "Sad", "Surprise", "Neutral"]
  const Neutral: string := "Neutral"

  /** The Float literal `0.3f`, exactly (the nearest binary32 value to 0.3). */
  const ConfidenceThreshold: real := 0.300000011920928955078125

  /** The classifier's input: a 48×48 image with 3 channels. */
  const InputSide: nat := 48
  const InputPixels: nat := 48 * 48
  const InputValues: nat := 48 * 48 * 3

  // ---------------------------------------------------------------------------
  // Decision rule

  /** k holds the maximum of p, and every earlier entry is strictly smaller. */
  ghost predicate IsFirstMax(p: seq<real>, k: int) {
    && 0 <= k < |p|
    && (forall j :: 0 <= j < |p| ==> p[j] <= p[k])
    && (forall j :: 0 <= j < k ==> p[j] < p[k])
  }

  /** The argmax with the first index winning ties (a strict `>` scan). */
  function FirstMaxIndex(p: seq<real>): (k: nat)
    requires |p| > 0
    ensures IsFirstMax(p, k)
  {
    if |p| == 1 then 0
    else
      var k := FirstMaxIndex(p[..|p| - 1]);
      if p[|p| - 1] > p[k] then |p| - 1 else k
  }

  /** There is only one first maximum. */
  lemma FirstMaxUnique(p: seq<real>, i: int, j: int)
    requires IsFirstMax(p, i) && IsFirstMax(p, j)
    ensures i == j
  {
    assert p[i] <= p[j] && p[j] <= p[i];
  }

  /** The label at an index, with "Neutral" outside the table. */
  function LabelAt(index: nat): (name: string)
    ensures name in EmotionLabels
    ensures index < |EmotionLabels| ==> name == EmotionLabels[index]
    ensures index >= |EmotionLabels| ==> name == Neutral
  {
    if index < |EmotionLabels| then EmotionLabels[index] else Neutral
  }

  /** The label the decision rule gives for a non-empty probability vector. */
  function Decide(probabilities: seq<real>): string
    requires |probabilities| > 0
  {
    var maxIndex := FirstMaxIndex(probabilities);
    if probabilities[maxIndex] > ConfidenceThreshold then LabelAt(maxIndex) else Neutral
  }

  /**
   * processModelOutput: the scan for the first maximum, then the label table and
   * the confidence gate. An empty vector makes `probabilities[0]` throw, which
   * the caller turns into "Neutral"; here it is the None result.
   */
  method ProcessModelOutput(probabilities: seq<real>) returns (emotion: Option<string>)
    ensures |probabilities| == 0 ==> emotion == None
    ensures |probabilities| > 0 ==> emotion == Some(Decide(probabilities))
  {
    if |probabilities| == 0 {
      return None;
    }
    var maxIndex := 0;
    var maxProbability := probabilities[0];
    for i := 0 to |probabilities|
      invariant 0 <= maxIndex < |probabilities| && maxProbability == probabilities[maxIndex]
      invariant i == 0 ==> maxIndex == 0
      invariant i > 0 ==> maxIndex == FirstMaxIndex(probabilities[..i])
    {
      if probabilities[i] > maxProbability {
        maxProbability := probabilities[i];
        maxIndex := i;
      }
      assert probabilities[..i + 1][..i] == probabilities[..i];
    }
    assert probabilities[..|probabilities|] == probabilities;
    var predictedEmotion := if maxIndex < |EmotionLabels| then EmotionLabels[maxIndex] else Neutral;
    emotion := Some(if maxProbability > ConfidenceThreshold then predictedEmotion else Neutral);
  }

  /** Whatever the classifier outputs, the decision is one of the seven labels. */
  lemma DecisionIsALabel(probabilities: seq<real>)
    requires |probabilities| > 0
    ensures Decide(probabilities) in EmotionLabels
  {
  }

  /** When no probability exceeds 0.3f (exactly 0.3f included), the decision is "Neutral". */
  lemma LowConfidenceIsNeutral(probabilities: seq<real>)
    requires |probabilities| > 0
    requires forall j :: 0 <= j < |probabilities| ==> probabilities[j] <= ConfidenceThreshold
    ensures Decide(probabilities) == Neutral
  {
  }

  /**
   * When index k holds the first maximum, that maximum exceeds 0.3f and k is in
   * the table, the decision is the label at k.
   */
  lemma ConfidentDecision(probabilities: seq<real>, k: nat)
    requires IsFirstMax(probabilities, k)
    requires probabilities[k] > ConfidenceThreshold
    ensures Decide(probabilities) == LabelAt(k)
  {
    FirstMaxUnique(probabilities, k, FirstMaxIndex(probabilities));
  }

  /** Ties go to the lowest index: a later equal maximum is never chosen. */
  lemma TieGoesToFirst(probabilities: seq<real>, i: nat, j: nat)
    requires i < j < |probabilities|
    requires probabilities[i] == probabilities[j]
    ensures FirstMaxIndex(probabilities) != j
  {
  }

  // ---------------------------------------------------------------------------
  // Face geometry

  /** android.graphics.Rect: left and top inclusive, right and bottom exclusive. */
  datatype Rect = Rect(left: int, top: int, right: int, bottom: int) {
    function Width(): int { right - left }
    function Height(): int { bottom - top }
    function Area(): int { Width() * Height() }

    /** This rectangle lies within `outer`. */
    predicate Within(outer: Rect) {
      outer.left <= left && outer.top <= top && right <= outer.right && bottom <= outer.bottom
    }
  }

  /** `(w * 0.1f).toInt()`, modelled as truncating division by 10 (see README). */
  function ExpandMargin(size: int): int {
    TruncDiv(size, 10)
  }

  /**
   * Pushes each side out by a tenth of the box's width or height, then clamps
   * the result to the image [0, imageWidth] × [0, imageHeight].
   */
  function ExpandBoundingBox(originalRect: Rect, imageWidth: int, imageHeight: int): (expanded: Rect)
    ensures expanded.left >= 0 && expanded.top >= 0
    ensures expanded.right <= imageWidth && expanded.bottom <= imageHeight
  {
    var expandX := ExpandMargin(originalRect.Width());
    var expandY := ExpandMargin(originalRect.Height());
    var left := if 0 > originalRect.left - expandX then 0 else originalRect.left - expandX;
    var top := if 0 > originalRect.top - expandY then 0 else originalRect.top - expandY;
    var right := if imageWidth < originalRect.right + expandX then imageWidth else originalRect.right + expandX;
    var bottom := if imageHeight < originalRect.bottom + expandY then imageHeight else originalRect.bottom + expandY;
    Rect(left, top, right, bottom)
  }

  /** A box of non-negative size inside the image stays inside its expansion. */
  lemma ExpansionContainsBox(r: Rect, imageWidth: int, imageHeight: int)
    requires 0 <= r.left <= r.right <= imageWidth
    requires 0 <= r.top <= r.bottom <= imageHeight
    ensures r.Within(ExpandBoundingBox(r, imageWidth, imageHeight))
  {
  }

  /** Away from the image border each side moves by exactly width/10 or height/10. */
  lemma ExpansionMargins(r: Rect, imageWidth: int, imageHeight: int)
    requires r.Width() >= 0 && r.Height() >= 0
    requires r.left - r.Width() / 10 >= 0 && r.top - r.Height() / 10 >= 0
    requires r.right + r.Width() / 10 <= imageWidth && r.bottom + r.Height() / 10 <= imageHeight
    ensures ExpandBoundingBox(r, imageWidth, imageHeight)
            == Rect(r.left - r.Width() / 10, r.top - r.Height() / 10,
                    r.right + r.Width() / 10, r.bottom + r.Height() / 10)
  {
  }

  /** A bitmap as rows of ARGB pixels. */
  datatype Bitmap = Bitmap(width: nat, height: nat, rows: seq<seq<bv32>>) {
    ghost predicate Valid() {
      |rows| == height && forall y :: 0 <= y < height ==> |rows[y]| == width
    }
  }

  /** `Bitmap.createBitmap(bitmap, x, y, w, h)` accepts the rectangle (otherwise it throws). */
  predicate CropAllowed(bitmap: Bitmap, rect: Rect) {
    0 <= rect.left && rect.right <= bitmap.width && 0 <= rect.top && rect.bottom <= bitmap.height
  }

  /**
   * cropFaceOptimized: a degenerate rectangle (width or height ≤ 0) returns the
   * bitmap itself; otherwise the crop of exactly width × height pixels.
   */
  function CropFace(bitmap: Bitmap, rect: Rect): (face: Bitmap)
    requires bitmap.Valid()
    requires rect.Width() > 0 && rect.Height() > 0 ==> CropAllowed(bitmap, rect)
    ensures face.Valid()
    ensures rect.Width() <= 0 || rect.Height() <= 0 ==> face == bitmap
    ensures rect.Width() > 0 && rect.Height() > 0 ==>
              face.width == rect.Width() && face.height == rect.Height()
              && forall y, x :: 0 <= y < face.height && 0 <= x < face.width ==>
                   face.rows[y][x] == bitmap.rows[rect.top + y][rect.left + x]
  {
    if rect.Width() <= 0 || rect.Height() <= 0 then bitmap
    else
      Bitmap(rect.Width(), rect.Height(),
             seq(rect.Height(), y requires 0 <= y < rect.Height() => bitmap.rows[rect.top + y][rect.left..rect.right]))
  }

  /** The clamped expansion can always be cropped: createBitmap never throws here. */
  lemma ExpandedBoxIsCroppable(bitmap: Bitmap, r: Rect)
    ensures var e := ExpandBoundingBox(r, bitmap.width, bitmap.height);
            e.Width() > 0 && e.Height() > 0 ==> CropAllowed(bitmap, e)
  {
  }

  /** The areas of the detected faces' bounding boxes. */
  function Areas(faces: seq<Rect>): (areas: seq<real>)
    ensures |areas| == |faces|
    ensures forall i :: 0 <= i < |faces| ==> areas[i] == faces[i].Area() as real
  {
    seq(|faces|, i requires 0 <= i < |faces| => faces[i].Area() as real)
  }

  /** `faces.maxByOrNull { width * height }`: the first face of largest area. */
  function LargestFace(faces: seq<Rect>): (face: Option<nat>)
    ensures faces == [] <==> face == None
    ensures face.Some? ==> face.value < |faces|
    ensures face.Some? ==> forall j :: 0 <= j < |faces| ==> faces[j].Area() <= faces[face.value].Area()
    ensures face.Some? ==> forall j :: 0 <= j < face.value ==> faces[j].Area() < faces[face.value].Area()
  {
    if faces == [] then None else Some(FirstMaxIndex(Areas(faces)))
  }

  /**
   * detectAndCropFace: `detected` is what the face detector reported (None when
   * it failed). No face, or a failure, gives no bitmap; otherwise the largest
   * face's expanded box is cropped from the image.
   */
  function DetectAndCropFace(bitmap: Bitmap, detected: Option<seq<Rect>>): (face: Option<Bitmap>)
    requires bitmap.Valid()
    ensures face.Some? ==> face.value.Valid()
    ensures face.None? <==> detected.None? || detected.value == []
  {
    match detected
    case None => None
    case Some(faces) =>
      match LargestFace(faces)
      case None => None
      case Some(i) =>
        var expandedRect := ExpandBoundingBox(faces[i], bitmap.width, bitmap.height);
        ExpandedBoxIsCroppable(bitmap, faces[i]);
        Some(CropFace(bitmap, expandedRect))
  }

  /**
   * detectEmotion / processEmotionDetection: no face gives "Neutral"; otherwise
   * the classifier's output (None when inference threw) goes through the
   * decision rule, with "Neutral" for any exception.
   */
  function DetectEmotion(bitmap: Bitmap, detected: Option<seq<Rect>>, modelOutput: Option<seq<real>>): (emotion: string)
    requires bitmap.Valid()
  {
    match DetectAndCropFace(bitmap, detected)
    case None => Neutral
    case Some(_) =>
      match modelOutput
      case None => Neutral
      case Some(probabilities) => if |probabilities| == 0 then Neutral else Decide(probabilities)
  }

  /** The pipeline always answers with one of the seven labels. */
  lemma DetectEmotionIsALabel(bitmap: Bitmap, detected: Option<seq<Rect>>, modelOutput: Option<seq<real>>)
    requires bitmap.Valid()
    ensures DetectEmotion(bitmap, detected, modelOutput) in EmotionLabels
  {
  }

  /** No face, or a detector failure, gives "Neutral" whatever the classifier would say. */
  lemma NoFaceIsNeutral(bitmap: Bitmap, detected: Option<seq<Rect>>, modelOutput: Option<seq<real>>)
    requires bitmap.Valid()
    requires detected.None? || detected.value == []
    ensures DetectEmotion(bitmap, detected, modelOutput) == Neutral
  {
  }

  // ---------------------------------------------------------------------------
  // Tensor encoding

  /** `(pixel shr 16) and 0xFF`, `(pixel shr 8) and 0xFF` and `pixel and 0xFF`. */
  function RedByte(pixel: bv32): bv8 { ((pixel >> 16) & 0xFF) as bv8 }
  function GreenByte(pixel: bv32): bv8 { ((pixel >> 8) & 0xFF) as bv8 }
  function BlueByte(pixel: bv32): bv8 { (pixel & 0xFF) as bv8 }

  /** An opaque-alpha-free pixel from its three channels. */
  function Rgb(r: bv8, g: bv8, b: bv8): bv32 {
    (r as bv32 << 16) | (g as bv32 << 8) | b as bv32
  }

  /** Recombining the channels gives the pixel without its alpha byte. */
  lemma ChannelsRecombine(pixel: bv32)
    ensures Rgb(RedByte(pixel), GreenByte(pixel), BlueByte(pixel)) == pixel & 0xFF_FFFF
  {
  }

  /** Extracting the channels of a recombined pixel gives them back. */
  lemma ChannelsExtract(r: bv8, g: bv8, b: bv8)
    ensures RedByte(Rgb(r, g, b)) == r && GreenByte(Rgb(r, g, b)) == g && BlueByte(Rgb(r, g, b)) == b
  {
  }

  /** The three `putFloat` calls for one pixel: its channels at pos, pos + 1 and pos + 2. */
  method PutPixel(buffer: array<int>, pos: nat, pixel: bv32)
    requires pos + 3 <= buffer.Length
    modifies buffer
    ensures buffer[pos] == RedByte(pixel) as int && buffer[pos + 1] == GreenByte(pixel) as int
            && buffer[pos + 2] == BlueByte(pixel) as int
    ensures forall j :: 0 <= j < buffer.Length && !(pos <= j < pos + 3) ==> buffer[j] == old(buffer[j])
  {
    buffer[pos] := RedByte(pixel) as int;
    buffer[pos + 1] := GreenByte(pixel) as int;
    buffer[pos + 2] := BlueByte(pixel) as int;
  }

  /**
   * bitmapToByteBuffer: the 48×48 pixels, row by row, become 6912 values in R, G,
   * B order per pixel (the division by 255 that follows is not modelled).
   */
  method BitmapToBuffer(pixels: seq<bv32>) returns (buffer: array<int>)
    requires |pixels| == InputPixels
    ensures buffer.Length == InputValues
    ensures forall i :: 0 <= i < |pixels| ==>
              buffer[3 * i] == RedByte(pixels[i]) as int && buffer[3 * i + 1] == GreenByte(pixels[i]) as int
              && buffer[3 * i + 2] == BlueByte(pixels[i]) as int
    ensures forall j :: 0 <= j < buffer.Length ==> 0 <= buffer[j] <= 255
  {
    buffer := new int[InputValues];
    for i := 0 to |pixels|
      invariant forall k :: 0 <= k < i ==>
                  buffer[3 * k] == RedByte(pixels[k]) as int && buffer[3 * k + 1] == GreenByte(pixels[k]) as int
                  && buffer[3 * k + 2] == BlueByte(pixels[k]) as int
      invariant forall j :: 0 <= j < 3 * i ==> 0 <= buffer[j] <= 255
    {
      PutPixel(buffer, 3 * i, pixels[i]);
    }
  }
}
