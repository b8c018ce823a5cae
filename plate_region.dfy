/**
 * The integer and sequence logic of OCR_Templates/prototype_v2.py: which
 * contours become plate candidates, how a candidate's box is padded and
 * clamped to the image, which region is chosen, the 3x resize, and the
 * choice of the best of the five Tesseract readings.  The pixel operations
 * and Tesseract itself are not modelled: contours arrive as vertex counts,
 * bounding rectangles and contour areas, and Tesseract's output on a region
 * or an approach as strings.
 */
module PlateRegion {
  import opened Wrappers
  import opened StableSort
  import opened Numbers
  import opened SeqSelect

  /** `(x, y, w, h)` in pixels. */
  datatype Rect = Rect(x: int, y: int, w: int, h: int)

  /**
   * One contour as the code sees it: `cv2.contourArea(contour)`, the number
   * of vertices of `cv2.approxPolyDP(...)` and `cv2.boundingRect(approx)`.
   */
  datatype Contour = Contour(contourArea: real, vertexCount: nat, bounds: Rect)

  /** One entry of `plate_candidates`: its bounding box and `area = w * h`. */
  datatype PlateCandidate = PlateCandidate(contour: Contour, bbox: Rect, area: int)

  /** Only the 30 largest contours are examined. */
  const MaxContours: nat := 30
  /** `plate_candidates[:3]` */
  const RegionTries: nat := 3
  /** `padding = 10` */
  const Padding: int := 10
  /** `area > 1000` */
  const MinArea: int := 1000
  /** `scale_percent = 300` */
  const ScalePercent: int := 300

  /** The box lies inside an image of the given size. */
  predicate InsideImage(r: Rect, imageWidth: int, imageHeight: int)
  {
    0 <= r.x <= r.x + r.w <= imageWidth && 0 <= r.y <= r.y + r.h <= imageHeight
  }

  /**
   * Contours found in an image have non-empty bounding rectangles inside
   * that image.
   */
  ghost predicate ValidContours(contours: seq<Contour>, imageWidth: int, imageHeight: int)
  {
    forall i :: 0 <= i < |contours| ==>
      contours[i].bounds.w >= 1 && contours[i].bounds.h >= 1 && InsideImage(contours[i].bounds, imageWidth, imageHeight)
  }

  function ContourAreaKey(c: Contour): real { c.contourArea }

  /**
   * `sorted(contours, key=cv2.contourArea, reverse=True)[:30]`: the (at most)
   * 30 contours of largest area, in descending area; every contour left out
   * has an area at most that of every contour kept.
   */
  function LargestContours(contours: seq<Contour>): (r: seq<Contour>)
    ensures |r| == Min(MaxContours, |contours|)
    ensures multiset(r) <= multiset(contours)
    ensures SortedDesc(r, ContourAreaKey)
    ensures forall c, k :: c in multiset(contours) - multiset(r) && 0 <= k < |r| ==>
              ContourAreaKey(c) <= ContourAreaKey(r[k])
  {
    var sorted := SortDesc(contours, ContourAreaKey);
    PrefixKeepsLargest(sorted, ContourAreaKey, Min(MaxContours, |sorted|));
    sorted[..Min(MaxContours, |sorted|)]
  }

  /**
   * Lines 44-53: a quadrilateral whose aspect ratio `w / h` lies strictly
   * between 1.5 and 6 and whose box area exceeds 1000.  With h >= 1 the
   * ratio test is the same as 2w > 3h and w < 6h.
   */
  predicate IsPlateShape(c: Contour)
  {
    var b := c.bounds;
    c.vertexCount == 4 && 3 * b.h < 2 * b.w && b.w < 6 * b.h && b.w * b.h > MinArea
  }

  /**
   * The cross-multiplied test is the test `1.5 < w / h < 6` on the exact
   * quotient, that is on the ratio r with r * h == w.
   */
  lemma AspectRatioTest(w: int, h: int, ratio: real)
    requires h >= 1
    requires ratio * (h as real) == w as real
    ensures (3 * h < 2 * w && w < 6 * h) <==> (1.5 < ratio < 6.0)
  {
    RatioBounds(w as real, h as real, ratio);
    CrossMultiplied(w, h);
  }

  lemma RatioBounds(w: real, h: real, ratio: real)
    requires h > 0.0 && ratio * h == w
    ensures (1.5 < ratio) == (1.5 * h < w)
    ensures (ratio < 6.0) == (w < 6.0 * h)
  {
    ScaleBoth(1.5, ratio, h);
    ScaleBoth(ratio, 6.0, h);
  }

  lemma CrossMultiplied(w: int, h: int)
    ensures (1.5 * (h as real) < w as real) <==> (3 * h < 2 * w)
    ensures (w as real < 6.0 * (h as real)) <==> (w < 6 * h)
  {
  }

  lemma ScaleBoth(a: real, b: real, c: real)
    requires c > 0.0
    ensures a < b <==> a * c < b * c
  {
  }

  function ToPlateCandidate(c: Contour): PlateCandidate
  {
    PlateCandidate(c, c.bounds, c.bounds.w * c.bounds.h)
  }

  /** The candidates the loop of lines 38-59 appends, in contour order. */
  function ShapeCandidates(contours: seq<Contour>): seq<PlateCandidate>
  {
    if contours == [] then []
    else
      var last := contours[|contours| - 1];
      ShapeCandidates(contours[..|contours| - 1]) + (if IsPlateShape(last) then [ToPlateCandidate(last)] else [])
  }

  /** The shape filter is the generic keep-then-map walk with the shape rule. */
  lemma {:induction false} ShapeCandidatesKeepMap(contours: seq<Contour>)
    ensures ShapeCandidates(contours) == KeepMap(contours, IsPlateShape, ToPlateCandidate)
  {
    if contours != [] {
      ShapeCandidatesKeepMap(contours[..|contours| - 1]);
    }
  }

  /** A candidate is in the list iff it comes from a contour of plate shape. */
  lemma ShapeCandidatesExactly(contours: seq<Contour>, p: PlateCandidate)
    ensures p in ShapeCandidates(contours) <==>
              exists i :: 0 <= i < |contours| && IsPlateShape(contours[i]) && p == ToPlateCandidate(contours[i])
  {
    ShapeCandidatesKeepMap(contours);
    KeepMapExactly(contours, IsPlateShape, ToPlateCandidate, p);
  }

  /** Lines 38-59 as the loop they are. */
  method CollectPlateCandidates(contours: seq<Contour>) returns (plateCandidates: seq<PlateCandidate>)
    ensures plateCandidates == ShapeCandidates(contours)
  {
    plateCandidates := [];
    for i := 0 to |contours|
      invariant plateCandidates == ShapeCandidates(contours[..i])
    {
      assert contours[..i + 1][..i] == contours[..i];
      var c := contours[i];
      if c.vertexCount == 4 {
        var b := c.bounds;
        var area := b.w * b.h;
        if 3 * b.h < 2 * b.w && b.w < 6 * b.h && area > MinArea {
          plateCandidates := plateCandidates + [PlateCandidate(c, b, area)];
        }
      }
    }
    assert contours[..|contours|] == contours;
  }

  function AreaKey(p: PlateCandidate): real { p.area as real }

  /**
   * Lines 77-82 and 100-105: grow the box by 10 pixels on every side and clip
   * it to the image.  The result starts inside the image and ends at or
   * before its right and bottom edges; when the box lies inside the image the
   * padded box contains it.
   */
  function Pad(b: Rect, imageWidth: int, imageHeight: int): (p: Rect)
    ensures p.x >= 0 && p.y >= 0
    ensures p.x + p.w <= imageWidth && p.y + p.h <= imageHeight
    ensures p.x <= Max(0, b.x) && p.y <= Max(0, b.y)
    ensures 0 <= b.x && b.x + b.w <= imageWidth ==> b.x + b.w <= p.x + p.w
    ensures 0 <= b.y && b.y + b.h <= imageHeight ==> b.y + b.h <= p.y + p.h
    ensures InsideImage(b, imageWidth, imageHeight) ==> InsideImage(p, imageWidth, imageHeight)
  {
    var x := Max(0, b.x - Padding);
    var y := Max(0, b.y - Padding);
    var w := Min(imageWidth - x, b.w + 2 * Padding);
    var h := Min(imageHeight - y, b.h + 2 * Padding);
    Rect(x, y, w, h)
  }

  /** `any(c.isalnum() for c in text)`, for ASCII letters and digits. */
  predicate HasAlnum(text: string)
  {
    exists i :: 0 <= i < |text| && ('0' <= text[i] <= '9' || 'A' <= text[i] <= 'Z' || 'a' <= text[i] <= 'z')
  }

  /** Every candidate, as sorted by area, comes from a valid contour. */
  lemma SortedCandidateValid(contours: seq<Contour>, imageWidth: int, imageHeight: int, i: int)
    requires ValidContours(contours, imageWidth, imageHeight)
    requires 0 <= i < |SortDesc(ShapeCandidates(LargestContours(contours)), AreaKey)|
    ensures var b := SortDesc(ShapeCandidates(LargestContours(contours)), AreaKey)[i].bbox;
              b.w >= 1 && b.h >= 1 && InsideImage(b, imageWidth, imageHeight)
  {
    var largest := LargestContours(contours);
    var sorted := SortDesc(ShapeCandidates(largest), AreaKey);
    assert sorted[i] in multiset(sorted);
    ShapeCandidatesExactly(largest, sorted[i]);
    var k :| 0 <= k < |largest| && IsPlateShape(largest[k]) && sorted[i] == ToPlateCandidate(largest[k]);
    assert largest[k] in multiset(largest);
    assert largest[k] in contours;
  }

  /** The OCR reading of a candidate's padded box has an alphanumeric character. */
  ghost predicate Readable(p: PlateCandidate, imageWidth: int, imageHeight: int, regionText: Rect -> string)
  {
    HasAlnum(regionText(Pad(p.bbox, imageWidth, imageHeight)))
  }

  /** Candidate i is the first readable one among the first n. */
  ghost predicate FirstReadable(sorted: seq<PlateCandidate>, n: int, imageWidth: int, imageHeight: int,
                                regionText: Rect -> string, i: int)
  {
    && 0 <= i < n <= |sorted|
    && Readable(sorted[i], imageWidth, imageHeight, regionText)
    && forall j :: 0 <= j < i ==> !Readable(sorted[j], imageWidth, imageHeight, regionText)
  }

  /**
   * The region `detect_license_plate` returns for candidates already sorted
   * by area: the padded box of the first of the top three whose OCR reading
   * has an alphanumeric character, else the padded box of the largest, and
   * None when there is no candidate.
   */
  ghost predicate IsChosenRegion(sorted: seq<PlateCandidate>, imageWidth: int, imageHeight: int,
                                 regionText: Rect -> string, region: Option<Rect>)
  {
    var tries := Min(RegionTries, |sorted|);
    if sorted == [] then region == None
    else
      || (exists i :: FirstReadable(sorted, tries, imageWidth, imageHeight, regionText, i)
                      && region == Some(Pad(sorted[i].bbox, imageWidth, imageHeight)))
      || ((forall j :: 0 <= j < tries ==> !Readable(sorted[j], imageWidth, imageHeight, regionText))
          && region == Some(Pad(sorted[0].bbox, imageWidth, imageHeight)))
  }

  /** At most one candidate is the first readable one. */
  lemma FirstReadableUnique(sorted: seq<PlateCandidate>, n: int, imageWidth: int, imageHeight: int,
                            regionText: Rect -> string, i: int, k: int)
    requires FirstReadable(sorted, n, imageWidth, imageHeight, regionText, i)
    requires FirstReadable(sorted, n, imageWidth, imageHeight, regionText, k)
    ensures i == k
  {
  }

  /** Two regions chosen from the same candidates and readings are equal. */
  lemma ChosenRegionUnique(sorted: seq<PlateCandidate>, imageWidth: int, imageHeight: int,
                           regionText: Rect -> string, r1: Option<Rect>, r2: Option<Rect>)
    requires IsChosenRegion(sorted, imageWidth, imageHeight, regionText, r1)
    requires IsChosenRegion(sorted, imageWidth, imageHeight, regionText, r2)
    ensures r1 == r2
  {
    if sorted != [] {
      var tries := Min(RegionTries, |sorted|);
      if i, k :| FirstReadable(sorted, tries, imageWidth, imageHeight, regionText, i)
                 && r1 == Some(Pad(sorted[i].bbox, imageWidth, imageHeight))
                 && FirstReadable(sorted, tries, imageWidth, imageHeight, regionText, k)
                 && r2 == Some(Pad(sorted[k].bbox, imageWidth, imageHeight)) {
        FirstReadableUnique(sorted, tries, imageWidth, imageHeight, regionText, i, k);
      }
    }
  }

  /** Every candidate's box is non-empty and inside the image. */
  ghost predicate BoxesInside(sorted: seq<PlateCandidate>, imageWidth: int, imageHeight: int)
  {
    forall i :: 0 <= i < |sorted| ==> InsideImage(sorted[i].bbox, imageWidth, imageHeight)
  }

  /** Lines 74-108: try the three largest candidates, then fall back to the largest. */
  method ChooseRegion(sorted: seq<PlateCandidate>, imageWidth: nat, imageHeight: nat, regionText: Rect -> string)
    returns (region: Option<Rect>)
    requires sorted != []
    requires BoxesInside(sorted, imageWidth, imageHeight)
    ensures IsChosenRegion(sorted, imageWidth, imageHeight, regionText, region)
    ensures region.Some? && InsideImage(region.value, imageWidth, imageHeight)
  {
    var tries := Min(RegionTries, |sorted|);
    for i := 0 to tries
      invariant forall j :: 0 <= j < i ==> !Readable(sorted[j], imageWidth, imageHeight, regionText)
    {
      var b := sorted[i].bbox;
      var x := Max(0, b.x - Padding);
      var y := Max(0, b.y - Padding);
      var w := Min(imageWidth - x, b.w + 2 * Padding);
      var h := Min(imageHeight - y, b.h + 2 * Padding);
      assert Rect(x, y, w, h) == Pad(b, imageWidth, imageHeight);
      var testText := regionText(Rect(x, y, w, h));
      if HasAlnum(testText) {
        assert FirstReadable(sorted, tries, imageWidth, imageHeight, regionText, i);
        return Some(Rect(x, y, w, h));
      }
    }
    region := Some(Pad(sorted[0].bbox, imageWidth, imageHeight));
  }

  /**
   * `detect_license_plate`, given the image size, its contours and the OCR
   * reading of any region: the chosen region, or None when no contour has
   * plate shape.  The crop itself is the image restricted to the region.
   */
  method DetectLicensePlate(contours: seq<Contour>, imageWidth: nat, imageHeight: nat, regionText: Rect -> string)
    returns (region: Option<Rect>)
    requires ValidContours(contours, imageWidth, imageHeight)
    ensures region.None? <==> ShapeCandidates(LargestContours(contours)) == []
    ensures IsChosenRegion(SortDesc(ShapeCandidates(LargestContours(contours)), AreaKey),
                           imageWidth, imageHeight, regionText, region)
    ensures region.Some? ==> InsideImage(region.value, imageWidth, imageHeight)
  {
    var largest := LargestContours(contours);
    var plateCandidates := CollectPlateCandidates(largest);
    if plateCandidates == [] {
      return None;
    }
    var sorted := SortDesc(plateCandidates, AreaKey);
    forall i | 0 <= i < |sorted|
      ensures InsideImage(sorted[i].bbox, imageWidth, imageHeight)
    {
      SortedCandidateValid(contours, imageWidth, imageHeight, i);
    }
    region := ChooseRegion(sorted, imageWidth, imageHeight, regionText);
  }

  /** The size of an image or crop, `(shape[1], shape[0])`. */
  datatype Size = Size(width: int, height: int)

  /**
   * Python's slice length for `a[start:stop]` on an axis of length n, for
   * non-negative bounds.
   */
  function SliceLength(start: int, stop: int, n: nat): (len: nat)
    requires start >= 0 && stop >= 0
    ensures len <= n
    ensures start <= stop <= n ==> len == stop - start
  {
    Max(0, Min(stop, n) - Min(start, n))
  }

  /** `gray[y:y+h, x:x+w]` for a region inside the image is w by h. */
  function CropSize(r: Rect, imageWidth: nat, imageHeight: nat): (c: Size)
    requires InsideImage(r, imageWidth, imageHeight)
    ensures c == Size(r.w, r.h)
  {
    Size(SliceLength(r.x, r.x + r.w, imageWidth), SliceLength(r.y, r.y + r.h, imageHeight))
  }

  /** Lines 150-152: `int(n * scale_percent / 100)` on each side, i.e. 3x. */
  function ResizedSize(cropped: Size): (r: Size)
    requires cropped.width >= 0 && cropped.height >= 0
    ensures r.width == 3 * cropped.width && r.height == 3 * cropped.height
  {
    Size((cropped.width * ScalePercent) / 100, (cropped.height * ScalePercent) / 100)
  }

  /** The five approaches, in the order they are put into `results`. */
  const ApproachNames: seq<string> :=
    ["Otsu + PSM7", "Inverted Otsu + PSM7", "Adaptive + PSM7", "Otsu + PSM6", "Otsu + No Whitelist"]

  /** An `(approach, text)` entry of the `results` dict. */
  type Reading = (string, string)

  /**
   * Entry k is the result: its text has an alphanumeric character, no such
   * text is longer, and every earlier such text is strictly shorter.
   */
  ghost predicate IsFirstLongest(results: seq<Reading>, k: int)
  {
    && 0 <= k < |results|
    && HasAlnum(results[k].1)
    && (forall i :: 0 <= i < |results| && HasAlnum(results[i].1) ==> |results[i].1| <= |results[k].1|)
    && (forall i :: 0 <= i < k && HasAlnum(results[i].1) ==> |results[i].1| < |results[k].1|)
  }

  /** The best reading is determined by the readings. */
  lemma FirstLongestUnique(results: seq<Reading>, k1: int, k2: int)
    requires IsFirstLongest(results, k1) && IsFirstLongest(results, k2)
    ensures k1 == k2
  {
  }

  /**
   * Lines 203-208: the first reading, in insertion order, whose text is
   * longest among the texts that contain an alphanumeric character, or two
   * empty strings when no text has one.
   */
  method BestResult(results: seq<Reading>) returns (bestText: string, bestApproach: string)
    ensures (forall i :: 0 <= i < |results| ==> !HasAlnum(results[i].1)) ==> bestText == "" && bestApproach == ""
    ensures (exists i :: 0 <= i < |results| && HasAlnum(results[i].1)) ==>
              exists k :: IsFirstLongest(results, k) && bestText == results[k].1 && bestApproach == results[k].0
  {
    bestText, bestApproach := "", "";
    ghost var best := -1;
    for i := 0 to |results|
      invariant -1 <= best < i
      invariant best == -1 ==>
                  bestText == "" && bestApproach == "" && forall j :: 0 <= j < i ==> !HasAlnum(results[j].1)
      invariant best >= 0 ==> bestText == results[best].1 && bestApproach == results[best].0 && HasAlnum(bestText)
      invariant best >= 0 ==> forall j :: 0 <= j < i && HasAlnum(results[j].1) ==> |results[j].1| <= |bestText|
      invariant best >= 0 ==> forall j :: 0 <= j < best && HasAlnum(results[j].1) ==> |results[j].1| < |bestText|
    {
      var (approach, text) := results[i];
      if |text| > |bestText| && HasAlnum(text) {
        bestText, bestApproach := text, approach;
        best := i;
      }
    }
    if best >= 0 {
      assert IsFirstLongest(results, best);
    }
  }

  /**
   * `extract_text_from_image` after the image is loaded: detect the region
   * (or fall back to the whole grayscale image), resize it 3x, and pick the
   * best of the five readings of the resized image.
   */
  method ExtractTextFromImage(imageWidth: nat, imageHeight: nat, contours: seq<Contour>,
                              regionText: Rect -> string, approachTexts: seq<string>)
    returns (extractedText: string, cropped: Size, resized: Size)
    requires ValidContours(contours, imageWidth, imageHeight)
    requires |approachTexts| == |ApproachNames|
    ensures ShapeCandidates(LargestContours(contours)) == [] ==> cropped == Size(imageWidth, imageHeight)
    ensures 0 <= cropped.width <= imageWidth && 0 <= cropped.height <= imageHeight
    ensures ShapeCandidates(LargestContours(contours)) != [] ==>
              exists r :: IsChosenRegion(SortDesc(ShapeCandidates(LargestContours(contours)), AreaKey),
                                         imageWidth, imageHeight, regionText, Some(r))
                          && cropped == Size(r.w, r.h)
    ensures resized == Size(3 * cropped.width, 3 * cropped.height)
    ensures (forall i :: 0 <= i < |approachTexts| ==> !HasAlnum(approachTexts[i])) ==> extractedText == ""
    ensures (exists i :: 0 <= i < |approachTexts| && HasAlnum(approachTexts[i])) ==>
              exists k :: 0 <= k < |approachTexts| && extractedText == approachTexts[k] && HasAlnum(extractedText) &&
                (forall i :: 0 <= i < |approachTexts| && HasAlnum(approachTexts[i]) ==> |approachTexts[i]| <= |extractedText|) &&
                (forall i :: 0 <= i < k && HasAlnum(approachTexts[i]) ==> |approachTexts[i]| < |extractedText|)
  {
    var region := DetectLicensePlate(contours, imageWidth, imageHeight, regionText);
    if region.None? {
      cropped := Size(imageWidth, imageHeight);
    } else {
      cropped := CropSize(region.value, imageWidth, imageHeight);
    }
    resized := ResizedSize(cropped);
    var results := seq(|ApproachNames|, i requires 0 <= i < |ApproachNames| => (ApproachNames[i], approachTexts[i]));
    var approach;
    extractedText, approach := BestResult(results);
    assert forall i :: 0 <= i < |approachTexts| ==> results[i].1 == approachTexts[i];
  }
}
