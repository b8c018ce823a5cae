/**
 * The values that cross the boundary to the OCR engine and the keyboard.
 * EasyOCR's `readtext` is not modelled; its results arrive as sequences of
 * `Detection`s, and `cv2.waitKey` as a `Key`.
 */
module Ocr {

  type Point = (int, int)

  /** One OCR result `(bbox, text, prob)`. */
  datatype Detection = Detection(bbox: seq<Point>, text: string, prob: real)

  /** One plate candidate `(cleaned, prob, bbox)`. */
  datatype Candidate = Candidate(plate: string, confidence: real, bbox: seq<Point>)

  /** The key read by `cv2.waitKey(1) & 0xFF`: 'q', 's', 'p', or anything else (or none). */
  datatype Key = QuitKey | SaveKey | PauseKey | OtherKey
}
