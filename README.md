# Licence-plate check-in: a Dafny model

This project models the decision logic of a small licence-plate check-in
system. The system has three parts.

* **The live recogniser** (`main_live.py`) reads webcam frames and runs
  EasyOCR on every fifth frame, both on the raw frame and on a preprocessed
  copy. It merges the two result lists and keeps the detections whose
  cleaned text looks like a plate (5 to 8 characters, at least one letter
  and one digit) and whose probability is above 0.5. It ranks them by
  confidence (a stable sort) and keeps the top three. It auto-saves the
  best one to the ledger `dashboard/public/data/data.csv` when that one is more than 0.4 confident and
  is not in the dedup window. The dedup window is a set of plates that is
  cleared once it would hold more than ten. Keys `q`, `s` and `p` quit,
  save manually and pause.
* **The prototypes.** `OCR_Templates/prototype_live.py` is the earlier
  loop: every third frame, bounds 4 to 9, probability above 0.3, a single
  running best plate, and an in-memory list of saves.
  `OCR_Templates/prototype_v2.py` finds a plate region in a still image:
  * it takes the 30 largest contours and keeps the 4-vertex ones whose
    bounding box has an aspect ratio in (1.5, 6) and an area above 1000;
  * it ranks them by area and pads each box by 10 pixels, clamped to the
    image;
  * it takes the first of the top three whose crop yields alphanumeric
    Tesseract text, and otherwise the largest;
  * it then tries five OCR approaches on a 3x resize and keeps the first
    longest text that has an alphanumeric character.
* **The dashboard** (`dashboard/src/App.js`) reads a CSV with a header row
  and drops rows without a truthy "License Plate". It counts current
  vehicles (no truthy "Actual Checkout Time"), check-ins and check-outs,
  and gives each current vehicle a `minutes:hours:days:weeks:months`
  duration. It also counts, per day label, the rows whose "Actual Checkin
  Time" starts with that label.

The model keeps the source's structure:

* Pure computations are Dafny functions with lemmas.
* The two capture loops are classes whose fields are the loop's variables.
  Their methods are proved against a functional step relation
  (`CheckInRules.Step`, `PrototypeLive.Step`), and invariants are proved
  about that relation.
* The region search and the best-result selection in `prototype_v2.py` are
  methods with loops. Each is proved against a declarative description of
  the region or reading that the code must pick.

The dashboard reads the recogniser's own ledger: `main_live.py` appends to
`dashboard/public/data/data.csv` (main_live.py:75), the very file that
`App.js` fetches as `/data/data.csv` (App.js:16). That ledger has the columns
`License Plate` and `Timestamp`, while the dashboard reads
`Actual Checkin Time` and `Actual Checkout Time`.
`LedgerDashboard.LedgerSeenByDashboard` proves what the dashboard then shows
for any ledger file the recogniser created, that is one starting with its own
`License Plate,Timestamp` header (a file that already existed with other
columns gets no header, and its new rows are read under those columns; the
model says nothing about that case):

* there are no check-outs;
* every vehicle is current, with duration `-`;
* every per-day count is 0.

Neither loop recovers from errors in its foreign calls: an exception from
the OCR engine or from writing the ledger ends the program. The model
follows the code: an OCR call always yields a result list, and a ledger
append always succeeds.

Files: `wrappers.dfy` (Option), `numbers.dfy` (Min and Max),
`ocr_types.dfy`, `plate_text.dfy`, `stable_sort.dfy`, `seq_select.dfy`
(the keep-then-map walk both filtering loops share), `csv_ledger.dfy`,
`checkin_rules.dfy`, `live_session.dfy`, `prototype_live.dfy`,
`plate_region.dfy`, `js_text.dfy`, `dashboard.dfy`, `ledger_dashboard.dfy`
and `scenarios.dfy` (concrete runs worked through).

## Model

| member | source | states |
|---|---|---|
| PlateText.Clean | main_live.py:19-22 | `clean_plate_text`: upper-case, then keep only A-Z and 0-9; its properties are the lemmas below |
| PlateText.IsLikelyPlate | main_live.py:24-31 | `is_likely_plate` with its length bounds as parameters, characterised by IsLikelyPlateIff |
| PlateText.CleanOnlyPlateChars | main_live.py:19-22 | the cleaned text consists only of A-Z and 0-9 and is never longer than the input |
| PlateText.CleanSubsequence | main_live.py:19-22 | cleaning distributes over concatenation, and a single character survives iff its upper-case form is A-Z or 0-9 (so the result is the in-order subsequence of such characters) |
| PlateText.CleanFixesCleanText | main_live.py:19-22 | a text made only of A-Z/0-9 is left unchanged by cleaning |
| PlateText.CleanIdempotent | main_live.py:19-22 | cleaning twice equals cleaning once |
| PlateText.IsLikelyPlateIff | main_live.py:24-31 | the format check holds iff the cleaned length is within the bounds and the cleaned text contains a letter and a digit |
| PlateText.IsLikelyPlateOfClean | main_live.py:24-31 | checking a cleaned text gives the same answer as checking the raw text |
| PlateText.LiveBounds | main_live.py:24-31 | with bounds 5..8, lengths 4 and 9 are rejected and lengths 5 and 8 with a letter and a digit are accepted |
| PlateText.PrototypeBounds | OCR_Templates/prototype_live.py:12-22 | with bounds 4..9, lengths 3 and 10 are rejected and lengths 4 and 9 with a letter and a digit are accepted |
| PlateText.LiveImpliesPrototype | OCR_Templates/prototype_live.py:12-22 | every text the live check accepts is accepted by the prototype check |
| PlateText.LikelyPlateIsNonEmpty | main_live.py:24-31 | an accepted text cleans to a non-empty text of plate characters |
| StableSort.SortDesc | main_live.py:151-152 | the sorted list is a permutation of the input (same multiset) in descending key order |
| StableSort.SortDescStable | main_live.py:151-152 | for every key value, the elements with that key appear in their input order (stability of `list.sort`) |
| StableSort.InsertPerm | main_live.py:151-152 | inserting an element adds exactly that element to the multiset |
| StableSort.InsertSorted | main_live.py:151-152 | inserting into a descending list keeps it descending |
| StableSort.InsertWithKey | main_live.py:151-152 | insertion places the new element before the existing elements of equal key |
| StableSort.PrefixKeepsLargest | OCR_Templates/prototype_v2.py:32 | cutting a descending list keeps a descending sub-multiset, and every element left out has a key at most that of every element kept |
| CsvLedger.AppendToCsv | main_live.py:48-63 | after an append the file exists, old lines are kept, the header is written first iff the file was missing, and the last line is `[plate, timestamp]` |
| CsvLedger.AppendRecords | main_live.py:48-63 | an append keeps the ledger well formed and adds exactly one record at the end |
| CsvLedger.TwoAppendsOneHeader | main_live.py:59-63 | two appends to a missing file give one header line followed by both records |
| CheckInRules.PlateCandidates | main_live.py:143-149 | the candidate loop over the fused results, characterised by PlateCandidatesExactly and FusionOrder |
| CheckInRules.FusionOrder | main_live.py:126-149 | filtering the fused list equals filtering the raw results, then the preprocessed ones, in that order |
| CheckInRules.PlateCandidatesExactly | main_live.py:143-149 | a candidate is kept iff it comes from a detection with probability above 0.5 whose cleaned text passes the 5..8 check |
| CheckInRules.PlateCandidatesKeepMap | main_live.py:143-149 | the candidate loop is the generic keep-then-map walk with `Qualifies` as the filter and `ToCandidate` as the map |
| SeqSelect.KeepMapExactly | main_live.py:143-149 | an element is in the output of a keep-then-map walk iff it is the image of some kept input element |
| CheckInRules.PlateCandidatesValid | main_live.py:143-149 | every kept candidate has a cleaned plate text passing the check and confidence above 0.5 |
| CheckInRules.Qualifies | main_live.py:148 | the candidate test: cleaned text passes the 5..8 check and probability above 0.5 |
| CheckInRules.Rank | main_live.py:152 | `sort(key=confidence, reverse=True)` as the stable descending sort |
| CheckInRules.TopThree | main_live.py:154-155 | the kept list is the first min(3, n) elements; of a list ranked by confidence it is still descending and each kept candidate is at least as confident as every dropped one |
| CheckInRules.RankedTop | main_live.py:151-155 | the new `last_detected_plates` of a processed frame, characterised by RankedTopContents and RankedTopOrder |
| CheckInRules.RankedTopContents | main_live.py:151-155 | the kept candidates are min(3, n) candidates of the frame, all valid |
| CheckInRules.RankedTopOrder | main_live.py:151-155 | the kept candidates are in descending confidence, each at least as confident as every dropped one, and ties keep their fused order |
| CheckInRules.Remember | main_live.py:35-42 | a new plate added to a full window of ten clears it; below ten the plate is added; the window never exceeds ten |
| CheckInRules.AutoSave | main_live.py:33-46 | a save happens iff the confidence is above 0.4 and the plate is not in the window; otherwise nothing changes |
| CheckInRules.ManualSave | main_live.py:193-209 | a manual save skips a plate in the window; otherwise it records it, which equals an auto-save at any confidence above 0.4 |
| CheckInRules.RecordSave | main_live.py:36-42 | one save: append to the ledger, count it and remember the plate; its effect is RecordSaveEffect |
| CheckInRules.RecordSaveEffect | main_live.py:33-46 | recording a new plate appends one ledger record (after a header when the file was missing), and puts the plate in the window or, when the window held ten, empties it |
| CheckInRules.ElementsIn | main_live.py:35-42 | the set of a list's plates contains exactly the plates in the list |
| CheckInRules.RememberAllGrows | main_live.py:35-42 | remembering distinct new plates while the window stays within ten adds exactly those plates |
| CheckInRules.EleventhDistinctPlateClears | main_live.py:35-42 | ten distinct plates fill the window and the eleventh distinct plate empties it |
| CheckInRules.RememberAllSplit | main_live.py:35-42 | remembering a list of plates in two parts equals remembering it at once |
| CheckInRules.ProcessFrame | main_live.py:121-166 | a processed frame: the ranked top three become the kept candidates and the first is offered to auto-save |
| CheckInRules.HandleKey | main_live.py:189-215 | the `q`, `s` and `p` branches on the state |
| CheckInRules.ShouldProcess | main_live.py:122 | recognition runs when not paused and the frame counter is a multiple of 5 |
| CheckInRules.Step | main_live.py:106-217 | one loop iteration (read, maybe process, key, counter), characterised by StepSchedule, StepSaves, StepExtends and StepNoFrame |
| CheckInRules.RunTicks | main_live.py:106-217 | the loop over a sequence of iterations, stopping at the first that ends it; RunKeepsInv and SessionBounds hold of it |
| CheckInRules.StepSchedule | main_live.py:106-217 | recognition runs iff not paused and the frame counter is a multiple of 5, then it overwrites the kept candidates; only `p` flips pause; only `q` stops; the counter grows by one iff the loop goes on |
| CheckInRules.StepNoFrame | main_live.py:109-111 | a failed read ends the loop and changes nothing |
| CheckInRules.StepSaves | main_live.py:122-171 | recognition offers only the top ranked candidate to auto-save and nothing when the frame has none; `s` offers only the first kept candidate to the manual save and nothing when none is kept; no other key and no skipped frame touches the window, the ledger or the count |
| CheckInRules.SaveExtends | main_live.py:33-42 | neither save removes or rewrites a ledger line, and the count never drops |
| CheckInRules.StepExtends | main_live.py:106-217 | one iteration only appends to the ledger |
| CheckInRules.RunExtends | main_live.py:106-217 | over any run the ledger is append-only: lines written before or earlier in the session are never rewritten |
| CheckInRules.InitialSessionInv | main_live.py:99-104 | the initial state satisfies the session invariant |
| CheckInRules.RecordSaveGrows | main_live.py:48-63 | recording a plate that passes the check adds one well-formed ledger line holding a checked plate |
| CheckInRules.SaveKeepsInv | main_live.py:33-46 | auto-save and manual save keep the window within ten and keep the ledger equal to the initial lines plus one checked record per save |
| CheckInRules.ProcessFrameKeepsInv | main_live.py:121-166 | processing a frame keeps the session invariant |
| CheckInRules.HandleKeyKeepsInv | main_live.py:189-215 | key handling keeps the session invariant |
| CheckInRules.StepKeepsInv | main_live.py:106-217 | one loop iteration keeps the session invariant |
| CheckInRules.RunKeepsInv | main_live.py:106-217 | any number of iterations keeps the session invariant |
| CheckInRules.SessionBounds | main_live.py:99-217 | from the initial state, every run keeps at most three candidates, at most ten plates in the window, and a ledger that is the original file plus exactly `saved_count` checked records |
| LiveSession.CollectCandidates | main_live.py:143-149 | the loop builds exactly the filtered candidate list, and every element has confidence above 0.5 and a cleaned plate that passes the check |
| LiveSession.Session.constructor | main_live.py:99-104 | the fields start at frame 0, not paused, nothing detected, an empty window, 0 saves and the given ledger |
| LiveSession.Session.AutoSaveIfConfident | main_live.py:33-46 | the window, ledger and counter become exactly what `AutoSave` gives |
| LiveSession.Session.ProcessFrame | main_live.py:121-166 | the new fields are exactly the state `CheckInRules.ProcessFrame` gives |
| LiveSession.Session.HandleKey | main_live.py:189-215 | the new fields and the quit flag are exactly what `CheckInRules.HandleKey` gives |
| LiveSession.Session.Iterate | main_live.py:106-217 | one iteration changes the fields as `CheckInRules.Step` says |
| LiveSession.Session.Run | main_live.py:106-217 | the whole loop changes the fields as `CheckInRules.RunTicks` says |
| PrototypeLive.RunningBest | OCR_Templates/prototype_live.py:96-105 | the running best of the result loop, characterised by RunningBestIsFirstMaximum |
| PrototypeLive.Qualifies | OCR_Templates/prototype_live.py:100 | the prototype's test: the 4..9 check and probability above 0.3 |
| PrototypeLive.RunningBestIsFirstMaximum | OCR_Templates/prototype_live.py:96-105 | the running best is None iff nothing qualifies (4..9, probability above 0.3); otherwise it is the first qualifying detection of maximal probability |
| PrototypeLive.KeepMaximum | OCR_Templates/prototype_live.py:96-105 | a detection that does not beat the best keeps the first maximum |
| PrototypeLive.NewMaximum | OCR_Templates/prototype_live.py:96-105 | a qualifying detection that strictly beats all earlier ones becomes the first maximum |
| PrototypeLive.FindBestPlate | OCR_Templates/prototype_live.py:96-105 | the loop returns None iff nothing qualifies, and otherwise the first qualifying detection of maximal probability |
| PrototypeLive.ProcessFrame | OCR_Templates/prototype_live.py:86-109 | a processed frame: a found best plate replaces the last detected plate |
| PrototypeLive.Step | OCR_Templates/prototype_live.py:70-149 | one loop iteration, characterised by StepSchedule and StepSaves |
| PrototypeLive.RunTicks | OCR_Templates/prototype_live.py:70-149 | the loop over a sequence of iterations; RunAppendOnly holds of it |
| PrototypeLive.StepSchedule | OCR_Templates/prototype_live.py:70-149 | recognition runs iff not paused and the frame counter is a multiple of 3, and a found plate replaces the last one; `p` toggles pause; `q` stops; the counter grows iff the loop goes on |
| PrototypeLive.StepSaves | OCR_Templates/prototype_live.py:141-143 | `s` with a detected plate appends exactly that plate and its time; otherwise the saves are unchanged |
| PrototypeLive.RunAppendOnly | OCR_Templates/prototype_live.py:70-149 | the saved list only grows: the old list is a prefix of the new one |
| PrototypeLive.SavesRepeat | OCR_Templates/prototype_live.py:141-143 | without a dedup window, saving twice records the same plate twice |
| PrototypeLive.Session.constructor | OCR_Templates/prototype_live.py:64-68 | the fields start at frame 0, not paused, no plate and no saves |
| PrototypeLive.Session.Iterate | OCR_Templates/prototype_live.py:70-149 | one iteration changes the fields as `PrototypeLive.Step` says |
| PrototypeLive.Session.Run | OCR_Templates/prototype_live.py:70-149 | the whole loop changes the fields as `PrototypeLive.RunTicks` says |
| PlateRegion.LargestContours | OCR_Templates/prototype_v2.py:32 | min(30, n) contours taken from the input, in descending contour area, and every contour left out has an area at most that of every contour kept |
| PlateRegion.IsPlateShape | OCR_Templates/prototype_v2.py:44-53 | the candidate test (4 vertices, ratio in (1.5, 6), area above 1000), whose ratio part AspectRatioTest justifies |
| PlateRegion.AspectRatioTest | OCR_Templates/prototype_v2.py:44-53 | the integer test 3h < 2w < 12h holds iff the ratio w/h lies strictly between 1.5 and 6 |
| PlateRegion.ShapeCandidates | OCR_Templates/prototype_v2.py:38-59 | the candidate list of the contour loop, characterised by ShapeCandidatesExactly |
| PlateRegion.ShapeCandidatesExactly | OCR_Templates/prototype_v2.py:38-59 | a candidate is recorded iff it comes from a 4-vertex contour with ratio in (1.5, 6) and area above 1000 |
| PlateRegion.ShapeCandidatesKeepMap | OCR_Templates/prototype_v2.py:38-59 | the contour loop is the generic keep-then-map walk with the plate-shape test as the filter |
| PlateRegion.CollectPlateCandidates | OCR_Templates/prototype_v2.py:38-59 | the loop builds exactly that candidate list, in contour order |
| PlateRegion.Pad | OCR_Templates/prototype_v2.py:77-82 | the padded box starts at or above 0, ends within the image, and contains on each axis the original box when that box is inside the image |
| PlateRegion.SortedCandidateValid | OCR_Templates/prototype_v2.py:69-71 | every candidate ranked by area has a box inside the image |
| PlateRegion.FirstReadableUnique | OCR_Templates/prototype_v2.py:74-97 | at most one candidate is the first readable one |
| PlateRegion.HasAlnum | OCR_Templates/prototype_v2.py:91 | `any(c.isalnum() for c in text)` for ASCII letters and digits |
| PlateRegion.Readable | OCR_Templates/prototype_v2.py:85-91 | the OCR reading of a candidate's padded crop has an alphanumeric character |
| PlateRegion.IsChosenRegion | OCR_Templates/prototype_v2.py:69-110 | the region the code must return: None without candidates, else the padded box of the first readable of the top three, else of the largest |
| PlateRegion.ChosenRegionUnique | OCR_Templates/prototype_v2.py:69-110 | the region-choice rule determines one region |
| PlateRegion.ChooseRegion | OCR_Templates/prototype_v2.py:74-108 | returns the padded box of the first of the top three whose crop has alphanumeric text, else the padded box of the largest; the result lies inside the image |
| PlateRegion.DetectLicensePlate | OCR_Templates/prototype_v2.py:5-110 | None iff no contour among the 30 largest is plate-shaped; otherwise the region the choice rule gives over the candidates ranked by area, inside the image |
| PlateRegion.SliceLength | OCR_Templates/prototype_v2.py:85 | a slice is never longer than the dimension, and an in-range slice has exactly stop - start elements |
| PlateRegion.CropSize | OCR_Templates/prototype_v2.py:85 | cropping a box inside the image gives exactly the box's width and height |
| PlateRegion.ResizedSize | OCR_Templates/prototype_v2.py:150-153 | the resize triples both dimensions |
| PlateRegion.FirstLongestUnique | OCR_Templates/prototype_v2.py:203-208 | at most one reading is the first longest with an alphanumeric character |
| PlateRegion.BestResult | OCR_Templates/prototype_v2.py:203-208 | returns two empty strings when no text has an alphanumeric character, and otherwise the text and approach of the first longest such reading |
| PlateRegion.ExtractTextFromImage | OCR_Templates/prototype_v2.py:112-218 | the full image is used iff no plate is found, the plate crop otherwise; the resize is 3x; the text is empty when nothing is alphanumeric, and otherwise the first longest alphanumeric reading of the five approaches |
| JsText.NatToString | dashboard/src/App.js:28 | a decimal numeral is non-empty, all digits, and starts with 0 only for zero |
| JsText.NatRoundTrip | dashboard/src/App.js:28 | parsing the decimal numeral of n gives n |
| JsText.IntRoundTrip | dashboard/src/App.js:28 | parsing the signed numeral of an integer gives it back |
| JsText.NaNIsNotANumber | dashboard/src/App.js:20-28 | the text `NaN` is not an integer numeral |
| JsText.SplitAppendColon | dashboard/src/App.js:28 | splitting a text ending in a colon adds one empty field |
| JsText.SplitJoin | dashboard/src/App.js:28 | splitting colon-joined colon-free parts gives the parts back |
| Dashboard.Filter | dashboard/src/App.js:35-57 | `Array.prototype.filter`, never longer than its input; characterised by FilterAppend and FilterExactly |
| Dashboard.FilterAppend | dashboard/src/App.js:35-44 | filtering distributes over concatenation (order kept) |
| Dashboard.FilterExactly | dashboard/src/App.js:35-44 | a row is kept iff it is in the input and satisfies the predicate |
| Dashboard.CheckoutSplit | dashboard/src/App.js:37-44 | the rows not checked out and the checked-out rows split the plate rows: their multisets add up to the plate rows' multiset, so current + check-outs = check-ins |
| Dashboard.Data | dashboard/src/App.js:35 | the rows with a truthy licence plate, characterised by DataProperties |
| Dashboard.DataProperties | dashboard/src/App.js:35 | the dashboard rows are exactly the rows with a truthy licence plate, in order |
| Dashboard.FloorDiv | dashboard/src/App.js:23-27 | `Math.floor(a / b)` for b > 0 is the q with q*b <= a < q*b + b |
| Dashboard.FloorDivTwice | dashboard/src/App.js:23-27 | flooring twice by b then c equals flooring once by b*c |
| Dashboard.BreakdownOf | dashboard/src/App.js:23-27 | each unit is the floor of the elapsed milliseconds over that unit's length (minutes, hours, days, weeks = 7 days, months = 30 days) |
| Dashboard.BreakdownOrdered | dashboard/src/App.js:23-27 | for a non-negative elapsed time, months <= weeks <= days <= hours <= minutes, all non-negative |
| Dashboard.DurationText | dashboard/src/App.js:28 | the `minutes:hours:days:weeks:months` template, inverted by ParseDuration (DurationRoundTrip) |
| Dashboard.DurationRoundTrip | dashboard/src/App.js:28 | a duration text parses back to its five numbers |
| Dashboard.InvalidDurationIsNotADuration | dashboard/src/App.js:20-28 | the text built from an invalid date is not a five-number duration |
| Dashboard.NoDurationIsNotADuration | dashboard/src/App.js:19 | `-` is not a five-number duration |
| Dashboard.CalculateDuration | dashboard/src/App.js:18-29 | `-` iff the check-in time is falsy; the NaN text for an unparsable date; otherwise exactly the colon-joined breakdown of now - start, a text that parses back to that breakdown |
| Dashboard.WithDurations | dashboard/src/App.js:37-38 | each current vehicle keeps its fields and gains `duration` computed from its check-in time |
| Dashboard.CurrentVehicles | dashboard/src/App.js:37-38 | the rows not checked out, each with its duration (WithDurations) |
| Dashboard.CheckedInOnDay | dashboard/src/App.js:56 | the rows counted for one day label, characterised by CountedExactly |
| Dashboard.CheckedInOn | dashboard/src/App.js:56 | the check-in time is present and starts with the day label |
| Dashboard.Counts | dashboard/src/App.js:55-57 | one count per label, none above the number of rows |
| Dashboard.CountedExactly | dashboard/src/App.js:56 | a row counts for a day iff it has a check-in time starting with that day's label |
| Dashboard.CountsAppend | dashboard/src/App.js:55-57 | per-day counts add up over concatenated row lists |
| Dashboard.Summarize | dashboard/src/App.js:35-59 | current = number of listed vehicles, check-ins = number of plate rows, current + check-outs = check-ins, one count per label, each at most the check-ins |
| LedgerDashboard.Zip | dashboard/src/App.js:31-34 | a header-keyed row has only header names as keys, and with distinct names and a full line every field is under its name |
| LedgerDashboard.ParseWithHeader | dashboard/src/App.js:31-34 | a file of n > 0 lines gives n - 1 rows |
| LedgerDashboard.LedgerRows | main_live.py:59-63 | each ledger record, read by the dashboard, is the row mapping `License Plate` and `Timestamp` to its two fields, one row per record |
| LedgerDashboard.FilterUndated | dashboard/src/App.js:37-57 | rows without check-in or check-out fields are all current, none checked out, and none counted for any day |
| LedgerDashboard.UndatedView | dashboard/src/App.js:35-59 | for such rows the view has no check-outs, current = check-ins, every duration `-`, every count 0 |
| LedgerDashboard.LedgerSeenByDashboard | dashboard/src/App.js:35-59 | a well-formed ledger from the recogniser yields no check-outs, all vehicles current with duration `-`, all counts 0, and (with no empty plate) one check-in per record |
| LedgerDashboard.AllHavePlates | dashboard/src/App.js:35 | when every row has a plate, the plate filter keeps them all |
| Scenarios.StableRankingExample | main_live.py:151-155 | candidates at 0.9, 0.9 and 0.7 keep their order |
| Scenarios.DedupExample | main_live.py:33-46 | sightings of one plate at 0.5, 0.6 and 0.5 give one saved record: the window refuses the repeats |
| Scenarios.CleanExample | main_live.py:19-22 | `ab 12 34` cleans to `AB1234` |
| Scenarios.EndToEndExample | main_live.py:121-166 | one processed frame with an 0.9 and an 0.55 reading of `AB1234` keeps both, saves once and writes the header and one record to a missing file |

## Left out

* The OpenCV, EasyOCR and Tesseract calls (grey conversion, filtering,
  Canny, `findContours`, `approxPolyDP`, `boundingRect`, thresholds,
  `image_to_string`). Each becomes an input: a detection list, contours
  with their area, vertex count and bounding box, and a function from a
  crop to its text. Tesseract text is taken as already stripped.
* Failures of the foreign calls: the model assumes an OCR call never raises
  and a ledger append never fails, since neither loop catches an exception
  and either would end the program.
* The webcam, the display windows, `print` output and `waitKey` timing.
  Each loop iteration is a `Tick` that holds its frame, its OCR results and
  its key.
* The file system and the clock. The ledger is a value (does the file
  exist, and its lines). Timestamps, the date parser and "now" are
  parameters.
* `cv2.imread` failing (a `ValueError` in `extract_text_from_image`): the
  model starts from a loaded image of known size.
* `processed_image` (the Otsu image returned with the text) is an image
  buffer, which is not modelled.
* Camera release and window cleanup at the end of both loops.
* Upper-casing and `isalnum` outside ASCII. Non-ASCII characters are left
  as they are by the model's upper-casing, so cleaning drops them.
* Floating point. Confidences and the aspect ratio are exact reals. The
  0.3/0.4/0.5 comparisons and the ratio test are exact.
* PlateRegion.ResizedSize: `int(w * 300 / 100)` is taken as exactly 3w. The
  two differ only through floating-point rounding, for sizes far beyond
  any image.
* PlateRegion.AspectRatioTest: `w / float(h)` with h = 0 raises
  `ZeroDivisionError`. The model assumes h >= 1, as `boundingRect` always
  gives.
* The `aspect_ratio` and `contour` fields of a region candidate are never
  read by the code. The model keeps the contour and drops the ratio.
* Sorting is modelled as a value (a stable insertion sort over the list),
  not as Python's in-place `list.sort`.
* CheckInRules.ManualSave: the "already saved" message on a skipped manual
  save is only printed, so the model records just the state change.
* Papa.parse details: quoting, blank trailing lines, `__parsed_extra` for
  long lines, and the download error callback. A CSV line is a list of
  fields, and the header names its columns.
* The generation of the seven date labels from today's date (`toISOString`
  and `setDate`). The labels are a parameter of `Dashboard.Summarize`.
* JavaScript number formatting for huge or fractional values: durations are
  whole numbers printed in plain decimal. `new Date` arithmetic is an
  oracle that returns milliseconds or Invalid Date.
* React state, effects and JSX rendering.
