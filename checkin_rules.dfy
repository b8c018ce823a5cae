/**
 * The decision logic of the live check-in loop in main_live.py, as functions
 * of values: fusion and filtering of the two OCR passes, the stable ranking
 * and its top three, the dedup window `recent_saves`, the auto-save and
 * manual-save rules, and one iteration of the `while True` loop.  The class
 * in live_session.dfy runs the same steps imperatively and is proved against
 * these functions.
 */
module CheckInRules {
  import opened PlateText
  import opened StableSort
  import opened CsvLedger
  import opened Ocr
  import opened Numbers
  import opened SeqSelect

  /** Candidates must beat this OCR confidence (`prob > 0.5`). */
  const CandidateMinProb: real := 0.5
  /** Auto-save only fires above this confidence (`confidence > 0.4`). */
  const AutoSaveMinConfidence: real := 0.4
  /** The dedup window is cleared once it holds more than this many plates. */
  const MaxRecentSaves: nat := 10
  /** `process_every_n_frames` */
  const ProcessEveryNFrames: nat := 5
  /** `last_detected_plates` keeps this many candidates. */
  const TopCount: nat := 3

  // ---------------------------------------------------------------------
  // Candidate filtering (lines 142-149)

  /** `is_likely_plate(cleaned) and prob > 0.5` */
  predicate Qualifies(d: Detection)
  {
    IsLikelyPlate(Clean(d.text), LiveMinLength, LiveMaxLength) && d.prob > CandidateMinProb
  }

  function ToCandidate(d: Detection): Candidate
  {
    Candidate(Clean(d.text), d.prob, d.bbox)
  }

  /** The candidates the filtering loop appends, in the order of `results`. */
  function PlateCandidates(results: seq<Detection>): seq<Candidate>
  {
    if results == [] then []
    else
      var last := results[|results| - 1];
      PlateCandidates(results[..|results| - 1]) + (if Qualifies(last) then [ToCandidate(last)] else [])
  }

  /** What every stored candidate satisfies. */
  ghost predicate ValidCandidate(c: Candidate)
  {
    && c.confidence > CandidateMinProb
    && IsCleanText(c.plate)
    && IsLikelyPlate(c.plate, LiveMinLength, LiveMaxLength)
  }

  /**
   * Fusion keeps source order: the candidates of the raw-frame pass come
   * first, then those of the preprocessed pass, each in OCR order.
   */
  lemma {:induction false} FusionOrder(raw: seq<Detection>, preprocessed: seq<Detection>)
    ensures PlateCandidates(raw + preprocessed) == PlateCandidates(raw) + PlateCandidates(preprocessed)
  {
    if preprocessed == [] {
      assert raw + preprocessed == raw;
    } else {
      var n := |preprocessed| - 1;
      assert (raw + preprocessed)[..|raw + preprocessed| - 1] == raw + preprocessed[..n];
      FusionOrder(raw, preprocessed[..n]);
    }
  }

  /** A qualifying detection becomes a valid candidate. */
  lemma QualifiedIsValid(d: Detection)
    requires Qualifies(d)
    ensures ValidCandidate(ToCandidate(d))
  {
    IsLikelyPlateOfClean(d.text, LiveMinLength, LiveMaxLength);
    CleanOnlyPlateChars(d.text);
  }

  /** The filtering loop is the generic keep-then-map walk with the candidate rule. */
  lemma {:induction false} PlateCandidatesKeepMap(results: seq<Detection>)
    ensures PlateCandidates(results) == KeepMap(results, Qualifies, ToCandidate)
  {
    if results != [] {
      PlateCandidatesKeepMap(results[..|results| - 1]);
    }
  }

  /** A candidate is in the list iff some detection qualifies and becomes it. */
  lemma PlateCandidatesExactly(results: seq<Detection>, c: Candidate)
    ensures c in PlateCandidates(results) <==>
              exists i :: 0 <= i < |results| && Qualifies(results[i]) && ToCandidate(results[i]) == c
  {
    PlateCandidatesKeepMap(results);
    KeepMapExactly(results, Qualifies, ToCandidate, c);
  }

  /** Every candidate has confidence above 0.5 and a valid cleaned text. */
  lemma PlateCandidatesValid(results: seq<Detection>, c: Candidate)
    requires c in PlateCandidates(results)
    ensures ValidCandidate(c)
  {
    PlateCandidatesExactly(results, c);
    var i :| 0 <= i < |results| && Qualifies(results[i]) && ToCandidate(results[i]) == c;
    QualifiedIsValid(results[i]);
  }

  // ---------------------------------------------------------------------
  // Ranking (lines 151-155)

  function Confidence(c: Candidate): real { c.confidence }

  /** `plate_candidates.sort(key=lambda x: x[1], reverse=True)` */
  function Rank(candidates: seq<Candidate>): seq<Candidate>
  {
    SortDesc(candidates, Confidence)
  }

  /**
   * `plate_candidates[:3]`: the first min(3, n) candidates; of a list ranked
   * by confidence these are the most confident ones, still in descending order.
   */
  function TopThree(s: seq<Candidate>): (r: seq<Candidate>)
    ensures |r| == Min(TopCount, |s|)
    ensures r == s[..|r|]
    ensures SortedDesc(s, Confidence) ==>
              && SortedDesc(r, Confidence)
              && forall k, j :: 0 <= k < |r| <= j < |s| ==> s[j].confidence <= r[k].confidence
  {
    s[..Min(TopCount, |s|)]
  }

  /** The new `last_detected_plates` of a processed frame. */
  function RankedTop(raw: seq<Detection>, preprocessed: seq<Detection>): seq<Candidate>
  {
    TopThree(Rank(PlateCandidates(raw + preprocessed)))
  }

  /**
   * The kept candidates are at most three valid candidates of the frame.
   */
  lemma RankedTopContents(raw: seq<Detection>, preprocessed: seq<Detection>)
    ensures var all := PlateCandidates(raw + preprocessed);
            var top := RankedTop(raw, preprocessed);
            && |top| == Min(TopCount, |all|)
            && multiset(top) <= multiset(all)
            && (forall k :: 0 <= k < |top| ==> ValidCandidate(top[k]))
  {
    var all := PlateCandidates(raw + preprocessed);
    var sorted := Rank(all);
    var top := RankedTop(raw, preprocessed);
    assert multiset(sorted) == multiset(all);
    PrefixKeepsLargest(sorted, Confidence, |top|);
    forall k | 0 <= k < |top| ensures ValidCandidate(top[k]) {
      assert top[k] == sorted[k];
      assert sorted[k] in multiset(sorted);
      PlateCandidatesValid(raw + preprocessed, top[k]);
    }
  }

  /**
   * The kept candidates are in descending confidence, each at least as
   * confident as every dropped one, and equal confidences keep their fused
   * input order.
   */
  lemma RankedTopOrder(raw: seq<Detection>, preprocessed: seq<Detection>)
    ensures var all := PlateCandidates(raw + preprocessed);
            var top := RankedTop(raw, preprocessed);
            && (forall i, j :: 0 <= i < j < |top| ==> top[i].confidence >= top[j].confidence)
            && (forall k, j :: 0 <= k < |top| <= j < |all| ==> Rank(all)[j].confidence <= top[k].confidence)
            && (forall v :: WithKey(Rank(all), Confidence, v) == WithKey(all, Confidence, v))
  {
    var all := PlateCandidates(raw + preprocessed);
    var sorted := Rank(all);
    var top := RankedTop(raw, preprocessed);
    assert top == sorted[..|top|];
    forall k, j | 0 <= k < |top| <= j < |all| ensures sorted[j].confidence <= top[k].confidence {
      assert Confidence(sorted[k]) >= Confidence(sorted[j]);
    }
    forall i, j | 0 <= i < j < |top| ensures top[i].confidence >= top[j].confidence {
      assert Confidence(sorted[i]) >= Confidence(sorted[j]);
    }
    forall v ensures WithKey(sorted, Confidence, v) == WithKey(all, Confidence, v) {
      SortDescStable(all, Confidence, v);
    }
  }

  // ---------------------------------------------------------------------
  // The dedup window and the save rules (lines 33-46 and 193-209)

  /** `recent_saves.add(plate)`, then `recent_saves.clear()` if it holds more than 10 plates. */
  function Remember(recent: set<string>, plate: string): (r: set<string>)
    ensures plate !in recent && |recent| == MaxRecentSaves ==> r == {}
    ensures |recent| < MaxRecentSaves ==> r == recent + {plate} && plate in r
    ensures |recent| <= MaxRecentSaves ==> |r| <= MaxRecentSaves
  {
    var added := recent + {plate};
    if |added| > MaxRecentSaves then {} else added
  }

  /** What a save touches: the dedup window, the ledger file and `saved_count`. */
  datatype SaveState = SaveState(recent: set<string>, ledger: Ledger, savedCount: nat)

  /** Lines 36-42 and 199-205: record the plate, count it and remember it. */
  function RecordSave(st: SaveState, plate: string, timestamp: string): SaveState
  {
    SaveState(Remember(st.recent, plate), AppendToCsv(st.ledger, plate, timestamp), st.savedCount + 1)
  }

  /**
   * `auto_save_if_confident`: when the confidence is above 0.4 and the plate
   * is not in the dedup window, exactly one ledger row is appended and the
   * count goes up by one; otherwise nothing changes.
   */
  function AutoSave(st: SaveState, plate: string, confidence: real, timestamp: string): (r: SaveState)
    ensures var accepted := confidence > AutoSaveMinConfidence && plate !in st.recent;
            && (accepted ==> r == RecordSave(st, plate, timestamp))
            && (!accepted ==> r == st)
            && r.savedCount == st.savedCount + (if accepted then 1 else 0)
  {
    if confidence > AutoSaveMinConfidence && plate !in st.recent then RecordSave(st, plate, timestamp) else st
  }

  /**
   * The 's' key applied to the top candidate: no confidence floor; a plate
   * in the dedup window is skipped, otherwise the effect is that of auto-save.
   */
  function ManualSave(st: SaveState, plate: string, timestamp: string): (r: SaveState)
    ensures plate in st.recent ==> r == st
    ensures plate !in st.recent ==> r == RecordSave(st, plate, timestamp)
    ensures forall c :: c > AutoSaveMinConfidence ==> r == AutoSave(st, plate, c, timestamp)
  {
    if plate !in st.recent then RecordSave(st, plate, timestamp) else st
  }

  /**
   * An accepted save appends exactly one `[plate, timestamp]` row and keeps
   * every earlier line; the window stays within 10 plates and is emptied
   * exactly when the plate would have been the 11th.
   */
  lemma RecordSaveEffect(st: SaveState, plate: string, timestamp: string)
    requires plate !in st.recent && |st.recent| <= MaxRecentSaves
    ensures var r := RecordSave(st, plate, timestamp);
            && |r.ledger.lines| == |st.ledger.lines| + (if st.ledger.fileExists then 1 else 2)
            && r.ledger.lines[..|st.ledger.lines|] == st.ledger.lines
            && (!st.ledger.fileExists ==> r.ledger.lines[|st.ledger.lines|] == Header)
            && r.ledger.lines[|r.ledger.lines| - 1] == [plate, timestamp]
            && |r.recent| <= MaxRecentSaves
            && (r.recent == {} <==> |st.recent| == MaxRecentSaves)
            && (r.recent != {} ==> r.recent == st.recent + {plate})
  {
    assert |st.recent + {plate}| == |st.recent| + 1;
  }

  /** Remembering the plates of `plates` one after another. */
  function RememberAll(recent: set<string>, plates: seq<string>): set<string>
    decreases plates
  {
    if plates == [] then recent else RememberAll(Remember(recent, plates[0]), plates[1..])
  }

  ghost predicate Distinct(plates: seq<string>)
  {
    forall i, j :: 0 <= i < j < |plates| ==> plates[i] != plates[j]
  }

  /** The plates of a sequence, as a set. */
  function Elements(plates: seq<string>): set<string>
  {
    if plates == [] then {} else {plates[0]} + Elements(plates[1..])
  }

  lemma {:induction false} ElementsIn(plates: seq<string>, x: string)
    ensures x in Elements(plates) <==> x in plates
  {
    if plates != [] {
      ElementsIn(plates[1..], x);
      assert plates == [plates[0]] + plates[1..];
    }
  }

  /**
   * From `recent` with r plates, remembering n <= 10 - r new distinct plates
   * leaves the union, of size r + n.
   */
  lemma {:induction false} RememberAllGrows(recent: set<string>, plates: seq<string>)
    requires Distinct(plates)
    requires forall i :: 0 <= i < |plates| ==> plates[i] !in recent
    requires |recent| + |plates| <= MaxRecentSaves
    ensures RememberAll(recent, plates) == recent + Elements(plates)
    ensures |RememberAll(recent, plates)| == |recent| + |plates|
    decreases plates
  {
    if plates != [] {
      var next := Remember(recent, plates[0]);
      assert next == recent + {plates[0]};
      assert |next| == |recent| + 1;
      var rest := plates[1..];
      assert Distinct(rest) by {
        forall i, j | 0 <= i < j < |rest| ensures rest[i] != rest[j] {
          assert rest[i] == plates[i + 1] && rest[j] == plates[j + 1];
        }
      }
      assert forall i :: 0 <= i < |rest| ==> rest[i] !in next by {
        forall i | 0 <= i < |rest| ensures rest[i] !in next {
          assert rest[i] == plates[i + 1] != plates[0];
        }
      }
      RememberAllGrows(next, rest);
    }
  }

  /**
   * Starting from an empty window, the 11th of 11 distinct plates empties the
   * window (its size returns to 0, not 10).
   */
  lemma EleventhDistinctPlateClears(plates: seq<string>)
    requires |plates| == MaxRecentSaves + 1 && Distinct(plates)
    ensures |RememberAll({}, plates[..MaxRecentSaves])| == MaxRecentSaves
    ensures RememberAll({}, plates) == {}
  {
    var first := plates[..MaxRecentSaves];
    var last := plates[MaxRecentSaves];
    RememberAllGrows({}, first);
    assert last !in first by {
      assert forall i :: 0 <= i < |first| ==> first[i] == plates[i] != last;
    }
    ElementsIn(first, last);
    RememberAllSplit({}, first, [last]);
    assert first + [last] == plates;
  }

  lemma {:induction false} RememberAllSplit(recent: set<string>, a: seq<string>, b: seq<string>)
    ensures RememberAll(recent, a + b) == RememberAll(RememberAll(recent, a), b)
    decreases a
  {
    if a == [] {
      assert a + b == b;
    } else {
      assert (a + b)[0] == a[0] && (a + b)[1..] == a[1..] + b;
      RememberAllSplit(Remember(recent, a[0]), a[1..], b);
    }
  }

  // ---------------------------------------------------------------------
  // One iteration of the live loop (lines 106-217)

  /**
   * Everything one iteration receives from outside: whether `cap.read()`
   * returned a frame, the two OCR passes on it (only looked at when the frame
   * is processed), the key, and the clock readings of the two possible saves.
   */
  datatype Tick = Tick(frameRead: bool, raw: seq<Detection>, preprocessed: seq<Detection>,
                       key: Key, autoSaveTime: string, manualSaveTime: string)

  /** The loop's variables. */
  datatype SessionState = SessionState(frameCount: nat, paused: bool,
                                       lastDetected: seq<Candidate>, saves: SaveState)

  /** The state before the first iteration, with the ledger file as found. */
  function InitialSession(ledger: Ledger): SessionState
  {
    SessionState(0, false, [], SaveState({}, ledger, 0))
  }

  /** `not paused and frame_count % process_every_n_frames == 0` */
  predicate ShouldProcess(s: SessionState)
  {
    !s.paused && s.frameCount % ProcessEveryNFrames == 0
  }

  /** Lines 127-171: recognise, rank, keep the top three, auto-save the first. */
  function ProcessFrame(s: SessionState, raw: seq<Detection>, preprocessed: seq<Detection>, timestamp: string): SessionState
  {
    var top := RankedTop(raw, preprocessed);
    var saves := if top == [] then s.saves else AutoSave(s.saves, top[0].plate, top[0].confidence, timestamp);
    s.(lastDetected := top, saves := saves)
  }

  /** The state after an iteration, and whether the loop goes on. */
  datatype StepResult = StepResult(state: SessionState, running: bool)

  /** Lines 189-215: the key handling; `running` is false after 'q'. */
  function HandleKey(s: SessionState, key: Key, timestamp: string): StepResult
  {
    match key
    case QuitKey => StepResult(s, false)
    case SaveKey =>
      if s.lastDetected != [] then
        StepResult(s.(saves := ManualSave(s.saves, s.lastDetected[0].plate, timestamp)), true)
      else StepResult(s, true)
    case PauseKey => StepResult(s.(paused := !s.paused), true)
    case OtherKey => StepResult(s, true)
  }

  /** One pass of the `while True` body. */
  function Step(s: SessionState, t: Tick): StepResult
  {
    if !t.frameRead then StepResult(s, false)
    else
      var processed := if ShouldProcess(s) then ProcessFrame(s, t.raw, t.preprocessed, t.autoSaveTime) else s;
      var afterKey := HandleKey(processed, t.key, t.manualSaveTime);
      if afterKey.running then
        StepResult(afterKey.state.(frameCount := afterKey.state.frameCount + 1), true)
      else afterKey
  }

  /** The loop over a finite script of iterations, stopping at the first that ends it. */
  function RunTicks(s: SessionState, ticks: seq<Tick>): StepResult
    decreases ticks
  {
    if ticks == [] then StepResult(s, true)
    else
      var r := Step(s, ticks[0]);
      if r.running then RunTicks(r.state, ticks[1..]) else r
  }

  // ---------------------------------------------------------------------
  // Properties of the loop

  /**
   * Scheduling: recognition runs on an iteration iff the loop is not paused
   * and `frame_count` is a multiple of 5; it then overwrites the kept
   * candidates (possibly with none); otherwise they are kept.  'p' flips
   * `paused` and nothing else does.  'q' or a failed read ends the loop
   * without incrementing `frame_count`; every other iteration adds exactly 1.
   */
  lemma StepSchedule(s: SessionState, t: Tick)
    requires t.frameRead
    ensures var r := Step(s, t);
            && (ShouldProcess(s) ==> r.state.lastDetected == RankedTop(t.raw, t.preprocessed))
            && (!ShouldProcess(s) ==> r.state.lastDetected == s.lastDetected)
            && (r.state.paused != s.paused <==> t.key == PauseKey)
            && (r.running <==> t.key != QuitKey)
            && r.state.frameCount == s.frameCount + (if r.running then 1 else 0)
  {
  }

  /** A failed read ends the loop and changes nothing. */
  lemma StepNoFrame(s: SessionState, t: Tick)
    requires !t.frameRead
    ensures Step(s, t) == StepResult(s, false)
  {
  }

  /**
   * What one iteration does to the saves.  Recognition offers only the top
   * ranked candidate of the frame to auto-save, and nothing when the frame
   * has no candidate.  's' offers only the first kept candidate to the manual
   * save, and nothing when none is kept.  No other key and no skipped frame
   * touches the window, the ledger or `saved_count`.
   */
  lemma StepSaves(s: SessionState, t: Tick)
    requires t.frameRead
    ensures var top := RankedTop(t.raw, t.preprocessed);
            var p := if ShouldProcess(s) then ProcessFrame(s, t.raw, t.preprocessed, t.autoSaveTime) else s;
            var r := Step(s, t);
            && (ShouldProcess(s) ==>
                  p.saves == (if top == [] then s.saves
                              else AutoSave(s.saves, top[0].plate, top[0].confidence, t.autoSaveTime)))
            && (!ShouldProcess(s) ==> p.saves == s.saves)
            && (t.key == SaveKey ==>
                  r.state.saves == (if p.lastDetected != [] then ManualSave(p.saves, p.lastDetected[0].plate, t.manualSaveTime)
                                    else p.saves))
            && (t.key != SaveKey ==> r.state.saves == p.saves)
  {
  }

  /**
   * Saves only ever add to the ledger: every earlier line stays where it
   * was, an existing file stays, and `saved_count` never goes down.
   */
  ghost predicate SavesExtend(a: SaveState, b: SaveState)
  {
    && a.ledger.lines <= b.ledger.lines
    && (a.ledger.fileExists ==> b.ledger.fileExists)
    && a.savedCount <= b.savedCount
  }

  lemma SavesExtendTrans(a: SaveState, b: SaveState, c: SaveState)
    requires SavesExtend(a, b) && SavesExtend(b, c)
    ensures SavesExtend(a, c)
  {
    assert b.ledger.lines[..|a.ledger.lines|] == a.ledger.lines;
    assert c.ledger.lines[..|b.ledger.lines|] == b.ledger.lines;
    assert c.ledger.lines[..|a.ledger.lines|] == c.ledger.lines[..|b.ledger.lines|][..|a.ledger.lines|];
  }

  /** Neither save rewrites what the ledger already holds. */
  lemma SaveExtends(st: SaveState, plate: string, confidence: real, timestamp: string)
    ensures SavesExtend(st, AutoSave(st, plate, confidence, timestamp))
    ensures SavesExtend(st, ManualSave(st, plate, timestamp))
  {
    var l := AppendToCsv(st.ledger, plate, timestamp);
    assert l.lines[..|st.ledger.lines|] == st.ledger.lines;
  }

  /** One iteration only appends to the ledger. */
  lemma StepExtends(s: SessionState, t: Tick)
    ensures SavesExtend(s.saves, Step(s, t).state.saves)
  {
    if t.frameRead {
      StepSaves(s, t);
      var top := RankedTop(t.raw, t.preprocessed);
      var p := if ShouldProcess(s) then ProcessFrame(s, t.raw, t.preprocessed, t.autoSaveTime) else s;
      if ShouldProcess(s) && top != [] {
        SaveExtends(s.saves, top[0].plate, top[0].confidence, t.autoSaveTime);
      }
      assert SavesExtend(s.saves, p.saves);
      if t.key == SaveKey && p.lastDetected != [] {
        SaveExtends(p.saves, p.lastDetected[0].plate, 0.0, t.manualSaveTime);
        SavesExtendTrans(s.saves, p.saves, Step(s, t).state.saves);
      }
    }
  }

  /**
   * Over any run the ledger is append-only: the lines present when the loop
   * started, including rows written earlier in the session, are never
   * rewritten or removed.
   */
  lemma {:induction false} RunExtends(s: SessionState, ticks: seq<Tick>)
    ensures SavesExtend(s.saves, RunTicks(s, ticks).state.saves)
    decreases ticks
  {
    if ticks == [] {
      assert s.saves.ledger.lines <= s.saves.ledger.lines;
    } else {
      var r := Step(s, ticks[0]);
      StepExtends(s, ticks[0]);
      if r.running {
        RunExtends(r.state, ticks[1..]);
        SavesExtendTrans(s.saves, r.state.saves, RunTicks(r.state, ticks[1..]).state.saves);
      }
    }
  }

  /**
   * `saved_count` counts the rows this session appended: `n` rows (and a
   * header when the file was missing and n > 0) were added to `l0`, each one
   * a `[plate, timestamp]` row with a plate that passes the format check.
   */
  ghost predicate LedgerGrewBy(l0: Ledger, l: Ledger, n: nat)
  {
    var added := if !l0.fileExists && n > 0 then n + 1 else n;
    && |l.lines| == |l0.lines| + added
    && l.lines[..|l0.lines|] == l0.lines
    && (n == 0 ==> l == l0)
    && (n > 0 ==> l.fileExists)
    && (!l0.fileExists && n > 0 ==> l.lines[|l0.lines|] == Header)
    && (forall i :: |l.lines| - n <= i < |l.lines| ==>
          |l.lines[i]| == 2 && IsLikelyPlate(l.lines[i][0], LiveMinLength, LiveMaxLength))
  }

  /** The invariant of the session loop, relative to the ledger file it started with. */
  ghost predicate SessionInv(l0: Ledger, s: SessionState)
  {
    && |s.saves.recent| <= MaxRecentSaves
    && |s.lastDetected| <= TopCount
    && (forall k :: 0 <= k < |s.lastDetected| ==> ValidCandidate(s.lastDetected[k]))
    && LedgerGrewBy(l0, s.saves.ledger, s.saves.savedCount)
  }

  lemma InitialSessionInv(l0: Ledger)
    ensures SessionInv(l0, InitialSession(l0))
  {
  }

  lemma RecordSaveGrows(l0: Ledger, st: SaveState, plate: string, timestamp: string)
    requires LedgerGrewBy(l0, st.ledger, st.savedCount)
    requires IsLikelyPlate(plate, LiveMinLength, LiveMaxLength)
    ensures LedgerGrewBy(l0, RecordSave(st, plate, timestamp).ledger, st.savedCount + 1)
  {
    var l := st.ledger;
    var r := AppendToCsv(l, plate, timestamp);
    var n := st.savedCount;
    assert l.fileExists == (l0.fileExists || n > 0);
    assert r.lines == l.lines + (if l.fileExists then [] else [Header]) + [[plate, timestamp]];
    assert r.lines[..|l.lines|] == l.lines;
    assert r.lines[..|l0.lines|] == l.lines[..|l0.lines|];
    forall i | |r.lines| - (n + 1) <= i < |r.lines|
      ensures |r.lines[i]| == 2 && IsLikelyPlate(r.lines[i][0], LiveMinLength, LiveMaxLength)
    {
      if i < |r.lines| - 1 {
        assert r.lines[i] == l.lines[i];
      }
    }
  }

  lemma SaveKeepsInv(l0: Ledger, st: SaveState, plate: string, timestamp: string)
    requires |st.recent| <= MaxRecentSaves && LedgerGrewBy(l0, st.ledger, st.savedCount)
    requires IsLikelyPlate(plate, LiveMinLength, LiveMaxLength)
    ensures forall c :: var r := AutoSave(st, plate, c, timestamp);
              |r.recent| <= MaxRecentSaves && LedgerGrewBy(l0, r.ledger, r.savedCount)
    ensures var r := ManualSave(st, plate, timestamp);
            |r.recent| <= MaxRecentSaves && LedgerGrewBy(l0, r.ledger, r.savedCount)
  {
    RecordSaveGrows(l0, st, plate, timestamp);
  }

  lemma ProcessFrameKeepsInv(l0: Ledger, s: SessionState, raw: seq<Detection>, preprocessed: seq<Detection>, timestamp: string)
    requires SessionInv(l0, s)
    ensures SessionInv(l0, ProcessFrame(s, raw, preprocessed, timestamp))
  {
    RankedTopContents(raw, preprocessed);
    var top := RankedTop(raw, preprocessed);
    if top != [] {
      assert ValidCandidate(top[0]);
      SaveKeepsInv(l0, s.saves, top[0].plate, timestamp);
    }
  }

  lemma HandleKeyKeepsInv(l0: Ledger, s: SessionState, key: Key, timestamp: string)
    requires SessionInv(l0, s)
    ensures SessionInv(l0, HandleKey(s, key, timestamp).state)
  {
    if key == SaveKey && s.lastDetected != [] {
      assert ValidCandidate(s.lastDetected[0]);
      SaveKeepsInv(l0, s.saves, s.lastDetected[0].plate, timestamp);
    }
  }

  /** Every iteration keeps the session invariant. */
  lemma StepKeepsInv(l0: Ledger, s: SessionState, t: Tick)
    requires SessionInv(l0, s)
    ensures SessionInv(l0, Step(s, t).state)
  {
    if t.frameRead {
      var processed := if ShouldProcess(s) then ProcessFrame(s, t.raw, t.preprocessed, t.autoSaveTime) else s;
      if ShouldProcess(s) {
        ProcessFrameKeepsInv(l0, s, t.raw, t.preprocessed, t.autoSaveTime);
      }
      HandleKeyKeepsInv(l0, processed, t.key, t.manualSaveTime);
    }
  }

  /** The whole loop keeps the session invariant. */
  lemma {:induction false} RunKeepsInv(l0: Ledger, s: SessionState, ticks: seq<Tick>)
    requires SessionInv(l0, s)
    ensures SessionInv(l0, RunTicks(s, ticks).state)
    decreases ticks
  {
    if ticks != [] {
      StepKeepsInv(l0, s, ticks[0]);
      if Step(s, ticks[0]).running {
        RunKeepsInv(l0, Step(s, ticks[0]).state, ticks[1..]);
      }
    }
  }

  /**
   * A session that starts from a ledger file and runs any script ends with
   * at most 10 remembered plates, at most 3 valid kept candidates, and a
   * ledger that grew by exactly `saved_count` plate rows.
   */
  lemma SessionBounds(l0: Ledger, ticks: seq<Tick>)
    ensures SessionInv(l0, RunTicks(InitialSession(l0), ticks).state)
  {
    InitialSessionInv(l0);
    RunKeepsInv(l0, InitialSession(l0), ticks);
  }
}
