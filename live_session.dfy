/**
 * The live check-in controller of main_live.py, imperatively: the loop's
 * variables are the fields of `Session`, and its methods run the steps of
 * the `while True` body.  Each method is proved to have the effect that the
 * functions of CheckInRules describe, so the properties proved there (the
 * schedule, the dedup window bound, the ledger growing by exactly
 * `saved_count` rows) hold of this code.
 */
module LiveSession {
  import opened PlateText
  import opened StableSort
  import opened CsvLedger
  import opened CheckInRules
  import opened Ocr
  import opened Numbers

  /**
   * Lines 144-149: scan the fused OCR results and append each cleaned
   * detection that passes the format check with confidence above 0.5.
   */
  method CollectCandidates(allResults: seq<Detection>) returns (plateCandidates: seq<Candidate>)
    ensures plateCandidates == PlateCandidates(allResults)
    ensures forall k :: 0 <= k < |plateCandidates| ==>
              plateCandidates[k].confidence > CandidateMinProb &&
              IsLikelyPlate(plateCandidates[k].plate, LiveMinLength, LiveMaxLength)
  {
    plateCandidates := [];
    for i := 0 to |allResults|
      invariant plateCandidates == PlateCandidates(allResults[..i])
    {
      assert allResults[..i + 1][..i] == allResults[..i];
      var d := allResults[i];
      var cleaned := Clean(d.text);
      if IsLikelyPlate(cleaned, LiveMinLength, LiveMaxLength) && d.prob > CandidateMinProb {
        plateCandidates := plateCandidates + [Candidate(cleaned, d.prob, d.bbox)];
      }
    }
    assert allResults[..|allResults|] == allResults;
    forall k | 0 <= k < |plateCandidates|
      ensures plateCandidates[k].confidence > CandidateMinProb &&
              IsLikelyPlate(plateCandidates[k].plate, LiveMinLength, LiveMaxLength)
    {
      PlateCandidatesValid(allResults, plateCandidates[k]);
    }
  }

  /** The variables of the live loop (lines 99-104) and the ledger file it writes. */
  class Session {
    var frameCount: nat
    var paused: bool
    var lastDetectedPlates: seq<Candidate>
    var recentSaves: set<string>
    var ledger: Ledger
    var savedCount: nat

    /** The loop's variables as one value. */
    function State(): SessionState
      reads this
    {
      SessionState(frameCount, paused, lastDetectedPlates, SaveState(recentSaves, ledger, savedCount))
    }

    /** Lines 99-104, with the ledger file as found on disk. */
    constructor (csv: Ledger)
      ensures State() == InitialSession(csv)
    {
      frameCount := 0;
      paused := false;
      lastDetectedPlates := [];
      recentSaves := {};
      ledger := csv;
      savedCount := 0;
    }

    /**
     * `auto_save_if_confident(plate, confidence, csv_path, recent_saves,
     * saved_count)`: updates the dedup window and the ledger in place and
     * returns the new count.
     */
    method AutoSaveIfConfident(plate: string, confidence: real, timestamp: string, count: nat)
      returns (newCount: nat)
      modifies this`recentSaves, this`ledger
      ensures SaveState(recentSaves, ledger, newCount) ==
                AutoSave(SaveState(old(recentSaves), old(ledger), count), plate, confidence, timestamp)
    {
      newCount := count;
      if confidence > AutoSaveMinConfidence && plate !in recentSaves {
        ledger := AppendToCsv(ledger, plate, timestamp);
        newCount := newCount + 1;
        recentSaves := recentSaves + {plate};
        if |recentSaves| > MaxRecentSaves {
          recentSaves := {};
        }
      }
    }

    /** Lines 127-171: a processed frame. */
    method ProcessFrame(raw: seq<Detection>, preprocessed: seq<Detection>, timestamp: string)
      modifies this
      ensures State() == CheckInRules.ProcessFrame(old(State()), raw, preprocessed, timestamp)
    {
      ghost var before := State();
      var allResults := raw + preprocessed;
      var plateCandidates := CollectCandidates(allResults);
      plateCandidates := SortDesc(plateCandidates, Confidence);
      lastDetectedPlates := plateCandidates[..Min(TopCount, |plateCandidates|)];
      ghost var top := RankedTop(raw, preprocessed);
      assert lastDetectedPlates == top;
      if plateCandidates != [] {
        // only the first of the top three is offered to auto-save
        savedCount := AutoSaveIfConfident(plateCandidates[0].plate, plateCandidates[0].confidence,
                                          timestamp, savedCount);
        assert SaveState(recentSaves, ledger, savedCount)
            == AutoSave(before.saves, top[0].plate, top[0].confidence, timestamp);
      }
      assert frameCount == before.frameCount && paused == before.paused;
    }

    /** Lines 191-215; `quit` is true after 'q'. */
    method HandleKey(key: Key, timestamp: string) returns (quit: bool)
      modifies this
      ensures StepResult(State(), !quit) == CheckInRules.HandleKey(old(State()), key, timestamp)
    {
      quit := false;
      if key == QuitKey {
        quit := true;
      } else if key == SaveKey && lastDetectedPlates != [] {
        var topPlate := lastDetectedPlates[0].plate;
        if topPlate !in recentSaves {
          ledger := AppendToCsv(ledger, topPlate, timestamp);
          savedCount := savedCount + 1;
          recentSaves := recentSaves + {topPlate};
          if |recentSaves| > MaxRecentSaves {
            recentSaves := {};
          }
        }
      } else if key == PauseKey {
        paused := !paused;
      }
    }

    /** One pass of the loop body (lines 107-217); `running` is false once the loop ends. */
    method Iterate(t: Tick) returns (running: bool)
      modifies this
      ensures StepResult(State(), running) == Step(old(State()), t)
    {
      if !t.frameRead {
        return false;
      }
      if !paused && frameCount % ProcessEveryNFrames == 0 {
        ProcessFrame(t.raw, t.preprocessed, t.autoSaveTime);
      }
      var quit := HandleKey(t.key, t.manualSaveTime);
      if quit {
        return false;
      }
      frameCount := frameCount + 1;
      running := true;
    }

    /**
     * The `while True` loop over a finite script of iterations; `running`
     * is true iff no iteration ended the loop.
     */
    method Run(ticks: seq<Tick>) returns (running: bool)
      modifies this
      ensures StepResult(State(), running) == RunTicks(old(State()), ticks)
    {
      ghost var start := State();
      running := true;
      var i := 0;
      while running && i < |ticks|
        invariant 0 <= i <= |ticks|
        invariant running ==> RunTicks(start, ticks) == RunTicks(State(), ticks[i..])
        invariant !running ==> RunTicks(start, ticks) == StepResult(State(), false)
      {
        assert ticks[i..][0] == ticks[i] && ticks[i..][1..] == ticks[i + 1..];
        running := Iterate(ticks[i]);
        i := i + 1;
      }
    }
  }
}
