/**
 * The earlier live prototype, OCR_Templates/prototype_live.py: one OCR pass
 * on a preprocessed frame every third frame, a running maximum that picks
 * the most confident plate-like result above 0.3, and an in-memory list of
 * saved plates without deduplication.
 */
module PrototypeLive {
  import opened Wrappers
  import opened PlateText
  import opened Ocr

  /** `prob > 0.3` */
  const BestMinProb: real := 0.3
  /** `process_every_n_frames` */
  const ProcessEveryNFrames: nat := 3

  /** `is_likely_plate(text) and prob > 0.3`, with the prototype's bounds 4-9. */
  predicate Qualifies(d: Detection)
  {
    IsLikelyPlate(d.text, PrototypeMinLength, PrototypeMaxLength) && d.prob > BestMinProb
  }

  function ToCandidate(d: Detection): Candidate
  {
    Candidate(Clean(d.text), d.prob, d.bbox)
  }

  /** `best_confidence`: 0 until a plate is chosen. */
  function BestConfidence(best: Option<Candidate>): real
  {
    if best.Some? then best.value.confidence else 0.0
  }

  /** The running maximum of lines 96-105 after scanning `results`. */
  function RunningBest(results: seq<Detection>): Option<Candidate>
  {
    if results == [] then None
    else
      var best := RunningBest(results[..|results| - 1]);
      var d := results[|results| - 1];
      if Qualifies(d) && d.prob > BestConfidence(best) then Some(ToCandidate(d)) else best
  }

  /**
   * The first qualifying result of maximal confidence: it qualifies, no
   * qualifying result is more confident, and every earlier qualifying result
   * is strictly less confident.
   */
  ghost predicate IsFirstMaximum(results: seq<Detection>, k: nat)
  {
    && k < |results|
    && Qualifies(results[k])
    && (forall i :: 0 <= i < |results| && Qualifies(results[i]) ==> results[i].prob <= results[k].prob)
    && (forall i :: 0 <= i < k && Qualifies(results[i]) ==> results[i].prob < results[k].prob)
  }

  /** A maximum of a prefix stays the first maximum when the next result does not beat it. */
  lemma KeepMaximum(results: seq<Detection>, k: nat)
    requires results != [] && IsFirstMaximum(results[..|results| - 1], k)
    requires var d := results[|results| - 1]; !Qualifies(d) || d.prob <= results[k].prob
    ensures IsFirstMaximum(results, k)
  {
    var n := |results| - 1;
    assert forall i :: 0 <= i < n ==> results[..n][i] == results[i];
  }

  /** A last result that beats every earlier qualifying one is the first maximum. */
  lemma NewMaximum(results: seq<Detection>)
    requires results != [] && Qualifies(results[|results| - 1])
    requires forall i :: 0 <= i < |results| - 1 && Qualifies(results[i]) ==>
               results[i].prob < results[|results| - 1].prob
    ensures IsFirstMaximum(results, |results| - 1)
  {
  }

  /**
   * The running maximum finds nothing iff no result qualifies; otherwise it
   * is the cleaned first qualifying result of maximal confidence, so ties go
   * to the earliest because the comparison is strict.
   */
  lemma {:induction false} RunningBestIsFirstMaximum(results: seq<Detection>)
    ensures RunningBest(results).None? <==> forall i :: 0 <= i < |results| ==> !Qualifies(results[i])
    ensures RunningBest(results).Some? ==>
              exists k: nat :: IsFirstMaximum(results, k) && RunningBest(results) == Some(ToCandidate(results[k]))
  {
    if results != [] {
      var n := |results| - 1;
      var prefix := results[..n];
      var d := results[n];
      RunningBestIsFirstMaximum(prefix);
      var best := RunningBest(prefix);
      assert forall i :: 0 <= i < n ==> prefix[i] == results[i];
      if best.Some? {
        var k: nat :| IsFirstMaximum(prefix, k) && best == Some(ToCandidate(prefix[k]));
        assert BestConfidence(best) == results[k].prob;
        if Qualifies(d) && d.prob > BestConfidence(best) {
          NewMaximum(results);
          assert RunningBest(results) == Some(ToCandidate(results[n]));
        } else {
          KeepMaximum(results, k);
          assert RunningBest(results) == Some(ToCandidate(results[k]));
        }
      } else if Qualifies(d) {
        NewMaximum(results);
        assert RunningBest(results) == Some(ToCandidate(results[n]));
      }
    }
  }

  /**
   * Lines 96-105: scan the OCR results keeping the best plate seen so far;
   * the result is the first qualifying result of maximal confidence, or
   * None when no result qualifies.
   */
  method FindBestPlate(results: seq<Detection>) returns (best: Option<Candidate>)
    ensures best == RunningBest(results)
    ensures best.None? <==> forall i :: 0 <= i < |results| ==> !Qualifies(results[i])
    ensures best.Some? ==> exists k: nat :: IsFirstMaximum(results, k) && best == Some(ToCandidate(results[k]))
  {
    best := None;
    var bestConfidence: real := 0.0;
    for i := 0 to |results|
      invariant best == RunningBest(results[..i])
      invariant bestConfidence == BestConfidence(best)
    {
      assert results[..i + 1][..i] == results[..i];
      var d := results[i];
      if IsLikelyPlate(d.text, PrototypeMinLength, PrototypeMaxLength) && d.prob > BestMinProb {
        var cleaned := Clean(d.text);
        if d.prob > bestConfidence {
          best := Some(Candidate(cleaned, d.prob, d.bbox));
          bestConfidence := d.prob;
        }
      }
    }
    assert results[..|results|] == results;
    RunningBestIsFirstMaximum(results);
  }

  /** `saved_plates`: (plate, timestamp) pairs in save order. */
  type SavedPlate = (string, string)

  /** The prototype loop's variables (lines 64-68). */
  datatype State = State(frameCount: nat, paused: bool, lastDetectedPlate: string, savedPlates: seq<SavedPlate>)

  const Initial := State(0, false, "", [])

  /**
   * One iteration's inputs: whether a frame was read, the OCR results on its
   * preprocessed variant, the key, and the clock reading used by a save.
   */
  datatype Tick = Tick(frameRead: bool, results: seq<Detection>, key: Key, saveTime: string)

  datatype StepResult = StepResult(state: State, running: bool)

  /** `not paused and frame_count % process_every_n_frames == 0` */
  predicate ShouldProcess(s: State)
  {
    !s.paused && s.frameCount % ProcessEveryNFrames == 0
  }

  /** Lines 86-121: the chosen plate, when there is one, becomes the last detected plate. */
  function ProcessFrame(s: State, results: seq<Detection>): State
  {
    var best := RunningBest(results);
    if best.Some? && best.value.plate != "" then s.(lastDetectedPlate := best.value.plate) else s
  }

  /** Lines 137-149: keys, then the frame counter. */
  function Step(s: State, t: Tick): StepResult
  {
    if !t.frameRead then StepResult(s, false)
    else
      var p := if ShouldProcess(s) then ProcessFrame(s, t.results) else s;
      match t.key
      case QuitKey => StepResult(p, false)
      case SaveKey =>
        var saved := if p.lastDetectedPlate != "" then p.savedPlates + [(p.lastDetectedPlate, t.saveTime)]
                     else p.savedPlates;
        StepResult(p.(savedPlates := saved, frameCount := p.frameCount + 1), true)
      case PauseKey => StepResult(p.(paused := !p.paused, frameCount := p.frameCount + 1), true)
      case OtherKey => StepResult(p.(frameCount := p.frameCount + 1), true)
  }

  function RunTicks(s: State, ticks: seq<Tick>): StepResult
    decreases ticks
  {
    if ticks == [] then StepResult(s, true)
    else
      var r := Step(s, ticks[0]);
      if r.running then RunTicks(r.state, ticks[1..]) else r
  }

  /**
   * Recognition runs iff the loop is not paused and `frame_count` is a
   * multiple of 3; when no result qualifies the last detected plate keeps
   * its previous value, otherwise it becomes the chosen cleaned plate.  'p'
   * flips `paused`, and every iteration but 'q' adds exactly 1 to the counter.
   */
  lemma StepSchedule(s: State, t: Tick)
    requires t.frameRead
    ensures var r := Step(s, t);
            && (!ShouldProcess(s) || RunningBest(t.results).None? ==> r.state.lastDetectedPlate == s.lastDetectedPlate)
            && (ShouldProcess(s) && RunningBest(t.results).Some? ==>
                  r.state.lastDetectedPlate == RunningBest(t.results).value.plate)
            && (r.state.paused != s.paused <==> t.key == PauseKey)
            && (r.running <==> t.key != QuitKey)
            && r.state.frameCount == s.frameCount + (if r.running then 1 else 0)
  {
    var best := RunningBest(t.results);
    if ShouldProcess(s) && best.Some? {
      RunningBestIsFirstMaximum(t.results);
      var k: nat :| IsFirstMaximum(t.results, k) && best == Some(ToCandidate(t.results[k]));
      LikelyPlateIsNonEmpty(t.results[k].text, PrototypeMinLength, PrototypeMaxLength);
    }
  }

  /**
   * 's' appends exactly one (plate, timestamp) pair iff a plate has been
   * detected, with no deduplication; nothing else changes the list.
   */
  lemma StepSaves(s: State, t: Tick)
    requires t.frameRead
    ensures var r := Step(s, t);
            var last := (if ShouldProcess(s) then ProcessFrame(s, t.results) else s).lastDetectedPlate;
            && (t.key == SaveKey && last != "" ==> r.state.savedPlates == s.savedPlates + [(last, t.saveTime)])
            && (t.key != SaveKey || last == "" ==> r.state.savedPlates == s.savedPlates)
  {
  }

  /** The save list is append-only over any run. */
  lemma {:induction false} RunAppendOnly(s: State, ticks: seq<Tick>)
    ensures s.savedPlates <= RunTicks(s, ticks).state.savedPlates
    decreases ticks
  {
    if ticks != [] {
      var r := Step(s, ticks[0]);
      assert s.savedPlates <= r.state.savedPlates;
      if r.running {
        RunAppendOnly(r.state, ticks[1..]);
      }
    }
  }

  /** Pressing 's' twice saves the same plate twice. */
  lemma SavesRepeat(s: State, t1: string, t2: string)
    requires s.paused && s.lastDetectedPlate != ""
    ensures var ticks := [Tick(true, [], SaveKey, t1), Tick(true, [], SaveKey, t2)];
            RunTicks(s, ticks).state.savedPlates ==
              s.savedPlates + [(s.lastDetectedPlate, t1), (s.lastDetectedPlate, t2)]
  {
    var ticks := [Tick(true, [], SaveKey, t1), Tick(true, [], SaveKey, t2)];
    var r1 := Step(s, ticks[0]);
    assert r1.running && r1.state.savedPlates == s.savedPlates + [(s.lastDetectedPlate, t1)];
    assert r1.state.paused && r1.state.lastDetectedPlate == s.lastDetectedPlate;
    var r2 := Step(r1.state, ticks[1]);
    assert r2.running && r2.state.savedPlates == r1.state.savedPlates + [(s.lastDetectedPlate, t2)];
    assert ticks[1..] == [ticks[1]] && ticks[1..][1..] == [];
    assert RunTicks(s, ticks) == RunTicks(r1.state, ticks[1..]);
    assert RunTicks(r1.state, ticks[1..]) == RunTicks(r2.state, []);
  }

  /** The prototype loop's variables as fields. */
  class Session {
    var frameCount: nat
    var paused: bool
    var lastDetectedPlate: string
    var savedPlates: seq<SavedPlate>

    function View(): State
      reads this
    {
      State(frameCount, paused, lastDetectedPlate, savedPlates)
    }

    constructor ()
      ensures View() == Initial
    {
      frameCount := 0;
      paused := false;
      lastDetectedPlate := "";
      savedPlates := [];
    }

    /** One pass of the loop body (lines 71-149). */
    method Iterate(t: Tick) returns (running: bool)
      modifies this
      ensures StepResult(View(), running) == Step(old(View()), t)
    {
      if !t.frameRead {
        return false;
      }
      if !paused && frameCount % ProcessEveryNFrames == 0 {
        var bestPlate := FindBestPlate(t.results);
        if bestPlate.Some? && bestPlate.value.plate != "" {
          lastDetectedPlate := bestPlate.value.plate;
        }
      }
      if t.key == QuitKey {
        return false;
      } else if t.key == SaveKey && lastDetectedPlate != "" {
        savedPlates := savedPlates + [(lastDetectedPlate, t.saveTime)];
      } else if t.key == PauseKey {
        paused := !paused;
      }
      frameCount := frameCount + 1;
      running := true;
    }

    /** The `while True` loop over a finite script of iterations. */
    method Run(ticks: seq<Tick>) returns (running: bool)
      modifies this
      ensures StepResult(View(), running) == RunTicks(old(View()), ticks)
    {
      ghost var start := View();
      running := true;
      var i := 0;
      while running && i < |ticks|
        invariant 0 <= i <= |ticks|
        invariant running ==> RunTicks(start, ticks) == RunTicks(View(), ticks[i..])
        invariant !running ==> RunTicks(start, ticks) == StepResult(View(), false)
      {
        assert ticks[i..][0] == ticks[i] && ticks[i..][1..] == ticks[i + 1..];
        running := Iterate(ticks[i]);
        i := i + 1;
      }
    }
  }
}
