/**
 * Concrete runs of the live check-in rules: stable ranking of equal
 * confidences, the dedup window refusing a repeated plate, and one frame
 * whose two readings of the same plate clean to the same text.
 */
module Scenarios {
  import opened PlateText
  import opened StableSort
  import opened CsvLedger
  import opened Ocr
  import opened CheckInRules

  /** Candidates B and A tie at 0.9 and keep their input order ahead of C. */
  lemma StableRankingExample(bbox: seq<Point>)
    ensures var b := Candidate("B1234", 0.9, bbox);
            var a := Candidate("A1234", 0.9, bbox);
            var c := Candidate("C1234", 0.7, bbox);
            Rank([b, a, c]) == [b, a, c]
  {
    var b := Candidate("B1234", 0.9, bbox);
    var a := Candidate("A1234", 0.9, bbox);
    var c := Candidate("C1234", 0.7, bbox);
    assert [b, a, c][1..] == [a, c] && [a, c][1..] == [c] && [c][1..] == [];
    assert SortDesc([c], Confidence) == [c];
    assert SortDesc([a, c], Confidence) == Insert(a, [c], Confidence) == [a, c];
    assert Insert(b, [a, c], Confidence) == [b, a, c];
  }

  /** Auto-saving "AB1234" at 0.5, 0.6 and 0.5 from an empty window saves it once. */
  lemma DedupExample(ledger: Ledger, t1: string, t2: string, t3: string)
    ensures var s0 := SaveState({}, ledger, 0);
            var s1 := AutoSave(s0, "AB1234", 0.5, t1);
            var s2 := AutoSave(s1, "AB1234", 0.6, t2);
            var s3 := AutoSave(s2, "AB1234", 0.5, t3);
            && s1 == RecordSave(s0, "AB1234", t1)
            && s3 == s1
            && s3.savedCount == 1
  {
  }

  lemma UpperExample()
    ensures Upper("ab 12 34") == "AB 12 34"
  {
    var u := Upper("ab 12 34");
    forall i | 0 <= i < 8 ensures u[i] == "AB 12 34"[i] { }
  }

  lemma KeepStep(s: string, k: int)
    requires 0 <= k < |s|
    ensures KeepPlateChars(s[k..]) == (if IsPlateChar(s[k]) then [s[k]] else []) + KeepPlateChars(s[k + 1..])
  {
    assert s[k..][1..] == s[k + 1..];
  }

  lemma KeepExample()
    ensures KeepPlateChars("AB 12 34") == "AB1234"
  {
    var u := "AB 12 34";
    assert u[8..] == [];
    KeepStep(u, 7);
    KeepStep(u, 6);
    KeepStep(u, 5);
    KeepStep(u, 4);
    KeepStep(u, 3);
    KeepStep(u, 2);
    KeepStep(u, 1);
    KeepStep(u, 0);
    assert u[0..] == u;
  }

  /** "ab 12 34" cleans to "AB1234". */
  lemma CleanExample()
    ensures Clean("ab 12 34") == "AB1234"
  {
    UpperExample();
    KeepExample();
  }

  /** "AB1234" is already clean. */
  lemma CleanAB1234()
    ensures Clean("AB1234") == "AB1234"
  {
    assert IsCleanText("AB1234") by {
      forall i | 0 <= i < 6 ensures IsPlateChar("AB1234"[i]) { }
    }
    CleanFixesCleanText("AB1234");
  }

  /** A clean text of live length holding a letter and a digit passes the live check. */
  lemma CleanLiveTextAccepted(s: string, i: int, j: int)
    requires IsCleanText(s) && LiveMinLength <= |s| <= LiveMaxLength
    requires 0 <= i < |s| && IsUpperLetter(s[i]) && 0 <= j < |s| && IsDigit(s[j])
    ensures IsLikelyPlate(s, LiveMinLength, LiveMaxLength)
  {
    CleanFixesCleanText(s);
    IsLikelyPlateIff(s, LiveMinLength, LiveMaxLength);
  }

  /** "AB1234" is a plausible live plate. */
  lemma AB1234IsLikely()
    ensures IsLikelyPlate("AB1234", LiveMinLength, LiveMaxLength)
  {
    var s := "AB1234";
    assert IsCleanText(s);
    CleanLiveTextAccepted(s, 0, 2);
  }

  /** A reading that cleans to "AB1234" with probability above 0.5 becomes that candidate. */
  lemma QualifiesAsAB1234(d: Detection)
    requires Clean(d.text) == "AB1234" && d.prob > CandidateMinProb
    ensures Qualifies(d) && ToCandidate(d) == Candidate("AB1234", d.prob, d.bbox)
  {
    AB1234IsLikely();
  }

  lemma PlateCandidatesOfTwo(d1: Detection, d2: Detection)
    requires Qualifies(d1) && Qualifies(d2)
    ensures PlateCandidates([d1, d2]) == [ToCandidate(d1), ToCandidate(d2)]
  {
    assert [d1, d2][..1] == [d1] && [d1][..0] == [];
    assert PlateCandidates([d1]) == PlateCandidates([]) + [ToCandidate(d1)];
    assert PlateCandidates([d1, d2]) == PlateCandidates([d1]) + [ToCandidate(d2)];
  }

  /** Two readings that both clean to "AB1234" with probability above 0.5. */
  lemma FrameCandidatesFor(t1: string, t2: string, p1: seq<Point>, p2: seq<Point>)
    requires Clean(t1) == "AB1234" && Clean(t2) == "AB1234"
    ensures PlateCandidates([Detection(p1, t1, 0.55), Detection(p2, t2, 0.9)])
              == [Candidate("AB1234", 0.55, p1), Candidate("AB1234", 0.9, p2)]
  {
    QualifiesAsAB1234(Detection(p1, t1, 0.55));
    QualifiesAsAB1234(Detection(p2, t2, 0.9));
    PlateCandidatesOfTwo(Detection(p1, t1, 0.55), Detection(p2, t2, 0.9));
  }

  /** Both readings become candidate "AB1234", in reading order. */
  lemma FrameCandidatesExample(p1: seq<Point>, p2: seq<Point>)
    ensures PlateCandidates([Detection(p1, "ab 12 34", 0.55), Detection(p2, "AB1234", 0.9)])
              == [Candidate("AB1234", 0.55, p1), Candidate("AB1234", 0.9, p2)]
  {
    CleanExample();
    CleanAB1234();
    FrameCandidatesFor("ab 12 34", "AB1234", p1, p2);
  }

  /** The first save into a fresh ledger writes the header and the row. */
  lemma FirstSaveExample(plate: string, confidence: real, timestamp: string)
    requires confidence > AutoSaveMinConfidence
    ensures AutoSave(SaveState({}, NoFile, 0), plate, confidence, timestamp)
              == SaveState({plate}, Ledger(true, [Header, [plate, timestamp]]), 1)
  {
    assert Remember({}, plate) == {plate};
  }

  /** Two candidates in increasing confidence swap places. */
  lemma RankTwo(c1: Candidate, c2: Candidate)
    requires c1.confidence < c2.confidence
    ensures TopThree(Rank([c1, c2])) == [c2, c1]
  {
    assert [c1, c2][1..] == [c2] && [c2][1..] == [];
    assert SortDesc([c2], Confidence) == [c2];
    assert Rank([c1, c2]) == Insert(c1, [c2], Confidence) == [c2, c1];
  }

  /** The ranked top of the frame: 0.9 first, then 0.55. */
  lemma FrameRankExample(p1: seq<Point>, p2: seq<Point>)
    ensures RankedTop([Detection(p1, "ab 12 34", 0.55), Detection(p2, "AB1234", 0.9)], [])
              == [Candidate("AB1234", 0.9, p2), Candidate("AB1234", 0.55, p1)]
  {
    var raw := [Detection(p1, "ab 12 34", 0.55), Detection(p2, "AB1234", 0.9)];
    FrameCandidatesExample(p1, p2);
    assert raw + [] == raw;
    RankTwo(Candidate("AB1234", 0.55, p1), Candidate("AB1234", 0.9, p2));
  }

  /**
   * One processed frame with readings ("ab 12 34", 0.55) and ("AB1234", 0.9):
   * both become candidate "AB1234", the 0.9 one ranks first, and only it is
   * auto-saved, so the ledger grows by one row and the count by one.
   */
  lemma EndToEndExample(p1: seq<Point>, p2: seq<Point>, timestamp: string)
    ensures var raw := [Detection(p1, "ab 12 34", 0.55), Detection(p2, "AB1234", 0.9)];
            var s := ProcessFrame(InitialSession(NoFile), raw, [], timestamp);
            && s.lastDetected == [Candidate("AB1234", 0.9, p2), Candidate("AB1234", 0.55, p1)]
            && s.saves.savedCount == 1
            && s.saves.recent == {"AB1234"}
            && s.saves.ledger.lines == [Header, ["AB1234", timestamp]]
  {
    FrameRankExample(p1, p2);
    FirstSaveExample("AB1234", 0.9, timestamp);
  }
}
