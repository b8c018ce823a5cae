/**
 * Plate-text normalisation and format validation (`clean_plate_text` and
 * `is_likely_plate` in main_live.py and OCR_Templates/prototype_live.py).
 *
 * Strings are modelled as sequences of characters.  `str.upper()` is modelled
 * on ASCII: lower-case ASCII letters become upper case and every other
 * character is left as it is.
 */
module PlateText {

  predicate IsUpperLetter(c: char) { 'A' <= c <= 'Z' }

  predicate IsDigit(c: char) { '0' <= c <= '9' }

  /** The character class `[A-Z0-9]`. */
  predicate IsPlateChar(c: char) { IsUpperLetter(c) || IsDigit(c) }

  /** `str.upper()` on one character, ASCII only. */
  function ToUpper(c: char): (u: char)
    ensures 'a' <= c <= 'z' ==> IsUpperLetter(u)
    ensures IsPlateChar(c) ==> u == c
  {
    if 'a' <= c <= 'z' then (c as int - 32) as char else c
  }

  /** `text.upper()` */
  function Upper(s: string): (r: string)
    ensures |r| == |s|
    ensures forall i :: 0 <= i < |s| ==> r[i] == ToUpper(s[i])
  {
    if s == [] then [] else [ToUpper(s[0])] + Upper(s[1..])
  }

  /** `re.sub(r'[^A-Z0-9]', '', s)`: drop every character outside A-Z/0-9. */
  function KeepPlateChars(s: string): string
  {
    if s == [] then [] else (if IsPlateChar(s[0]) then [s[0]] else []) + KeepPlateChars(s[1..])
  }

  /** `clean_plate_text(text)` */
  function Clean(text: string): string
  {
    KeepPlateChars(Upper(text))
  }

  /** Every character of a cleaned text belongs to A-Z/0-9. */
  predicate IsCleanText(s: string) { forall i :: 0 <= i < |s| ==> IsPlateChar(s[i]) }

  /** `bool(re.search(r'[A-Z]', s))`, scanning left to right like the regex engine. */
  predicate SearchLetter(s: string)
  {
    s != [] && (IsUpperLetter(s[0]) || SearchLetter(s[1..]))
  }

  /** `bool(re.search(r'[0-9]', s))` */
  predicate SearchDigit(s: string)
  {
    s != [] && (IsDigit(s[0]) || SearchDigit(s[1..]))
  }

  /**
   * `is_likely_plate(text, min_length, max_length)`: the text is cleaned
   * again, then its length must lie in [minLength, maxLength] and it must
   * contain a letter and a digit.
   */
  predicate IsLikelyPlate(text: string, minLength: int, maxLength: int)
  {
    var cleaned := Clean(text);
    if !(minLength <= |cleaned| <= maxLength) then false
    else SearchLetter(cleaned) && SearchDigit(cleaned)
  }

  /** Bounds used by main_live.py. */
  const LiveMinLength := 5
  const LiveMaxLength := 8

  /** Bounds used by OCR_Templates/prototype_live.py. */
  const PrototypeMinLength := 4
  const PrototypeMaxLength := 9

  // ---------------------------------------------------------------------
  // Properties of the normaliser

  lemma {:induction false} KeepPlateCharsAppend(a: string, b: string)
    ensures KeepPlateChars(a + b) == KeepPlateChars(a) + KeepPlateChars(b)
  {
    if a == [] {
      assert a + b == b;
    } else {
      assert (a + b)[0] == a[0] && (a + b)[1..] == a[1..] + b;
      KeepPlateCharsAppend(a[1..], b);
    }
  }

  lemma {:induction false} UpperAppend(a: string, b: string)
    ensures Upper(a + b) == Upper(a) + Upper(b)
  {
  }

  /**
   * Cleaning is a homomorphism on concatenation that keeps one character
   * exactly when its upper-case form is in A-Z/0-9: its output is the
   * in-order subsequence of A-Z/0-9 characters of the upper-cased input.
   */
  lemma CleanSubsequence(a: string, b: string, c: char)
    ensures Clean(a + b) == Clean(a) + Clean(b)
    ensures Clean([c]) == if IsPlateChar(ToUpper(c)) then [ToUpper(c)] else []
  {
    UpperAppend(a, b);
    KeepPlateCharsAppend(Upper(a), Upper(b));
    assert [c][1..] == [];
    assert Upper([c]) == [ToUpper(c)];
    assert [ToUpper(c)][1..] == [];
    assert KeepPlateChars([ToUpper(c)]) == (if IsPlateChar(ToUpper(c)) then [ToUpper(c)] else []) + KeepPlateChars([]);
  }

  lemma {:induction false} KeepPlateCharsOnlyPlateChars(s: string)
    ensures IsCleanText(KeepPlateChars(s))
    ensures |KeepPlateChars(s)| <= |s|
  {
    if s != [] {
      KeepPlateCharsOnlyPlateChars(s[1..]);
    }
  }

  /** The cleaned text contains nothing but A-Z/0-9 and is never longer than the input. */
  lemma CleanOnlyPlateChars(text: string)
    ensures IsCleanText(Clean(text))
    ensures |Clean(text)| <= |text|
  {
    KeepPlateCharsOnlyPlateChars(Upper(text));
  }

  lemma {:induction false} KeepPlateCharsFixed(s: string)
    requires IsCleanText(s)
    ensures KeepPlateChars(s) == s
  {
    if s != [] {
      KeepPlateCharsFixed(s[1..]);
    }
  }

  lemma {:induction false} UpperFixed(s: string)
    requires IsCleanText(s)
    ensures Upper(s) == s
  {
    if s != [] {
      UpperFixed(s[1..]);
    }
  }

  /** A text made only of A-Z/0-9 is its own cleaning. */
  lemma CleanFixesCleanText(s: string)
    requires IsCleanText(s)
    ensures Clean(s) == s
  {
    UpperFixed(s);
    KeepPlateCharsFixed(s);
  }

  /** `clean_plate_text` is idempotent. */
  lemma CleanIdempotent(text: string)
    ensures Clean(Clean(text)) == Clean(text)
  {
    CleanOnlyPlateChars(text);
    CleanFixesCleanText(Clean(text));
  }

  // ---------------------------------------------------------------------
  // Properties of the format check

  lemma {:induction false} SearchLetterExists(s: string)
    ensures SearchLetter(s) <==> exists i :: 0 <= i < |s| && IsUpperLetter(s[i])
  {
    if s != [] {
      SearchLetterExists(s[1..]);
      if !IsUpperLetter(s[0]) && (exists i :: 0 <= i < |s| && IsUpperLetter(s[i])) {
        var i :| 0 <= i < |s| && IsUpperLetter(s[i]);
        assert s[1..][i - 1] == s[i];
      }
    }
  }

  lemma {:induction false} SearchDigitExists(s: string)
    ensures SearchDigit(s) <==> exists i :: 0 <= i < |s| && IsDigit(s[i])
  {
    if s != [] {
      SearchDigitExists(s[1..]);
      if !IsDigit(s[0]) && (exists i :: 0 <= i < |s| && IsDigit(s[i])) {
        var i :| 0 <= i < |s| && IsDigit(s[i]);
        assert s[1..][i - 1] == s[i];
      }
    }
  }

  /**
   * The format check holds iff the cleaned text has a length in
   * [minLength, maxLength], contains at least one letter and at least one digit.
   */
  lemma IsLikelyPlateIff(text: string, minLength: int, maxLength: int)
    ensures IsLikelyPlate(text, minLength, maxLength) <==>
      && minLength <= |Clean(text)| <= maxLength
      && (exists i :: 0 <= i < |Clean(text)| && IsUpperLetter(Clean(text)[i]))
      && (exists j :: 0 <= j < |Clean(text)| && IsDigit(Clean(text)[j]))
  {
    SearchLetterExists(Clean(text));
    SearchDigitExists(Clean(text));
  }

  /** Checking an already cleaned text gives the same answer as checking the raw text. */
  lemma IsLikelyPlateOfClean(text: string, minLength: int, maxLength: int)
    ensures IsLikelyPlate(Clean(text), minLength, maxLength) == IsLikelyPlate(text, minLength, maxLength)
  {
    CleanIdempotent(text);
  }

  /**
   * With the live bounds a cleaned text of length 4 or 9 is rejected and one
   * of length 5 or 8 with a letter and a digit is accepted.
   */
  lemma LiveBounds(s: string)
    requires IsCleanText(s)
    ensures |s| == 4 || |s| == 9 ==> !IsLikelyPlate(s, LiveMinLength, LiveMaxLength)
    ensures (|s| == 5 || |s| == 8) && SearchLetter(s) && SearchDigit(s) ==>
              IsLikelyPlate(s, LiveMinLength, LiveMaxLength)
  {
    CleanFixesCleanText(s);
  }

  /**
   * With the prototype bounds a cleaned text of length 3 or 10 is rejected and
   * one of length 4 or 9 with a letter and a digit is accepted.
   */
  lemma PrototypeBounds(s: string)
    requires IsCleanText(s)
    ensures |s| == 3 || |s| == 10 ==> !IsLikelyPlate(s, PrototypeMinLength, PrototypeMaxLength)
    ensures (|s| == 4 || |s| == 9) && SearchLetter(s) && SearchDigit(s) ==>
              IsLikelyPlate(s, PrototypeMinLength, PrototypeMaxLength)
  {
    CleanFixesCleanText(s);
  }

  /** Every text accepted by the live check is accepted by the prototype check. */
  lemma LiveImpliesPrototype(text: string)
    ensures IsLikelyPlate(text, LiveMinLength, LiveMaxLength) ==>
              IsLikelyPlate(text, PrototypeMinLength, PrototypeMaxLength)
  {
  }

  /** A text that passes the check cleans to a non-empty text of plate characters. */
  lemma LikelyPlateIsNonEmpty(text: string, minLength: int, maxLength: int)
    requires IsLikelyPlate(text, minLength, maxLength)
    ensures Clean(text) != [] && IsCleanText(Clean(text))
  {
    CleanOnlyPlateChars(text);
  }
}
