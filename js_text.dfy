/**
 * How the dashboard turns integer-valued Numbers into text (template
 * literals such as `${minutes}`) and the `a:b:c` shape of its duration
 * strings, with the parsers that invert them.
 */
module JsText {
  import opened Wrappers

  predicate IsDigitChar(c: char) { '0' <= c <= '9' }

  predicate AllDigits(s: string)
  {
    forall i :: 0 <= i < |s| ==> IsDigitChar(s[i])
  }

  function DigitChar(d: int): (c: char)
    requires 0 <= d < 10
    ensures IsDigitChar(c) && c as int - '0' as int == d
  {
    ('0' as int + d) as char
  }

  /** The decimal digits of n, most significant first, with no leading zero. */
  function NatToString(n: nat): (s: string)
    ensures |s| >= 1 && AllDigits(s)
    ensures (s[0] == '0') <==> n == 0
  {
    if n < 10 then [DigitChar(n)] else NatToString(n / 10) + [DigitChar(n % 10)]
  }

  /** The value of a string of decimal digits. */
  function ParseNat(s: string): nat
    requires AllDigits(s)
  {
    if s == [] then 0 else ParseNat(s[..|s| - 1]) * 10 + (s[|s| - 1] as int - '0' as int)
  }

  lemma {:induction false} NatRoundTrip(n: nat)
    ensures ParseNat(NatToString(n)) == n
  {
    if n >= 10 {
      var s := NatToString(n);
      assert s[..|s| - 1] == NatToString(n / 10);
      NatRoundTrip(n / 10);
    }
  }

  /** `${n}` for an integer n: an optional minus sign, then its digits. */
  function IntToString(n: int): (s: string)
    ensures |s| >= 1
    ensures forall i :: 0 <= i < |s| ==> s[i] != ':'
  {
    if n < 0 then "-" + NatToString(-n) else NatToString(n)
  }

  /** Reads back an optional minus sign followed by digits. */
  function ParseInt(s: string): Option<int>
  {
    if |s| >= 2 && s[0] == '-' && AllDigits(s[1..]) then Some(0 - ParseNat(s[1..]) as int)
    else if |s| >= 1 && AllDigits(s) then Some(ParseNat(s))
    else None
  }

  /** Rendering an integer loses nothing. */
  lemma IntRoundTrip(n: int)
    ensures ParseInt(IntToString(n)) == Some(n)
  {
    var s := IntToString(n);
    if n < 0 {
      assert s[1..] == NatToString(-n);
      NatRoundTrip(-n);
    } else {
      NatRoundTrip(n);
    }
  }

  /** Text that no number rendering produces. */
  lemma NaNIsNotANumber()
    ensures ParseInt("NaN") == None
  {
    assert !IsDigitChar("NaN"[0]);
  }

  ghost predicate NoColon(s: string)
  {
    forall i :: 0 <= i < |s| ==> s[i] != ':'
  }

  /** `parts.join(":")` */
  function JoinColon(parts: seq<string>): string
  {
    if parts == [] then ""
    else if |parts| == 1 then parts[0]
    else JoinColon(parts[..|parts| - 1]) + ":" + parts[|parts| - 1]
  }

  /** `s.split(":")` */
  function SplitColon(s: string): (parts: seq<string>)
    ensures |parts| >= 1
  {
    if s == [] then [""]
    else
      var front := SplitColon(s[..|s| - 1]);
      if s[|s| - 1] == ':' then front + [""]
      else front[..|front| - 1] + [front[|front| - 1] + [s[|s| - 1]]]
  }

  /** Appending a character other than ':' extends the last piece by it. */
  lemma SplitAppendChar(x: string, c: char)
    requires c != ':'
    ensures var front := SplitColon(x);
              SplitColon(x + [c]) == front[..|front| - 1] + [front[|front| - 1] + [c]]
  {
    assert (x + [c])[..|x + [c]| - 1] == x;
  }

  /** Extending the last piece twice is extending it once by both texts. */
  lemma ExtendLast(p: seq<string>, front: seq<string>, b: string, c: char)
    requires |p| >= 1 && front == p[..|p| - 1] + [p[|p| - 1] + b]
    ensures front[..|front| - 1] + [front[|front| - 1] + [c]] == p[..|p| - 1] + [p[|p| - 1] + (b + [c])]
  {
    assert front[..|front| - 1] == p[..|p| - 1];
    assert (p[|p| - 1] + b) + [c] == p[|p| - 1] + (b + [c]);
  }

  /** Appending nothing leaves the pieces as they are. */
  lemma SplitAppendNothing(a: string)
    ensures var p := SplitColon(a);
              SplitColon(a + []) == p[..|p| - 1] + [p[|p| - 1] + []]
  {
    var p := SplitColon(a);
    assert a + [] == a;
    assert p[|p| - 1] + [] == p[|p| - 1];
    assert p[..|p| - 1] + [p[|p| - 1]] == p;
  }

  /** A non-empty sequence is its front followed by its last element. */
  lemma FrontThenLast<T>(s: seq<T>)
    requires s != []
    ensures s[..|s| - 1] + [s[|s| - 1]] == s
  {
  }

  /** Appending a non-empty text is appending its front, then its last character. */
  lemma SnocLast(a: string, b: string)
    requires b != []
    ensures b[..|b| - 1] + [b[|b| - 1]] == b
    ensures a + b == (a + b[..|b| - 1]) + [b[|b| - 1]]
  {
    FrontThenLast(b);
  }

  /** Appending colon-free text extends the last piece. */
  lemma {:induction false} SplitAppendPlain(a: string, b: string)
    requires NoColon(b)
    ensures var p := SplitColon(a);
              SplitColon(a + b) == p[..|p| - 1] + [p[|p| - 1] + b]
  {
    if b == [] {
      SplitAppendNothing(a);
    } else {
      var b' := b[..|b| - 1];
      assert NoColon(b') by {
        forall i | 0 <= i < |b'| ensures b'[i] != ':' {
          assert b'[i] == b[i];
        }
      }
      var c := b[|b| - 1];
      SplitAppendPlain(a, b');
      SplitAppendChar(a + b', c);
      ExtendLast(SplitColon(a), SplitColon(a + b'), b', c);
      SnocLast(a, b);
    }
  }

  /** Appending a colon starts a new, empty piece. */
  lemma SplitAppendColon(a: string)
    ensures SplitColon(a + ":") == SplitColon(a) + [""]
  {
    assert (a + ":")[..|a + ":"| - 1] == a;
  }

  /** Text after a trailing colon fills the empty last piece. */
  lemma PieceAfterColon(init: seq<string>, last: string)
    ensures var q := init + [""];
              q[..|q| - 1] + [q[|q| - 1] + last] == init + [last]
  {
    var q := init + [""];
    assert q[..|q| - 1] == init;
    assert q[|q| - 1] + last == last;
  }

  /** Joining one more piece appends a colon and that piece. */
  lemma JoinSnoc(init: seq<string>, last: string)
    requires init != []
    ensures JoinColon(init + [last]) == JoinColon(init) + ":" + last
  {
    assert (init + [last])[..|init + [last]| - 1] == init;
  }

  /** One more colon-free piece after a colon splits off as one more piece. */
  lemma SplitJoinStep(init: seq<string>, last: string)
    requires init != [] && SplitColon(JoinColon(init)) == init && NoColon(last)
    ensures SplitColon(JoinColon(init + [last])) == init + [last]
  {
    var joined := JoinColon(init);
    JoinSnoc(init, last);
    SplitAppendColon(joined);
    SplitAppendPlain(joined + ":", last);
    PieceAfterColon(init, last);
  }

  /** Splitting a join of colon-free pieces gives the pieces back. */
  lemma {:induction false} SplitJoin(parts: seq<string>)
    requires |parts| >= 1
    requires forall i :: 0 <= i < |parts| ==> NoColon(parts[i])
    ensures SplitColon(JoinColon(parts)) == parts
  {
    if |parts| == 1 {
      SplitAppendPlain([], parts[0]);
      assert [] + parts[0] == parts[0];
    } else {
      var init := parts[..|parts| - 1];
      var last := parts[|parts| - 1];
      assert forall i :: 0 <= i < |init| ==> NoColon(init[i]) by {
        forall i | 0 <= i < |init| ensures NoColon(init[i]) {
          assert init[i] == parts[i];
        }
      }
      SplitJoin(init);
      SplitJoinStep(init, last);
      FrontThenLast(parts);
    }
  }
}
