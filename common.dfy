/** Vocabulary shared by every part of the marketplace model: optional values,
    request outcomes that carry the HTTP status a handler answers with, the
    string operations JavaScript performs on names and e-mails (ASCII
    lower-casing, String.prototype.trim, substring search), and Math.round
    over exact rationals. */
module Common {

  datatype Option<+T> = None | Some(value: T)

  /** The outcome of one request: a value, or the status code of the error
      the handler reports (404, 400, 403, 409, or 500 for an uncaught one). */
  datatype Result<+T> = Ok(value: T) | Err(status: int)

  // ---------------------------------------------------------------- case folding

  function LowerChar(c: char): char {
    if 'A' <= c <= 'Z' then (c as int + 32) as char else c
  }

  function UpperChar(c: char): char {
    if 'a' <= c <= 'z' then (c as int - 32) as char else c
  }

  /** String.prototype.toLowerCase, restricted to ASCII letters. */
  function Lower(s: string): (r: string)
    ensures |r| == |s|
    ensures forall i :: 0 <= i < |s| ==> r[i] == LowerChar(s[i])
  {
    seq(|s|, i requires 0 <= i < |s| => LowerChar(s[i]))
  }

  /** String.prototype.toUpperCase, restricted to ASCII letters. */
  function Upper(s: string): (r: string)
    ensures |r| == |s|
    ensures forall i :: 0 <= i < |s| ==> r[i] == UpperChar(s[i])
  {
    seq(|s|, i requires 0 <= i < |s| => UpperChar(s[i]))
  }

  /** Two names are the same domain when they agree after lower-casing. */
  predicate SameName(a: string, b: string) {
    Lower(a) == Lower(b)
  }

  /** Upper-casing a string never changes what it lower-cases to. */
  lemma LowerOfUpper(s: string)
    ensures Lower(Upper(s)) == Lower(s)
  {
    forall i | 0 <= i < |s|
      ensures Lower(Upper(s))[i] == Lower(s)[i]
    {
      var c := s[i];
      if 'a' <= c <= 'z' {
        assert UpperChar(c) as int == c as int - 32;
      }
    }
  }

  // ---------------------------------------------------------------- trimming

  /** The characters String.prototype.trim removes: WhiteSpace and LineTerminator. */
  predicate IsSpace(c: char) {
    c == ' ' || c == '\t' || c == '\n' || c == '\r' || c == '\U{000B}' || c == '\U{000C}'
    || c == '\U{00A0}' || c == '\U{FEFF}' || c == '\U{1680}' || ('\U{2000}' <= c <= '\U{200A}')
    || c == '\U{2028}' || c == '\U{2029}' || c == '\U{202F}' || c == '\U{205F}' || c == '\U{3000}'
  }

  /** Every character of s is white space (true of the empty string). */
  predicate Blank(s: string) {
    forall i :: 0 <= i < |s| ==> IsSpace(s[i])
  }

  function TrimStart(s: string): string
    decreases |s|
  {
    if |s| > 0 && IsSpace(s[0]) then TrimStart(s[1..]) else s
  }

  function TrimEnd(s: string): string
    decreases |s|
  {
    if |s| > 0 && IsSpace(s[|s| - 1]) then TrimEnd(s[..|s| - 1]) else s
  }

  /** String.prototype.trim. */
  function Trim(s: string): string {
    TrimEnd(TrimStart(s))
  }

  lemma {:induction false} TrimStartShape(s: string)
    ensures TrimStart(s) == "" || !IsSpace(TrimStart(s)[0])
    ensures |TrimStart(s)| <= |s| && TrimStart(s) == s[|s| - |TrimStart(s)|..]
    ensures Blank(s[..|s| - |TrimStart(s)|])
    decreases |s|
  {
    if |s| > 0 && IsSpace(s[0]) {
      TrimStartShape(s[1..]);
      var k := |s| - |TrimStart(s)|;
      assert s[1..][..k - 1] == s[1..k];
      forall i | 0 <= i < k ensures IsSpace(s[..k][i]) {
        if i > 0 { assert s[..k][i] == s[1..][..k - 1][i - 1]; }
      }
    }
  }

  lemma {:induction false} TrimEndShape(s: string)
    ensures TrimEnd(s) == "" || !IsSpace(TrimEnd(s)[|TrimEnd(s)| - 1])
    ensures |TrimEnd(s)| <= |s| && TrimEnd(s) == s[..|TrimEnd(s)|]
    ensures Blank(s[|TrimEnd(s)|..])
    decreases |s|
  {
    if |s| > 0 && IsSpace(s[|s| - 1]) {
      var t := s[..|s| - 1];
      TrimEndShape(t);
      var k := |TrimEnd(s)|;
      assert t[..k] == s[..k];
      forall i | k <= i < |s| ensures IsSpace(s[i]) {
        if i < |s| - 1 { assert s[i] == t[k..][i - k]; }
      }
    }
  }

  /** Trimming leaves no white space at either end, keeps a contiguous piece
      of the input, and removes only white space. */
  lemma TrimShape(s: string)
    ensures var r := Trim(s);
      (r == "" || (!IsSpace(r[0]) && !IsSpace(r[|r| - 1])))
      && exists i :: 0 <= i <= |s| - |r| && r == s[i..i + |r|] && Blank(s[..i]) && Blank(s[i + |r|..])
  {
    var a := TrimStart(s);
    TrimStartShape(s);
    TrimEndShape(a);
    var r := Trim(s);
    var i := |s| - |a|;
    if r != "" {
      assert r[0] == a[0];
    }
    assert r == s[i..i + |r|];
    assert s[i + |r|..] == a[|r|..];
  }

  /** A string trims to nothing exactly when it is all white space; this is
      what `!text?.trim()` tests. */
  lemma {:induction false} TrimEmptyIffBlank(s: string)
    ensures Trim(s) == "" <==> Blank(s)
    decreases |s|
  {
    TrimStartShape(s);
    TrimEndShape(TrimStart(s));
    if |s| > 0 && IsSpace(s[0]) {
      TrimEmptyIffBlank(s[1..]);
      if Blank(s[1..]) {
        forall i | 0 <= i < |s| ensures IsSpace(s[i]) {
          if i > 0 { assert s[i] == s[1..][i - 1]; }
        }
      } else {
        var j :| 0 <= j < |s[1..]| && !IsSpace(s[1..][j]);
        assert !IsSpace(s[j + 1]);
      }
    } else if |s| > 0 {
      assert TrimStart(s) == s && s[0..] == s;
    }
  }

  // ---------------------------------------------------------------- substring

  /** String.prototype.includes: needle occurs somewhere in hay. */
  predicate Contains(hay: string, needle: string)
    decreases |hay|
  {
    needle <= hay || (|hay| > 0 && Contains(hay[1..], needle))
  }

  /** needle sits in hay at offset k. */
  predicate OccursAt(hay: string, needle: string, k: nat) {
    k + |needle| <= |hay| && hay[k..k + |needle|] == needle
  }

  /** Contains finds every occurrence, at whatever offset. */
  lemma {:induction false} ContainsAt(hay: string, needle: string, k: nat)
    requires OccursAt(hay, needle, k)
    ensures Contains(hay, needle)
    decreases k
  {
    if k == 0 {
      assert hay[..|needle|] == needle;
    } else {
      assert hay[1..][k - 1..k - 1 + |needle|] == hay[k..k + |needle|];
      ContainsAt(hay[1..], needle, k - 1);
    }
  }

  /** And only those: a needle Contains finds sits at some offset. */
  lemma {:induction false} ContainsOnlyAt(hay: string, needle: string)
    requires Contains(hay, needle)
    ensures exists k: nat :: OccursAt(hay, needle, k)
    decreases |hay|
  {
    if needle <= hay {
      assert hay[0..|needle|] == needle;
      assert OccursAt(hay, needle, 0);
    } else {
      ContainsOnlyAt(hay[1..], needle);
      var k: nat :| OccursAt(hay[1..], needle, k);
      assert hay[k + 1..k + 1 + |needle|] == hay[1..][k..k + |needle|];
      assert OccursAt(hay, needle, k + 1);
    }
  }

  // ---------------------------------------------------------------- rounding

  /** Math.round on an exact rational: the nearest integer, halves rounded up. */
  function Round(x: real): int {
    (x + 0.5).Floor
  }

  /** Math.round(x * 100) / 100: rounding to two decimals. */
  function Round2(x: real): real {
    Round(x * 100.0) as real / 100.0
  }

  lemma RoundMonotone(x: real, y: real)
    requires x <= y
    ensures Round(x) <= Round(y)
  {
  }

  lemma RoundOfInt(n: int)
    ensures Round(n as real) == n
  {
  }

  /** Rounding to two decimals stays within any integer bounds of its argument. */
  lemma Round2Within(x: real, lo: int, hi: int)
    requires lo as real <= x <= hi as real
    ensures lo as real <= Round2(x) <= hi as real
  {
    RoundMonotone((lo * 100) as real, x * 100.0);
    RoundMonotone(x * 100.0, (hi * 100) as real);
    RoundOfInt(lo * 100);
    RoundOfInt(hi * 100);
  }

  /** A quotient lies between the bounds its numerator lies between, scaled. */
  lemma DivBounds(x: real, c: real, lo: real, hi: real)
    requires c > 0.0 && lo * c <= x <= hi * c
    ensures lo <= x / c <= hi
  {
  }

  lemma Round2Monotone(x: real, y: real)
    requires x <= y
    ensures Round2(x) <= Round2(y)
  {
    RoundMonotone(x * 100.0, y * 100.0);
  }
}
