/** The string operations the service applies to request parameters and
    record fields: Python's `str.strip()`, `str.lower()`, the `in` test on
    strings, `str.join` and the `\d` character class, all restricted to ASCII. */
module Text {
  import opened Wrappers

  /** Python's `str.isspace()` on ASCII: tab through carriage return, the four
      information separators U+001C..U+001F, and space. */
  predicate IsSpace(c: char) {
    c == ' ' || ('\t' <= c <= '\r') || ('\U{1C}' <= c <= '\U{1F}')
  }

  /** The `\d` class of a regular expression, on ASCII. */
  predicate IsDigit(c: char) {
    '0' <= c <= '9'
  }

  predicate IsUpper(c: char) {
    'A' <= c <= 'Z'
  }

  /** `s.lstrip()`. */
  function TrimStart(s: string): string {
    if s != [] && IsSpace(s[0]) then TrimStart(s[1..]) else s
  }

  /** lstrip() drops the leading whitespace and nothing else. */
  lemma {:induction false} TrimStartSpec(s: string)
    ensures |TrimStart(s)| <= |s|
    ensures TrimStart(s) == s[|s| - |TrimStart(s)|..]
    ensures forall i | 0 <= i < |s| - |TrimStart(s)| :: IsSpace(s[i])
    ensures TrimStart(s) == [] || !IsSpace(TrimStart(s)[0])
  {
    if s != [] && IsSpace(s[0]) {
      var t := s[1..];
      TrimStartSpec(t);
      var r := TrimStart(t);
      assert TrimStart(s) == r;
      assert t[|t| - |r|..] == s[|s| - |r|..];
      forall i | 0 <= i < |s| - |r|
        ensures IsSpace(s[i])
      {
        if i > 0 {
          assert s[i] == t[i - 1];
        }
      }
    }
  }

  /** `s.rstrip()`. */
  function TrimEnd(s: string): string {
    if s != [] && IsSpace(s[|s| - 1]) then TrimEnd(s[..|s| - 1]) else s
  }

  /** rstrip() drops the trailing whitespace and nothing else. */
  lemma {:induction false} TrimEndSpec(s: string)
    ensures |TrimEnd(s)| <= |s|
    ensures TrimEnd(s) == s[..|TrimEnd(s)|]
    ensures forall i | |TrimEnd(s)| <= i < |s| :: IsSpace(s[i])
    ensures TrimEnd(s) == [] || !IsSpace(TrimEnd(s)[|TrimEnd(s)| - 1])
  {
    if s != [] && IsSpace(s[|s| - 1]) {
      var t := s[..|s| - 1];
      TrimEndSpec(t);
      var r := TrimEnd(t);
      assert TrimEnd(s) == r;
      assert t[..|r|] == s[..|r|];
      forall i | |r| <= i < |s|
        ensures IsSpace(s[i])
      {
        if i < |t| {
          assert s[i] == t[i];
        }
      }
    }
  }

  /** Cutting s at i and j removes only whitespace, and what is kept (s[i..j])
      neither starts nor ends with whitespace. */
  ghost predicate StripCut(s: string, i: int, j: int) {
    && 0 <= i <= j <= |s|
    && (forall k | 0 <= k < i :: IsSpace(s[k]))
    && (forall k | j <= k < |s| :: IsSpace(s[k]))
    && (i == j || (!IsSpace(s[i]) && !IsSpace(s[j - 1])))
  }

  /** r is what remains of s once its leading and trailing whitespace is removed. */
  ghost predicate StrippedFrom(r: string, s: string) {
    exists i, j :: StripCut(s, i, j) && r == s[i..j]
  }

  /** `s.strip()`. */
  function Strip(s: string): string {
    TrimEnd(TrimStart(s))
  }

  /** strip() removes exactly the surrounding whitespace. */
  lemma StripSpec(s: string)
    ensures StrippedFrom(Strip(s), s)
  {
    var t := TrimStart(s);
    var r := TrimEnd(t);
    TrimStartSpec(s);
    TrimEndSpec(t);
    assert StripCut(s, |s| - |t|, |s| - |t| + |r|);
    assert r == s[|s| - |t|..|s| - |t| + |r|];
  }

  /** Two cuts that both strip s keep the same characters. */
  lemma StripCutUnique(s: string, i1: int, j1: int, i2: int, j2: int)
    requires StripCut(s, i1, j1) && StripCut(s, i2, j2)
    ensures s[i1..j1] == s[i2..j2]
  {
    if i1 < j1 && i2 < j2 {
      assert i1 == i2;
      assert j1 == j2;
    }
  }

  /** There is only one way to strip a string, so StrippedFrom determines Strip. */
  lemma StrippedFromUnique(s: string, r1: string, r2: string)
    requires StrippedFrom(r1, s) && StrippedFrom(r2, s)
    ensures r1 == r2
  {
    var i1, j1 :| StripCut(s, i1, j1) && r1 == s[i1..j1];
    var i2, j2 :| StripCut(s, i2, j2) && r2 == s[i2..j2];
    StripCutUnique(s, i1, j1, i2, j2);
  }

  /** A string with no surrounding whitespace is left as it is by strip(). */
  lemma StripKeepsTrimmed(t: string)
    requires t == [] || (!IsSpace(t[0]) && !IsSpace(t[|t| - 1]))
    ensures Strip(t) == t
  {
    assert StrippedFrom(t, t) by {
      assert StripCut(t, 0, |t|) && t == t[0..|t|];
    }
    StripSpec(t);
    StrippedFromUnique(t, Strip(t), t);
  }

  /** Stripping twice changes nothing more. */
  lemma StripIdempotent(s: string)
    ensures Strip(Strip(s)) == Strip(s)
  {
    var r := Strip(s);
    StripSpec(s);
    var i, j :| StripCut(s, i, j) && r == s[i..j];
    StripKeepsTrimmed(r);
  }

  /** Python's `str.lower()` on one ASCII character. */
  function LowerChar(c: char): char {
    if IsUpper(c) then ((c as int) + 32) as char else c
  }

  /** `s.lower()`. */
  function Lower(s: string): string {
    if s == [] then [] else [LowerChar(s[0])] + Lower(s[1..])
  }

  /** lower() maps each character on its own, leaves no upper-case letter and
      neither creates nor removes whitespace. */
  lemma {:induction false} LowerSpec(s: string)
    ensures |Lower(s)| == |s|
    ensures forall i | 0 <= i < |s| :: Lower(s)[i] == LowerChar(s[i])
    ensures forall i | 0 <= i < |s| :: !IsUpper(Lower(s)[i]) && (IsSpace(Lower(s)[i]) <==> IsSpace(s[i]))
  {
    if s != [] {
      LowerSpec(s[1..]);
    }
  }

  /** A present, non-empty string: Python truthiness of a str or None. */
  predicate Filled(s: Option<string>) {
    s.Some? && s.value != ""
  }

  /** `_norm(s)`: `(s or "").strip().lower()`. */
  function Norm(s: Option<string>): string {
    Lower(Strip(s.UnwrapOr("")))
  }

  /** A normalised value carries no upper-case letter and no surrounding
      whitespace, and a missing value normalises to "". */
  lemma NormSpec(s: Option<string>)
    ensures var r := Norm(s);
      && (forall i | 0 <= i < |r| :: !IsUpper(r[i]))
      && (r == [] || (!IsSpace(r[0]) && !IsSpace(r[|r| - 1])))
      && (s.None? ==> r == [])
  {
    var t := Strip(s.UnwrapOr(""));
    StripSpec(s.UnwrapOr(""));
    LowerSpec(t);
  }

  /** A string with no upper-case letter is left as it is by lower(). */
  lemma LowerKeepsLower(t: string)
    requires forall i | 0 <= i < |t| :: !IsUpper(t[i])
    ensures Lower(t) == t
  {
    LowerSpec(t);
  }

  /** A string that is already trimmed and lower-case normalises to itself. */
  lemma NormKeepsNormal(t: string)
    requires forall i | 0 <= i < |t| :: !IsUpper(t[i])
    requires t == [] || (!IsSpace(t[0]) && !IsSpace(t[|t| - 1]))
    ensures Norm(Some(t)) == t
  {
    StripKeepsTrimmed(t);
    LowerKeepsLower(t);
  }

  /** Normalising an already normalised value gives it back, so a stored value
      and a filter that were both normalised compare as the user meant. */
  lemma NormIdempotent(s: Option<string>)
    ensures Norm(Some(Norm(s))) == Norm(s)
  {
    NormSpec(s);
    NormKeepsNormal(Norm(s));
  }

  /** Python's `needle in hay` on strings. */
  function Contains(hay: string, needle: string): bool {
    needle <= hay || (hay != [] && Contains(hay[1..], needle))
  }

  /** needle occurs in hay starting at position i. */
  ghost predicate OccursAt(hay: string, needle: string, i: int) {
    0 <= i && i + |needle| <= |hay| && hay[i..i + |needle|] == needle
  }

  /** When `needle in hay` holds, needle occurs at some position of hay. */
  lemma {:induction false} ContainsSound(hay: string, needle: string)
    requires Contains(hay, needle)
    ensures exists i :: OccursAt(hay, needle, i)
  {
    if needle <= hay {
      assert OccursAt(hay, needle, 0);
    } else {
      ContainsSound(hay[1..], needle);
      var i :| OccursAt(hay[1..], needle, i);
      assert hay[1..][i..i + |needle|] == hay[i + 1..i + 1 + |needle|];
      assert OccursAt(hay, needle, i + 1);
    }
  }

  /** An occurrence at position i makes `needle in hay` hold. */
  lemma {:induction false} ContainsComplete(hay: string, needle: string, i: int)
    requires OccursAt(hay, needle, i)
    ensures Contains(hay, needle)
  {
    if i > 0 {
      assert hay[1..][i - 1..i - 1 + |needle|] == hay[i..i + |needle|];
      ContainsComplete(hay[1..], needle, i - 1);
    } else {
      assert needle <= hay;
    }
  }

  /** `needle in hay` holds exactly when needle occurs at some position of hay. */
  lemma ContainsIff(hay: string, needle: string)
    ensures Contains(hay, needle) <==> exists i :: OccursAt(hay, needle, i)
  {
    if Contains(hay, needle) {
      ContainsSound(hay, needle);
    }
    if exists i :: OccursAt(hay, needle, i) {
      var i :| OccursAt(hay, needle, i);
      ContainsComplete(hay, needle, i);
    }
  }

  /** The character of decimal digit d. */
  function DigitChar(d: nat): char
    requires d < 10
  {
    ('0' as int + d) as char
  }

  /** The value of a string of decimal digits. */
  function DigitsValue(s: string): nat
    requires forall i | 0 <= i < |s| :: IsDigit(s[i])
  {
    if s == [] then 0
    else
      assert IsDigit(s[|s| - 1]);
      DigitsValue(s[..|s| - 1]) * 10 + ((s[|s| - 1] as int) - ('0' as int))
  }

  /** `str(n)` for a natural number: its decimal digits. */
  function NatText(n: nat): (r: string)
    ensures r != []
    ensures forall i | 0 <= i < |r| :: IsDigit(r[i])
  {
    if n < 10 then [DigitChar(n)] else NatText(n / 10) + [DigitChar(n % 10)]
  }

  /** The digits read back give the number, and there is no leading zero. */
  lemma {:induction false} NatTextRoundTrip(n: nat)
    ensures DigitsValue(NatText(n)) == n
    ensures NatText(n)[0] != '0' || n == 0
  {
    if n >= 10 {
      NatTextRoundTrip(n / 10);
      var t := NatText(n);
      assert t[..|t| - 1] == NatText(n / 10);
    }
  }

  /** `str(n)` for an integer: a minus sign before the digits when negative. */
  function IntText(n: int): (r: string)
    ensures r != []
    ensures r[0] == '-' <==> n < 0
  {
    if n < 0 then "-" + NatText(-n) else NatText(n)
  }

  /** `sep.join(parts)`. */
  function Join(sep: string, parts: seq<string>): string {
    if |parts| == 0 then ""
    else if |parts| == 1 then parts[0]
    else parts[0] + sep + Join(sep, parts[1..])
  }
}
