/** The few Python string operations the monitor relies on, with Python's
    semantics: `str.find` with a start index, the substring test `in`, and a
    decimal rendering of a number inside an f-string. */
module Text {

  /** `pat` occurs in `s` starting at index `j`. */
  predicate OccursAt(s: string, pat: string, j: nat)
  {
    j + |pat| <= |s| && s[j..j + |pat|] == pat
  }

  /** `s.find(pat, from)`: the lowest index at or after `from` where `pat`
      occurs, or -1.  A start beyond the end gives -1, as in Python. */
  function Find(s: string, pat: string, from: nat): (r: int)
    ensures r == -1 || (from <= r && OccursAt(s, pat, r))
    ensures r == -1 ==> forall j :: from <= j ==> !OccursAt(s, pat, j)
    ensures r != -1 ==> forall j :: from <= j < r ==> !OccursAt(s, pat, j)
    decreases |s| - from
  {
    if from + |pat| > |s| then -1
    else if OccursAt(s, pat, from) then from
    else Find(s, pat, from + 1)
  }

  /** Python's `needle in hay` for two strings. */
  predicate Contains(hay: string, needle: string)
  {
    Find(hay, needle, 0) != -1
  }

  /** A needle holding a character the hay lacks does not occur in it. */
  lemma {:induction false} NotContainedByChar(hay: string, needle: string, k: nat)
    requires k < |needle| && needle[k] !in hay
    ensures !Contains(hay, needle)
  {
    forall j: nat ensures !OccursAt(hay, needle, j) {
      if j + |needle| <= |hay| {
        assert hay[j..j + |needle|][k] == hay[j + k];
        assert hay[j + k] in hay;
      }
    }
  }

  /** Decimal digits of a natural number, most significant first, with no
      leading zero. */
  function Digits(n: nat): (r: string)
    ensures |r| > 0
    ensures forall i :: 0 <= i < |r| ==> '0' <= r[i] <= '9'
    ensures |r| > 1 ==> r[0] != '0'
    decreases n
  {
    var d := ['0' + (n % 10) as char];
    if n < 10 then d else Digits(n / 10) + d
  }

  /** The number a string of decimal digits denotes. */
  function DigitsValue(s: string): nat
  {
    if |s| == 0 then 0
    else
      var c := s[|s| - 1];
      DigitsValue(s[..|s| - 1]) * 10 + (if '0' <= c <= '9' then (c - '0') as nat else 0)
  }

  /** Reading an integer back: an optional minus sign, then digits. */
  function ReadInt(s: string): int
  {
    if |s| > 0 && s[0] == '-' then -(DigitsValue(s[1..]) as int) else DigitsValue(s)
  }

  lemma {:induction false} DigitsRoundTrip(n: nat)
    ensures DigitsValue(Digits(n)) == n
    decreases n
  {
    if n >= 10 {
      DigitsRoundTrip(n / 10);
      var r := Digits(n);
      assert r[..|r| - 1] == Digits(n / 10);
    }
  }

  /** An integer as it appears inside an f-string (`str(int)`). */
  function Render(n: int): (r: string)
    ensures |r| > 0
    ensures (r[0] == '-') <==> n < 0
  {
    if n < 0 then "-" + Digits(-n) else Digits(n)
  }

  /** Rendering is faithful: reading the text back gives the number. */
  lemma RenderRoundTrip(n: int)
    ensures ReadInt(Render(n)) == n
  {
    if n < 0 {
      DigitsRoundTrip(-n);
      assert Render(n)[1..] == Digits(-n);
    } else {
      DigitsRoundTrip(n);
    }
  }
}
