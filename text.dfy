/** String helpers shared by the backend and the frontend: ASCII case mapping as
    Python's str.lower() and str.title() perform it, substring search as Python's
    `in`, joining, and decimal rendering of integers. */
module Text {

  predicate IsUpper(c: char) { 'A' <= c <= 'Z' }

  predicate IsLower(c: char) { 'a' <= c <= 'z' }

  /** An ASCII letter: the only characters this model treats as cased. */
  predicate IsCased(c: char) { IsUpper(c) || IsLower(c) }

  function LowerChar(c: char): (d: char)
    ensures IsUpper(c) ==> IsLower(d) && d as int == c as int + 32
    ensures !IsUpper(c) ==> d == c
  {
    if IsUpper(c) then (c as int + 32) as char else c
  }

  function UpperChar(c: char): (d: char)
    ensures IsLower(c) ==> IsUpper(d) && d as int == c as int - 32
    ensures !IsLower(c) ==> d == c
  {
    if IsLower(c) then (c as int - 32) as char else c
  }

  /** str.lower() restricted to ASCII letters. */
  function Lower(s: string): (r: string)
    ensures |r| == |s|
    ensures forall i :: 0 <= i < |s| ==> r[i] == LowerChar(s[i])
  {
    seq(|s|, i requires 0 <= i < |s| => LowerChar(s[i]))
  }

  lemma LowerIdempotent(s: string)
    ensures Lower(Lower(s)) == Lower(s)
  {
  }

  /** str.title() restricted to ASCII letters: a letter is upper-cased when the
      character before it is not a letter, and lower-cased otherwise. `afterCased`
      says whether the character before s[0] was a letter. */
  function TitleFrom(s: string, afterCased: bool): (r: string)
    ensures |r| == |s|
    decreases |s|
  {
    if s == [] then []
    else
      var c := s[0];
      var d := if !IsCased(c) then c else if afterCased then LowerChar(c) else UpperChar(c);
      [d] + TitleFrom(s[1..], IsCased(c))
  }

  function Title(s: string): (r: string)
    ensures |r| == |s|
  {
    TitleFrom(s, false)
  }

  /** Python's `needle in hay` for two strings. */
  function Contains(hay: string, needle: string): (b: bool)
    decreases |hay|
  {
    needle <= hay || (hay != [] && Contains(hay[1..], needle))
  }

  /** needle occurs in hay starting at offset k. */
  predicate OccursAt(hay: string, needle: string, k: nat)
  {
    k + |needle| <= |hay| && hay[k..k + |needle|] == needle
  }

  /** Contains agrees with the definition by position: needle occurs at some offset. */
  lemma {:induction false} ContainsIffOccurs(hay: string, needle: string)
    ensures Contains(hay, needle) <==> exists k: nat :: OccursAt(hay, needle, k)
  {
    if needle <= hay {
      assert OccursAt(hay, needle, 0);
    } else if hay == [] {
    } else {
      ContainsIffOccurs(hay[1..], needle);
      if Contains(hay[1..], needle) {
        var k: nat :| OccursAt(hay[1..], needle, k);
        assert hay[k + 1..k + 1 + |needle|] == hay[1..][k..k + |needle|];
        assert OccursAt(hay, needle, k + 1);
      }
      if exists k: nat :: OccursAt(hay, needle, k) {
        var k: nat :| OccursAt(hay, needle, k);
        if k == 0 {
          assert false;
        }
        assert hay[1..][k - 1..k - 1 + |needle|] == hay[k..k + |needle|];
        assert OccursAt(hay[1..], needle, k - 1);
      }
    }
  }

  /** Python's `sep.join(parts)`. */
  function Join(parts: seq<string>, sep: string): (r: string)
    decreases |parts|
  {
    if parts == [] then ""
    else if |parts| == 1 then parts[0]
    else parts[0] + sep + Join(parts[1..], sep)
  }

  function DigitChar(d: nat): (c: char)
    requires d < 10
    ensures '0' <= c <= '9'
  {
    "0123456789"[d]
  }

  /** The decimal spelling of a natural number, as Python's str() and JavaScript's
      String() give it. */
  function NatToString(n: nat): (r: string)
    ensures r != []
    ensures forall i :: 0 <= i < |r| ==> '0' <= r[i] <= '9'
    ensures |r| > 1 ==> r[0] != '0'
  {
    if n < 10 then [DigitChar(n)] else NatToString(n / 10) + [DigitChar(n % 10)]
  }

  function IntToString(n: int): (r: string)
    ensures r != []
    ensures (r[0] == '-') <==> n < 0
  {
    if n < 0 then "-" + NatToString(-n) else NatToString(n)
  }

  /** a keeps some of the elements of b, in b's order. */
  predicate IsSubsequence<T(==)>(a: seq<T>, b: seq<T>)
    decreases |b|
  {
    a == [] || (b != [] && if a[0] == b[0] then IsSubsequence(a[1..], b[1..]) else IsSubsequence(a, b[1..]))
  }

  function Min(a: int, b: int): int { if a <= b then a else b }
}
