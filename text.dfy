/**
 * The string operations the services use: `str.lower()`, `needle in hay`,
 * `sep.join(parts)` and `str.strip()`. Case folding and whitespace cover ASCII only.
 */
module Text {

  function LowerChar(c: char): char {
    if 'A' <= c <= 'Z' then (c as int + 32) as char else c
  }

  /** `s.lower()`. */
  function Lower(s: string): (r: string)
    ensures |r| == |s|
    ensures forall i :: 0 <= i < |s| ==> r[i] == LowerChar(s[i])
  {
    seq(|s|, i requires 0 <= i < |s| => LowerChar(s[i]))
  }

  /** Lower-casing twice is lower-casing once. */
  lemma LowerIdempotent(s: string)
    ensures Lower(Lower(s)) == Lower(s)
  {
  }

  /** No string occurs twice in the list. */
  predicate Distinct(s: seq<string>) {
    forall i, j :: 0 <= i < j < |s| ==> s[i] != s[j]
  }

  /** Python's `needle in hay` on strings: `needle` occurs as a contiguous substring. */
  function Contains(hay: string, needle: string): bool
    decreases |hay|
  {
    if |needle| > |hay| then false
    else hay[..|needle|] == needle || Contains(hay[1..], needle)
  }

  /** A string occurs in itself followed by anything. */
  lemma {:induction false} ContainsPrefix(s: string, rest: string)
    ensures Contains(s + rest, s)
  {
    assert (s + rest)[..|s|] == s;
  }

  /** Every character of an occurring substring occurs in the string. */
  lemma {:induction false} ContainsChars(hay: string, needle: string, k: int)
    requires Contains(hay, needle)
    requires 0 <= k < |needle|
    ensures needle[k] in hay
    decreases |hay|
  {
    if hay[..|needle|] == needle {
      assert hay[k] == needle[k];
    } else {
      ContainsChars(hay[1..], needle, k);
      assert forall c :: c in hay[1..] ==> c in hay;
    }
  }

  /** `any(part in s for part in parts)`: some element of `parts` occurs in `s`. */
  function AnyOccursIn(s: string, parts: seq<string>): (b: bool)
    ensures b <==> exists part :: part in parts && Contains(s, part)
  {
    if parts == [] then false
    else
      var rest := AnyOccursIn(s, parts[1..]);
      assert forall part :: part in parts <==> part == parts[0] || part in parts[1..];
      if Contains(s, parts[0]) then
        assert parts[0] in parts;
        true
      else rest
  }

  /** `sep.join(parts)`. */
  function Join(parts: seq<string>, sep: string): string {
    if |parts| == 0 then ""
    else if |parts| == 1 then parts[0]
    else parts[0] + sep + Join(parts[1..], sep)
  }

  predicate IsSpace(c: char) {
    c == ' ' || c == '\t' || c == '\n' || c == '\r' || c == '\U{0B}' || c == '\U{0C}'
  }

  function StripLeft(s: string): string {
    if |s| > 0 && IsSpace(s[0]) then StripLeft(s[1..]) else s
  }

  function StripRight(s: string): string {
    if |s| > 0 && IsSpace(s[|s| - 1]) then StripRight(s[..|s| - 1]) else s
  }

  /** `s.strip()`: drops leading and trailing whitespace. */
  function Strip(s: string): string {
    StripLeft(StripRight(s))
  }

  /** A trailing blank does not survive `strip()`. */
  lemma StripTrailingSpace(s: string)
    ensures Strip(s + " ") == Strip(s)
  {
    assert (s + " ")[..|s|] == s;
  }
}
