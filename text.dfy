/**
 * The string operations the prompt parsers use: `str.lower`, `str.strip`
 * and the substring test `name in text`, plus the first-match scan over the
 * declared concerts.
 */
module Text {
  import opened Wrappers

  /** The capitals `str.lower` changes here: ASCII A-Z and the Latin-1 capitals (U+00C0..U+00DE without U+00D7). */
  predicate IsUpper(ch: char) {
    'A' <= ch <= 'Z' || ('\U{C0}' <= ch <= '\U{DE}' && ch != '\U{D7}')
  }

  /** `str.lower` on one character: a capital becomes its small letter, 32 code points on; the rest is kept. */
  function LowerChar(ch: char): (r: char)
    ensures !IsUpper(r)
    ensures !IsUpper(ch) ==> r == ch
    ensures IsUpper(ch) ==> r as int == ch as int + 32
  {
    if IsUpper(ch) then (ch as int + 32) as char else ch
  }

  /** `str.lower`: no capital is left, and every other character stays where and what it was. */
  function Lower(s: string): (r: string)
    ensures |r| == |s|
    ensures forall i | 0 <= i < |r| :: !IsUpper(r[i])
    ensures forall i | 0 <= i < |s| :: !IsUpper(s[i]) ==> r[i] == s[i]
    ensures forall i | 0 <= i < |s| :: IsUpper(s[i]) ==> r[i] as int == s[i] as int + 32
  {
    seq(|s|, i requires 0 <= i < |s| => LowerChar(s[i]))
  }

  /** Lower-casing twice is lower-casing once. */
  lemma LowerIdempotent(s: string)
    ensures Lower(Lower(s)) == Lower(s)
  {
    var r := Lower(s);
    assert forall i | 0 <= i < |r| :: Lower(r)[i] == r[i];
  }

  /** The mention test ignores case: lower-casing the name or the text first changes nothing. */
  lemma MentionsIgnoresCase(name: string, text: string)
    ensures Mentions(Lower(name), text) == Mentions(name, text)
    ensures Mentions(name, Lower(text)) == Mentions(name, text)
  {
    LowerIdempotent(name);
    LowerIdempotent(text);
  }

  /** The characters Python's `str.isspace` accepts. */
  predicate IsSpace(ch: char) {
    || '\t' <= ch <= '\r'
    || '\U{1C}' <= ch <= ' '
    || ch == '\U{85}' || ch == '\U{A0}' || ch == '\U{1680}'
    || '\U{2000}' <= ch <= '\U{200A}'
    || ch == '\U{2028}' || ch == '\U{2029}' || ch == '\U{202F}' || ch == '\U{205F}' || ch == '\U{3000}'
  }

  /** Drops the leading whitespace. */
  function StripLeft(s: string): (r: string)
    ensures |r| <= |s| && r == s[|s| - |r|..]
    ensures forall k | 0 <= k < |s| - |r| :: IsSpace(s[k])
    ensures |r| > 0 ==> !IsSpace(r[0])
  {
    if |s| > 0 && IsSpace(s[0]) then StripLeft(s[1..]) else s
  }

  /** Drops the trailing whitespace. */
  function StripRight(s: string): (r: string)
    ensures |r| <= |s| && r == s[..|r|]
    ensures forall k | |r| <= k < |s| :: IsSpace(s[k])
    ensures |r| > 0 ==> !IsSpace(r[|r| - 1])
  {
    if |s| > 0 && IsSpace(s[|s| - 1]) then StripRight(s[..|s| - 1]) else s
  }

  /** r is the slice of s from position k on, and s holds only whitespace outside it. */
  predicate TrimmedAt(s: string, r: string, k: int) {
    && 0 <= k <= |s| - |r|
    && r == s[k..k + |r|]
    && (forall i | 0 <= i < k :: IsSpace(s[i]))
    && (forall i | k + |r| <= i < |s| :: IsSpace(s[i]))
  }

  /**
   * `str.strip()`: the slice of the text that starts at its first
   * non-whitespace character and ends at its last one; only whitespace is
   * dropped, at either end.
   */
  function Strip(s: string): (r: string)
    ensures |r| <= |s|
    ensures exists k :: TrimmedAt(s, r, k)
    ensures |r| > 0 ==> !IsSpace(r[0]) && !IsSpace(r[|r| - 1])
  {
    var left := StripLeft(s);
    var k := |s| - |left|;
    var r := StripRight(left);
    assert TrimmedAt(s, r, k);
    r
  }

  /** `needle` stands in `hay` from position `i` on. */
  predicate OccursAt(needle: string, hay: string, i: int) {
    0 <= i <= |hay| - |needle| && hay[i..i + |needle|] == needle
  }

  /** Python's `needle in hay` on strings. */
  predicate Occurs(needle: string, hay: string) {
    exists i | 0 <= i <= |hay| - |needle| :: OccursAt(needle, hay, i)
  }

  /** `name.lower() in text.lower()`: the test both prompt parsers apply to each concert. */
  predicate Mentions(name: string, text: string) {
    Occurs(Lower(name), Lower(text))
  }

  /** The position of the first name, in declared order, that the text mentions. */
  function FirstMatch(names: seq<string>, text: string): (r: Option<nat>)
    ensures r.Some? ==> r.value < |names| && Mentions(names[r.value], text)
    ensures r.Some? ==> forall j | 0 <= j < r.value :: !Mentions(names[j], text)
    ensures r.None? <==> forall j | 0 <= j < |names| :: !Mentions(names[j], text)
  {
    if |names| == 0 then None
    else if Mentions(names[0], text) then Some(0)
    else
      match FirstMatch(names[1..], text)
      case None => None
      case Some(k) => Some(k + 1)
  }
}
