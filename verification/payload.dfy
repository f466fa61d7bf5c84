/** `hasData`: cuts the JSON array out of a framed simulator message, or
    gives the empty string when there is none. */
module Payload {

  /** The result of a `std::string` search: a position, or `npos`. */
  datatype Found = NotFound | At(index: nat)

  /** `size_t` arithmetic is modulo 2^64. */
  const SizeModulus: int := 0x1_0000_0000_0000_0000

  /** `pat` occurs in `s` starting at position `i`. */
  predicate OccursAt(s: string, pat: string, i: nat)
  {
    i + |pat| <= |s| && s[i..i + |pat|] == pat
  }

  /** `s` contains `"null"` somewhere. */
  predicate MentionsNull(s: string)
  {
    exists i: nat :: i < |s| && OccursAt(s, "null", i)
  }

  /** `s.find(pat, from)`: the first occurrence of `pat` at or after `from`. */
  function FindText(s: string, pat: string, from: nat): (r: Found)
    requires from <= |s|
    ensures r.NotFound? <==> forall i: nat :: from <= i ==> !OccursAt(s, pat, i)
    ensures r.At? ==> from <= r.index && OccursAt(s, pat, r.index)
    ensures r.At? ==> forall i: nat :: from <= i < r.index ==> !OccursAt(s, pat, i)
    decreases |s| - from
  {
    if from + |pat| > |s| then NotFound
    else if s[from..from + |pat|] == pat then
      assert OccursAt(s, pat, from);
      At(from)
    else FindText(s, pat, from + 1)
  }

  /** `s.find_first_of(c)`: the first position holding `c`. */
  function FindFirst(s: string, c: char): (r: Found)
    ensures r.NotFound? <==> c !in s
    ensures r.At? ==> r.index < |s| && s[r.index] == c && c !in s[..r.index]
  {
    if |s| == 0 then NotFound
    else if s[0] == c then At(0)
    else
      match FindFirst(s[1..], c)
      case NotFound => NotFound
      case At(i) =>
        assert s[..i + 1] == [s[0]] + s[1..][..i];
        At(i + 1)
  }

  /** `s.find_last_of(c)`: the last position holding `c`. */
  function FindLast(s: string, c: char): (r: Found)
    ensures r.NotFound? <==> c !in s
    ensures r.At? ==> r.index < |s| && s[r.index] == c && c !in s[r.index + 1..]
  {
    if |s| == 0 then NotFound
    else if s[|s| - 1] == c then At(|s| - 1)
    else
      var init := s[..|s| - 1];
      match FindLast(init, c)
      case NotFound =>
        assert s == init + [s[|s| - 1]];
        NotFound
      case At(i) =>
        assert s[i + 1..] == init[i + 1..] + [s[|s| - 1]];
        At(i)
  }

  /** `r` is the text of `s` from position `k` on, `|r|` characters long. */
  predicate Stretch(s: string, k: nat, r: string)
  {
    k + |r| <= |s| && s[k..k + |r|] == r
  }

  /** `s.substr(pos, len)`: at most `len` characters from `pos`. */
  function Substr(s: string, pos: nat, len: nat): (r: string)
    requires pos <= |s|
    ensures pos + |r| <= |s| && |r| <= len && r == s[pos..pos + |r|]
    ensures |r| == len || pos + |r| == |s|
  {
    if pos + len < |s| then s[pos..pos + len] else s[pos..]
  }

  /** `b2 - b1 + 1` on `size_t` positions: the true length when `b1` is at
      most one past `b2`, and wrapped round 2^64 when `b1` is further on. */
  function SpanLength(b1: nat, b2: nat): (r: nat)
    ensures b2 + 1 < SizeModulus && b1 <= b2 + 1 ==> r == b2 - b1 + 1
    ensures b1 < SizeModulus && b2 < SizeModulus && b2 + 1 < b1 ==> r == SizeModulus + b2 - b1 + 1
  {
    (b2 - b1 + 1) % SizeModulus
  }

  /** `hasData`: any data is a stretch of the message that starts at its
      first `[`, and there is none when the message mentions `"null"` or
      has no `]`. */
  function HasData(s: string): (r: string)
    ensures r != "" ==> !MentionsNull(s) && ']' in s
    ensures r != "" ==> r[0] == '[' && FindFirst(s, '[').At? && Stretch(s, FindFirst(s, '[').index, r)
  {
    var foundNull := FindText(s, "null", 0);
    var b1 := FindFirst(s, '[');
    var b2 := FindLast(s, ']');
    if foundNull.At? then ""
    else if b1.At? && b2.At? then
      var r := Substr(s, b1.index, SpanLength(b1.index, b2.index));
      r
    else ""
  }

  /** Any `"null"` in the message means no data. */
  lemma NullMeansNoData(s: string)
    requires MentionsNull(s)
    ensures HasData(s) == ""
  {
    var i: nat :| i < |s| && OccursAt(s, "null", i);
  }

  /** A message without a `[` or without a `]` has no data. */
  lemma NoBracketsNoData(s: string)
    requires '[' !in s || ']' !in s
    ensures HasData(s) == ""
  {
  }

  /** The first `[` is at `i` and the last `]` at `j`. */
  predicate Brackets(s: string, i: nat, j: nat)
  {
    && i < |s| && s[i] == '[' && '[' !in s[..i]
    && j < |s| && s[j] == ']' && ']' !in s[j + 1..]
  }

  /** Without `"null"`, and with the last `]` after the first `[`, the data
      is exactly the text from the first `[` to the last `]`, both
      included. */
  lemma ExtractsBracketedText(s: string, i: nat, j: nat)
    requires !MentionsNull(s)
    requires Brackets(s, i, j) && i < j
    requires |s| < SizeModulus
    ensures HasData(s) == s[i..j + 1]
  {
    BracketsAreFound(s, i, j);
    NoNullNotFound(s);
    var n := SpanLength(i, j);
    assert n == j - i + 1;
    assert HasData(s) == Substr(s, i, n);
  }

  /** In that case the data opens with `[` and closes with `]`. */
  lemma DataIsBracketed(s: string, i: nat, j: nat)
    requires !MentionsNull(s)
    requires Brackets(s, i, j) && i < j
    requires |s| < SizeModulus
    ensures |HasData(s)| >= 2 && HasData(s)[0] == '[' && HasData(s)[|HasData(s)| - 1] == ']'
  {
    ExtractsBracketedText(s, i, j);
  }

  /** Without `"null"` in the message, the search for it fails. */
  lemma NoNullNotFound(s: string)
    requires !MentionsNull(s)
    ensures FindText(s, "null", 0) == NotFound
  {
    forall k: nat
      ensures !OccursAt(s, "null", k)
    {
      if k < |s| {
        assert !(k < |s| && OccursAt(s, "null", k));
      }
    }
  }

  /** When the last `]` sits directly before the first `[`, the wrapped
      length is 0 and the data is empty. */
  lemma AdjacentCrossedBracketsGiveNothing(s: string, i: nat)
    requires !MentionsNull(s)
    requires i > 0 && Brackets(s, i, i - 1)
    ensures HasData(s) == ""
  {
    BracketsAreFound(s, i, i - 1);
    NoNullNotFound(s);
    assert SpanLength(i, i - 1) == 0;
  }

  /** When the last `]` comes further before the first `[`, the wrapped
      length is enormous and the data is everything from the first `[` on. */
  lemma CrossedBracketsGiveSuffix(s: string, i: nat, j: nat)
    requires !MentionsNull(s)
    requires Brackets(s, i, j) && j + 1 < i
    requires |s| < SizeModulus
    ensures HasData(s) == s[i..]
  {
    BracketsAreFound(s, i, j);
    NoNullNotFound(s);
  }

  /** The searches find exactly the brackets `Brackets` describes. */
  lemma BracketsAreFound(s: string, i: nat, j: nat)
    requires Brackets(s, i, j)
    ensures FindFirst(s, '[') == At(i)
    ensures FindLast(s, ']') == At(j)
  {
    assert s[i] in s;
    assert s[j] in s;
  }
}
