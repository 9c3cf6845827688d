/** Character classes, ASCII lower-casing and substring search.

    Python's `str.isalpha`, `str.isspace` and `str.lower` and SQL's `ilike` collation are
    Unicode-aware; this model restricts them to ASCII. */
module Text {

  /** `str.isalpha` on ASCII: the 52 Latin letters. */
  predicate IsLetter(c: char) {
    ('a' <= c <= 'z') || ('A' <= c <= 'Z')
  }

  /** `str.isspace` on ASCII: tab, line feed, vertical tab, form feed, carriage return,
      the four information separators 0x1C..0x1F, and the space. */
  predicate IsSpace(c: char) {
    ('\t' <= c <= '\r') || ('\U{1C}' <= c <= ' ')
  }

  function LowerChar(c: char): char {
    if 'A' <= c <= 'Z' then (c as int + 32) as char else c
  }

  /** `str.lower` on ASCII. */
  function Lower(s: string): (r: string)
    ensures |r| == |s|
    ensures forall i :: 0 <= i < |s| ==> r[i] == LowerChar(s[i])
  {
    seq(|s|, i requires 0 <= i < |s| => LowerChar(s[i]))
  }

  lemma LowerIdempotent(s: string)
    ensures Lower(Lower(s)) == Lower(s)
  {
    assert forall i :: 0 <= i < |s| ==> LowerChar(LowerChar(s[i])) == LowerChar(s[i]);
  }

  predicate StartsWith(s: string, t: string) {
    |t| <= |s| && s[..|t|] == t
  }

  /** Python's `t in s` for strings: `t` occurs in `s` as a contiguous block. */
  predicate Contains(s: string, t: string)
    decreases |s|
  {
    StartsWith(s, t) || (s != [] && Contains(s[1..], t))
  }

  /** `t` occurs in `s` starting at position `i`. */
  predicate OccursAt(s: string, t: string, i: int) {
    0 <= i && i + |t| <= |s| && s[i..i + |t|] == t
  }

  /** The recursive search agrees with the positional definition of an occurrence. */
  lemma {:induction false} ContainsMeansOccurs(s: string, t: string)
    ensures Contains(s, t) <==> exists i :: OccursAt(s, t, i)
    decreases |s|
  {
    if StartsWith(s, t) {
      assert OccursAt(s, t, 0);
    } else if s != [] {
      ContainsMeansOccurs(s[1..], t);
      if exists i :: OccursAt(s[1..], t, i) {
        var i :| OccursAt(s[1..], t, i);
        assert s[i + 1..i + 1 + |t|] == s[1..][i..i + |t|];
        assert OccursAt(s, t, i + 1);
      }
      if exists i :: OccursAt(s, t, i) {
        var i :| OccursAt(s, t, i);
        assert i != 0;
        assert s[1..][i - 1..i - 1 + |t|] == s[i..i + |t|];
        assert OccursAt(s[1..], t, i - 1);
      }
    }
  }

  /** An occurrence is never longer than the string it occurs in. */
  lemma {:induction false} ContainsNotLonger(s: string, t: string)
    requires Contains(s, t)
    ensures |t| <= |s|
    decreases |s|
  {
    if !StartsWith(s, t) {
      ContainsNotLonger(s[1..], t);
    }
  }

  /** SQL `column ILIKE '%q%'`: case-insensitive substring match. */
  predicate ILike(column: string, q: string) {
    Contains(Lower(column), Lower(q))
  }

  /** The match does not depend on the case of either side. */
  lemma ILikeIgnoresCase(column: string, q: string)
    ensures ILike(column, q) == ILike(column, Lower(q)) == ILike(Lower(column), q)
  {
    LowerIdempotent(column);
    LowerIdempotent(q);
  }
}
