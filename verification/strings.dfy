/** The Python `str` operations the scanner relies on: `needle in hay`,
    `''.join(chunks)`, `s.lower()`, and the whitespace stripping `int()`
    performs before it reads digits. */
module Strings {

  /** `needle` occurs in `hay` starting at index `i`. */
  ghost predicate OccursAt(hay: string, needle: string, i: int) {
    0 <= i && i + |needle| <= |hay| && hay[i..i + |needle|] == needle
  }

  /** Python's `needle in hay` on two `str` values, stated declaratively. */
  ghost predicate IsSubstring(needle: string, hay: string) {
    exists i :: OccursAt(hay, needle, i)
  }

  lemma ShiftOccurs(hay: string, needle: string, i: int)
    requires |hay| > 0 && 0 <= i
    ensures OccursAt(hay[1..], needle, i) <==> OccursAt(hay, needle, i + 1)
  {
    if i + |needle| <= |hay| - 1 {
      assert hay[1..][i..i + |needle|] == hay[i + 1..i + 1 + |needle|];
    }
  }

  /** When `needle` is not a prefix of `hay`, it occurs in `hay` exactly when it
      occurs in `hay` without its first character. */
  lemma DropFirst(hay: string, needle: string)
    requires |hay| > 0 && |needle| <= |hay| && hay[..|needle|] != needle
    ensures IsSubstring(needle, hay) <==> IsSubstring(needle, hay[1..])
  {
    if IsSubstring(needle, hay) {
      var i :| OccursAt(hay, needle, i);
      assert i != 0;
      ShiftOccurs(hay, needle, i - 1);
    }
    if IsSubstring(needle, hay[1..]) {
      var i :| OccursAt(hay[1..], needle, i);
      ShiftOccurs(hay, needle, i);
    }
  }

  /** Executable substring search: `needle in hay`. */
  function Contains(hay: string, needle: string): (b: bool)
    ensures b <==> IsSubstring(needle, hay)
    decreases |hay|
  {
    if |needle| > |hay| then
      false
    else if hay[..|needle|] == needle then
      assert OccursAt(hay, needle, 0);
      true
    else
      DropFirst(hay, needle);
      Contains(hay[1..], needle)
  }

  /** `''.join(chunks)`. */
  function Join(chunks: seq<string>): string {
    if |chunks| == 0 then "" else chunks[0] + Join(chunks[1..])
  }

  /** Joining two lists of chunks in turn equals joining their concatenation. */
  lemma {:induction false} JoinAppend(a: seq<string>, b: seq<string>)
    ensures Join(a + b) == Join(a) + Join(b)
    decreases |a|
  {
    if |a| == 0 {
      assert a + b == b;
    } else {
      assert (a + b)[1..] == a[1..] + b;
      JoinAppend(a[1..], b);
    }
  }

  /** Lower-cases the ASCII letters A-Z and leaves every other character alone. */
  function LowerChar(c: char): char {
    if 'A' <= c <= 'Z' then (c as int - 'A' as int + 'a' as int) as char else c
  }

  /** `s.lower()`, restricted to ASCII case mapping. */
  function Lower(s: string): (r: string)
    ensures |r| == |s|
    ensures forall i :: 0 <= i < |s| ==> r[i] == LowerChar(s[i])
  {
    seq(|s|, i requires 0 <= i < |s| => LowerChar(s[i]))
  }

  /** The whitespace `int()` strips around its digits: the ASCII characters
      `\t` to `\r` and the space, and every non-ASCII character `str.isspace()`
      accepts. The ASCII separators U+001C to U+001F, which `str.isspace()`
      also accepts, are not stripped: `int()` rejects them. */
  predicate IsSpace(c: char) {
    || '\t' <= c <= '\r'
    || c == ' '
    || c == '\U{85}' || c == '\U{A0}' || c == '\U{1680}'
    || '\U{2000}' <= c <= '\U{200A}'
    || c == '\U{2028}' || c == '\U{2029}' || c == '\U{202F}' || c == '\U{205F}' || c == '\U{3000}'
  }

  /** The leading stripping of `int()`: the suffix of `s` left after dropping leading whitespace. */
  function StripLeft(s: string): (r: string)
    ensures |r| <= |s| && r == s[|s| - |r|..]
    ensures forall k :: 0 <= k < |s| - |r| ==> IsSpace(s[k])
    ensures |r| == 0 || !IsSpace(r[0])
    decreases |s|
  {
    if |s| > 0 && IsSpace(s[0]) then StripLeft(s[1..]) else s
  }

  /** The trailing stripping of `int()`: the prefix of `s` left after dropping trailing whitespace. */
  function StripRight(s: string): (r: string)
    ensures |r| <= |s| && r == s[..|r|]
    ensures forall k :: |r| <= k < |s| ==> IsSpace(s[k])
    ensures |r| == 0 || !IsSpace(r[|r| - 1])
    decreases |s|
  {
    if |s| > 0 && IsSpace(s[|s| - 1]) then StripRight(s[..|s| - 1]) else s
  }

  /** Both ends stripped, as `int()` does before reading its digits. */
  function Strip(s: string): (r: string)
    ensures |r| == 0 || (!IsSpace(r[0]) && !IsSpace(r[|r| - 1]))
  {
    var l := StripLeft(s);
    var r := StripRight(l);
    assert |r| > 0 ==> r[0] == l[0];
    r
  }

  /** A string with no whitespace at either end is left alone by `Strip`. */
  lemma StripKeeps(s: string)
    requires |s| > 0 && !IsSpace(s[0]) && !IsSpace(s[|s| - 1])
    ensures Strip(s) == s
  {
    var l := StripLeft(s);
    assert l == s;
  }

  /** A string that does not start with whitespace keeps its first
      character when stripped. */
  lemma StripFirst(s: string)
    requires |s| > 0 && !IsSpace(s[0])
    ensures |Strip(s)| > 0 && Strip(s)[0] == s[0]
  {
    assert StripLeft(s) == s;
  }

  /** Leading whitespace in front of a non-blank start is dropped by `StripLeft`. */
  lemma {:induction false} StripLeftPadding(pre: string, t: string)
    requires forall k :: 0 <= k < |pre| ==> IsSpace(pre[k])
    requires |t| > 0 && !IsSpace(t[0])
    ensures StripLeft(pre + t) == t
    decreases |pre|
  {
    if |pre| > 0 {
      assert (pre + t)[1..] == pre[1..] + t;
      StripLeftPadding(pre[1..], t);
    } else {
      assert pre + t == t;
    }
  }

  /** Trailing whitespace after a non-blank end is dropped by `StripRight`, and
      `Strip` then keeps the whole of the non-blank part. */
  lemma {:induction false} StripRightPadding(t: string, post: string)
    requires forall k :: 0 <= k < |post| ==> IsSpace(post[k])
    requires |t| > 0 && !IsSpace(t[|t| - 1])
    ensures StripRight(t + post) == t
    decreases |post|
  {
    if |post| > 0 {
      assert (t + post)[..|t + post| - 1] == t + post[..|post| - 1];
      StripRightPadding(t, post[..|post| - 1]);
    } else {
      assert t + post == t;
    }
  }

  /** `Strip` removes exactly the whitespace padding around a string whose
      ends are not blank. */
  lemma StripPadded(pre: string, t: string, post: string)
    requires forall k :: 0 <= k < |pre| ==> IsSpace(pre[k])
    requires forall k :: 0 <= k < |post| ==> IsSpace(post[k])
    requires |t| > 0 && !IsSpace(t[0]) && !IsSpace(t[|t| - 1])
    ensures Strip(pre + t + post) == t
  {
    assert pre + t + post == pre + (t + post);
    assert (t + post)[0] == t[0];
    StripLeftPadding(pre, t + post);
    StripRightPadding(t, post);
  }

  /** A needle whose first character never occurs in `hay` is not in it. */
  lemma AbsentFirst(needle: string, hay: string)
    requires |needle| > 0 && needle[0] !in hay
    ensures !IsSubstring(needle, hay)
  {
  }

  lemma OccursInMiddle(pre: string, needle: string, post: string)
    ensures IsSubstring(needle, pre + needle + post)
  {
    assert OccursAt(pre + needle + post, needle, |pre|) by {
      assert (pre + needle + post)[|pre|..|pre| + |needle|] == needle;
    }
  }

  lemma LowerAppend(a: string, b: string)
    ensures Lower(a + b) == Lower(a) + Lower(b)
  {
    assert forall i :: 0 <= i < |a + b| ==> Lower(a + b)[i] == (Lower(a) + Lower(b))[i];
  }

  /** Text without capital letters is its own lower case. */
  lemma LowerKeeps(s: string)
    requires forall c :: c in s ==> !('A' <= c <= 'Z')
    ensures Lower(s) == s
  {
    forall i | 0 <= i < |s|
      ensures Lower(s)[i] == s[i]
    {
      assert s[i] in s;
    }
  }
}
