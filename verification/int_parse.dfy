/** Python's `int(text)` on a `str`, restricted to ASCII digits: surrounding
    whitespace is stripped, one optional sign is accepted, and single
    underscores may separate digits. Anything else is a `ValueError`,
    modelled as `None`. */
module IntParse {
  import opened Results
  import opened Strings

  predicate IsDigit(c: char) {
    '0' <= c <= '9'
  }

  function DigitValue(c: char): (d: nat)
    requires IsDigit(c)
    ensures d < 10
  {
    c as int - '0' as int
  }

  function DigitChar(d: nat): (c: char)
    requires d < 10
    ensures IsDigit(c) && DigitValue(c) == d
  {
    ('0' as int + d) as char
  }

  /** The value of `digit ('_'? digit)*`, read from the right; `None` for any
      other shape (empty, leading or trailing underscore, doubled underscore,
      a non-digit). */
  function ParseDigits(s: string): Option<nat>
    decreases |s|
  {
    if |s| == 0 || !IsDigit(s[|s| - 1]) then
      None
    else if |s| == 1 then
      Some(DigitValue(s[0]))
    else
      var prefix := if s[|s| - 2] == '_' then s[..|s| - 2] else s[..|s| - 1];
      if |prefix| == 0 then
        None
      else
        match ParseDigits(prefix)
        case None => None
        case Some(v) => Some(v * 10 + DigitValue(s[|s| - 1]))
  }

  /** `int(text)`. */
  function ParseInt(text: string): Option<int> {
    var t := Strip(text);
    if |t| > 0 && t[0] == '-' then
      match ParseDigits(t[1..])
      case None => None
      case Some(v) => Some(-(v as int))
    else if |t| > 0 && t[0] == '+' then
      match ParseDigits(t[1..])
      case None => None
      case Some(v) => Some(v)
    else
      match ParseDigits(t)
      case None => None
      case Some(v) => Some(v)
  }

  /** `str(n)` for a natural number: decimal digits, no sign, no padding. */
  function Show(n: nat): (r: string)
    ensures |r| > 0
    ensures forall i :: 0 <= i < |r| ==> IsDigit(r[i])
  {
    if n < 10 then [DigitChar(n)] else Show(n / 10) + [DigitChar(n % 10)]
  }

  /** Reading back the digits of `Show(n)` yields `n`. */
  lemma {:induction false} ParseDigitsShow(n: nat)
    ensures ParseDigits(Show(n)) == Some(n)
  {
    if n >= 10 {
      var s := Show(n);
      assert s[..|s| - 1] == Show(n / 10);
      assert s[|s| - 2] != '_';
      ParseDigitsShow(n / 10);
    }
  }

  /** `int(str(n)) == n`: the revision id written into a dump is read back
      unchanged. */
  lemma ParseShow(n: nat)
    ensures ParseInt(Show(n)) == Some(n)
  {
    StripKeeps(Show(n));
    assert IsDigit(Show(n)[0]);
    ParseDigitsShow(n);
  }

  /** `int(str(n))` also succeeds with whitespace around the digits, as in
      `<id>\n 42 \n</id>`. */
  lemma ParseShowPadded(pre: string, n: nat, post: string)
    requires forall k :: 0 <= k < |pre| ==> IsSpace(pre[k])
    requires forall k :: 0 <= k < |post| ==> IsSpace(post[k])
    ensures ParseInt(pre + Show(n) + post) == Some(n)
  {
    var t := Show(n);
    StripPadded(pre, t, post);
    assert IsDigit(t[0]);
    ParseDigitsShow(n);
  }

  /** Digits always start with a digit. */
  lemma {:induction false} ParseDigitsFirst(s: string)
    requires ParseDigits(s).Some?
    ensures |s| > 0 && IsDigit(s[0])
    decreases |s|
  {
    if |s| > 1 {
      var prefix := if s[|s| - 2] == '_' then s[..|s| - 2] else s[..|s| - 1];
      ParseDigitsFirst(prefix);
      assert prefix[0] == s[0];
    }
  }

  /** An ASCII information separator is not whitespace to `int()`: a text
      that starts with one, such as `'\x1c42'`, is a `ValueError`. */
  lemma SeparatorRejected(text: string)
    requires |text| > 0 && '\U{1C}' <= text[0] <= '\U{1F}'
    ensures ParseInt(text) == None
  {
    var t := Strip(text);
    StripFirst(text);
    if ParseDigits(t).Some? {
      ParseDigitsFirst(t);
    }
  }
}
