/**
 * The few Python `str` operations the bot's decisions depend on: `strip()`,
 * `lower()`, `replace(c, "")` and `isalnum()`. Python defines them over all of
 * Unicode; the character classes below cover ASCII, Latin-1, Latin Extended-A
 * and basic Cyrillic (the scripts of the bot's three languages).
 */
module PyStr {

  /** `c.isspace()`: the characters Python strips by default. */
  predicate IsSpace(c: char) {
    || c == ' ' || c == '\t' || c == '\n' || c == '\r'
    || c == '\U{000B}' || c == '\U{000C}'
    || ('\U{001C}' <= c <= '\U{001F}')
    || c == '\U{0085}' || c == '\U{00A0}' || c == '\U{1680}'
    || ('\U{2000}' <= c <= '\U{200A}')
    || c == '\U{2028}' || c == '\U{2029}' || c == '\U{202F}' || c == '\U{205F}' || c == '\U{3000}'
  }

  /** The end of the run of whitespace that starts at `i`. */
  function LeadEnd(s: string, i: nat): (e: nat)
    requires i <= |s|
    ensures i <= e <= |s|
    ensures forall k :: i <= k < e ==> IsSpace(s[k])
    ensures e == |s| || !IsSpace(s[e])
    decreases |s| - i
  {
    if i < |s| && IsSpace(s[i]) then LeadEnd(s, i + 1) else i
  }

  /** The start of the run of whitespace that ends at `j`, going no lower than `lo`. */
  function TrailStart(s: string, lo: nat, j: nat): (b: nat)
    requires lo <= j <= |s|
    ensures lo <= b <= j
    ensures forall k :: b <= k < j ==> IsSpace(s[k])
    ensures b == lo || !IsSpace(s[b - 1])
    decreases j
  {
    if lo < j && IsSpace(s[j - 1]) then TrailStart(s, lo, j - 1) else j
  }

  /**
   * `s.strip()`: the contiguous middle of `s` left after removing every
   * leading and trailing whitespace character.
   */
  function Strip(s: string): (r: string)
    ensures var i := LeadEnd(s, 0);
            && 0 <= i <= i + |r| <= |s| && r == s[i..i + |r|]
            && (forall k :: 0 <= k < i ==> IsSpace(s[k]))
            && (forall k :: i + |r| <= k < |s| ==> IsSpace(s[k]))
    ensures r == [] || (!IsSpace(r[0]) && !IsSpace(r[|r| - 1]))
  {
    var i := LeadEnd(s, 0);
    s[i..TrailStart(s, i, |s|)]
  }

  /** Lemma: stripping twice is stripping once. */
  lemma StripIdempotent(s: string)
    ensures Strip(Strip(s)) == Strip(s)
  {
    var r := Strip(s);
    if r != [] {
      assert LeadEnd(r, 0) == 0;
      assert TrailStart(r, 0, |r|) == |r|;
      assert r[0..|r|] == r;
    }
  }

  /** A non-empty string that neither starts nor ends with whitespace. */
  predicate Unpadded(s: string) {
    s != [] && !IsSpace(s[0]) && !IsSpace(s[|s| - 1])
  }

  /** Lemma: a string that neither starts nor ends with whitespace is its own strip. */
  lemma StripUnpadded(s: string)
    requires Unpadded(s)
    ensures Strip(s) == s
  {
    assert LeadEnd(s, 0) == 0;
    assert TrailStart(s, 0, |s|) == |s|;
    assert s[0..|s|] == s;
  }

  /** `c.lower()` for the characters whose lower case is a single character. */
  function LowerChar(c: char): (d: char)
  {
    if 'A' <= c <= 'Z' then (c as int + 32) as char
    else if 'À' <= c <= 'Þ' && c != '×' then (c as int + 32) as char
    else if ('Ā' <= c <= 'į' || 'Ĳ' <= c <= 'ķ' || 'Ŋ' <= c <= 'ŷ')
            && c as int % 2 == 0 then (c as int + 1) as char
    else if ('Ĺ' <= c <= 'ň' || 'Ź' <= c <= 'ž') && c as int % 2 == 1
      then (c as int + 1) as char
    else if c == 'Ÿ' then 'ÿ'
    else if 'Ѐ' <= c <= 'Џ' then (c as int + 0x50) as char
    else if 'А' <= c <= 'Я' then (c as int + 0x20) as char
    else c
  }

  /** `s.lower()`. */
  function Lower(s: string): (r: string)
    ensures |r| == |s|
    ensures forall k :: 0 <= k < |s| ==> r[k] == LowerChar(s[k])
  {
    seq(|s|, k requires 0 <= k < |s| => LowerChar(s[k]))
  }

  /** Lemma: a lower-cased string is its own lower case. */
  lemma LowerIdempotent(s: string)
    ensures Lower(Lower(s)) == Lower(s)
  {
    forall k | 0 <= k < |s|
      ensures LowerChar(LowerChar(s[k])) == LowerChar(s[k])
    {
    }
  }

  /** `c.isalnum()`: a letter, digit or numeric character. */
  predicate IsAlnumChar(c: char) {
    || ('0' <= c <= '9') || ('a' <= c <= 'z') || ('A' <= c <= 'Z')
    || c == 'ª' || c == '²' || c == '³' || c == 'µ' || c == '¹'
    || c == 'º' || ('¼' <= c <= '¾')
    || ('À' <= c <= 'Ö') || ('Ø' <= c <= 'ö') || ('ø' <= c <= 'ɏ')
    || ('Ѐ' <= c <= 'ҁ') || ('Ҋ' <= c <= 'ԯ')
  }

  /** `s.isalnum()`: true for a non-empty string of letters and digits only. */
  predicate IsAlnum(s: string) {
    |s| > 0 && forall k :: 0 <= k < |s| ==> IsAlnumChar(s[k])
  }

  /** `s.replace(c, "")`: every occurrence of `c` deleted. */
  function RemoveChar(s: string, c: char): (r: string)
    ensures |r| <= |s|
    ensures c !in r
    ensures forall d :: d != c ==> (d in r <==> d in s)
  {
    if s == [] then []
    else (if s[0] == c then [] else [s[0]]) + RemoveChar(s[1..], c)
  }
}
