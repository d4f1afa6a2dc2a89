/** Absent-or-present values and success-or-error results, used by every module. */
module Base {

  datatype Option<+T> = None | Some(value: T) {
    function GetOr(default: T): T {
      match this
      case Some(v) => v
      case None => default
    }
  }

  datatype Result<+T, +E> = Ok(value: T) | Err(error: E)
}

/**
 * The string operations the program relies on, as Python defines them:
 * `str.strip`, `str.lower`, `str.title`, `in`, `str.count`, `"\n".join`,
 * `str(int)` and slicing. Letters outside ASCII and the Latin-1 supplement
 * are treated as having no case.
 */
module Text {

  /** The characters for which Python's `str.isspace()` holds (these are also what `\s` matches). */
  predicate IsSpace(c: char) {
    || c == ' '
    || ('\t' <= c <= '\r')
    || ('\U{1c}' <= c <= '\U{1f}')
    || c == '\U{85}' || c == '\U{a0}' || c == '\U{1680}'
    || ('\U{2000}' <= c <= '\U{200a}')
    || c == '\U{2028}' || c == '\U{2029}' || c == '\U{202f}' || c == '\U{205f}' || c == '\U{3000}'
  }

  predicate AllSpace(s: string) {
    forall k :: 0 <= k < |s| ==> IsSpace(s[k])
  }

  // ---------------------------------------------------------------- strip

  function TrimStart(s: string): (r: string)
    ensures |r| <= |s|
  {
    if |s| > 0 && IsSpace(s[0]) then TrimStart(s[1..]) else s
  }

  function TrimEnd(s: string): (r: string)
    ensures |r| <= |s|
  {
    if |s| > 0 && IsSpace(s[|s| - 1]) then TrimEnd(s[..|s| - 1]) else s
  }

  lemma {:induction false} TrimStartFacts(s: string)
    ensures TrimStart(s) == s[|s| - |TrimStart(s)|..]
    ensures TrimStart(s) == [] || !IsSpace(TrimStart(s)[0])
    ensures forall k :: 0 <= k < |s| - |TrimStart(s)| ==> IsSpace(s[k])
  {
    if |s| > 0 && IsSpace(s[0]) {
      TrimStartFacts(s[1..]);
    }
  }

  lemma {:induction false} TrimEndFacts(s: string)
    ensures TrimEnd(s) == s[..|TrimEnd(s)|]
    ensures TrimEnd(s) == [] || !IsSpace(TrimEnd(s)[|TrimEnd(s)| - 1])
    ensures forall k :: |TrimEnd(s)| <= k < |s| ==> IsSpace(s[k])
  {
    if |s| > 0 && IsSpace(s[|s| - 1]) {
      TrimEndFacts(s[..|s| - 1]);
    }
  }

  /** Python's `str.strip()` with no argument. */
  function Strip(s: string): (r: string)
    ensures |r| <= |s|
    ensures r == [] || (!IsSpace(r[0]) && !IsSpace(r[|r| - 1]))
  {
    var t := TrimStart(s);
    TrimStartFacts(s);
    TrimEndFacts(t);
    var r := TrimEnd(t);
    assert r != [] ==> r[0] == t[0];
    r
  }

  lemma {:induction false} TrimStartAt(s: string, i: nat)
    requires i <= |s|
    requires forall k :: 0 <= k < i ==> IsSpace(s[k])
    requires i == |s| || !IsSpace(s[i])
    ensures TrimStart(s) == s[i..]
  {
    if i > 0 {
      TrimStartAt(s[1..], i - 1);
      assert s[1..][i - 1..] == s[i..];
    }
  }

  lemma {:induction false} TrimEndAt(s: string, j: nat)
    requires j <= |s|
    requires forall k :: j <= k < |s| ==> IsSpace(s[k])
    requires j == 0 || !IsSpace(s[j - 1])
    ensures TrimEnd(s) == s[..j]
    decreases |s| - j
  {
    if j < |s| {
      TrimEndAt(s[..|s| - 1], j);
      assert s[..|s| - 1][..j] == s[..j];
    }
  }

  /**
   * The reference definition of strip: cutting a whitespace-only prefix and
   * suffix so that what remains is empty or starts and ends with a
   * non-whitespace character gives exactly `Strip`.
   */
  lemma StripCharacterisation(s: string, i: nat, j: nat)
    requires i <= j <= |s|
    requires forall k :: 0 <= k < i ==> IsSpace(s[k])
    requires forall k :: j <= k < |s| ==> IsSpace(s[k])
    requires i == j || (!IsSpace(s[i]) && !IsSpace(s[j - 1]))
    ensures Strip(s) == s[i..j]
  {
    if i == j {
      forall k | 0 <= k < |s|
        ensures IsSpace(s[k])
      {
        if k < i {} else {}
      }
      TrimStartAt(s, |s|);
      assert TrimStart(s) == [];
    } else {
      TrimStartAt(s, i);
      var t := TrimStart(s);
      assert t == s[i..];
      forall k | j - i <= k < |t|
        ensures IsSpace(t[k])
      {
        assert t[k] == s[i + k];
      }
      TrimEndAt(t, j - i);
      assert t[..j - i] == s[i..j];
    }
  }

  lemma StripIdempotent(s: string)
    ensures Strip(Strip(s)) == Strip(s)
  {
    var r := Strip(s);
    StripCharacterisation(r, 0, |r|);
  }

  /** A core that starts and ends with non-whitespace survives strip unchanged, whatever whitespace frames it. */
  lemma StripFramed(pre: string, core: string, post: string)
    requires AllSpace(pre) && AllSpace(post)
    requires core != [] && !IsSpace(core[0]) && !IsSpace(core[|core| - 1])
    ensures Strip(pre + core + post) == core
  {
    var s := pre + core + post;
    StripCharacterisation(s, |pre|, |pre| + |core|);
    assert s[|pre|..|pre| + |core|] == core;
  }

  /** What strip keeps is a contiguous piece of its input. */
  lemma StripInside(s: string)
    ensures Contains(s, Strip(s))
  {
    var t := TrimStart(s);
    TrimStartFacts(s);
    TrimEndFacts(t);
    var i := |s| - |t|;
    assert s[i..i + |Strip(s)|] == t[..|Strip(s)|];
    assert OccursAt(s, Strip(s), i);
  }

  /** Whatever lies between two pieces that are not all whitespace survives strip. */
  lemma StripKeepsInterior(a: string, x: string, b: string)
    requires !AllSpace(a) && !AllSpace(b)
    ensures Contains(Strip(a + x + b), x)
  {
    var s := a + x + b;
    var p :| 0 <= p < |a| && !IsSpace(a[p]);
    var q :| 0 <= q < |b| && !IsSpace(b[q]);
    var m := |a| + |x| + q;
    assert s[p] == a[p] && s[m] == b[q];
    var i, j := StripWindow(s, p, m);
    var o := |a| - i;
    var r := Strip(s);
    forall k | 0 <= k < |x| ensures r[o + k] == x[k] {
      assert r[o + k] == s[|a| + k];
    }
    assert r[o..o + |x|] == x;
    assert OccursAt(r, x, o);
  }

  /** Strip keeps a window of its input that reaches from any non-whitespace character to any later one. */
  lemma StripWindow(s: string, p: nat, m: nat) returns (i: nat, j: nat)
    requires p <= m < |s| && !IsSpace(s[p]) && !IsSpace(s[m])
    ensures i <= p && m < j <= |s| && Strip(s) == s[i..j]
  {
    var t := TrimStart(s);
    TrimStartFacts(s);
    i := |s| - |t|;
    var r := TrimEnd(t);
    TrimEndFacts(t);
    j := i + |r|;
    assert t[m - i] == s[m];
    assert s[i..j] == t[..|r|];
  }

  /** A string strips to nothing exactly when it is all whitespace. */
  lemma StripEmptyIffAllSpace(s: string)
    ensures Strip(s) == [] <==> AllSpace(s)
  {
    if AllSpace(s) {
      StripCharacterisation(s, 0, 0);
    }
    if Strip(s) == [] {
      var t := TrimStart(s);
      TrimStartFacts(s);
      TrimEndFacts(t);
      forall k | 0 <= k < |s|
        ensures IsSpace(s[k])
      {
        if k >= |s| - |t| {
          assert s[k] == t[k - (|s| - |t|)];
        }
      }
    }
  }

  // --------------------------------------------- list normalisation

  /** The comprehension `[x.strip() for x in items if x and x.strip()]`. */
  function StrippedNonBlank(items: seq<string>): (r: seq<string>)
    ensures |r| <= |items|
  {
    if items == [] then []
    else (if Strip(items[0]) != [] then [Strip(items[0])] else []) + StrippedNonBlank(items[1..])
  }

  lemma {:induction false} StrippedNonBlankAppend(a: seq<string>, b: seq<string>)
    ensures StrippedNonBlank(a + b) == StrippedNonBlank(a) + StrippedNonBlank(b)
  {
    if a != [] {
      assert (a + b)[0] == a[0];
      assert (a + b)[1..] == a[1..] + b;
      StrippedNonBlankAppend(a[1..], b);
      var h := if Strip(a[0]) != [] then [Strip(a[0])] else [];
      assert StrippedNonBlank(a + b) == h + StrippedNonBlank(a[1..] + b);
      assert StrippedNonBlank(a) == h + StrippedNonBlank(a[1..]);
    } else {
      assert a + b == b;
    }
  }

  /** Every kept item is non-empty and already stripped. */
  lemma {:induction false} StrippedNonBlankClean(items: seq<string>)
    ensures forall k :: 0 <= k < |StrippedNonBlank(items)| ==>
      StrippedNonBlank(items)[k] != [] && Strip(StrippedNonBlank(items)[k]) == StrippedNonBlank(items)[k]
  {
    if items != [] {
      StrippedNonBlankClean(items[1..]);
      StripIdempotent(items[0]);
    }
  }

  /** An item is kept exactly when it is the non-empty strip of some input item. */
  lemma {:induction false} StrippedNonBlankMembership(items: seq<string>, x: string)
    ensures x in StrippedNonBlank(items) <==> x != [] && exists k :: 0 <= k < |items| && Strip(items[k]) == x
  {
    if items != [] {
      StrippedNonBlankMembership(items[1..], x);
      if x != [] && exists k :: 0 <= k < |items| && Strip(items[k]) == x {
        var k :| 0 <= k < |items| && Strip(items[k]) == x;
        if k > 0 {
          assert Strip(items[1..][k - 1]) == x;
        }
      }
      if x in StrippedNonBlank(items[1..]) {
        var k :| 0 <= k < |items[1..]| && Strip(items[1..][k]) == x;
        assert Strip(items[k + 1]) == x;
      }
    }
  }

  lemma {:induction false} StrippedNonBlankIdempotent(items: seq<string>)
    ensures StrippedNonBlank(StrippedNonBlank(items)) == StrippedNonBlank(items)
  {
    if items != [] {
      var head := if Strip(items[0]) != [] then [Strip(items[0])] else [];
      StrippedNonBlankAppend(head, StrippedNonBlank(items[1..]));
      StrippedNonBlankIdempotent(items[1..]);
      StripIdempotent(items[0]);
      if head != [] {
        assert StrippedNonBlank(head) == [Strip(items[0])] + StrippedNonBlank(head[1..]);
      }
    }
  }

  /** The comprehension `[x for x in items if x]`: only empty strings are dropped. */
  function NonEmpty(items: seq<string>): (r: seq<string>)
    ensures |r| <= |items|
    ensures forall k :: 0 <= k < |r| ==> r[k] != []
    ensures forall x :: x in r <==> x in items && x != []
  {
    if items == [] then []
    else (if items[0] != [] then [items[0]] else []) + NonEmpty(items[1..])
  }

  /** The filter works piece by piece, so kept items stay in their order. */
  lemma {:induction false} NonEmptyAppend(a: seq<string>, b: seq<string>)
    ensures NonEmpty(a + b) == NonEmpty(a) + NonEmpty(b)
  {
    if a == [] {
      assert a + b == b;
    } else {
      assert (a + b)[1..] == a[1..] + b;
      NonEmptyAppend(a[1..], b);
    }
  }

  // -------------------------------------------------------------- case

  /** Upper-case letters of the explicit alphabet: ASCII and Latin-1 (`×` excluded). */
  predicate IsUpper(c: char) {
    ('A' <= c <= 'Z') || ('\U{c0}' <= c <= '\U{de}' && c != '\U{d7}')
  }

  /** Lower-case letters of the explicit alphabet (`÷`, `ß` and `ÿ` excluded: they do not map one to one). */
  predicate IsLower(c: char) {
    ('a' <= c <= 'z') || ('\U{e0}' <= c <= '\U{fe}' && c != '\U{f7}')
  }

  predicate IsCased(c: char) {
    IsUpper(c) || IsLower(c)
  }

  function LowerChar(c: char): (r: char)
    ensures IsUpper(c) ==> IsLower(r)
    ensures !IsUpper(c) ==> r == c
  {
    if IsUpper(c) then (c as int + 32) as char else c
  }

  function UpperChar(c: char): (r: char)
    ensures IsLower(c) ==> IsUpper(r)
    ensures !IsLower(c) ==> r == c
  {
    if IsLower(c) then (c as int - 32) as char else c
  }

  /** Python's `str.lower()` over the explicit alphabet. */
  function Lower(s: string): (r: string)
    ensures |r| == |s|
    ensures forall k :: 0 <= k < |s| ==> r[k] == LowerChar(s[k])
  {
    seq(|s|, k requires 0 <= k < |s| => LowerChar(s[k]))
  }

  /** Character equality as Python's `re.IGNORECASE` sees it, over the explicit alphabet. */
  predicate SameIgnoringCase(a: char, b: char) {
    LowerChar(a) == LowerChar(b)
  }

  function TitleFrom(s: string, afterCased: bool): (r: string)
    ensures |r| == |s|
  {
    if s == [] then []
    else [if afterCased then LowerChar(s[0]) else UpperChar(s[0])] + TitleFrom(s[1..], IsCased(s[0]))
  }

  /** Python's `str.title()`: a cased letter is upper-cased when it does not follow a cased letter, lower-cased otherwise. */
  function TitleCase(s: string): (r: string)
    ensures |r| == |s|
  {
    TitleFrom(s, false)
  }

  lemma {:induction false} TitleFromAt(s: string, afterCased: bool, i: nat)
    requires i < |s|
    ensures TitleFrom(s, afterCased)[i] ==
      if (if i == 0 then afterCased else IsCased(s[i - 1])) then LowerChar(s[i]) else UpperChar(s[i])
  {
    if i > 0 {
      TitleFromAt(s[1..], IsCased(s[0]), i - 1);
    }
  }

  /** The per-character reading of `TitleCase`. */
  lemma TitleCaseAt(s: string, i: nat)
    requires i < |s|
    ensures TitleCase(s)[i] == if i > 0 && IsCased(s[i - 1]) then LowerChar(s[i]) else UpperChar(s[i])
  {
    TitleFromAt(s, false, i);
  }

  /** `s.replace(a, b)` for single characters. */
  function ReplaceChar(s: string, a: char, b: char): (r: string)
    ensures |r| == |s|
    ensures forall k :: 0 <= k < |s| ==> r[k] == if s[k] == a then b else s[k]
  {
    seq(|s|, k requires 0 <= k < |s| => if s[k] == a then b else s[k])
  }

  // ------------------------------------------------------------ search

  predicate OccursAt(text: string, pat: string, i: nat) {
    i + |pat| <= |text| && text[i..i + |pat|] == pat
  }

  /** Python's `pat in text`. */
  predicate Contains(text: string, pat: string) {
    exists i: nat | i <= |text| :: OccursAt(text, pat, i)
  }

  /** Concatenation regrouped, for proofs that append piece by piece. */
  lemma ConcatAssoc<T>(a: seq<T>, b: seq<T>, c: seq<T>)
    ensures a + b + c == a + (b + c)
  {
  }

  lemma PrefixOfConcat(a: string, b: string)
    ensures a <= a + b
  {
  }

  lemma ContainsConcat(a: string, x: string, b: string)
    ensures Contains(a + x + b, x)
  {
    assert OccursAt(a + x + b, x, |a|);
  }

  /** A piece of a string is a piece of any string around it. */
  lemma ContainsWithin(a: string, x: string, b: string, pat: string)
    requires Contains(x, pat)
    ensures Contains(a + x + b, pat)
  {
    var i: nat :| i <= |x| && OccursAt(x, pat, i);
    assert (a + x + b)[|a| + i..|a| + i + |pat|] == x[i..i + |pat|];
    assert OccursAt(a + x + b, pat, |a| + i);
  }

  lemma {:induction false} ContainsTail(text: string, pat: string)
    requires text != [] && !OccursAt(text, pat, 0)
    ensures Contains(text, pat) <==> Contains(text[1..], pat)
  {
    if Contains(text, pat) {
      var i: nat :| i <= |text| && OccursAt(text, pat, i);
      assert i > 0;
      assert text[1..][i - 1..i - 1 + |pat|] == text[i..i + |pat|];
      assert OccursAt(text[1..], pat, i - 1);
    }
    if Contains(text[1..], pat) {
      var i: nat :| i <= |text[1..]| && OccursAt(text[1..], pat, i);
      assert text[i + 1..i + 1 + |pat|] == text[1..][i..i + |pat|];
      assert OccursAt(text, pat, i + 1);
    }
  }

  /** Python's `text.count(pat)`: non-overlapping occurrences, found left to right. */
  function Count(text: string, pat: string): nat
    requires pat != []
    decreases |text|
  {
    if |text| < |pat| then 0
    else if text[..|pat|] == pat then 1 + Count(text[|pat|..], pat)
    else Count(text[1..], pat)
  }

  /** No occurrence is counted exactly when the pattern does not occur. */
  lemma {:induction false} CountZeroIffAbsent(text: string, pat: string)
    requires pat != []
    ensures Count(text, pat) == 0 <==> !Contains(text, pat)
    decreases |text|
  {
    if |text| < |pat| {
      assert forall i: nat | i <= |text| :: !OccursAt(text, pat, i);
    } else if text[..|pat|] == pat {
      assert OccursAt(text, pat, 0);
    } else {
      CountZeroIffAbsent(text[1..], pat);
      ContainsTail(text, pat);
    }
  }

  // -------------------------------------------------------------- join

  /** Python's `"\n".join(lines)`. */
  function JoinLines(lines: seq<string>): string {
    if lines == [] then ""
    else if |lines| == 1 then lines[0]
    else lines[0] + "\n" + JoinLines(lines[1..])
  }

  lemma {:induction false} JoinLinesContains(lines: seq<string>, k: nat)
    requires k < |lines|
    ensures Contains(JoinLines(lines), lines[k])
  {
    if |lines| == 1 {
      assert lines[0] == [] + lines[0] + [];
      ContainsConcat([], lines[0], []);
    } else if k == 0 {
      ContainsConcat([], lines[0], "\n" + JoinLines(lines[1..]));
      assert JoinLines(lines) == [] + lines[0] + ("\n" + JoinLines(lines[1..]));
    } else {
      JoinLinesContains(lines[1..], k - 1);
      var rest := JoinLines(lines[1..]);
      var i: nat :| i <= |rest| && OccursAt(rest, lines[k], i);
      var pre := lines[0] + "\n";
      assert JoinLines(lines) == pre + rest;
      assert (pre + rest)[|pre| + i..|pre| + i + |lines[k]|] == rest[i..i + |lines[k]|];
      assert OccursAt(JoinLines(lines), lines[k], |pre| + i);
    }
  }

  lemma {:induction false} JoinLinesEmpty(lines: seq<string>)
    requires forall k :: 0 <= k < |lines| ==> lines[k] != []
    ensures JoinLines(lines) == [] <==> lines == []
  {
    if |lines| > 1 {
      assert |JoinLines(lines)| >= |lines[0]|;
    }
  }

  /** Each line prefixed with `"- "`. */
  function Bulleted(items: seq<string>): (r: seq<string>)
    ensures |r| == |items|
    ensures forall k :: 0 <= k < |items| ==> r[k] == "- " + items[k]
  {
    seq(|items|, k requires 0 <= k < |items| => "- " + items[k])
  }

  /** `"\n".join(f"- {x}" for x in items)`: the bullet lists of every prompt. */
  function BulletList(items: seq<string>): string {
    JoinLines(Bulleted(items))
  }

  /** Every item of a bullet list appears in it, preceded by its bullet. */
  lemma BulletListContains(items: seq<string>, k: nat)
    requires k < |items|
    ensures Contains(BulletList(items), "- " + items[k])
  {
    JoinLinesContains(Bulleted(items), k);
  }

  /** Every non-empty item reaches the bullet list of the filtered items. */
  lemma NonEmptyListed(items: seq<string>, k: nat)
    requires k < |items| && items[k] != []
    ensures Contains(BulletList(NonEmpty(items)), "- " + items[k])
  {
    var r := NonEmpty(items);
    assert items[k] in r;
    var j :| 0 <= j < |r| && r[j] == items[k];
    BulletListContains(r, j);
  }

  lemma BulletListEmpty(items: seq<string>)
    ensures BulletList(items) == [] <==> items == []
  {
    JoinLinesEmpty(Bulleted(items));
  }

  /** Python's slice `s[:n]`. */
  function Take(s: string, n: nat): (r: string)
    ensures |r| == if |s| < n then |s| else n
    ensures r <= s
  {
    if |s| < n then s else s[..n]
  }

  // --------------------------------------------------------- integers

  function DigitChar(d: nat): char
    requires d < 10
  {
    "0123456789"[d]
  }

  /** Python's `str(n)` for a natural number. */
  function NatToString(n: nat): (r: string)
    ensures r != []
    decreases n
  {
    if n < 10 then [DigitChar(n)] else NatToString(n / 10) + [DigitChar(n % 10)]
  }

  /** Python's `str(i)` for any integer. */
  function IntToString(i: int): (r: string)
    ensures r != []
  {
    if i < 0 then "-" + NatToString(-i) else NatToString(i)
  }

  predicate IsDigit(c: char) {
    '0' <= c <= '9'
  }

  /** The value of a string of decimal digits (the reading direction of `NatToString`). */
  function DecimalValue(s: string): nat
    requires forall k :: 0 <= k < |s| ==> IsDigit(s[k])
  {
    if s == [] then 0
    else
      assert IsDigit(s[|s| - 1]);
      10 * DecimalValue(s[..|s| - 1]) + (s[|s| - 1] as int - '0' as int)
  }

  lemma {:induction false} NatToStringDecimal(n: nat)
    ensures forall k :: 0 <= k < |NatToString(n)| ==> IsDigit(NatToString(n)[k])
    ensures DecimalValue(NatToString(n)) == n
    ensures NatToString(n)[0] != '0' || n == 0
    decreases n
  {
    if n >= 10 {
      NatToStringDecimal(n / 10);
      var s := NatToString(n);
      assert s[..|s| - 1] == NatToString(n / 10);
    }
  }

  /** Distinct numbers render as distinct strings. */
  lemma NatToStringInjective(m: nat, n: nat)
    requires NatToString(m) == NatToString(n)
    ensures m == n
  {
    NatToStringDecimal(m);
    NatToStringDecimal(n);
  }
}
