/**
  The pieces of the Java platform that the bot's commands lean on, written out so that the
  command models can state their edge cases exactly: 32- and 64-bit integer ranges and
  wrap-around, the truncating remainder, Integer.parseInt / Long.parseLong and their inverse,
  String.replace, the two regular-expression rewrites used by ratewaifu, the whitespace
  split behind the command argument parser, and the UTF-16 code units that String.chars()
  yields.
*/
module JavaLang {
  import opened Wrappers

  const INT_MIN: int := -0x8000_0000
  const INT_MAX: int := 0x7fff_ffff
  const LONG_MIN: int := -0x8000_0000_0000_0000
  const LONG_MAX: int := 0x7fff_ffff_ffff_ffff

  predicate IsInt32(x: int) { INT_MIN <= x <= INT_MAX }

  predicate IsInt64(x: int) { LONG_MIN <= x <= LONG_MAX }

  /** Java `int` arithmetic: the mathematical value reduced into the signed 32-bit range. */
  function Wrap32(x: int): (r: int)
    ensures IsInt32(r)
    ensures (x - r) % 0x1_0000_0000 == 0
    ensures IsInt32(x) ==> r == x
  {
    (x - INT_MIN) % 0x1_0000_0000 + INT_MIN
  }

  /** Java's `%` on a positive divisor: the remainder takes the sign of the dividend. */
  function JavaRem(a: int, b: int): (r: int)
    requires b > 0
    ensures -b < r < b
    ensures a >= 0 ==> 0 <= r
    ensures a <= 0 ==> r <= 0
  {
    if a >= 0 then a % b else -((-a) % b)
  }

  // ---------------------------------------------------------------------------------------
  // Decimal digits, Integer.toString and Integer.parseInt / Long.parseLong

  /**
    The zero of every run of ten decimal digits (Unicode category Nd) in the Basic Multilingual
    Plane, ASCII first. Character.digit(ch, 10), which Integer.parseInt and Long.parseLong read
    their digits with, accepts exactly these characters; a digit outside the BMP is a surrogate
    pair to Java, and neither half is a digit.
  */
  const DIGIT_ZEROS: seq<int> := [
    0x0030, 0x0660, 0x06F0, 0x07C0, 0x0966, 0x09E6, 0x0A66, 0x0AE6, 0x0B66, 0x0BE6, 0x0C66,
    0x0CE6, 0x0D66, 0x0DE6, 0x0E50, 0x0ED0, 0x0F20, 0x1040, 0x1090, 0x17E0, 0x1810, 0x1946,
    0x19D0, 0x1A80, 0x1A90, 0x1B50, 0x1BB0, 0x1C40, 0x1C50, 0xA620, 0xA8D0, 0xA900, 0xA9D0,
    0xA9F0, 0xAA50, 0xABF0, 0xFF10]

  /** The value of `c` read from the digit runs from the k-th zero on. */
  function DigitValueFrom(c: char, k: nat): (d: Option<nat>)
    requires k <= |DIGIT_ZEROS|
    ensures d.Some? ==> d.value < 10 && c as int >= 0x30
    decreases |DIGIT_ZEROS| - k
  {
    if k == |DIGIT_ZEROS| then None
    else if DIGIT_ZEROS[k] <= c as int < DIGIT_ZEROS[k] + 10 then Some(c as int - DIGIT_ZEROS[k])
    else DigitValueFrom(c, k + 1)
  }

  /** Character.digit(c, 10): the digit's value, None for -1. */
  function DigitValue(c: char): (d: Option<nat>)
    ensures d.Some? ==> d.value < 10 && c as int >= 0x30
    ensures '0' <= c <= '9' ==> d == Some(c as int - '0' as int)
  {
    DigitValueFrom(c, 0)
  }

  /** The runs of the table lie apart, in ascending order. */
  lemma DigitRunsAscend()
    ensures forall i :: 0 <= i < |DIGIT_ZEROS| - 1 ==> DIGIT_ZEROS[i] + 10 <= DIGIT_ZEROS[i + 1]
  {
  }

  lemma {:induction false} RunsApart(j: nat, k: nat)
    requires j < k < |DIGIT_ZEROS|
    ensures DIGIT_ZEROS[j] + 10 <= DIGIT_ZEROS[k]
    decreases k - j
  {
    DigitRunsAscend();
    if j + 1 < k {
      RunsApart(j + 1, k);
    }
  }

  lemma {:induction false} DigitValueFromRun(c: char, k: nat, j: nat)
    requires j <= k < |DIGIT_ZEROS| && DIGIT_ZEROS[k] <= c as int < DIGIT_ZEROS[k] + 10
    ensures DigitValueFrom(c, j) == Some(c as int - DIGIT_ZEROS[k])
    decreases k - j
  {
    if j < k {
      RunsApart(j, k);
      DigitValueFromRun(c, k, j + 1);
    }
  }

  /** A character of any run of ten digits has, as Character.digit, its offset from the run's zero. */
  lemma DigitValueOfRun(c: char, k: nat)
    requires k < |DIGIT_ZEROS| && DIGIT_ZEROS[k] <= c as int < DIGIT_ZEROS[k] + 10
    ensures DigitValue(c) == Some(c as int - DIGIT_ZEROS[k])
  {
    DigitValueFromRun(c, k, 0);
  }

  predicate IsDigit(c: char) { DigitValue(c).Some? }

  /** What the regular expression `\d` matches: ASCII digits only, Java's default. */
  predicate IsAsciiDigit(c: char) { '0' <= c <= '9' }

  predicate AllDigits(s: string) { forall i :: 0 <= i < |s| ==> IsDigit(s[i]) }

  function DigitChar(d: nat): (c: char)
    requires d < 10
    ensures IsAsciiDigit(c) && DigitValue(c) == Some(d)
  {
    ('0' as int + d) as char
  }

  /** The value of a string of decimal digits, most significant first. */
  function DigitsValue(s: string): nat
    requires AllDigits(s)
  {
    if s == [] then 0 else DigitsValue(s[..|s| - 1]) * 10 + DigitValue(s[|s| - 1]).value
  }

  /** Decimal rendering of a natural number, without leading zeros. */
  function NatToString(n: nat): (s: string)
    ensures |s| > 0
  {
    if n < 10 then [DigitChar(n)] else NatToString(n / 10) + [DigitChar(n % 10)]
  }

  /** Integer.toString / Long.toString. */
  function IntToString(n: int): (s: string)
    ensures |s| > 0
  {
    if n < 0 then "-" + NatToString(-n) else NatToString(n)
  }

  /**
    Integer.parseInt (lo, hi = the int range) and Long.parseLong (the long range): an optional
    '+' or '-' followed by at least one digit, whose value must lie in [lo, hi]; anything else
    is a NumberFormatException, here None.
  */
  function ParseInteger(s: string, lo: int, hi: int): (r: Option<int>)
    ensures r.Some? ==> lo <= r.value <= hi
  {
    if |s| == 0 then None
    else if s[0] == '-' || s[0] == '+' then
      if |s| == 1 || !AllDigits(s[1..]) then None
      else
        var v: int := if s[0] == '-' then -(DigitsValue(s[1..]) as int) else DigitsValue(s[1..]);
        if lo <= v <= hi then Some(v) else None
    else if !AllDigits(s) then None
    else if DigitsValue(s) <= hi && lo <= DigitsValue(s) then Some(DigitsValue(s))
    else None
  }

  function ParseInt(s: string): (r: Option<int>)
    ensures r.Some? ==> IsInt32(r.value)
  {
    ParseInteger(s, INT_MIN, INT_MAX)
  }

  function ParseLong(s: string): (r: Option<int>)
    ensures r.Some? ==> IsInt64(r.value)
  {
    ParseInteger(s, LONG_MIN, LONG_MAX)
  }

  lemma {:induction false} NatToStringDigits(n: nat)
    ensures AllDigits(NatToString(n)) && DigitsValue(NatToString(n)) == n
  {
    var s := NatToString(n);
    if n >= 10 {
      NatToStringDigits(n / 10);
      assert s[..|s| - 1] == NatToString(n / 10);
    }
  }

  /** Parsing what Integer.toString printed gives the number back, for every value in range. */
  lemma ParseIntegerToString(n: int, lo: int, hi: int)
    requires lo <= n <= hi
    ensures ParseInteger(IntToString(n), lo, hi) == Some(n)
  {
    NatToStringDigits(if n < 0 then -n else n);
    if n < 0 {
      assert IntToString(n)[1..] == NatToString(-n);
    } else {
      assert IntToString(n)[0] != '-' && IntToString(n)[0] != '+' by {
        assert IsDigit(NatToString(n)[0]);
      }
    }
  }

  /**
    Digits of other scripts parse like ASCII ones: Arabic-Indic three, fullwidth thirty, and
    Devanagari minus ten.
  */
  lemma ParseIntUnicodeDigits()
    ensures ParseInt("\U{0663}") == Some(3)
    ensures ParseInt("\U{FF13}\U{FF10}") == Some(30)
    ensures ParseInt("-\U{0967}\U{0966}") == Some(-10)
  {
    DigitValueOfRun('\U{0663}', 1);
    DigitValueOfRun('\U{FF13}', 36);
    DigitValueOfRun('\U{FF10}', 36);
    DigitValueOfRun('\U{0967}', 4);
    DigitValueOfRun('\U{0966}', 4);
  }

  lemma ParseIntToString(n: int)
    requires IsInt32(n)
    ensures ParseInt(IntToString(n)) == Some(n)
  {
    ParseIntegerToString(n, INT_MIN, INT_MAX);
  }

  // ---------------------------------------------------------------------------------------
  // String.replace(CharSequence, CharSequence)

  /** Every occurrence of `pat`, scanning left to right without overlap, replaced by `rep`. */
  function Replace(s: string, pat: string, rep: string): string
    requires |pat| > 0
    decreases |s|
  {
    if |s| < |pat| then s
    else if s[..|pat|] == pat then rep + Replace(s[|pat|..], pat, rep)
    else [s[0]] + Replace(s[1..], pat, rep)
  }

  predicate OccursAt(s: string, pat: string, i: nat)
  {
    i + |pat| <= |s| && s[i..i + |pat|] == pat
  }

  /** A string in which the pattern never occurs comes back unchanged. */
  lemma {:induction false} ReplaceAbsent(s: string, pat: string, rep: string)
    requires |pat| > 0
    requires forall i: nat :: !OccursAt(s, pat, i)
    ensures Replace(s, pat, rep) == s
    decreases |s|
  {
    if |s| >= |pat| {
      assert !OccursAt(s, pat, 0);
      assert s[..|pat|] != pat;
      forall i: nat ensures !OccursAt(s[1..], pat, i) {
        assert !OccursAt(s, pat, i + 1);
        if i + |pat| <= |s[1..]| {
          assert s[1..][i..i + |pat|] == s[i + 1..i + 1 + |pat|];
        }
      }
      ReplaceAbsent(s[1..], pat, rep);
    }
  }

  /** Replacing a pattern by itself is the identity. */
  lemma {:induction false} ReplaceBySelf(s: string, pat: string)
    requires |pat| > 0
    ensures Replace(s, pat, pat) == s
    decreases |s|
  {
    if |s| >= |pat| {
      if s[..|pat|] == pat {
        ReplaceBySelf(s[|pat|..], pat);
        assert s == s[..|pat|] + s[|pat|..];
      } else {
        ReplaceBySelf(s[1..], pat);
        assert s == [s[0]] + s[1..];
      }
    }
  }

  /**
   * The first occurrence splits the work: the text before it is copied, the occurrence becomes
   * the replacement, and the scan resumes right after it.
   */
  lemma {:induction false} ReplaceFirst(a: string, pat: string, rep: string, b: string)
    requires |pat| > 0
    requires forall i: nat :: i < |a| ==> !OccursAt(a + pat, pat, i)
    ensures Replace(a + pat + b, pat, rep) == a + rep + Replace(b, pat, rep)
    decreases |a|
  {
    if |a| == 0 {
      var s := pat + b;
      assert a + pat + b == s;
      assert s[..|pat|] == pat && s[|pat|..] == b;
    } else {
      ReplaceSkipsFirst(a, pat, rep, b);
      NoOccurrenceInTail(a, pat);
      ReplaceFirst(a[1..], pat, rep, b);
      calc {
        Replace(a + pat + b, pat, rep);
        [a[0]] + Replace(a[1..] + pat + b, pat, rep);
        [a[0]] + (a[1..] + rep + Replace(b, pat, rep));
        { assert [a[0]] + a[1..] == a; }
        a + rep + Replace(b, pat, rep);
      }
    }
  }

  /** Without an occurrence at the start, the first character is copied and the scan moves on. */
  lemma ReplaceSkipsFirst(a: string, pat: string, rep: string, b: string)
    requires |pat| > 0 && |a| > 0
    requires !OccursAt(a + pat, pat, 0)
    ensures Replace(a + pat + b, pat, rep) == [a[0]] + Replace(a[1..] + pat + b, pat, rep)
  {
    var s := a + pat + b;
    assert s[..|pat|] == (a + pat)[..|pat|];
    assert s[1..] == a[1..] + pat + b;
  }

  /** The absence of early occurrences carries over to the text after its first character. */
  lemma NoOccurrenceInTail(a: string, pat: string)
    requires |a| > 0
    requires forall i: nat :: i < |a| ==> !OccursAt(a + pat, pat, i)
    ensures forall i: nat :: i < |a[1..]| ==> !OccursAt(a[1..] + pat, pat, i)
  {
    forall i: nat | i < |a[1..]| ensures !OccursAt(a[1..] + pat, pat, i) {
      assert !OccursAt(a + pat, pat, i + 1);
      assert (a[1..] + pat)[i..i + |pat|] == (a + pat)[i + 1..i + 1 + |pat|];
    }
  }

  /** The pattern standing alone becomes the replacement. */
  lemma ReplaceWhole(pat: string, rep: string)
    requires |pat| > 0
    ensures Replace(pat, pat, rep) == rep
  {
    assert pat[|pat|..] == [];
    assert pat[..|pat|] == pat;
  }

  // ---------------------------------------------------------------------------------------
  // The regular expressions \s+ and <@!?(\d+)>

  /** `\s` in java.util.regex: space, tab, newline, vertical tab, form feed, carriage return. */
  predicate IsRegexSpace(c: char)
  {
    c == ' ' || c == '\t' || c == '\n' || c == '\U{B}' || c == '\U{C}' || c == '\r'
  }

  /** The input after its leading run of whitespace. */
  function DropSpaces(s: string): (r: string)
    ensures |r| <= |s| && r == s[|s| - |r|..]
    ensures r == [] || !IsRegexSpace(r[0])
    ensures forall i :: 0 <= i < |s| - |r| ==> IsRegexSpace(s[i])
  {
    if s != [] && IsRegexSpace(s[0]) then
      var r := DropSpaces(s[1..]);
      assert s[1..][|s| - 1 - |r|..] == s[|s| - |r|..];
      assert forall i :: 1 <= i < |s| - |r| ==> s[i] == s[1..][i - 1];
      r
    else s
  }

  /** `s.replaceAll("\\s+", " ")`: every maximal run of whitespace becomes one space. */
  function CollapseWhitespace(s: string): (r: string)
    ensures |r| <= |s|
    ensures r == [] <==> s == []
    ensures r != [] ==> (IsRegexSpace(r[0]) <==> IsRegexSpace(s[0]))
    decreases |s|
  {
    if s == [] then []
    else if IsRegexSpace(s[0]) then " " + CollapseWhitespace(DropSpaces(s))
    else [s[0]] + CollapseWhitespace(s[1..])
  }

  /** After the rewrite the only whitespace is single spaces, never two in a row. */
  lemma {:induction false} CollapseWhitespaceShape(s: string)
    ensures forall i :: 0 <= i < |CollapseWhitespace(s)| && IsRegexSpace(CollapseWhitespace(s)[i]) ==>
              CollapseWhitespace(s)[i] == ' ' &&
              (i + 1 < |CollapseWhitespace(s)| ==> !IsRegexSpace(CollapseWhitespace(s)[i + 1]))
    decreases |s|
  {
    if s != [] {
      var r := CollapseWhitespace(s);
      var t := if IsRegexSpace(s[0]) then DropSpaces(s) else s[1..];
      CollapseWhitespaceShape(t);
      assert r[1..] == CollapseWhitespace(t);
    }
  }

  /** Length of the run of ASCII digits (`\d`) at the front of `s`. */
  function DigitRun(s: string): (n: nat)
    ensures n <= |s|
    ensures forall i :: 0 <= i < n ==> IsAsciiDigit(s[i])
    ensures n < |s| ==> !IsAsciiDigit(s[n])
  {
    if s != [] && IsAsciiDigit(s[0]) then 1 + DigitRun(s[1..]) else 0
  }

  /** Does `s` start with a "<@!digits>" mention? */
  predicate StartsWithBangMention(s: string)
  {
    |s| >= 3 && s[0] == '<' && s[1] == '@' && s[2] == '!' &&
    DigitRun(s[3..]) > 0 && 3 + DigitRun(s[3..]) < |s| && s[3 + DigitRun(s[3..])] == '>'
  }

  /**
    `s.replaceAll("<@!?(\\d+)>", "<@$1>")`. A match without '!' is replaced by itself, and a
    match holds a single '<' (its first character), so scanning character by character outside
    the "<@!digits>" matches gives the same text as the regex engine's leftmost scan.
  */
  function NormalizeMentions(s: string): (r: string)
    ensures |r| <= |s|
    decreases |s|
  {
    if s == [] then []
    else if StartsWithBangMention(s) then
      var d := DigitRun(s[3..]);
      "<@" + s[3..3 + d] + ">" + NormalizeMentions(s[4 + d..])
    else [s[0]] + NormalizeMentions(s[1..])
  }

  /** `r` is `s` with some '!' characters deleted, as multisets of characters. */
  ghost predicate DeletesOnlyBangs(r: string, s: string)
  {
    (forall c :: c != '!' ==> multiset(r)[c] == multiset(s)[c]) &&
    multiset(r)['!'] <= multiset(s)['!']
  }

  lemma DeletesOnlyBangsAppend(r1: string, s1: string, r2: string, s2: string)
    requires DeletesOnlyBangs(r1, s1) && DeletesOnlyBangs(r2, s2)
    ensures DeletesOnlyBangs(r1 + r2, s1 + s2)
  {
    assert multiset(r1 + r2) == multiset(r1) + multiset(r2);
    assert multiset(s1 + s2) == multiset(s1) + multiset(s2);
  }

  /** The mention rewrite only deletes '!' characters: every other character keeps its count. */
  lemma {:induction false} NormalizeMentionsDeletesBangs(s: string)
    ensures DeletesOnlyBangs(NormalizeMentions(s), s)
    decreases |s|
  {
    if s != [] {
      if StartsWithBangMention(s) {
        var d := DigitRun(s[3..]);
        NormalizeMentionsDeletesBangs(s[4 + d..]);
        MentionStepDeletesBang(s);
      } else {
        NormalizeMentionsDeletesBangs(s[1..]);
        DeletesOnlyBangsAppend([s[0]], [s[0]], NormalizeMentions(s[1..]), s[1..]);
        assert s == [s[0]] + s[1..];
      }
    }
  }

  lemma BangPrefix()
    ensures DeletesOnlyBangs("<@", "<@!")
  {
    assert multiset("<@!") == multiset("<@") + multiset{'!'};
  }

  lemma BangDeletion(digits: string, rest: string, rewritten: string)
    requires DeletesOnlyBangs(rewritten, rest)
    ensures DeletesOnlyBangs("<@" + digits + ">" + rewritten, "<@!" + digits + ">" + rest)
  {
    BangPrefix();
    DeletesOnlyBangsAppend(digits + ">", digits + ">", rewritten, rest);
    DeletesOnlyBangsAppend("<@", "<@!", digits + ">" + rewritten, digits + ">" + rest);
    assert "<@" + digits + ">" + rewritten == "<@" + (digits + ">" + rewritten);
    assert "<@!" + digits + ">" + rest == "<@!" + (digits + ">" + rest);
  }

  lemma BangMentionShape(s: string)
    requires StartsWithBangMention(s)
    ensures s == "<@!" + s[3..3 + DigitRun(s[3..])] + ">" + s[4 + DigitRun(s[3..])..]
  {
    var d := DigitRun(s[3..]);
    assert s == s[..3] + s[3..];
    assert s[3..] == s[3..3 + d] + s[3 + d..];
    assert s[3 + d..] == [s[3 + d]] + s[4 + d..];
  }

  /** One "<@!digits>" step of the rewrite drops exactly its '!'. */
  lemma MentionStepDeletesBang(s: string)
    requires StartsWithBangMention(s)
    requires DeletesOnlyBangs(NormalizeMentions(s[4 + DigitRun(s[3..])..]), s[4 + DigitRun(s[3..])..])
    ensures DeletesOnlyBangs(NormalizeMentions(s), s)
  {
    var d := DigitRun(s[3..]);
    BangMentionShape(s);
    BangDeletion(s[3..3 + d], s[4 + d..], NormalizeMentions(s[4 + d..]));
  }

  // ---------------------------------------------------------------------------------------
  // Pattern.split with the pattern \s+ and a positive limit

  /** Index of the first whitespace character, or |s|. */
  function FirstSpace(s: string): (i: nat)
    ensures i <= |s|
    ensures i < |s| ==> IsRegexSpace(s[i])
    ensures forall j :: 0 <= j < i ==> !IsRegexSpace(s[j])
  {
    if s == [] || IsRegexSpace(s[0]) then 0 else 1 + FirstSpace(s[1..])
  }

  /**
    `Pattern.compile("\\s+").split(s, limit)` for limit >= 1: at most `limit` pieces, the last
    holding the unsplit rest; a leading run of whitespace yields a leading empty piece.
  */
  function SplitWhitespace(s: string, limit: nat): (pieces: seq<string>)
    requires limit >= 1
    ensures 1 <= |pieces| <= limit
    decreases |s|
  {
    var i := FirstSpace(s);
    if limit == 1 || i == |s| then [s]
    else [s[..i]] + SplitWhitespace(DropSpaces(s[i..]), limit - 1)
  }

  // ---------------------------------------------------------------------------------------
  // UTF-16 and case folding

  /** The UTF-16 code units of a string, as String.chars() yields them. */
  function Utf16Units(s: string): (u: seq<int>)
    ensures |u| <= 2 * |s|
    ensures forall k :: 0 <= k < |u| ==> 0 <= u[k] <= 0xFFFF
  {
    if s == [] then []
    else
      var c := s[0] as int;
      var head := if c < 0x10000 then [c] else [0xD800 + (c - 0x10000) / 0x400, 0xDC00 + (c - 0x10000) % 0x400];
      head + Utf16Units(s[1..])
  }

  function Sum(u: seq<int>): int
  {
    if u == [] then 0 else u[0] + Sum(u[1..])
  }

  lemma {:induction false} SumBounds(u: seq<int>, bound: int)
    requires forall k :: 0 <= k < |u| ==> 0 <= u[k] <= bound
    ensures 0 <= Sum(u) <= |u| * bound
  {
    if u != [] {
      SumBounds(u[1..], bound);
    }
  }

  /** ASCII case folding; the literals the bot compares against are all ASCII. */
  function ToLowerAscii(c: char): char
  {
    if 'A' <= c <= 'Z' then (c as int + 32) as char else c
  }

  predicate EqualsIgnoreCase(a: string, b: string)
  {
    |a| == |b| && forall i :: 0 <= i < |a| ==> ToLowerAscii(a[i]) == ToLowerAscii(b[i])
  }
}
