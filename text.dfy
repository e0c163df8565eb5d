/** The few Python string operations the drivers rely on, written out on `string`
    (`seq<char>`): `upper`/`lower` on ASCII letters, `strip`/`lstrip`, `startswith`,
    `in`, `replace`, `split` on one character, `f"{n}"` and `f"{n:02d}"` for
    non-negative integers, and the built-in `int(text)` conversion. */
module Text {
  import opened Outcomes

  predicate IsDigit(c: char) { '0' <= c <= '9' }

  predicate AllDigits(s: string) { forall i :: 0 <= i < |s| ==> IsDigit(s[i]) }

  /** `str.upper()` restricted to ASCII letters. */
  function UpperChar(c: char): char {
    if 'a' <= c <= 'z' then (c as int - 32) as char else c
  }

  /** `str.lower()` restricted to ASCII letters. */
  function LowerChar(c: char): char {
    if 'A' <= c <= 'Z' then (c as int + 32) as char else c
  }

  function ToUpper(s: string): (r: string)
    ensures |r| == |s|
    ensures forall i :: 0 <= i < |s| ==> r[i] == UpperChar(s[i])
  {
    if s == [] then [] else [UpperChar(s[0])] + ToUpper(s[1..])
  }

  function ToLower(s: string): (r: string)
    ensures |r| == |s|
    ensures forall i :: 0 <= i < |s| ==> r[i] == LowerChar(s[i])
  {
    if s == [] then [] else [LowerChar(s[0])] + ToLower(s[1..])
  }

  /** The characters Python's `str.strip()` removes when called without arguments. */
  predicate IsSpace(c: char) {
    var n := c as int;
    n == 0x20 || 0x09 <= n <= 0x0D || 0x1C <= n <= 0x1F || n == 0x85 || n == 0xA0
    || n == 0x1680 || 0x2000 <= n <= 0x200A || n == 0x2028 || n == 0x2029
    || n == 0x202F || n == 0x205F || n == 0x3000
  }

  function TrimStart(s: string): (r: string)
    ensures |r| <= |s| && r == s[|s| - |r|..]
    ensures r == [] || !IsSpace(r[0])
  {
    if s != [] && IsSpace(s[0]) then TrimStart(s[1..]) else s
  }

  function TrimEnd(s: string): (r: string)
    ensures |r| <= |s| && r == s[..|r|]
    ensures r == [] || !IsSpace(r[|r| - 1])
  {
    if s != [] && IsSpace(s[|s| - 1]) then TrimEnd(s[..|s| - 1]) else s
  }

  /** `s.strip()` */
  function Strip(s: string): string {
    TrimEnd(TrimStart(s))
  }

  /** `s.lstrip(c)`: drops every leading copy of `c`. */
  function LStripChar(s: string, c: char): (r: string)
    ensures |r| <= |s| && r == s[|s| - |r|..]
    ensures r == [] || r[0] != c
  {
    if s != [] && s[0] == c then LStripChar(s[1..], c) else s
  }

  /** Text with nothing for `strip()` to remove. */
  predicate Trimmed(s: string) {
    s == [] || (!IsSpace(s[0]) && !IsSpace(s[|s| - 1]))
  }

  lemma StripTrimmed(s: string)
    requires Trimmed(s)
    ensures Strip(s) == s
  {
  }

  /** Leading whitespace before text that starts with a non-space is all removed. */
  lemma {:induction false} TrimStartSpaces(spaces: string, s: string)
    requires forall i :: 0 <= i < |spaces| ==> IsSpace(spaces[i])
    requires s == [] || !IsSpace(s[0])
    ensures TrimStart(spaces + s) == s
    decreases |spaces|
  {
    if spaces != [] {
      assert (spaces + s)[1..] == spaces[1..] + s;
      TrimStartSpaces(spaces[1..], s);
    }
  }

  /** Trailing whitespace after text that ends with a non-space is all removed. */
  lemma {:induction false} TrimEndSpaces(s: string, spaces: string)
    requires forall i :: 0 <= i < |spaces| ==> IsSpace(spaces[i])
    requires s == [] || !IsSpace(s[|s| - 1])
    ensures TrimEnd(s + spaces) == s
    decreases |spaces|
  {
    if spaces != [] {
      var shorter := spaces[..|spaces| - 1];
      assert (s + spaces)[..|s + spaces| - 1] == s + shorter;
      TrimEndSpaces(s, shorter);
    }
  }

  /** `strip()` of trimmed text surrounded by whitespace gives the text. */
  lemma StripPadded(before: string, s: string, after: string)
    requires forall i :: 0 <= i < |before| ==> IsSpace(before[i])
    requires forall i :: 0 <= i < |after| ==> IsSpace(after[i])
    requires Trimmed(s) && s != []
    ensures Strip(before + s + after) == s
  {
    assert before + s + after == before + (s + after);
    TrimStartSpaces(before, s + after);
    TrimEndSpaces(s, after);
  }

  /** Stripping twice removes nothing more. */
  lemma StripIdempotent(s: string)
    ensures Strip(Strip(s)) == Strip(s)
  {
    var u := TrimStart(s);
    var t := TrimEnd(u);
    if t != [] {
      assert t[0] == u[0];
    }
    assert Trimmed(t);
    StripTrimmed(t);
  }

  /** Upper-casing ignores any earlier lower-casing: the comparisons the drivers make
      after `upper()` do not depend on the capitalisation of their input. */
  lemma UpperOfLower(s: string)
    ensures ToUpper(ToLower(s)) == ToUpper(s)
  {
    assert forall i :: 0 <= i < |s| ==> UpperChar(LowerChar(s[i])) == UpperChar(s[i]);
  }

  /** Text without lower-case ASCII letters is its own upper case. */
  lemma UpperFixed(s: string)
    requires forall i :: 0 <= i < |s| ==> !('a' <= s[i] <= 'z')
    ensures ToUpper(s) == s
  {
  }

  lemma UpperOfUpper(s: string)
    ensures ToUpper(ToUpper(s)) == ToUpper(s)
  {
    assert forall i :: 0 <= i < |s| ==> UpperChar(UpperChar(s[i])) == UpperChar(s[i]);
  }

  /** `sub in s` */
  predicate Contains(s: string, sub: string)
    decreases |s|
  {
    sub <= s || (s != [] && Contains(s[1..], sub))
  }

  /** `s.replace(pat, rep)`: every non-overlapping occurrence of `pat`, scanning from
      the left, is replaced. */
  function ReplaceAll(s: string, pat: string, rep: string): string
    requires |pat| > 0
    decreases |s|
  {
    if pat <= s then rep + ReplaceAll(s[|pat|..], pat, rep)
    else if s == [] then []
    else [s[0]] + ReplaceAll(s[1..], pat, rep)
  }

  /** Text in which the first character of `pat` never occurs is left as it is. */
  lemma {:induction false} ReplaceAbsent(s: string, pat: string, rep: string)
    requires |pat| > 0
    requires forall i :: 0 <= i < |s| ==> s[i] != pat[0]
    ensures ReplaceAll(s, pat, rep) == s
    decreases |s|
  {
    if s != [] {
      assert !(pat <= s) by { assert s[0] != pat[0]; }
      ReplaceAbsent(s[1..], pat, rep);
    }
  }

  /** Text in which `pat` does not occur is left as it is. */
  lemma {:induction false} ReplaceNotContained(s: string, pat: string, rep: string)
    requires |pat| > 0 && !Contains(s, pat)
    ensures ReplaceAll(s, pat, rep) == s
    decreases |s|
  {
    if s != [] {
      ReplaceNotContained(s[1..], pat, rep);
    }
  }

  lemma ReplaceLeading(pat: string, t: string, rep: string)
    requires |pat| > 0
    ensures ReplaceAll(pat + t, pat, rep) == rep + ReplaceAll(t, pat, rep)
  {
    assert pat <= pat + t;
    assert (pat + t)[|pat|..] == t;
  }

  /** A leading `pat` followed by text free of `pat`'s first character: only the
      leading copy is replaced. */
  lemma ReplacePrefixAbsent(pat: string, t: string, rep: string)
    requires |pat| > 0 && forall i :: 0 <= i < |t| ==> t[i] != pat[0]
    ensures ReplaceAll(pat + t, pat, rep) == rep + t
  {
    ReplaceLeading(pat, t, rep);
    ReplaceAbsent(t, pat, rep);
  }

  /** A leading `pat` followed by text that does not contain it: only the leading
      copy is replaced. */
  lemma ReplacePrefixNotContained(pat: string, t: string, rep: string)
    requires |pat| > 0 && !Contains(t, pat)
    ensures ReplaceAll(pat + t, pat, rep) == rep + t
  {
    ReplaceLeading(pat, t, rep);
    ReplaceNotContained(t, pat, rep);
  }

  /** `s.split(sep)` for a one-character separator: always at least one part. */
  function Split(s: string, sep: char): (parts: seq<string>)
    ensures |parts| >= 1
  {
    if s == [] then [""]
    else if s[0] == sep then [""] + Split(s[1..], sep)
    else
      var rest := Split(s[1..], sep);
      [[s[0]] + rest[0]] + rest[1..]
  }

  /** No part of a split contains the separator. */
  lemma {:induction false} SplitPartsNoSep(s: string, sep: char)
    ensures forall k :: 0 <= k < |Split(s, sep)| ==> sep !in Split(s, sep)[k]
  {
    if s != [] {
      SplitPartsNoSep(s[1..], sep);
    }
  }

  /** `sep.join(parts)` */
  function Join(parts: seq<string>, sep: char): string
    requires |parts| >= 1
  {
    if |parts| == 1 then parts[0] else parts[0] + [sep] + Join(parts[1..], sep)
  }

  lemma {:induction false} SplitNoSep(p: string, sep: char)
    requires sep !in p
    ensures Split(p, sep) == [p]
  {
    if p != [] {
      SplitNoSep(p[1..], sep);
      assert [p[0]] + p[1..] == p;
    }
  }

  lemma {:induction false} SplitAfterPart(p: string, sep: char, t: string)
    requires sep !in p
    ensures Split(p + [sep] + t, sep) == [p] + Split(t, sep)
  {
    if p == [] {
      assert p + [sep] + t == [sep] + t;
      assert ([sep] + t)[1..] == t;
    } else {
      var s := p + [sep] + t;
      assert s[0] == p[0] && s[0] != sep;
      assert s[1..] == p[1..] + [sep] + t;
      SplitAfterPart(p[1..], sep, t);
      assert [p[0]] + p[1..] == p;
    }
  }

  /** Splitting undoes joining when no part contains the separator. */
  lemma {:induction false} SplitJoin(parts: seq<string>, sep: char)
    requires |parts| >= 1
    requires forall k :: 0 <= k < |parts| ==> sep !in parts[k]
    ensures Split(Join(parts, sep), sep) == parts
  {
    if |parts| == 1 {
      SplitNoSep(parts[0], sep);
    } else {
      SplitJoin(parts[1..], sep);
      SplitAfterPart(parts[0], sep, Join(parts[1..], sep));
      assert [parts[0]] + parts[1..] == parts;
    }
  }

  function DigitChar(d: nat): (c: char)
    requires d < 10
    ensures IsDigit(c)
  {
    ('0' as int + d) as char
  }

  function DigitValue(c: char): nat
    requires IsDigit(c)
  {
    c as int - '0' as int
  }

  /** `f"{n}"` for a non-negative integer: its shortest decimal numeral. */
  function NatToString(n: nat): (s: string)
    ensures |s| >= 1 && AllDigits(s)
    ensures s[0] == '0' ==> n == 0
    decreases n
  {
    if n < 10 then [DigitChar(n)] else NatToString(n / 10) + [DigitChar(n % 10)]
  }

  /** `f"{n:02d}"` for a non-negative integer. */
  function Pad2(n: nat): (s: string)
    ensures |s| >= 2 && AllDigits(s)
  {
    if n < 10 then "0" + NatToString(n) else NatToString(n)
  }

  /** The value of a numeral, most significant digit first. */
  function DigitsValue(s: string): nat
    requires AllDigits(s)
  {
    if s == [] then 0 else DigitsValue(s[..|s| - 1]) * 10 + DigitValue(s[|s| - 1])
  }

  lemma {:induction false} DigitsOfNat(n: nat)
    ensures DigitsValue(NatToString(n)) == n
    decreases n
  {
    var s := NatToString(n);
    if n >= 10 {
      DigitsOfNat(n / 10);
      assert s[..|s| - 1] == NatToString(n / 10);
    }
  }

  lemma {:induction false} LeadingZero(s: string)
    requires AllDigits(s)
    ensures DigitsValue("0" + s) == DigitsValue(s)
    decreases |s|
  {
    var z := "0" + s;
    if s != [] {
      assert z[..|z| - 1] == "0" + s[..|s| - 1];
      LeadingZero(s[..|s| - 1]);
    }
  }

  /** Python's integer literal body: digits, with single underscores only between
      two digits. */
  predicate DigitGroups(b: string) {
    |b| >= 1 && IsDigit(b[0]) && IsDigit(b[|b| - 1])
    && (forall i :: 0 <= i < |b| ==> IsDigit(b[i]) || b[i] == '_')
    && (forall i :: 0 <= i < |b| - 1 ==> !(b[i] == '_' && b[i + 1] == '_'))
  }

  function DropUnderscores(b: string): (r: string)
    requires forall i :: 0 <= i < |b| ==> IsDigit(b[i]) || b[i] == '_'
    ensures AllDigits(r)
  {
    if b == [] then []
    else (if b[0] == '_' then [] else [b[0]]) + DropUnderscores(b[1..])
  }

  lemma {:induction false} DropNoUnderscores(b: string)
    requires AllDigits(b)
    ensures DropUnderscores(b) == b
  {
    if b != [] {
      DropNoUnderscores(b[1..]);
      assert [b[0]] + b[1..] == b;
    }
  }

  /** `int(text)` on a `str`: surrounding whitespace is ignored, one optional sign,
      then decimal digit groups; anything else is a ValueError (`None` here). */
  function ParseInt(text: string): Option<int> {
    var t := Strip(text);
    var signed := |t| > 0 && (t[0] == '+' || t[0] == '-');
    var body := if signed then t[1..] else t;
    if !DigitGroups(body) then None
    else
      var v := DigitsValue(DropUnderscores(body)) as int;
      Some(if signed && t[0] == '-' then -v else v)
  }

  /** A numeral without sign or spaces reads back as its value. */
  lemma ParseDigits(s: string)
    requires |s| >= 1 && AllDigits(s)
    ensures ParseInt(s) == Some(DigitsValue(s) as int)
  {
    assert TrimStart(s) == s;
    assert TrimEnd(s) == s;
    assert Strip(s) == s;
    assert !(s[0] == '+' || s[0] == '-');
    assert DigitGroups(s);
    DropNoUnderscores(s);
    assert DropUnderscores(s) == s;
  }

  lemma ParseNatToString(n: nat)
    ensures ParseInt(NatToString(n)) == Some(n as int)
  {
    ParseDigits(NatToString(n));
    DigitsOfNat(n);
  }

  lemma ParsePad2(n: nat)
    ensures ParseInt(Pad2(n)) == Some(n as int)
  {
    ParseDigits(Pad2(n));
    DigitsOfNat(n);
    if n < 10 {
      LeadingZero(NatToString(n));
    }
  }

  /** Padding to two digits loses nothing: different numbers give different text. */
  lemma Pad2Injective(a: nat, b: nat)
    requires Pad2(a) == Pad2(b)
    ensures a == b
  {
    ParsePad2(a);
    ParsePad2(b);
  }

  /** Text without a minus sign never reads as a negative number. */
  lemma ParseWithoutMinus(text: string)
    requires '-' !in text
    requires ParseInt(text).Some?
    ensures ParseInt(text).value >= 0
  {
    var u := TrimStart(text);
    var t := TrimEnd(u);
    assert t == Strip(text);
    if |t| > 0 {
      assert t[0] == u[0] == text[|text| - |u|];
      assert t[0] != '-';
    }
  }
}
