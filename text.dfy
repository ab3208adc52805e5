/**
 * The JavaScript string operations the source relies on, over `string`
 * (sequences of code units): `toLowerCase` (ASCII only), `includes`, `trim`,
 * `split` and `join` on one separator character, `replace` of the first
 * occurrence, `String(n)` for integers and `parseInt` for decimal text.
 */
module Text {
  import opened Wrappers
  import Sequences

  /** The characters JavaScript treats as `\s` and strips in `trim`: WhiteSpace and LineTerminator. */
  predicate IsWhitespace(c: char) {
    || c == ' ' || c == '\t' || c == '\n' || c == '\r' || c == '\U{000B}' || c == '\U{000C}'
    || c == '\U{00A0}' || c == '\U{1680}' || ('\U{2000}' <= c <= '\U{200A}')
    || c == '\U{2028}' || c == '\U{2029}' || c == '\U{202F}' || c == '\U{205F}'
    || c == '\U{3000}' || c == '\U{FEFF}'
  }

  predicate IsAsciiLower(c: char) { 'a' <= c <= 'z' }

  predicate IsDigit(c: char) { '0' <= c <= '9' }

  /** `toLowerCase` restricted to ASCII: other characters are left as they are. */
  function LowerChar(c: char): (r: char)
    ensures !('A' <= r <= 'Z')
    ensures IsAsciiLower(c) || IsDigit(c) || c == ' ' || c == '-' ==> r == c
  {
    if 'A' <= c <= 'Z' then (c as int + 32) as char else c
  }

  function Lower(s: string): (r: string)
    ensures |r| == |s|
    ensures forall i :: 0 <= i < |s| ==> r[i] == LowerChar(s[i])
  {
    seq(|s|, i requires 0 <= i < |s| => LowerChar(s[i]))
  }

  lemma LowerIdempotent(s: string)
    ensures Lower(Lower(s)) == Lower(s)
  {
  }

  /** JavaScript's `||` on an optional string: an absent or empty value falls back. */
  function OrDefault(o: Option<string>, default: string): (r: string)
    ensures o.Some? && o.value != "" ==> r == o.value
    ensures o.None? || o.value == "" ==> r == default
  {
    if o.Some? && o.value != "" then o.value else default
  }

  /** `s.includes(sub)`: `sub` is a prefix of `s` or of one of its suffixes. */
  predicate Contains(s: string, sub: string) {
    sub <= s || (s != [] && Contains(s[1..], sub))
  }

  /** `sub` occurs in `s` starting at index `i`. */
  predicate OccursAt(s: string, sub: string, i: int) {
    0 <= i && i + |sub| <= |s| && s[i..i + |sub|] == sub
  }

  /** `includes` holds exactly when there is a position where `sub` occurs. */
  lemma {:induction false} ContainsOccurs(s: string, sub: string)
    ensures Contains(s, sub) <==> exists i :: OccursAt(s, sub, i)
  {
    if sub <= s {
      assert OccursAt(s, sub, 0);
    } else if s == [] {
      assert forall i :: !OccursAt(s, sub, i);
    } else {
      ContainsOccurs(s[1..], sub);
      if Contains(s[1..], sub) {
        var i :| OccursAt(s[1..], sub, i);
        assert s[i + 1..i + 1 + |sub|] == s[1..][i..i + |sub|];
        assert OccursAt(s, sub, i + 1);
      }
      forall i | OccursAt(s, sub, i)
        ensures Contains(s[1..], sub)
      {
        assert i != 0;
        assert s[1..][i - 1..i - 1 + |sub|] == s[i..i + |sub|];
        assert OccursAt(s[1..], sub, i - 1);
      }
    }
  }

  /** `s.toLowerCase().includes(term.toLowerCase())` */
  predicate ContainsIgnoringCase(s: string, term: string) {
    Contains(Lower(s), Lower(term))
  }

  function TrimStart(s: string): (r: string)
    ensures |r| <= |s| && r == s[|s| - |r|..]
    ensures r == [] || !IsWhitespace(r[0])
    ensures forall i :: 0 <= i < |s| - |r| ==> IsWhitespace(s[i])
  {
    if |s| > 0 && IsWhitespace(s[0]) then TrimStart(s[1..]) else s
  }

  function TrimEnd(s: string): (r: string)
    ensures |r| <= |s| && r == s[..|r|]
    ensures r == [] || !IsWhitespace(r[|r| - 1])
    ensures forall i :: |r| <= i < |s| ==> IsWhitespace(s[i])
  {
    if |s| > 0 && IsWhitespace(s[|s| - 1]) then TrimEnd(s[..|s| - 1]) else s
  }

  /** `s.trim()` */
  function Trim(s: string): string {
    TrimEnd(TrimStart(s))
  }

  /** `trim` yields the empty string exactly when every character is whitespace. */
  lemma TrimEmptyIff(s: string)
    ensures Trim(s) == "" <==> forall i :: 0 <= i < |s| ==> IsWhitespace(s[i])
  {
    var t := TrimStart(s);
    if Trim(s) == "" {
      assert t == [];
    } else {
      var r := Trim(s);
      assert r[0] == t[0];
      assert t[0] == s[|s| - |t|];
    }
  }

  /** Text without surrounding whitespace is left unchanged by `trim`. */
  lemma TrimUnchanged(s: string)
    requires s == [] || (!IsWhitespace(s[0]) && !IsWhitespace(s[|s| - 1]))
    ensures Trim(s) == s
  {
  }

  /** Trimming twice trims no more than trimming once. */
  lemma TrimIdempotent(s: string)
    ensures Trim(Trim(s)) == Trim(s)
  {
    var t, r := TrimStart(s), Trim(s);
    if r != [] {
      assert r[0] == t[0];
    }
    TrimUnchanged(r);
  }

  /** Number of occurrences of `c` in `s`. */
  function Count(s: string, c: char): nat {
    if s == [] then 0 else (if s[0] == c then 1 else 0) + Count(s[1..], c)
  }

  /** `s.split(sep)` for a one-character separator. */
  function Split(s: string, sep: char): (r: seq<string>)
    ensures |r| >= 1
  {
    if s == [] then [""]
    else
      var rest := Split(s[1..], sep);
      if s[0] == sep then [""] + rest else [[s[0]] + rest[0]] + rest[1..]
  }

  /** `split` yields one more piece than there are separators. */
  lemma {:induction false} SplitLength(s: string, sep: char)
    ensures |Split(s, sep)| == Count(s, sep) + 1
  {
    if s != [] {
      SplitLength(s[1..], sep);
    }
  }

  /** `xs.join(sep)` */
  function Join(xs: seq<string>, sep: char): string {
    if xs == [] then ""
    else if |xs| == 1 then xs[0]
    else xs[0] + [sep] + Join(xs[1..], sep)
  }

  predicate Free(s: string, c: char) {
    forall i :: 0 <= i < |s| ==> s[i] != c
  }

  lemma {:induction false} SplitWithout(a: string, sep: char)
    requires Free(a, sep)
    ensures Split(a, sep) == [a]
  {
    if a != [] {
      SplitWithout(a[1..], sep);
      assert [a[0]] + a[1..] == a;
    }
  }

  lemma {:induction false} SplitAfter(a: string, sep: char, b: string)
    requires Free(a, sep)
    ensures Split(a + [sep] + b, sep) == [a] + Split(b, sep)
  {
    if a == [] {
      assert a + [sep] + b == [sep] + b;
      assert ([sep] + b)[1..] == b;
    } else {
      var s := a + [sep] + b;
      assert s[0] == a[0];
      assert s[1..] == a[1..] + [sep] + b;
      SplitAfter(a[1..], sep, b);
      assert [a[0]] + a[1..] == a;
    }
  }

  /** Joining pieces that do not contain the separator and splitting again gives the pieces back. */
  lemma {:induction false} SplitJoin(xs: seq<string>, sep: char)
    requires xs != []
    requires forall i :: 0 <= i < |xs| ==> Free(xs[i], sep)
    ensures Split(Join(xs, sep), sep) == xs
  {
    if |xs| == 1 {
      SplitWithout(xs[0], sep);
    } else {
      SplitJoin(xs[1..], sep);
      SplitAfter(xs[0], sep, Join(xs[1..], sep));
      assert [xs[0]] + xs[1..] == xs;
    }
  }

  /** Splitting and joining with the same separator gives the text back. */
  lemma {:induction false} JoinSplit(s: string, sep: char)
    ensures Join(Split(s, sep), sep) == s
  {
    if s != [] {
      var rest := Split(s[1..], sep);
      JoinSplit(s[1..], sep);
      if s[0] == sep {
        assert ([""] + rest)[1..] == rest;
        assert s == [sep] + s[1..];
      } else if |rest| == 1 {
        assert s == [s[0]] + s[1..];
      } else {
        var r := [[s[0]] + rest[0]] + rest[1..];
        assert r[1..] == rest[1..];
        assert s == [s[0]] + s[1..];
      }
    }
  }

  /** A join is empty only for no pieces or a single empty piece. */
  lemma JoinEmpty(xs: seq<string>, sep: char)
    ensures Join(xs, sep) == "" <==> xs == [] || xs == [""]
  {
    if |xs| > 1 {
      assert |Join(xs, sep)| >= 1;
    }
  }

  /** Index of the first occurrence of `pat` in `s`, or -1. */
  function IndexOf(s: string, pat: string): (r: int)
    ensures r == -1 || 0 <= r <= |s| - |pat|
    ensures r >= 0 ==> s[r..r + |pat|] == pat
    decreases |s|
  {
    if pat <= s then 0
    else if s == [] then -1
    else
      var j := IndexOf(s[1..], pat);
      if j < 0 then -1 else j + 1
  }

  /** `s.replace(pat, rep)` with a string pattern: only the first occurrence is replaced. */
  function ReplaceFirst(s: string, pat: string, rep: string): string {
    var i := IndexOf(s, pat);
    if i < 0 then s else s[..i] + rep + s[i + |pat|..]
  }

  /** Removing a pattern from the front of a text that starts with it yields the rest. */
  lemma RemovePrefix(pat: string, t: string)
    ensures ReplaceFirst(pat + t, pat, "") == t
  {
    assert pat <= pat + t;
    assert (pat + t)[|pat|..] == t;
  }

  function DigitChar(d: nat): (c: char)
    requires d < 10
    ensures IsDigit(c)
  {
    ('0' as int + d) as char
  }

  function DigitValue(c: char): (d: nat)
    requires IsDigit(c)
    ensures d < 10
  {
    c as int - '0' as int
  }

  /** `String(n)` for a natural number: its decimal digits, without leading zeros. */
  function NatToString(n: nat): (r: string)
    ensures |r| >= 1
    ensures forall i :: 0 <= i < |r| ==> IsDigit(r[i])
  {
    if n < 10 then [DigitChar(n)] else NatToString(n / 10) + [DigitChar(n % 10)]
  }

  /** `String(i)` for an integer. */
  function IntToString(i: int): (r: string)
    ensures r != ""
  {
    if i < 0 then "-" + NatToString(-i) else NatToString(i)
  }

  /** Value of a run of decimal digits. */
  function DigitsValue(ds: string): nat
    requires forall i :: 0 <= i < |ds| ==> IsDigit(ds[i])
  {
    if ds == [] then 0 else DigitsValue(ds[..|ds| - 1]) * 10 + DigitValue(ds[|ds| - 1])
  }

  /** The longest prefix of `s` made of decimal digits. */
  function DigitPrefix(s: string): (r: string)
    ensures r <= s
    ensures forall i :: 0 <= i < |r| ==> IsDigit(r[i])
  {
    if s != [] && IsDigit(s[0]) then [s[0]] + DigitPrefix(s[1..]) else ""
  }

  /**
   * `parseInt(s)` for decimal text: leading whitespace, an optional sign, then the
   * longest run of digits; `None` stands for `NaN` (no digits).
   */
  function ParseInt(s: string): (r: Option<int>)
    ensures r.None? <==> DigitPrefix(ParseSign(TrimStart(s)).1) == ""
  {
    var (negative, rest) := ParseSign(TrimStart(s));
    var ds := DigitPrefix(rest);
    if ds == "" then None
    else if negative then Some(0 - DigitsValue(ds))
    else Some(DigitsValue(ds))
  }

  function ParseSign(s: string): (bool, string) {
    if s != [] && s[0] == '-' then (true, s[1..])
    else if s != [] && s[0] == '+' then (false, s[1..])
    else (false, s)
  }

  lemma {:induction false} DigitPrefixOfDigits(ds: string)
    requires forall i :: 0 <= i < |ds| ==> IsDigit(ds[i])
    ensures DigitPrefix(ds) == ds
  {
    if ds != [] {
      DigitPrefixOfDigits(ds[1..]);
      assert [ds[0]] + ds[1..] == ds;
    }
  }

  lemma {:induction false} NatToStringValue(n: nat)
    ensures DigitsValue(NatToString(n)) == n
  {
    if n >= 10 {
      NatToStringValue(n / 10);
      var s := NatToString(n);
      assert s[..|s| - 1] == NatToString(n / 10);
    }
  }

  /** `parseInt` of text that starts with its sign and holds nothing but digits after it. */
  lemma ParseIntParts(s: string, negative: bool, ds: string)
    requires TrimStart(s) == s && ParseSign(s) == (negative, ds)
    requires ds != [] && forall i :: 0 <= i < |ds| ==> IsDigit(ds[i])
    ensures ParseInt(s) == Some(if negative then 0 - DigitsValue(ds) else DigitsValue(ds))
  {
    DigitPrefixOfDigits(ds);
  }

  /** Text that starts with a digit or a sign has no leading whitespace to skip. */
  lemma NoLeadingWhitespace(s: string)
    requires s != [] && !IsWhitespace(s[0])
    ensures TrimStart(s) == s
  {
  }

  /** `parseInt` of an optional minus sign followed by digits reads them back. */
  lemma ParseSignedDigits(negative: bool, ds: string)
    requires ds != [] && forall i :: 0 <= i < |ds| ==> IsDigit(ds[i])
    ensures ParseInt((if negative then "-" else "") + ds) ==
            Some(if negative then 0 - DigitsValue(ds) else DigitsValue(ds))
  {
    var s := (if negative then "-" else "") + ds;
    if negative {
      assert s[0] == '-' && s[1..] == ds;
      NoLeadingWhitespace(s);
      ParseIntParts(s, true, ds);
    } else {
      assert s == ds && IsDigit(s[0]);
      NoLeadingWhitespace(s);
      ParseIntParts(s, false, ds);
    }
  }

  /** The digit run of digits followed by a non-digit is those digits. */
  lemma {:induction false} DigitPrefixStops(ds: string, rest: string)
    requires forall i :: 0 <= i < |ds| ==> IsDigit(ds[i])
    requires rest == [] || !IsDigit(rest[0])
    ensures DigitPrefix(ds + rest) == ds
  {
    if ds != [] {
      assert (ds + rest)[0] == ds[0] && (ds + rest)[1..] == ds[1..] + rest;
      DigitPrefixStops(ds[1..], rest);
      assert [ds[0]] + ds[1..] == ds;
    }
  }

  /** An optional minus sign and a text that starts with a digit: no whitespace to skip, and the sign is read off. */
  lemma SignedText(negative: bool, body: string)
    requires body != [] && IsDigit(body[0])
    ensures var s := (if negative then "-" else "") + body;
            TrimStart(s) == s && ParseSign(s) == (negative, body)
  {
    if negative {
      var s := "-" + body;
      assert s[0] == '-' && s[1..] == body;
      NoLeadingWhitespace(s);
    } else {
      assert "" + body == body;
      NoLeadingWhitespace(body);
    }
  }

  /** `parseInt` of text with no leading whitespace is the value of the digit run after its sign. */
  lemma ParseIntOfSigned(s: string, negative: bool, body: string, ds: string)
    requires TrimStart(s) == s && ParseSign(s) == (negative, body)
    requires DigitPrefix(body) == ds && ds != []
    ensures ParseInt(s) == Some(if negative then 0 - DigitsValue(ds) else DigitsValue(ds))
  {
  }

  /** `parseInt` reads the number back from text that starts with `String(i)` and a non-digit. */
  lemma ParseIntOfLeadingString(i: int, rest: string)
    requires rest == [] || !IsDigit(rest[0])
    ensures ParseInt(IntToString(i) + rest) == Some(i)
  {
    var negative := i < 0;
    var n: nat := if negative then -i else i;
    var digits := NatToString(n);
    var body := digits + rest;
    var s := (if negative then "-" else "") + body;
    assert IntToString(i) == (if negative then "-" else "") + digits;
    Sequences.AppendAssoc(if negative then "-" else "", digits, rest);
    NatToStringValue(n);
    DigitPrefixStops(digits, rest);
    SignedText(negative, body);
    ParseIntOfSigned(s, negative, body, digits);
  }

  /** `parseInt` skips a leading space. */
  lemma ParseIntSkipsSpace(s: string)
    ensures ParseInt(" " + s) == ParseInt(s)
  {
    var t := " " + s;
    assert t[0] == ' ' && t[1..] == s;
    assert IsWhitespace(t[0]);
    assert TrimStart(t) == TrimStart(s);
  }

  /** `parseInt(String(i))` gives `i` back. */
  lemma ParseIntOfString(i: int)
    ensures ParseInt(IntToString(i)) == Some(i)
  {
    var n: nat := if i < 0 then -i else i;
    var digits := NatToString(n);
    NatToStringValue(n);
    ParseSignedDigits(i < 0, digits);
    assert IntToString(i) == (if i < 0 then "-" else "") + digits;
  }

  /** Strict lexicographic order on code units: the order of document ids and of string fields. */
  predicate LexLess(a: string, b: string) {
    if a == [] then b != []
    else if b == [] then false
    else if a[0] != b[0] then a[0] < b[0]
    else LexLess(a[1..], b[1..])
  }

  lemma {:induction false} LexLessIrreflexive(a: string)
    ensures !LexLess(a, a)
  {
    if a != [] {
      LexLessIrreflexive(a[1..]);
    }
  }

  lemma {:induction false} LexLessTransitive(a: string, b: string, c: string)
    requires LexLess(a, b) && LexLess(b, c)
    ensures LexLess(a, c)
  {
    if a != [] && b != [] && c != [] && a[0] == b[0] && b[0] == c[0] {
      LexLessTransitive(a[1..], b[1..], c[1..]);
    }
  }

  /** Any two different strings are ordered one way or the other. */
  lemma {:induction false} LexLessTotal(a: string, b: string)
    requires a != b
    ensures LexLess(a, b) || LexLess(b, a)
  {
    if a != [] && b != [] && a[0] == b[0] {
      assert a == [a[0]] + a[1..] && b == [b[0]] + b[1..];
      LexLessTotal(a[1..], b[1..]);
    }
  }
}
