/**
 * Python `str` operations the core relies on: `strip`, `split`, `join`, `in`
 * (substring), `lower`/`upper` on ASCII letters, and the decimal rendering of
 * integers (`str(n)`, `%02d`, `%04d`), and `repr` of a `str`.
 */
module Text {

  /** Python's `str.isspace()` (the characters `\s` matches in a `str` regex). */
  predicate IsSpace(c: char) {
    c == ' ' || ('\t' <= c <= '\r') || ('\U{001c}' <= c <= '\U{001f}') || c == '\U{0085}' || c == '\U{00a0}'
    || c == '\U{1680}' || ('\U{2000}' <= c <= '\U{200a}') || c == '\U{2028}' || c == '\U{2029}'
    || c == '\U{202f}' || c == '\U{205f}' || c == '\U{3000}'
  }

  predicate IsDigit(c: char) {
    '0' <= c <= '9'
  }

  predicate IsUnderscore(c: char) {
    c == '_'
  }

  predicate AllDigits(s: string) {
    forall i :: 0 <= i < |s| ==> IsDigit(s[i])
  }

  // ---------------------------------------------------------------------------
  // Trimming: `s.strip()` and `s.strip('_')`

  /** The two sets of characters the core strips: whitespace, and `_`. */
  datatype CharClass = Whitespace | Underscores

  predicate InClass(p: CharClass, c: char) {
    match p
    case Whitespace => IsSpace(c)
    case Underscores => IsUnderscore(c)
  }

  /** The number of leading characters of `s` that satisfy `p`. */
  function LeadingCount(s: string, p: CharClass): (n: nat)
    ensures n <= |s|
    ensures forall k :: 0 <= k < n ==> InClass(p, s[k])
    ensures n < |s| ==> !InClass(p, s[n])
  {
    if s == [] || !InClass(p, s[0]) then 0 else 1 + LeadingCount(s[1..], p)
  }

  /** The number of trailing characters of `s` that satisfy `p`. */
  function TrailingCount(s: string, p: CharClass): (n: nat)
    ensures n <= |s|
    ensures forall k :: |s| - n <= k < |s| ==> InClass(p, s[k])
    ensures n < |s| ==> !InClass(p, s[|s| - 1 - n])
  {
    if s == [] || !InClass(p, s[|s| - 1]) then 0 else 1 + TrailingCount(s[..|s| - 1], p)
  }

  /** Removes every leading and trailing character satisfying `p`, keeping the
      middle; the result is empty exactly when every character satisfies `p`. */
  function Trim(s: string, p: CharClass): (r: string)
    ensures exists i, j ::
      && 0 <= i <= j <= |s| && r == s[i..j]
      && (forall k :: 0 <= k < i ==> InClass(p, s[k]))
      && (forall k :: j <= k < |s| ==> InClass(p, s[k]))
    ensures r != [] ==> !InClass(p, r[0]) && !InClass(p, r[|r| - 1])
    ensures r == [] <==> forall k :: 0 <= k < |s| ==> InClass(p, s[k])
  {
    var i := LeadingCount(s, p);
    var n := TrailingCount(s[i..], p);
    TrimmedSlice(s, p, i, n);
    s[i..|s| - n]
  }

  /** The slice `Trim` returns has the shape its contract describes. */
  lemma TrimmedSlice(s: string, p: CharClass, i: nat, n: nat)
    requires i == LeadingCount(s, p) && n == TrailingCount(s[i..], p)
    ensures i <= |s| - n
    ensures var r := s[i..|s| - n];
      && (exists a, b ::
           && 0 <= a <= b <= |s| && r == s[a..b]
           && (forall k :: 0 <= k < a ==> InClass(p, s[k]))
           && (forall k :: b <= k < |s| ==> InClass(p, s[k])))
      && (r != [] ==> !InClass(p, r[0]) && !InClass(p, r[|r| - 1]))
      && (r == [] <==> forall k :: 0 <= k < |s| ==> InClass(p, s[k]))
  {
    TrimmedBounds(s, p, i, n);
    var r := s[i..|s| - n];
    assert r != [] ==> r[0] == s[i] && r[|r| - 1] == s[|s| - n - 1];
    assert 0 <= i <= |s| - n <= |s| && r == s[i..|s| - n];
  }

  lemma TrimmedBounds(s: string, p: CharClass, i: nat, n: nat)
    requires i == LeadingCount(s, p) && n == TrailingCount(s[i..], p)
    ensures i <= |s| - n
    ensures forall k :: 0 <= k < i ==> InClass(p, s[k])
    ensures forall k :: |s| - n <= k < |s| ==> InClass(p, s[k])
    ensures i < |s| - n ==> !InClass(p, s[i]) && !InClass(p, s[|s| - n - 1])
    ensures i == |s| - n <==> forall k :: 0 <= k < |s| ==> InClass(p, s[k])
  {
    var t := s[i..];
    assert |t| == |s| - i;
    forall k | |s| - n <= k < |s| ensures InClass(p, s[k]) {
      assert s[k] == t[k - i];
    }
    assert i < |s| ==> s[i] == t[0];
    if i < |s| - n {
      var m := |t| - 1 - n;
      assert !InClass(p, t[m]);
      assert t[m] == s[|s| - n - 1];
    }
  }

  /** `s.strip()` */
  function Strip(s: string): string {
    Trim(s, Whitespace)
  }

  /** `s.strip('_')` */
  function StripUnderscores(s: string): string {
    Trim(s, Underscores)
  }

  lemma TrimKeepsInside(s: string, p: CharClass, k: nat)
    requires k < |s| && !InClass(p, s[k])
    ensures s[k] in Trim(s, p)
  {
    var r := Trim(s, p);
    var i, j :| 0 <= i <= j <= |s| && r == s[i..j] &&
      (forall k :: 0 <= k < i ==> InClass(p, s[k])) && (forall k :: j <= k < |s| ==> InClass(p, s[k]));
    assert r[k - i] == s[k];
  }

  lemma TrimFixesTrimmed(s: string, p: CharClass)
    requires s == [] || (!InClass(p, s[0]) && !InClass(p, s[|s| - 1]))
    ensures Trim(s, p) == s
  {
  }

  // ---------------------------------------------------------------------------
  // Case mapping (ASCII letters only)

  function UpperChar(c: char): char {
    if 'a' <= c <= 'z' then (c as int - 32) as char else c
  }

  function LowerChar(c: char): char {
    if 'A' <= c <= 'Z' then (c as int + 32) as char else c
  }

  /** `s.upper()` restricted to ASCII letters. */
  function Upper(s: string): (r: string)
    ensures |r| == |s| && forall i :: 0 <= i < |s| ==> r[i] == UpperChar(s[i])
  {
    seq(|s|, i requires 0 <= i < |s| => UpperChar(s[i]))
  }

  /** `s.lower()` restricted to ASCII letters. */
  function Lower(s: string): (r: string)
    ensures |r| == |s| && forall i :: 0 <= i < |s| ==> r[i] == LowerChar(s[i])
  {
    seq(|s|, i requires 0 <= i < |s| => LowerChar(s[i]))
  }

  // ---------------------------------------------------------------------------
  // Substring test: `sub in s`

  predicate OccursAt(s: string, sub: string, i: nat) {
    i + |sub| <= |s| && s[i..i + |sub|] == sub
  }

  function Contains(s: string, sub: string): (b: bool)
    ensures b <==> exists i: nat :: OccursAt(s, sub, i)
    decreases |s|
  {
    if |s| < |sub| then false
    else if s[..|sub|] == sub then assert OccursAt(s, sub, 0); true
    else
      var b := Contains(s[1..], sub);
      assert b ==> exists i: nat :: OccursAt(s, sub, i) by {
        if b {
          var i: nat :| OccursAt(s[1..], sub, i);
          assert s[i + 1..i + 1 + |sub|] == s[1..][i..i + |sub|];
          assert OccursAt(s, sub, i + 1);
        }
      }
      assert forall i: nat :: OccursAt(s, sub, i) ==> b by {
        forall i: nat | OccursAt(s, sub, i) ensures b {
          assert i != 0;
          assert s[1..][i - 1..i - 1 + |sub|] == s[i..i + |sub|];
          assert OccursAt(s[1..], sub, i - 1);
        }
      }
      b
  }

  /** `s.replace(c, "")`: every occurrence of `c` removed, the rest kept in order. */
  function Remove(s: string, c: char): (r: string)
    ensures c !in r && |r| <= |s|
    ensures forall x :: x in r <==> x in s && x != c
    ensures c !in s ==> r == s
  {
    if s == [] then []
    else (if s[0] == c then [] else [s[0]]) + Remove(s[1..], c)
  }

  /** `Remove` on a text with a known first character. */
  lemma RemoveCons(x: char, rest: string, c: char)
    ensures Remove([x] + rest, c) == (if x == c then [] else [x]) + Remove(rest, c)
  {
    assert ([x] + rest)[1..] == rest;
  }

  // ---------------------------------------------------------------------------
  // Sequence algebra

  lemma ConcatAssociative<T>(a: seq<T>, b: seq<T>, c: seq<T>)
    ensures a + (b + c) == (a + b) + c
  {
  }

  /** A slice of a slice is a slice of the whole. */
  lemma PrefixCancel<T>(h: seq<T>, x: seq<T>, y: seq<T>)
    requires h + x == h + y
    ensures x == y
  {
    assert x == (h + x)[|h|..];
  }

  lemma SuffixCancel<T>(x: seq<T>, y: seq<T>, t: seq<T>)
    requires x + t == y + t
    ensures x == y
  {
    assert x == (x + t)[..|x|];
  }

  lemma SubSlice<T>(s: seq<T>, i: nat, n: nat, lo: nat, hi: nat)
    requires i + n <= |s| && lo <= hi <= n
    ensures s[i..i + n][lo..hi] == s[i + lo..i + hi]
  {
    var t := s[i..i + n];
    var u := t[lo..hi];
    forall k | 0 <= k < |u| ensures u[k] == s[i + lo + k] {
      assert u[k] == t[lo + k];
    }
  }

  // ---------------------------------------------------------------------------
  // Splitting and joining on one character: `s.split(c)`, `c.join(parts)`

  function FirstIndex(s: string, c: char): (i: nat)
    requires c in s
    ensures i < |s| && s[i] == c && c !in s[..i]
  {
    if s[0] == c then 0 else 1 + FirstIndex(s[1..], c)
  }

  /** `s.split(c)`: the maximal pieces between occurrences of `c`; always at
      least one piece, and `""` splits into `[""]`. */
  function Split(s: string, c: char): (parts: seq<string>)
    ensures |parts| >= 1
    ensures forall k :: 0 <= k < |parts| ==> c !in parts[k]
    decreases |s|
  {
    if c !in s then [s]
    else
      var i := FirstIndex(s, c);
      [s[..i]] + Split(s[i + 1..], c)
  }

  /** `sep.join(parts)` */
  function Join(parts: seq<string>, sep: string): string {
    if parts == [] then ""
    else if |parts| == 1 then parts[0]
    else parts[0] + sep + Join(parts[1..], sep)
  }

  /** Joining the pieces of a split with the separator gives back the text. */
  lemma {:induction false} JoinSplit(s: string, c: char)
    ensures Join(Split(s, c), [c]) == s
    decreases |s|
  {
    if c in s {
      var i := FirstIndex(s, c);
      var rest := Split(s[i + 1..], c);
      SplitUnfold(s, c);
      JoinCons(s[..i], rest, [c]);
      JoinSplit(s[i + 1..], c);
      SliceAround(s, i);
    }
  }

  lemma SplitUnfold(s: string, c: char)
    requires c in s
    ensures Split(s, c) == [s[..FirstIndex(s, c)]] + Split(s[FirstIndex(s, c) + 1..], c)
  {
  }

  lemma JoinCons(a: string, rest: seq<string>, sep: string)
    requires rest != []
    ensures Join([a] + rest, sep) == a + sep + Join(rest, sep)
  {
    var parts := [a] + rest;
    assert parts[0] == a && parts[1..] == rest;
  }

  lemma SliceAround<T>(s: seq<T>, i: nat)
    requires i < |s|
    ensures s[..i] + [s[i]] + s[i + 1..] == s
  {
  }

  lemma {:induction false} FirstIndexAfter(a: string, c: char, b: string)
    requires c !in a
    ensures c in a + [c] + b && FirstIndex(a + [c] + b, c) == |a|
  {
    var s := a + [c] + b;
    assert s[|a|] == c;
    if a != [] {
      assert s[1..] == a[1..] + [c] + b;
      FirstIndexAfter(a[1..], c, b);
    }
  }

  /** Splitting a separator-free text followed by the separator puts that text first. */
  lemma SplitCons(a: string, c: char, b: string)
    requires c !in a
    ensures Split(a + [c] + b, c) == [a] + Split(b, c)
  {
    var s := a + [c] + b;
    FirstIndexAfter(a, c, b);
    assert s[..|a|] == a;
    assert s[|a| + 1..] == b;
  }

  // ---------------------------------------------------------------------------
  // Decimal rendering of integers

  function DigitChar(d: nat): char
    requires d < 10
  {
    ('0' as int + d) as char
  }

  function DigitValue(c: char): nat
    requires IsDigit(c)
  {
    c as int - '0' as int
  }

  /** The number a string of decimal digits denotes (most significant first). */
  function DigitsValue(s: string): nat
    requires AllDigits(s)
  {
    if s == [] then 0 else DigitsValue(s[..|s| - 1]) * 10 + DigitValue(s[|s| - 1])
  }

  /** `str(n)` for a natural number: shortest decimal digits, no leading zero. */
  function NatToString(n: nat): (s: string)
    ensures |s| >= 1 && AllDigits(s)
    ensures s[0] == '0' ==> n == 0 && s == "0"
  {
    if n < 10 then [DigitChar(n)] else NatToString(n / 10) + [DigitChar(n % 10)]
  }

  /** `str(i)` for an integer. */
  function IntToString(i: int): (s: string)
    ensures |s| >= 1
  {
    if i < 0 then "-" + NatToString(-i) else NatToString(i)
  }

  /** Reading back the digits of `str(n)` gives `n`. */
  lemma {:induction false} NatToStringValue(n: nat)
    ensures DigitsValue(NatToString(n)) == n
  {
    var s := NatToString(n);
    if n >= 10 {
      NatToStringValue(n / 10);
      assert s[..|s| - 1] == NatToString(n / 10);
    }
  }

  lemma NatToStringInjective(m: nat, n: nat)
    requires NatToString(m) == NatToString(n)
    ensures m == n
  {
    NatToStringValue(m);
    NatToStringValue(n);
  }

  /** `%02d` for a value below 100. */
  function Pad2(n: nat): (s: string)
    requires n < 100
    ensures |s| == 2 && AllDigits(s)
  {
    [DigitChar(n / 10), DigitChar(n % 10)]
  }

  /** `%04d` for a value below 10000. */
  function Pad4(n: nat): (s: string)
    requires n < 10000
    ensures |s| == 4 && AllDigits(s)
  {
    [DigitChar(n / 1000), DigitChar(n / 100 % 10), DigitChar(n / 10 % 10), DigitChar(n % 10)]
  }

  lemma Pad2Value(n: nat)
    requires n < 100
    ensures DigitsValue(Pad2(n)) == n
  {
    var s := Pad2(n);
    assert s[..1] == [DigitChar(n / 10)];
    assert DigitsValue(s[..1]) == n / 10 by {
      assert s[..1][..0] == [];
    }
  }

  /** Dividing by 10 twice or three times is dividing by 100 or 1000. */
  lemma NestedTenths(n: nat)
    ensures n / 10 / 10 == n / 100 && n / 100 / 10 == n / 1000
  {
  }

  lemma Pad4Value(n: nat)
    requires n < 10000
    ensures DigitsValue(Pad4(n)) == n
  {
    var s := Pad4(n);
    NestedTenths(n);
    assert DigitsValue(s[..1]) == n / 1000 by {
      assert s[..1][..0] == [];
    }
    assert DigitsValue(s[..2]) == n / 100 by {
      assert s[..2][..1] == s[..1];
      assert n / 100 == n / 1000 * 10 + n / 100 % 10;
    }
    assert DigitsValue(s[..3]) == n / 10 by {
      assert s[..3][..2] == s[..2];
      assert n / 10 == n / 100 * 10 + n / 10 % 10;
    }
    assert s[..4][..3] == s[..3];
    assert s[..4] == s;
  }

  // ---------------------------------------------------------------------------
  // repr of a str

  /** A lower-case hexadecimal digit. */
  function HexDigit(v: nat): (c: char)
    requires v < 16
    ensures HexValue(c) == v
  {
    if v < 10 then ('0' as int + v) as char else ('a' as int + v - 10) as char
  }

  function HexValue(c: char): (v: nat)
    ensures v < 16
  {
    if '0' <= c <= '9' then c as int - '0' as int
    else if 'a' <= c <= 'f' then c as int - 'a' as int + 10
    else 0
  }

  /** The quote `repr` puts around a text: a single quote, unless the text holds one and no double quote. */
  function ReprQuote(s: string): (q: char)
    ensures q == '"' <==> '\'' in s && '"' !in s
    ensures q == '\'' || q == '"'
  {
    if '\'' in s && '"' !in s then '"' else '\''
  }

  /** A character `repr` writes as itself between quotes `q`: printable ASCII or beyond, not `q`, not a backslash. */
  predicate ReprPlain(c: char, q: char) {
    c != q && c != '\\' && c as int >= 0x20 && c as int != 0x7f
  }

  /** How `repr` writes one character between quotes `q`: `\t`, `\n`, `\r`, `\xhh` for other control codes. */
  function ReprChar(c: char, q: char): (t: string)
    ensures t == [c] <==> ReprPlain(c, q)
    ensures t != [c] ==> |t| >= 2 && t[0] == '\\'
  {
    if c == q || c == '\\' then ['\\', c]
    else if c == '\t' then "\\t"
    else if c == '\n' then "\\n"
    else if c == '\r' then "\\r"
    else if c as int < 0x20 || c as int == 0x7f then ['\\', 'x', HexDigit(c as int / 16), HexDigit(c as int % 16)]
    else [c]
  }

  function ReprBody(s: string, q: char): string {
    if s == [] then [] else ReprChar(s[0], q) + ReprBody(s[1..], q)
  }

  /** Reads back the escapes of `ReprChar`. */
  function Unescape(t: string): string
    decreases |t|
  {
    if t == [] then []
    else if t[0] == '\\' && |t| >= 2 then
      if t[1] == 't' then "\t" + Unescape(t[2..])
      else if t[1] == 'n' then "\n" + Unescape(t[2..])
      else if t[1] == 'r' then "\r" + Unescape(t[2..])
      else if t[1] == 'x' && |t| >= 4 then [(HexValue(t[2]) * 16 + HexValue(t[3])) as char] + Unescape(t[4..])
      else [t[1]] + Unescape(t[2..])
    else [t[0]] + Unescape(t[1..])
  }

  /** `repr(s)` of a Python `str`: the quoted text decodes back to `s`. */
  function PyRepr(s: string): (r: string)
    ensures |r| >= |s| + 2 && r[0] == ReprQuote(s) && r[|r| - 1] == ReprQuote(s)
    ensures Unescape(r[1..|r| - 1]) == s
  {
    var q := ReprQuote(s);
    var body := ReprBody(s, q);
    ReprBodyLength(s, q);
    ReprBodyRoundTrip(s, q);
    assert ([q] + body + [q])[1..|body| + 1] == body;
    [q] + body + [q]
  }

  lemma {:induction false} ReprBodyLength(s: string, q: char)
    ensures |ReprBody(s, q)| >= |s|
  {
    if s != [] {
      ReprBodyLength(s[1..], q);
    }
  }

  /** Unescaping undoes one escaped character. */
  lemma UnescapeChar(c: char, q: char, rest: string)
    requires q == '\'' || q == '"'
    ensures Unescape(ReprChar(c, q) + rest) == [c] + Unescape(rest)
  {
    var t := ReprChar(c, q) + rest;
    if c as int < 0x20 || c as int == 0x7f {
      if c != '\t' && c != '\n' && c != '\r' {
        var h := [HexDigit(c as int / 16), HexDigit(c as int % 16)];
        assert t == ['\\', 'x'] + h + rest;
        assert t[4..] == rest;
        assert (HexValue(t[2]) * 16 + HexValue(t[3])) as char == c;
      } else {
        assert t[2..] == rest;
      }
    } else if c == q || c == '\\' {
      assert t[2..] == rest;
    } else {
      assert t[1..] == rest;
    }
  }

  lemma {:induction false} ReprBodyRoundTrip(s: string, q: char)
    requires q == '\'' || q == '"'
    ensures Unescape(ReprBody(s, q)) == s
  {
    if s != [] {
      UnescapeChar(s[0], q, ReprBody(s[1..], q));
      ReprBodyRoundTrip(s[1..], q);
    }
  }

  /** Different texts have different `repr`s. */
  lemma ReprInjective(a: string, b: string)
    requires PyRepr(a) == PyRepr(b)
    ensures a == b
  {
  }

  /** A text of plain characters without a single quote is shown between single quotes as it is. */
  lemma {:induction false} ReprOfPlainText(s: string)
    requires forall i :: 0 <= i < |s| ==> ReprPlain(s[i], '\'')
    ensures PyRepr(s) == "'" + s + "'"
  {
    PlainBody(s, '\'');
  }

  lemma {:induction false} PlainBody(s: string, q: char)
    requires forall i :: 0 <= i < |s| ==> ReprPlain(s[i], q)
    ensures ReprBody(s, q) == s
  {
    if s != [] {
      assert ReprPlain(s[0], q);
      assert forall i :: 0 <= i < |s[1..]| ==> ReprPlain(s[1..][i], q) by {
        forall i | 0 <= i < |s[1..]| ensures ReprPlain(s[1..][i], q) {
          assert s[1..][i] == s[i + 1];
        }
      }
      PlainBody(s[1..], q);
      assert s == [s[0]] + s[1..];
    }
  }
}
