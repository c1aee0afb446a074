/**
 * String helpers with the meaning Python's `str` methods and `int()` give them:
 * `s.split(sep)`, `s.split()`, `s.strip()`, `s.startswith(p)`, `int(s, base)`,
 * and the `{n:0wX}` / `{n}` formatting the OBD mock uses.
 */
module Text {
  import opened Wrappers

  /** The whitespace `str.split()`, `str.strip()` and `int()` skip, restricted to its ASCII and Latin-1 part. */
  predicate IsSpace(c: char) {
    c == ' ' || c == '\t' || c == '\n' || c == '\r' || c == '\U{0B}' || c == '\U{0C}'
    || ('\U{1C}' <= c <= '\U{1F}') || c == '\U{85}' || c == '\U{A0}'
  }

  predicate NoSpace(s: string) {
    forall i :: 0 <= i < |s| ==> !IsSpace(s[i])
  }

  predicate StartsWith(s: string, prefix: string) {
    |prefix| <= |s| && s[..|prefix|] == prefix
  }

  // ---------------------------------------------------------------- s.split(sep)

  /** `sep.join(parts)`. */
  function Join(parts: seq<string>, sep: char): string {
    if |parts| == 0 then ""
    else if |parts| == 1 then parts[0]
    else parts[0] + [sep] + Join(parts[1..], sep)
  }

  /** `s.split(sep)` for a one-character separator: empty fields are kept. */
  function Split(s: string, sep: char): (r: seq<string>)
    ensures |r| >= 1
    decreases |s|
  {
    if |s| == 0 then [""]
    else
      var rest := Split(s[1..], sep);
      if s[0] == sep then [""] + rest
      else [[s[0]] + rest[0]] + rest[1..]
  }

  /** The fields hold no separator and, joined with it, give `s` back. */
  lemma {:induction false} SplitSound(s: string, sep: char)
    ensures Join(Split(s, sep), sep) == s
    ensures forall i :: 0 <= i < |Split(s, sep)| ==> sep !in Split(s, sep)[i]
    decreases |s|
  {
    if |s| > 0 {
      var rest := Split(s[1..], sep);
      SplitSound(s[1..], sep);
      assert s == [s[0]] + s[1..];
      if s[0] != sep {
        JoinConsChar(s[0], rest, sep);
        var r := Split(s, sep);
        forall i | 0 <= i < |r| ensures sep !in r[i] {
          if i > 0 { assert r[i] == rest[i]; }
        }
      }
    }
  }

  lemma JoinConsChar(c: char, parts: seq<string>, sep: char)
    requires |parts| >= 1
    ensures Join([[c] + parts[0]] + parts[1..], sep) == [c] + Join(parts, sep)
  {
    var ps := [[c] + parts[0]] + parts[1..];
    assert ps[1..] == parts[1..];
  }

  lemma {:induction false} SplitNoSep(a: string, sep: char)
    requires sep !in a
    ensures Split(a, sep) == [a]
    decreases |a|
  {
    if |a| > 0 {
      SplitNoSep(a[1..], sep);
      assert [a[0]] + a[1..] == a;
    }
  }

  lemma {:induction false} SplitAtSep(a: string, b: string, sep: char)
    requires sep !in a
    ensures Split(a + [sep] + b, sep) == [a] + Split(b, sep)
    decreases |a|
  {
    var s := a + [sep] + b;
    if |a| == 0 {
      assert s[1..] == b;
    } else {
      assert s[1..] == a[1..] + [sep] + b;
      SplitAtSep(a[1..], b, sep);
      assert [a[0]] + a[1..] == a;
    }
  }

  lemma Join2(a: string, b: string, sep: char)
    ensures Join([a, b], sep) == a + [sep] + b
  {
    assert [a, b][1..] == [b];
  }

  lemma Join3(a: string, b: string, c: string, sep: char)
    ensures Join([a, b, c], sep) == a + [sep] + b + [sep] + c
  {
    assert [a, b, c][1..] == [b, c];
    Join2(b, c, sep);
  }

  lemma StartsWithConcat(p: string, rest: string)
    ensures StartsWith(p + rest, p)
  {
    assert (p + rest)[..|p|] == p;
  }

  lemma StartsWithExtend(s: string, p: string, t: string)
    requires StartsWith(s, p)
    ensures StartsWith(s + t, p)
  {
    assert (s + t)[..|p|] == s[..|p|];
  }

  /** Splitting a joined list of separator-free fields gives the fields back. */
  lemma {:induction false} SplitJoin(parts: seq<string>, sep: char)
    requires |parts| >= 1
    requires forall i :: 0 <= i < |parts| ==> sep !in parts[i]
    ensures Split(Join(parts, sep), sep) == parts
    decreases |parts|
  {
    if |parts| == 1 {
      SplitNoSep(parts[0], sep);
    } else {
      SplitJoin(parts[1..], sep);
      SplitAtSep(parts[0], Join(parts[1..], sep), sep);
    }
  }

  /** Three separator-free fields joined by the separator split back into those fields. */
  lemma Split3(a: string, b: string, c: string, sep: char)
    requires sep !in a && sep !in b && sep !in c
    ensures Split(a + [sep] + b + [sep] + c, sep) == [a, b, c]
  {
    var parts := [a, b, c];
    assert forall i :: 0 <= i < |parts| ==> sep !in parts[i];
    Join3(a, b, c, sep);
    SplitJoin(parts, sep);
  }

  // ---------------------------------------------------------------- s.split() and s.strip()

  function TrimStart(s: string): (r: string)
    ensures |r| <= |s|
    ensures r == [] || !IsSpace(r[0])
  {
    if |s| > 0 && IsSpace(s[0]) then TrimStart(s[1..]) else s
  }

  function TrimEnd(s: string): (r: string)
    ensures |r| <= |s|
    ensures r == [] || !IsSpace(r[|r| - 1])
  {
    if |s| > 0 && IsSpace(s[|s| - 1]) then TrimEnd(s[..|s| - 1]) else s
  }

  /** Stripping the front only drops characters: what is left is a suffix of `s`. */
  lemma {:induction false} TrimStartSuffix(s: string)
    ensures TrimStart(s) == s[|s| - |TrimStart(s)|..]
    decreases |s|
  {
    if |s| > 0 && IsSpace(s[0]) {
      TrimStartSuffix(s[1..]);
      assert s[1..][|s| - 1 - |TrimStart(s)|..] == s[|s| - |TrimStart(s)|..];
    }
  }

  /** Stripping the back only drops characters: what is left is a prefix of `s`. */
  lemma {:induction false} TrimEndPrefix(s: string)
    ensures TrimEnd(s) == s[..|TrimEnd(s)|]
    decreases |s|
  {
    if |s| > 0 && IsSpace(s[|s| - 1]) {
      TrimEndPrefix(s[..|s| - 1]);
    }
  }

  /** `s.strip()`. */
  function Strip(s: string): string {
    TrimEnd(TrimStart(s))
  }

  /** Length of the longest prefix of `s` free of whitespace. */
  function TokenLen(s: string): (n: nat)
    ensures n <= |s|
    ensures forall i :: 0 <= i < n ==> !IsSpace(s[i])
    ensures n == |s| || IsSpace(s[n])
  {
    if |s| > 0 && !IsSpace(s[0]) then 1 + TokenLen(s[1..]) else 0
  }

  /** `s.split()`: the maximal runs of non-whitespace characters, in order. */
  function Words(s: string): (r: seq<string>)
    ensures forall i :: 0 <= i < |r| ==> |r[i]| > 0 && NoSpace(r[i])
    decreases |s|
  {
    var t := TrimStart(s);
    if t == [] then []
    else
      var n := TokenLen(t);
      assert n >= 1 by { assert !IsSpace(t[0]); }
      var w := t[..n];
      var rest := Words(t[n..]);
      ConsWords(w, rest);
      [w] + rest
  }

  lemma ConsWords(w: string, rest: seq<string>)
    requires |w| > 0 && NoSpace(w)
    requires forall i :: 0 <= i < |rest| ==> |rest[i]| > 0 && NoSpace(rest[i])
    ensures forall i :: 0 <= i < |[w] + rest| ==> |([w] + rest)[i]| > 0 && NoSpace(([w] + rest)[i])
  {
    forall i | 0 <= i < |[w] + rest| ensures |([w] + rest)[i]| > 0 && NoSpace(([w] + rest)[i]) {
      if i > 0 { assert ([w] + rest)[i] == rest[i - 1]; }
    }
  }

  lemma StripNoSpace(s: string)
    requires NoSpace(s)
    ensures Strip(s) == s
  {
    assert TrimStart(s) == s;
  }

  lemma TrimStartSpace(c: char, s: string)
    requires IsSpace(c)
    ensures TrimStart([c] + s) == TrimStart(s)
  {
    assert ([c] + s)[1..] == s;
  }

  lemma TokenLenAll(a: string, b: string)
    requires NoSpace(a)
    requires b == [] || IsSpace(b[0])
    ensures TokenLen(a + b) == |a|
    decreases |a|
  {
    if |a| > 0 {
      assert (a + b)[1..] == a[1..] + b;
      TokenLenAll(a[1..], b);
    }
  }

  lemma WordsLeadingSpace(c: char, j: string)
    requires IsSpace(c)
    ensures Words([c] + j) == Words(j)
  {
    TrimStartSpace(c, j);
  }

  lemma WordsSingle(w: string)
    requires |w| > 0 && NoSpace(w)
    ensures Words(w) == [w]
  {
    assert TrimStart(w) == w;
    TokenLenAll(w, []);
    assert w + [] == w;
    assert w[|w|..] == [];
  }

  lemma WordsCons(w: string, j: string)
    requires |w| > 0 && NoSpace(w)
    ensures Words(w + [' '] + j) == [w] + Words([' '] + j)
  {
    var s := w + [' '] + j;
    assert TrimStart(s) == s;
    assert s == w + ([' '] + j);
    TokenLenAll(w, [' '] + j);
    assert s[..|w|] == w;
    assert s[|w|..] == [' '] + j;
  }

  /** Splitting space-joined words on whitespace gives the words back. */
  lemma {:induction false} WordsJoin(ws: seq<string>)
    requires forall i :: 0 <= i < |ws| ==> |ws[i]| > 0 && NoSpace(ws[i])
    ensures Words(Join(ws, ' ')) == ws
    decreases |ws|
  {
    if |ws| == 1 {
      WordsSingle(ws[0]);
      assert Join(ws, ' ') == ws[0];
      assert [ws[0]] == ws;
    } else if |ws| > 1 {
      var j := Join(ws[1..], ' ');
      assert Words(ws[0] + [' '] + j) == [ws[0]] + Words(j) by {
        WordsCons(ws[0], j);
        WordsLeadingSpace(' ', j);
      }
      assert Words(j) == ws[1..] by {
        WordsJoin(ws[1..]);
      }
      calc {
        Words(Join(ws, ' '));
        Words(ws[0] + [' '] + j);
        [ws[0]] + ws[1..];
        ws;
      }
    }
  }

  /** Three words joined by single spaces split back into those three words. */
  lemma Words3(a: string, b: string, c: string)
    requires |a| > 0 && NoSpace(a) && |b| > 0 && NoSpace(b) && |c| > 0 && NoSpace(c)
    ensures Words(a + " " + b + " " + c) == [a, b, c]
  {
    Join3(a, b, c, ' ');
    WordsJoin([a, b, c]);
  }

  /** Four words joined by single spaces split back into those four words. */
  lemma Words4(a: string, b: string, c: string, d: string)
    requires |a| > 0 && NoSpace(a) && |b| > 0 && NoSpace(b)
    requires |c| > 0 && NoSpace(c) && |d| > 0 && NoSpace(d)
    ensures Words(a + " " + b + " " + c + " " + d) == [a, b, c, d]
  {
    assert Join([a, b, c, d], ' ') == a + " " + b + " " + c + " " + d by {
      assert [a, b, c, d][1..] == [b, c, d];
      Join3(b, c, d, ' ');
    }
    WordsJoin([a, b, c, d]);
  }

  // ---------------------------------------------------------------- int(s, base)

  /** The value of `c` as a digit (up to base 16, either case), or -1. */
  function DigitValue(c: char): (d: int)
    ensures -1 <= d < 16
  {
    if '0' <= c <= '9' then c as int - '0' as int
    else if 'a' <= c <= 'f' then c as int - 'a' as int + 10
    else if 'A' <= c <= 'F' then c as int - 'A' as int + 10
    else -1
  }

  predicate AllDigits(s: string, base: nat) {
    forall i :: 0 <= i < |s| ==> 0 <= DigitValue(s[i]) < base
  }

  /** The number the digit string `s` denotes in `base` (most significant digit first). */
  function DigitsValue(s: string, base: nat): nat
    requires AllDigits(s, base)
  {
    if s == [] then 0 else DigitsValue(s[..|s| - 1], base) * base + DigitValue(s[|s| - 1])
  }

  /**
   * `int(s, base)` for base 10 or 16: surrounding whitespace is ignored, one sign is
   * allowed, base 16 also allows a `0x`/`0X` prefix, then at least one ASCII digit.
   * Every other text is None, standing for ValueError. Python also accepts `_`
   * between digits, non-ASCII digits and white space beyond IsSpace; this function
   * rejects those texts.
   */
  function ParseInt(s: string, base: nat): Option<int>
    requires base == 10 || base == 16
  {
    var t := Strip(s);
    var body := Unprefixed(Unsigned(t), base);
    if |body| > 0 && AllDigits(body, base) then
      Some(if IsNegative(t) then -(DigitsValue(body, base) as int) else DigitsValue(body, base))
    else None
  }

  predicate IsNegative(t: string) {
    |t| > 0 && t[0] == '-'
  }

  /** `t` without its one leading sign, if any. */
  function Unsigned(t: string): string {
    if |t| > 0 && (t[0] == '-' || t[0] == '+') then t[1..] else t
  }

  /** `u` without the `0x`/`0X` prefix that base 16 allows. */
  function Unprefixed(u: string, base: nat): string {
    if base == 16 && |u| >= 2 && u[0] == '0' && (u[1] == 'x' || u[1] == 'X') then u[2..] else u
  }

  // ---------------------------------------------------------------- formatting

  /** Upper-case digit for `d`, as `{:X}` prints it. */
  function DigitChar(d: nat): (c: char)
    requires d < 16
    ensures DigitValue(c) == d
  {
    if d < 10 then ('0' as int + d) as char else ('A' as int + d - 10) as char
  }

  /** The digits of `n` in `base`, without leading zeros. */
  function Digits(n: nat, base: nat): (s: string)
    requires 2 <= base <= 16
    ensures |s| >= 1 && AllDigits(s, base)
    ensures DigitsValue(s, base) == n
    decreases n
  {
    if n < base then [DigitChar(n)]
    else
      var q, r := n / base, n % base;
      DivMod(n, base);
      var p := Digits(q, base);
      DigitsSnoc(p, r, base);
      p + [DigitChar(r)]
  }

  lemma DivMod(n: nat, base: nat)
    requires 2 <= base
    ensures n / base * base + n % base == n && 0 <= n % base < base
    ensures n >= base ==> n / base < n
  {
  }

  lemma DigitsSnoc(p: string, d: nat, base: nat)
    requires 2 <= base <= 16 && d < base && AllDigits(p, base)
    ensures AllDigits(p + [DigitChar(d)], base)
    ensures DigitsValue(p + [DigitChar(d)], base) == DigitsValue(p, base) * base + d
  {
    var s := p + [DigitChar(d)];
    assert s[..|s| - 1] == p;
  }

  lemma NotSign(c: char)
    requires DigitValue(c) >= 0
    ensures c != '-' && c != '+' && c != 'x' && c != 'X'
  {
  }

  /** A digit string holds no whitespace, separator, sign or `x`. */
  lemma DigitsClean(s: string, base: nat)
    requires AllDigits(s, base)
    ensures NoSpace(s) && ',' !in s && ':' !in s && '-' !in s && '+' !in s
    ensures 'x' !in s && 'X' !in s
  {
    forall i | 0 <= i < |s| ensures !IsSpace(s[i]) {
      assert DigitValue(s[i]) >= 0;
    }
  }

  function Repeat(c: char, k: nat): (s: string)
    ensures |s| == k && forall i :: 0 <= i < k ==> s[i] == c
  {
    if k == 0 then "" else [c] + Repeat(c, k - 1)
  }

  /** `s.rjust(width, c)` / `padStart(width, c)`. */
  function PadLeft(s: string, width: nat, c: char): (r: string)
    ensures |r| == if |s| >= width then |s| else width
    ensures r == Repeat(c, |r| - |s|) + s
  {
    if |s| >= width then s else Repeat(c, width - |s|) + s
  }

  lemma {:induction false} LeadingZero(s: string, base: nat)
    requires 10 <= base <= 16 && AllDigits(s, base)
    ensures AllDigits(['0'] + s, base) && DigitsValue(['0'] + s, base) == DigitsValue(s, base)
    decreases |s|
  {
    var z := ['0'] + s;
    if s != [] {
      assert z[..|z| - 1] == ['0'] + s[..|s| - 1];
      LeadingZero(s[..|s| - 1], base);
    }
  }

  lemma {:induction false} LeadingZeros(k: nat, s: string, base: nat)
    requires 10 <= base <= 16 && AllDigits(s, base)
    ensures AllDigits(Repeat('0', k) + s, base)
    ensures DigitsValue(Repeat('0', k) + s, base) == DigitsValue(s, base)
  {
    if k > 0 {
      var t := Repeat('0', k - 1) + s;
      assert Repeat('0', k) + s == ['0'] + t by {
        assert Repeat('0', k) == ['0'] + Repeat('0', k - 1);
      }
      assert AllDigits(t, base) && DigitsValue(t, base) == DigitsValue(s, base) by {
        LeadingZeros(k - 1, s, base);
      }
      LeadingZero(t, base);
    } else {
      assert Repeat('0', k) + s == s;
    }
  }

  /** `f"{n:0{width}X}"` for a non-negative `n`. */
  function HexPadded(n: nat, width: nat): (s: string)
    ensures |s| >= 1 && AllDigits(s, 16) && DigitsValue(s, 16) == n
  {
    var d := Digits(n, 16);
    var k := if |d| >= width then 0 else width - |d|;
    LeadingZeros(k, d, 16);
    assert PadLeft(d, width, '0') == Repeat('0', k) + d;
    PadLeft(d, width, '0')
  }

  /**
   * Quotient and remainder of `n` by `d`, by repeated subtraction; the same as
   * `divmod(n, d)` (see QuotRemDivMod), in a form whose unfolding stays linear.
   */
  function QuotRem(n: nat, d: nat): (r: (nat, nat))
    requires d >= 1
    ensures r.0 * d + r.1 == n && r.1 < d
    decreases n
  {
    if n < d then (0, n) else var p := QuotRem(n - d, d); (p.0 + 1, p.1)
  }

  lemma QuotRemDivMod(n: nat, d: nat)
    requires d >= 1
    ensures QuotRem(n, d) == (n / d, n % d)
  {
    var r := QuotRem(n, d);
    if d == 1 {
    } else {
      DivMod(n, d);
      Unique(n, d, r.0, r.1, n / d, n % d);
    }
  }

  lemma Unique(n: nat, d: nat, q1: nat, r1: nat, q2: nat, r2: nat)
    requires d >= 1 && q1 * d + r1 == n && r1 < d && q2 * d + r2 == n && r2 < d
    ensures q1 == q2 && r1 == r2
  {
    var k := q1 - q2;
    assert k * d == r2 - r1 by { Distrib(q1, q2, d); }
    if k != 0 {
      NonZeroMultiple(k, d);
    }
  }

  lemma Distrib(a: int, b: int, d: int)
    ensures (a - b) * d == a * d - b * d
  {
  }

  lemma NonZeroMultiple(k: int, d: int)
    requires k != 0 && d >= 1
    ensures k * d >= d || k * d <= -d
  {
  }

  /** `str(n)` for a Python or JavaScript integer. */
  function Show(n: int): (s: string)
    ensures |s| >= 1 && NoSpace(s) && ',' !in s && ':' !in s
    ensures 0 <= DigitValue(s[|s| - 1]) < 10
  {
    var d := Digits(if n < 0 then -n else n, 10);
    DigitsClean(d, 10);
    if n < 0 then "-" + d else d
  }

  /** What `int(s, base)` returns once `s` is known to be stripped and its digits known. */
  lemma ParseClean(s: string, body: string, base: nat)
    requires base == 10 || base == 16
    requires Strip(s) == s && Unprefixed(Unsigned(s), base) == body
    requires |body| > 0 && AllDigits(body, base)
    ensures ParseInt(s, base) == Some(if IsNegative(s) then -(DigitsValue(body, base) as int) else DigitsValue(body, base))
  {
  }

  lemma StripDigits(d: string, base: nat)
    requires AllDigits(d, base)
    ensures Strip(d) == d
  {
    DigitsClean(d, base);
    StripNoSpace(d);
  }

  lemma UnsignedDigits(d: string, base: nat)
    requires |d| >= 1 && AllDigits(d, base)
    ensures !IsNegative(d) && Unsigned(d) == d
  {
    NotSign(d[0]);
  }

  lemma UnprefixedDigits(d: string, base: nat)
    requires |d| >= 1 && AllDigits(d, base)
    ensures Unprefixed(d, base) == d
  {
    if |d| >= 2 { NotSign(d[1]); }
  }

  /** `int(d, base) == v` for a plain digit string `d` denoting `v`. */
  lemma ParseDigits(d: string, base: nat)
    requires base == 10 || base == 16
    requires |d| >= 1 && AllDigits(d, base)
    ensures ParseInt(d, base) == Some(DigitsValue(d, base))
  {
    StripDigits(d, base);
    UnsignedDigits(d, base);
    UnprefixedDigits(d, base);
    ParseClean(d, d, base);
  }

  /** `int(str(n)) == n`. */
  lemma ParseShow(n: int)
    ensures ParseInt(Show(n), 10) == Some(n)
  {
    var d := Digits(if n < 0 then -n else n, 10);
    if n < 0 {
      var s := "-" + d;
      assert Show(n) == s;
      assert Strip(s) == s by {
        DigitsClean(d, 10);
        assert NoSpace(s);
        StripNoSpace(s);
      }
      assert IsNegative(s) && Unsigned(s) == d by {
        assert s[1..] == d;
      }
      UnprefixedDigits(d, 10);
      ParseClean(s, d, 10);
    } else {
      ParseDigits(d, 10);
    }
  }

  /** `String(k).padStart(width, '0')` for k >= 0 reads back as k, and is plain digits. */
  lemma ParsePadded(k: nat, width: nat)
    ensures var s := PadLeft(Show(k), width, '0');
      |s| >= 1 && NoSpace(s) && ':' !in s && ParseInt(s, 10) == Some(k)
  {
    var d := Digits(k, 10);
    assert Show(k) == d;
    var s := PadLeft(d, width, '0');
    LeadingZeros(|s| - |d|, d, 10);
    DigitsClean(s, 10);
    ParseDigits(s, 10);
  }

  /** `int(f"{n:0{w}X}", 16) == n`. */
  lemma ParseHexPadded(n: nat, width: nat)
    ensures ParseInt(HexPadded(n, width), 16) == Some(n)
  {
    ParseDigits(HexPadded(n, width), 16);
  }
}
