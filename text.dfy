// String helpers behaving like the Python `str` methods the source uses,
// restricted to ASCII: lower(), strip(), split(sep), split(), startswith,
// the `in` substring test, str(n) for naturals and int(s).
module Text {
  import opened Common

  function LowerChar(c: char): char
  {
    if 'A' <= c <= 'Z' then (c as int + 32) as char else c
  }

  /** `s.lower()` on ASCII letters. */
  function Lower(s: string): string
  {
    seq(|s|, i requires 0 <= i < |s| => LowerChar(s[i]))
  }

  lemma LowerIdempotent(s: string)
    ensures Lower(Lower(s)) == Lower(s)
  {
  }

  /** The characters `str.isspace()` accepts in the ASCII range. */
  predicate IsSpace(c: char)
  {
    c == ' ' || (9 <= c as int <= 13) || (28 <= c as int <= 31)
  }

  function TrimLeft(s: string): (r: string)
    ensures |r| <= |s| && r == s[|s| - |r|..]
    ensures r == [] || !IsSpace(r[0])
    ensures forall i :: 0 <= i < |s| - |r| ==> IsSpace(s[i])
  {
    if s != [] && IsSpace(s[0]) then TrimLeft(s[1..]) else s
  }

  function TrimRight(s: string): (r: string)
    ensures |r| <= |s| && r == s[..|r|]
    ensures r == [] || !IsSpace(r[|r| - 1])
    ensures forall i :: |r| <= i < |s| ==> IsSpace(s[i])
  {
    if s != [] && IsSpace(s[|s| - 1]) then TrimRight(s[..|s| - 1]) else s
  }

  /** `s.strip()`: whitespace removed at both ends. */
  function Strip(s: string): string
  {
    TrimRight(TrimLeft(s))
  }

  lemma StripNoSpace(s: string)
    requires forall i :: 0 <= i < |s| ==> !IsSpace(s[i])
    ensures Strip(s) == s
  {
  }

  /** Left-trimming leaves nothing exactly when `s` is all whitespace. */
  lemma {:induction false} TrimLeftEmpty(s: string)
    ensures TrimLeft(s) == [] <==> forall i :: 0 <= i < |s| ==> IsSpace(s[i])
  {
    if s != [] && IsSpace(s[0]) {
      TrimLeftEmpty(s[1..]);
      assert forall i :: 1 <= i < |s| ==> s[i] == s[1..][i - 1];
    }
  }

  predicate StartsWith(s: string, prefix: string)
  {
    |prefix| <= |s| && s[..|prefix|] == prefix
  }

  /** `needle in hay` for strings. */
  predicate Contains(hay: string, needle: string)
  {
    exists i :: 0 <= i <= |hay| - |needle| && OccursAt(hay, needle, i)
  }

  predicate OccursAt(hay: string, needle: string, i: nat)
  {
    i + |needle| <= |hay| && hay[i..i + |needle|] == needle
  }

  /** Position of the first `c` in `s`, or `|s|` when there is none. */
  function IndexOf(s: string, c: char): (k: nat)
    ensures k <= |s|
    ensures k < |s| ==> s[k] == c
    ensures forall i :: 0 <= i < k ==> s[i] != c
  {
    if s == [] then 0
    else if s[0] == c then 0
    else 1 + IndexOf(s[1..], c)
  }

  /** `s.split(sep)` for a one-character separator: never empty. */
  function Split(s: string, sep: char): (parts: seq<string>)
    ensures |parts| >= 1
    decreases |s|
  {
    var k := IndexOf(s, sep);
    if k == |s| then [s] else [s[..k]] + Split(s[k + 1..], sep)
  }

  lemma {:induction false} IndexOfPrefix(x: string, sep: char, rest: string)
    requires sep !in x
    ensures IndexOf(x + [sep] + rest, sep) == |x|
  {
    var s := x + [sep] + rest;
    if x != [] {
      assert s[0] == x[0];
      assert s[1..] == x[1..] + [sep] + rest;
      IndexOfPrefix(x[1..], sep, rest);
    }
  }

  /** Splitting `x + sep + rest` where `x` has no separator peels `x` off. */
  lemma SplitCons(x: string, sep: char, rest: string)
    requires sep !in x
    ensures Split(x + [sep] + rest, sep) == [x] + Split(rest, sep)
  {
    var s := x + [sep] + rest;
    IndexOfPrefix(x, sep, rest);
    assert s[..|x|] == x;
    assert s[|x| + 1..] == rest;
  }

  /** `s.split()`: maximal runs of non-whitespace, no empty pieces. */
  function Words(s: string): (ws: seq<string>)
    ensures forall i :: 0 <= i < |ws| ==> ws[i] != []
    decreases |s|
  {
    var t := TrimLeft(s);
    if t == [] then []
    else
      var k := FirstSpace(t);
      assert k != 0 by { assert !IsSpace(t[0]); }
      [t[..k]] + Words(t[k..])
  }

  /** A string without whitespace has its first whitespace at its end. */
  lemma {:induction false} FirstSpaceNone(s: string)
    requires forall i :: 0 <= i < |s| ==> !IsSpace(s[i])
    ensures FirstSpace(s) == |s|
  {
    if s != [] {
      FirstSpaceNone(s[1..]);
    }
  }

  /** A non-empty string without whitespace is its own only word. */
  lemma SingleWord(w: string)
    requires w != [] && forall i :: 0 <= i < |w| ==> !IsSpace(w[i])
    ensures Words(w) == [w]
  {
    FirstSpaceNone(w);
    assert TrimLeft(w) == w;
    assert w[|w|..] == [] && w[..|w|] == w;
  }

  /**
   * `s.split()[0]`: there is a first word exactly when `s` is not all
   * whitespace, and that word is its own only word, so taking it twice
   * changes nothing.
   */
  lemma FirstWord(s: string)
    ensures Words(s) == [] <==> forall i :: 0 <= i < |s| ==> IsSpace(s[i])
    ensures Words(s) != [] ==> Words(Words(s)[0]) == [Words(s)[0]]
  {
    TrimLeftEmpty(s);
    var t := TrimLeft(s);
    if t != [] {
      var k := FirstSpace(t);
      assert Words(s)[0] == t[..k];
      SingleWord(t[..k]);
    }
  }

  /** Position of the first whitespace character of `s`, or `|s|`. */
  function FirstSpace(s: string): (k: nat)
    ensures k <= |s|
    ensures k < |s| ==> IsSpace(s[k])
    ensures forall i :: 0 <= i < k ==> !IsSpace(s[i])
  {
    if s == [] then 0
    else if IsSpace(s[0]) then 0
    else 1 + FirstSpace(s[1..])
  }

  function DigitChar(d: nat): char
    requires d < 10
  {
    ('0' as int + d) as char
  }

  predicate IsDigit(c: char)
  {
    '0' <= c <= '9'
  }

  /** `str(n)` for a natural number: decimal digits, no leading zeros. */
  function NatToString(n: nat): (s: string)
    ensures |s| >= 1
    ensures forall i :: 0 <= i < |s| ==> IsDigit(s[i])
  {
    if n < 10 then [DigitChar(n)] else NatToString(n / 10) + [DigitChar(n % 10)]
  }

  function DigitValue(c: char): nat
    requires IsDigit(c)
  {
    c as int - '0' as int
  }

  /** The value of a string of decimal digits. */
  function DigitsValue(s: string): nat
    requires forall i :: 0 <= i < |s| ==> IsDigit(s[i])
  {
    if s == [] then 0
    else DigitsValue(s[..|s| - 1]) * 10 + DigitValue(s[|s| - 1])
  }

  predicate AllDigits(s: string)
  {
    s != [] && forall i :: 0 <= i < |s| ==> IsDigit(s[i])
  }

  /** A digit or an underscore: the characters of a decimal literal's body. */
  predicate IsDigitOrUnderscore(c: char)
  {
    IsDigit(c) || c == '_'
  }

  /**
   * The body of a decimal literal as `int` reads it: digits, where single
   * underscores may separate two digits.
   */
  predicate DecimalBody(s: string)
  {
    s != [] && IsDigit(s[0]) && IsDigit(s[|s| - 1])
    && (forall i :: 0 <= i < |s| ==> IsDigitOrUnderscore(s[i]))
    && (forall i :: 0 <= i < |s| - 1 ==> !(s[i] == '_' && s[i + 1] == '_'))
  }

  /** The digits of `s`, its underscores dropped. */
  function DropUnderscores(s: string): (r: string)
    ensures |r| <= |s|
    ensures (forall i :: 0 <= i < |s| ==> IsDigitOrUnderscore(s[i])) ==> forall i :: 0 <= i < |r| ==> IsDigit(r[i])
    ensures (forall i :: 0 <= i < |s| ==> IsDigit(s[i])) ==> r == s
  {
    if s == [] then []
    else DropUnderscores(s[..|s| - 1]) + (if s[|s| - 1] == '_' then [] else [s[|s| - 1]])
  }

  /**
   * Python's `int(s)` on a decimal literal: surrounding whitespace, an
   * optional sign and a body of digits with single underscores between
   * them; anything else raises ValueError (None here).
   */
  function ParseInt(s: string): Option<int>
  {
    var t := Strip(s);
    if t != [] && (t[0] == '+' || t[0] == '-') then
      if DecimalBody(t[1..]) then
        Some(if t[0] == '-' then 0 - DigitsValue(DropUnderscores(t[1..])) else DigitsValue(DropUnderscores(t[1..])))
      else None
    else if DecimalBody(t) then Some(DigitsValue(DropUnderscores(t)))
    else None
  }

  /** Underscores group digits: "1_0" reads as 10. */
  lemma UnderscoreGroups()
    ensures ParseInt("1_0") == Some(10)
  {
    var s := "1_0";
    StripNoSpace(s);
    assert !(s[0] == '+' || s[0] == '-');
    assert DecimalBody(s);
    assert ParseInt(s) == Some(DigitsValue(DropUnderscores(s)));
    DropOneZero();
    TenValue();
  }

  lemma TenValue()
    ensures DigitsValue("10") == 10
  {
    assert "10"[..1] == "1";
    assert "1"[..0] == [];
  }

  lemma DropOneZero()
    ensures DropUnderscores("1_0") == "10"
  {
    assert DropUnderscores("1") == "1";
    assert "1_"[..1] == "1";
    assert DropUnderscores("1_") == "1";
    assert "1_0"[..2] == "1_";
  }

  /** A doubled or a leading underscore raises. */
  lemma UnderscoreMisplaced()
    ensures ParseInt("1__0") == None
    ensures ParseInt("_1") == None
  {
    var s, u := "1__0", "_1";
    StripNoSpace(s);
    StripNoSpace(u);
    assert s[1] == '_' && s[2] == '_';
    assert !DecimalBody(s);
    assert !DecimalBody(u);
  }

  lemma {:induction false} DigitsOfNat(n: nat)
    ensures DigitsValue(NatToString(n)) == n
  {
    var s := NatToString(n);
    if n >= 10 {
      DigitsOfNat(n / 10);
      assert s[..|s| - 1] == NatToString(n / 10);
    }
  }

  lemma ParseDigits(s: string)
    requires AllDigits(s)
    ensures ParseInt(s) == Some(DigitsValue(s) as int)
  {
    assert forall i :: 0 <= i < |s| ==> !IsSpace(s[i]);
    StripNoSpace(s);
    assert !(s[0] == '+' || s[0] == '-');
    assert DecimalBody(s);
  }

  /** `int(str(n)) == n` for every natural `n`. */
  lemma ParseNatToString(n: nat)
    ensures ParseInt(NatToString(n)) == Some(n)
  {
    var s := NatToString(n);
    assert AllDigits(s);
    ParseDigits(s);
    DigitsOfNat(n);
  }
}
