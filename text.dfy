/** The string operations the Python and TypeScript sources rely on, restricted to
    ASCII: case mapping, whitespace stripping, substring tests, word splitting and
    decimal formatting of numbers. */
module Text {

  /** Python's `str.isspace` on ASCII characters: blank, tab, line feed, vertical tab,
      form feed, carriage return and the four separators 28-31. */
  predicate IsSpace(c: char) {
    c == ' ' || c == '\t' || c == '\n' || c == '\r' || c as int == 11 || c as int == 12
    || 28 <= c as int <= 31
  }

  predicate AllSpaces(s: string) {
    forall i :: 0 <= i < |s| ==> IsSpace(s[i])
  }

  predicate IsAsciiAlnum(c: char) {
    ('a' <= c <= 'z') || ('A' <= c <= 'Z') || ('0' <= c <= '9')
  }

  predicate NoAsciiAlnum(s: string) {
    forall i :: 0 <= i < |s| ==> !IsAsciiAlnum(s[i])
  }

  lemma SpacesAreNotAlnum(s: string)
    requires AllSpaces(s)
    ensures NoAsciiAlnum(s)
  {
  }

  function LowerChar(c: char): (d: char)
    ensures !('A' <= d <= 'Z')
    ensures !('A' <= c <= 'Z') ==> d == c
  {
    if 'A' <= c <= 'Z' then (c as int + 32) as char else c
  }

  function UpperChar(c: char): (d: char)
    ensures !('a' <= d <= 'z')
    ensures !('a' <= c <= 'z') ==> d == c
  {
    if 'a' <= c <= 'z' then (c as int - 32) as char else c
  }

  /** `s.lower()` / `s.toLowerCase()` on ASCII letters. */
  function Lower(s: string): (r: string)
    ensures |r| == |s|
    ensures forall i :: 0 <= i < |s| ==> r[i] == LowerChar(s[i])
  {
    seq(|s|, i requires 0 <= i < |s| => LowerChar(s[i]))
  }

  /** `s.upper()` on ASCII letters. */
  function Upper(s: string): (r: string)
    ensures |r| == |s|
    ensures forall i :: 0 <= i < |s| ==> r[i] == UpperChar(s[i])
  {
    seq(|s|, i requires 0 <= i < |s| => UpperChar(s[i]))
  }

  /** Upper-casing works character by character. */
  lemma UpperConcat(a: string, b: string)
    ensures Upper(a + b) == Upper(a) + Upper(b)
  {
  }

  /** Upper-casing turns no other character into an ASCII letter or digit. */
  lemma UpperKeepsNoAsciiAlnum(s: string)
    requires NoAsciiAlnum(s)
    ensures NoAsciiAlnum(Upper(s))
  {
  }

  /** `s.lstrip()`: drops the leading whitespace. */
  function TrimLeft(s: string): (r: string)
    ensures |r| <= |s| && r == s[|s| - |r|..]
    ensures r == [] || !IsSpace(r[0])
    ensures forall i :: 0 <= i < |s| - |r| ==> IsSpace(s[i])
  {
    if s != [] && IsSpace(s[0]) then TrimLeft(s[1..]) else s
  }

  /** `s.rstrip()`: drops the trailing whitespace. */
  function TrimRight(s: string): (r: string)
    ensures |r| <= |s| && r == s[..|r|]
    ensures r == [] || !IsSpace(r[|r| - 1])
    ensures forall i :: |r| <= i < |s| ==> IsSpace(s[i])
  {
    if s != [] && IsSpace(s[|s| - 1]) then TrimRight(s[..|s| - 1]) else s
  }

  /** `s.strip()`. */
  function Strip(s: string): (r: string)
    ensures |r| <= |s|
  {
    TrimLeft(TrimRight(s))
  }

  /** A string is the concatenation of its three slices at a and b. */
  lemma SliceThree(s: string, a: nat, b: nat)
    requires a <= b <= |s|
    ensures s == s[..a] + s[a..b] + s[b..]
  {
    assert s[..b] == s[..a] + s[a..b];
  }

  /** What `Strip` keeps is a slice of its input with only blanks around it. */
  lemma StripBounds(s: string) returns (a: nat, b: nat)
    ensures a <= b <= |s| && Strip(s) == s[a..b]
    ensures AllSpaces(s[..a]) && AllSpaces(s[b..])
  {
    var t := TrimRight(s);
    b := |t|;
    a := b - |TrimLeft(t)|;
    assert t == s[..b];
  }

  lemma {:induction false} TrimRightDropsSpaces(s: string, post: string)
    requires s != [] && !IsSpace(s[|s| - 1]) && AllSpaces(post)
    ensures TrimRight(s + post) == s
    decreases |post|
  {
    if post == [] {
      assert s + post == s;
    } else {
      var shorter := post[..|post| - 1];
      assert (s + post)[..|s + post| - 1] == s + shorter;
      TrimRightDropsSpaces(s, shorter);
    }
  }

  lemma {:induction false} TrimLeftDropsSpaces(pre: string, s: string)
    requires s != [] && !IsSpace(s[0]) && AllSpaces(pre)
    ensures TrimLeft(pre + s) == s
    decreases |pre|
  {
    if pre == [] {
      assert pre + s == s;
    } else {
      assert (pre + s)[1..] == pre[1..] + s;
      TrimLeftDropsSpaces(pre[1..], s);
    }
  }

  /** Stripping removes exactly the surrounding whitespace of a word. */
  lemma StripSurrounded(pre: string, s: string, post: string)
    requires s != [] && !IsSpace(s[0]) && !IsSpace(s[|s| - 1])
    requires AllSpaces(pre) && AllSpaces(post)
    ensures Strip(pre + s + post) == s
  {
    TrimRightDropsSpaces(pre + s, post);
    TrimLeftDropsSpaces(pre, s);
  }

  /** Python's `needle in hay` and JavaScript's `hay.includes(needle)`. */
  predicate Contains(hay: string, needle: string)
    decreases |hay|
  {
    if |needle| > |hay| then false
    else if hay[..|needle|] == needle then true
    else Contains(hay[1..], needle)
  }

  predicate StartsWith(s: string, prefix: string) {
    |prefix| <= |s| && s[..|prefix|] == prefix
  }

  predicate EndsWith(s: string, suffix: string) {
    |suffix| <= |s| && s[|s| - |suffix|..] == suffix
  }

  /** Every string occurs inside itself with text around it. */
  lemma {:induction false} ContainsInfix(pre: string, needle: string, post: string)
    ensures Contains(pre + needle + post, needle)
    decreases |pre|
  {
    var hay := pre + needle + post;
    if pre == [] {
      assert hay[..|needle|] == needle;
    } else if hay[..|needle|] != needle {
      assert hay[1..] == pre[1..] + needle + post;
      ContainsInfix(pre[1..], needle, post);
    }
  }

  /** The longest prefix of `s` that holds no whitespace. */
  function TakeWord(s: string): (w: string)
    ensures |w| <= |s| && w == s[..|w|]
    ensures s != [] && !IsSpace(s[0]) ==> |w| > 0
  {
    if s == [] || IsSpace(s[0]) then [] else [s[0]] + TakeWord(s[1..])
  }

  /** `s.split()` with no argument: the maximal runs of non-whitespace. */
  function Words(s: string): (ws: seq<string>)
    decreases |s|
  {
    var t := TrimLeft(s);
    if t == [] then []
    else
      var w := TakeWord(t);
      [w] + Words(t[|w|..])
  }

  function DigitChar(d: nat): (c: char)
    requires d < 10
    ensures '0' <= c <= '9'
  {
    ('0' as int + d) as char
  }

  function DigitValue(c: char): nat
    requires '0' <= c <= '9'
  {
    c as int - '0' as int
  }

  predicate AllDigits(s: string) {
    forall i :: 0 <= i < |s| ==> '0' <= s[i] <= '9'
  }

  /** Decimal rendering of a natural number (`str(n)`, `f"{n}"`). */
  function NatToString(n: nat): (s: string)
    ensures |s| >= 1 && AllDigits(s)
  {
    if n < 10 then [DigitChar(n)] else NatToString(n / 10) + [DigitChar(n % 10)]
  }

  /** Decimal rendering of an integer, with a leading minus sign when negative. */
  function IntToString(i: int): (s: string)
    ensures |s| >= 1
  {
    if i < 0 then "-" + NatToString(-i) else NatToString(i)
  }

  /** The value of a string of decimal digits; leading zeros contribute nothing. */
  function ParseDigits(s: string): nat
    requires AllDigits(s)
  {
    if s == [] then 0 else ParseDigits(s[..|s| - 1]) * 10 + DigitValue(s[|s| - 1])
  }

  /** `f"{n:0{width}d}"`: the decimal rendering of n, left-padded with zeros to `width`. */
  function ZeroPad(n: nat, width: nat): (s: string)
    ensures AllDigits(s)
    ensures |s| == if |NatToString(n)| < width then width else |NatToString(n)|
  {
    var digits := NatToString(n);
    if |digits| < width then seq(width - |digits|, _ => '0') + digits else digits
  }

  lemma {:induction false} NatToStringRoundTrip(n: nat)
    ensures ParseDigits(NatToString(n)) == n
  {
    if n >= 10 {
      var s := NatToString(n);
      assert s[..|s| - 1] == NatToString(n / 10);
      NatToStringRoundTrip(n / 10);
    }
  }

  lemma {:induction false} LeadingZeroIgnored(s: string)
    requires AllDigits(s)
    ensures AllDigits("0" + s) && ParseDigits("0" + s) == ParseDigits(s)
    decreases |s|
  {
    if s != [] {
      var t := "0" + s;
      assert t[..|t| - 1] == "0" + s[..|s| - 1];
      LeadingZeroIgnored(s[..|s| - 1]);
    }
  }

  lemma {:induction false} ZerosIgnored(k: nat, s: string)
    requires AllDigits(s)
    ensures AllDigits(seq(k, _ => '0') + s)
    ensures ParseDigits(seq(k, _ => '0') + s) == ParseDigits(s)
  {
    if k > 0 {
      var rest := seq(k - 1, _ => '0') + s;
      ZerosIgnored(k - 1, s);
      ZerosUnfold(k);
      assert seq(k, _ => '0') + s == "0" + rest;
      LeadingZeroIgnored(rest);
    } else {
      assert seq(k, _ => '0') + s == s;
    }
  }

  lemma ZerosUnfold(k: nat)
    requires k > 0
    ensures seq(k, _ => '0') == "0" + seq(k - 1, _ => '0')
  {
  }

  /** Zero padding keeps the value: reading the padded digits back gives n, so
      distinct numbers are rendered as distinct strings. */
  lemma ZeroPadRoundTrip(n: nat, width: nat)
    ensures ParseDigits(ZeroPad(n, width)) == n
  {
    var digits := NatToString(n);
    NatToStringRoundTrip(n);
    if |digits| < width {
      assert ZeroPad(n, width) == seq(width - |digits|, _ => '0') + digits;
      ZerosIgnored(width - |digits|, digits);
    } else {
      assert ZeroPad(n, width) == digits;
    }
  }
}
