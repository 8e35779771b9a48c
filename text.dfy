/** The string formatting the configurator relies on: Go's `%d`/`%v` of an
    unsigned integer, `strings.Join` and `strings.Fields`, each with the
    inverse that shows nothing is lost. */
module Text {

  import opened Base

  predicate IsDigit(c: char) {
    '0' <= c <= '9'
  }

  predicate AllDigits(s: string) {
    forall i :: 0 <= i < |s| ==> IsDigit(s[i])
  }

  function DigitChar(d: nat): (c: char)
    requires d < 10
    ensures IsDigit(c)
  {
    ('0' as int + d) as char
  }

  function DigitValue(c: char): (d: nat)
    requires IsDigit(c)
    ensures d < 10 && DigitChar(d) == c
  {
    c as int - '0' as int
  }

  /** The decimal text of `n`, as Go's `fmt` prints an unsigned integer:
      digits only, and a leading zero only for zero itself. */
  function Decimal(n: nat): (r: string)
    ensures r != [] && AllDigits(r)
    ensures r[0] == '0' <==> n == 0
    decreases n
  {
    if n < 10 then [DigitChar(n)] else Decimal(n / 10) + [DigitChar(n % 10)]
  }

  /** Reads a string of decimal digits back as a number. */
  function ParseDecimal(s: string): nat
    requires AllDigits(s)
  {
    if s == [] then 0 else 10 * ParseDecimal(s[..|s| - 1]) + DigitValue(s[|s| - 1])
  }

  /** Printing a number in decimal loses nothing. */
  lemma {:induction false} ParseDecimalOfDecimal(n: nat)
    ensures ParseDecimal(Decimal(n)) == n
  {
    if n >= 10 {
      var s := Decimal(n);
      assert s[..|s| - 1] == Decimal(n / 10);
      ParseDecimalOfDecimal(n / 10);
    }
  }

  /** The length of the longest prefix of `s` made of digits. */
  function DigitPrefixLength(s: string): (k: nat)
    ensures k <= |s| && AllDigits(s[..k])
    ensures k < |s| ==> !IsDigit(s[k])
  {
    if s == [] || !IsDigit(s[0]) then 0 else 1 + DigitPrefixLength(s[1..])
  }

  /** Reads the number that `s` starts with and returns it with the rest of
      `s`; `None` when `s` does not start with a digit. */
  function ParseLeadingNat(s: string): Option<(nat, string)> {
    var k := DigitPrefixLength(s);
    if k == 0 then None else Some((ParseDecimal(s[..k]), s[k..]))
  }

  /** The digit prefix of digits followed by a non-digit is those digits. */
  lemma {:induction false} DigitPrefixOfDigits(d: string, rest: string)
    requires AllDigits(d)
    requires rest == [] || !IsDigit(rest[0])
    ensures DigitPrefixLength(d + rest) == |d|
  {
    if d == [] {
      assert d + rest == rest;
    } else {
      assert (d + rest)[0] == d[0] && (d + rest)[1..] == d[1..] + rest;
      DigitPrefixOfDigits(d[1..], rest);
    }
  }

  /** A number printed in decimal and followed by a non-digit is read back
      whole, and the text after it is left untouched. */
  lemma ParseLeadingNatOfDecimal(n: nat, rest: string)
    requires rest == [] || !IsDigit(rest[0])
    ensures ParseLeadingNat(Decimal(n) + rest) == Some((n, rest))
  {
    var d := Decimal(n);
    var s := d + rest;
    DigitPrefixOfDigits(d, rest);
    var k := DigitPrefixLength(s);
    assert s[..k] == d && s[k..] == rest;
    ParseDecimalOfDecimal(n);
  }

  /** The rest of `s` after the prefix `p`; `None` when `s` does not start
      with `p`. */
  function StripPrefix(p: string, s: string): (r: Option<string>)
    ensures r.Some? ==> s == p + r.value
  {
    if |p| <= |s| && s[..|p|] == p then Some(s[|p|..]) else None
  }

  lemma StripPrefixOf(p: string, t: string)
    ensures StripPrefix(p, p + t) == Some(t)
  {
    assert (p + t)[..|p|] == p && (p + t)[|p|..] == t;
  }

  /** Go's `strings.Join(xs, string(sep))`. */
  function Join(xs: seq<string>, sep: char): string {
    if |xs| == 0 then ""
    else if |xs| == 1 then xs[0]
    else xs[0] + [sep] + Join(xs[1..], sep)
  }

  /** The position of the first `c` in `s`. */
  function IndexOf(s: string, c: char): (i: nat)
    requires c in s
    ensures i < |s| && s[i] == c && c !in s[..i]
  {
    if s[0] == c then 0 else 1 + IndexOf(s[1..], c)
  }

  /** Cuts `s` at every `sep`, the inverse of `Join`. */
  function Split(s: string, sep: char): (r: seq<string>)
    ensures |r| >= 1
    ensures forall i :: 0 <= i < |r| ==> sep !in r[i]
    decreases |s|
  {
    if sep !in s then [s]
    else
      var i := IndexOf(s, sep);
      [s[..i]] + Split(s[i + 1..], sep)
  }

  /** Joining a non-empty list whose items do not contain the separator can
      be undone: the items are recovered in order. */
  lemma {:induction false} SplitJoin(xs: seq<string>, sep: char)
    requires |xs| >= 1
    requires forall i :: 0 <= i < |xs| ==> sep !in xs[i]
    ensures Split(Join(xs, sep), sep) == xs
  {
    if |xs| > 1 {
      var tail := Join(xs[1..], sep);
      var s := xs[0] + [sep] + tail;
      assert s[|xs[0]|] == sep;
      var i := IndexOf(s, sep);
      assert s[..i] == xs[0] && s[i + 1..] == tail;
      SplitJoin(xs[1..], sep);
    }
  }

  /** Go's `unicode.IsSpace`: the white-space characters of Unicode's
      White_Space property that `strings.Fields` splits on. */
  predicate IsSpace(c: char) {
    var n := c as int;
    n == 0x20 || 0x09 <= n <= 0x0D || n == 0x85 || n == 0xA0 || n == 0x1680
    || 0x2000 <= n <= 0x200A || n == 0x2028 || n == 0x2029 || n == 0x202F
    || n == 0x205F || n == 0x3000
  }

  /** A field of `strings.Fields`: non-empty and free of white space. */
  predicate IsWord(w: string) {
    w != [] && forall i :: 0 <= i < |w| ==> !IsSpace(w[i])
  }

  function LeadingSpaces(s: string): (k: nat)
    ensures k <= |s| && (forall i :: 0 <= i < k ==> IsSpace(s[i]))
    ensures k < |s| ==> !IsSpace(s[k])
  {
    if s == [] || !IsSpace(s[0]) then 0 else 1 + LeadingSpaces(s[1..])
  }

  function LeadingNonSpaces(s: string): (k: nat)
    ensures k <= |s| && (forall i :: 0 <= i < k ==> !IsSpace(s[i]))
    ensures k < |s| ==> IsSpace(s[k])
  {
    if s == [] || IsSpace(s[0]) then 0 else 1 + LeadingNonSpaces(s[1..])
  }

  /** Go's `strings.Fields`: the maximal runs of non-space characters of `s`,
      in order. */
  function Fields(s: string): (r: seq<string>)
    ensures forall i :: 0 <= i < |r| ==> IsWord(r[i])
    decreases |s|
  {
    var a := LeadingSpaces(s);
    if a == |s| then []
    else
      var t := s[a..];
      var b := LeadingNonSpaces(t);
      [t[..b]] + Fields(t[b..])
  }

  function Concat(xs: seq<string>): string {
    if xs == [] then "" else xs[0] + Concat(xs[1..])
  }

  /** What deleting white space keeps of one character. */
  function Kept(c: char): string {
    if IsSpace(c) then "" else [c]
  }

  /** `s` with every white-space character deleted. */
  function RemoveSpaces(s: string): string {
    if s == [] then "" else Kept(s[0]) + RemoveSpaces(s[1..])
  }

  lemma {:induction false} RemoveSpacesAppend(a: string, b: string)
    ensures RemoveSpaces(a + b) == RemoveSpaces(a) + RemoveSpaces(b)
  {
    if a == [] {
      assert a + b == b;
    } else {
      var ab := a + b;
      assert ab[0] == a[0] && ab[1..] == a[1..] + b;
      RemoveSpacesAppend(a[1..], b);
      calc {
        RemoveSpaces(ab);
        Kept(a[0]) + RemoveSpaces(a[1..] + b);
        Kept(a[0]) + (RemoveSpaces(a[1..]) + RemoveSpaces(b));
        (Kept(a[0]) + RemoveSpaces(a[1..])) + RemoveSpaces(b);
      }
    }
  }

  lemma {:induction false} RemoveSpacesOfSpaces(s: string)
    requires forall i :: 0 <= i < |s| ==> IsSpace(s[i])
    ensures RemoveSpaces(s) == ""
  {
    if s != [] {
      RemoveSpacesOfSpaces(s[1..]);
    }
  }

  lemma {:induction false} RemoveSpacesOfWord(w: string)
    requires forall i :: 0 <= i < |w| ==> !IsSpace(w[i])
    ensures RemoveSpaces(w) == w
  {
    if w != [] {
      RemoveSpacesOfWord(w[1..]);
    }
  }

  /** `strings.Fields` drops exactly the white space: the fields put back
      together are the input without its white-space characters. */
  lemma {:induction false} FieldsKeepEverythingButSpaces(s: string)
    ensures Concat(Fields(s)) == RemoveSpaces(s)
    decreases |s|
  {
    var a := LeadingSpaces(s);
    assert s == s[..a] + s[a..];
    RemoveSpacesAppend(s[..a], s[a..]);
    RemoveSpacesOfSpaces(s[..a]);
    if a < |s| {
      var t := s[a..];
      var b := LeadingNonSpaces(t);
      assert t == t[..b] + t[b..];
      RemoveSpacesAppend(t[..b], t[b..]);
      RemoveSpacesOfWord(t[..b]);
      FieldsKeepEverythingButSpaces(t[b..]);
    }
  }

  /** Leading white space does not change the fields. */
  lemma FieldsAfterSpace(s: string)
    requires s != [] && IsSpace(s[0])
    ensures Fields(s) == Fields(s[1..])
  {
    var a := LeadingSpaces(s);
    var a' := LeadingSpaces(s[1..]);
    assert a == 1 + a';
    assert s[a..] == s[1..][a'..];
  }

  /** A single word is its own only field. */
  lemma FieldsOfWord(w: string)
    requires IsWord(w)
    ensures Fields(w) == [w]
  {
    assert LeadingSpaces(w) == 0;
    assert LeadingNonSpaces(w) == |w|;
    assert w[..|w|] == w && w[|w|..] == [];
  }

  /** A word followed by a blank is the first field, and the fields of what
      follows come after it. */
  lemma FieldsOfWordThenBlank(w: string, tail: string)
    requires IsWord(w)
    ensures Fields(w + [' '] + tail) == [w] + Fields(tail)
  {
    var s := w + [' '] + tail;
    assert s[0] == w[0];
    assert LeadingSpaces(s) == 0;
    assert s[|w|] == ' ';
    var b := LeadingNonSpaces(s);
    assert s[..b] == w;
    assert s[b..] == [' '] + tail;
    assert ([' '] + tail)[1..] == tail;
    FieldsAfterSpace([' '] + tail);
  }

  /** Joining words with single blanks and splitting the result with
      `strings.Fields` gives the words back. */
  lemma {:induction false} FieldsOfJoin(ws: seq<string>)
    requires forall i :: 0 <= i < |ws| ==> IsWord(ws[i])
    ensures Fields(Join(ws, ' ')) == ws
  {
    if |ws| == 1 {
      FieldsOfWord(ws[0]);
    } else if |ws| > 1 {
      FieldsOfWordThenBlank(ws[0], Join(ws[1..], ' '));
      FieldsOfJoin(ws[1..]);
    }
  }
}
