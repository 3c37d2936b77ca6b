/** String and byte-sequence helpers standing for the parts of Go's `strings`,
    `bytes`, `unicode` and `fmt` packages that the workflow relies on. */
module Text {

  /** Go's `unicode.IsSpace`: ASCII \t \n \v \f \r and space, U+0085, U+00A0
      and the other characters with the Unicode White_Space property. */
  predicate IsSpace(c: char) {
    || ('\U{9}' <= c <= '\U{D}')
    || c == ' ' || c == '\U{85}' || c == '\U{A0}' || c == '\U{1680}'
    || ('\U{2000}' <= c <= '\U{200A}')
    || c == '\U{2028}' || c == '\U{2029}' || c == '\U{202F}' || c == '\U{205F}'
    || c == '\U{3000}'
  }

  /** Drops the leading elements that satisfy `space`. */
  function TrimLeftBy<T>(s: seq<T>, space: T -> bool): (r: seq<T>)
    ensures |r| <= |s| && r == s[|s| - |r|..]
    ensures r == [] || !space(r[0])
    ensures forall i :: 0 <= i < |s| - |r| ==> space(s[i])
    decreases |s|
  {
    if s != [] && space(s[0]) then TrimLeftBy(s[1..], space) else s
  }

  /** Drops the trailing elements that satisfy `space`. */
  function TrimRightBy<T>(s: seq<T>, space: T -> bool): (r: seq<T>)
    ensures |r| <= |s| && r == s[..|r|]
    ensures r == [] || !space(r[|r| - 1])
    ensures forall i :: |r| <= i < |s| ==> space(s[i])
    decreases |s|
  {
    if s != [] && space(s[|s| - 1]) then TrimRightBy(s[..|s| - 1], space) else s
  }

  /** `r` is `s[a..b]`, and everything outside `a..b` is white space. */
  ghost predicate TrimmedSlice<T>(s: seq<T>, a: int, b: int, r: seq<T>, space: T -> bool) {
    && 0 <= a <= b <= |s| && r == s[a..b]
    && (forall i :: 0 <= i < a ==> space(s[i]))
    && (forall i :: b <= i < |s| ==> space(s[i]))
  }

  /** A prefix `r` of a suffix `left` of `s`, where what the suffix leaves
      off and what the prefix leaves off are white space, is a trimmed slice. */
  lemma SliceBetween<T>(s: seq<T>, left: seq<T>, r: seq<T>, space: T -> bool)
    requires |left| <= |s| && left == s[|s| - |left|..]
    requires forall i :: 0 <= i < |s| - |left| ==> space(s[i])
    requires |r| <= |left| && r == left[..|r|]
    requires forall i :: |r| <= i < |left| ==> space(left[i])
    ensures TrimmedSlice(s, |s| - |left|, |s| - |left| + |r|, r, space)
  {
    var a := |s| - |left|;
    assert r == s[a..a + |r|];
    forall i | a + |r| <= i < |s| ensures space(s[i]) {
      assert s[i] == left[i - a];
    }
  }

  /** Go's `TrimSpace`, for any notion of white space: the input with its
      leading and trailing white space removed and nothing else. */
  function TrimSpaceBy<T>(s: seq<T>, space: T -> bool): (r: seq<T>)
    ensures |r| <= |s|
    ensures r == [] || (!space(r[0]) && !space(r[|r| - 1]))
    ensures exists a, b :: TrimmedSlice(s, a, b, r, space)
  {
    var left := TrimLeftBy(s, space);
    var r := TrimRightBy(left, space);
    SliceBetween(s, left, r, space);
    r
  }

  /** `strings.TrimSpace`: a slice of the input with only white space
      outside it. */
  function TrimSpace(s: string): (r: string)
    ensures |r| <= |s|
    ensures r == [] || (!IsSpace(r[0]) && !IsSpace(r[|r| - 1]))
    ensures exists a, b :: TrimmedSlice(s, a, b, r, IsSpace)
  {
    TrimSpaceBy(s, IsSpace)
  }

  lemma {:induction false} TrimLeftOfSpaces<T>(w: seq<T>, x: seq<T>, space: T -> bool)
    requires forall i :: 0 <= i < |w| ==> space(w[i])
    requires x != [] && !space(x[0])
    ensures TrimLeftBy(w + x, space) == x
    decreases |w|
  {
    if w == [] {
      assert w + x == x;
    } else {
      var s := w + x;
      assert s != [] && s[0] == w[0] && space(s[0]);
      assert s[1..] == w[1..] + x;
      assert TrimLeftBy(s, space) == TrimLeftBy(s[1..], space);
      var tail := w[1..];
      forall i | 0 <= i < |tail| ensures space(tail[i]) {
        assert tail[i] == w[i + 1];
      }
      TrimLeftOfSpaces(tail, x, space);
    }
  }

  lemma {:induction false} TrimRightOfSpaces<T>(x: seq<T>, w: seq<T>, space: T -> bool)
    requires forall i :: 0 <= i < |w| ==> space(w[i])
    requires x != [] && !space(x[|x| - 1])
    ensures TrimRightBy(x + w, space) == x
    decreases |w|
  {
    if w == [] {
      assert x + w == x;
    } else {
      var s := x + w;
      assert s != [] && s[|s| - 1] == w[|w| - 1] && space(s[|s| - 1]);
      assert s[..|s| - 1] == x + w[..|w| - 1];
      assert TrimRightBy(s, space) == TrimRightBy(s[..|s| - 1], space);
      var init := w[..|w| - 1];
      forall i | 0 <= i < |init| ensures space(init[i]) {
        assert init[i] == w[i];
      }
      TrimRightOfSpaces(x, init, space);
    }
  }

  /** Surrounding white space is ignored by `TrimSpaceBy`, and a sequence
      that neither starts nor ends with white space is its own trimming. */
  lemma TrimSpaceOfPadded<T>(w1: seq<T>, x: seq<T>, w2: seq<T>, space: T -> bool)
    requires forall i :: 0 <= i < |w1| ==> space(w1[i])
    requires forall i :: 0 <= i < |w2| ==> space(w2[i])
    requires x != [] && !space(x[0]) && !space(x[|x| - 1])
    ensures TrimSpaceBy(w1 + x + w2, space) == x
  {
    assert w1 + x + w2 == w1 + (x + w2);
    TrimLeftOfSpaces(w1, x + w2, space);
    TrimRightOfSpaces(x, w2, space);
  }

  predicate HasPrefix<T(==)>(s: seq<T>, prefix: seq<T>) {
    |prefix| <= |s| && s[..|prefix|] == prefix
  }

  predicate HasSuffix<T(==)>(s: seq<T>, suffix: seq<T>) {
    |suffix| <= |s| && s[|s| - |suffix|..] == suffix
  }

  /** A prefix of the first part is a prefix of the whole, and a suffix of
      the second part a suffix of the whole. */
  lemma AffixesOfConcat<T>(a: seq<T>, b: seq<T>, prefix: seq<T>, suffix: seq<T>)
    requires HasPrefix(a, prefix) && HasSuffix(b, suffix)
    ensures HasPrefix(a + b, prefix) && HasSuffix(a + b, suffix)
  {
    assert (a + b)[..|prefix|] == a[..|prefix|];
    assert (a + b)[|a + b| - |suffix|..] == b[|b| - |suffix|..];
  }

  /** `strings.TrimSuffix`: removes `suffix` once, if `s` ends with it. */
  function TrimSuffix(s: string, suffix: string): (r: string)
    ensures HasSuffix(s, suffix) ==> r + suffix == s
    ensures !HasSuffix(s, suffix) ==> r == s
  {
    if HasSuffix(s, suffix) then s[..|s| - |suffix|] else s
  }

  /** `strings.TrimRight(s, cutset)` for a one-character cutset. */
  function TrimRightChar(s: string, c: char): (r: string)
    ensures |r| <= |s| && r == s[..|r|]
    ensures r == [] || r[|r| - 1] != c
    ensures forall i :: |r| <= i < |s| ==> s[i] == c
  {
    TrimRightBy(s, x => x == c)
  }

  /** `strings.Join`. */
  function Join(parts: seq<string>, sep: string): string
    decreases |parts|
  {
    if |parts| == 0 then ""
    else if |parts| == 1 then parts[0]
    else parts[0] + sep + Join(parts[1..], sep)
  }

  /** A join starts with its first part. */
  lemma JoinHead(parts: seq<string>, sep: string)
    requires parts != []
    ensures HasPrefix(Join(parts, sep), parts[0])
  {
  }

  /** `filepath.Join(dir, name)` for a plain file name (`filepath.Clean`'s
      removal of "." and ".." elements and doubled separators is not modelled). */
  function JoinPath(dir: string, name: string): string {
    if dir == "" then name
    else if dir[|dir| - 1] == '/' then dir + name
    else dir + "/" + name
  }

  /** Plain concatenation of the parts, in order. */
  function Concat(parts: seq<string>): (s: string)
    decreases |parts|
  {
    if parts == [] then "" else parts[0] + Concat(parts[1..])
  }

  lemma {:induction false} ConcatAppend(a: seq<string>, b: seq<string>)
    ensures Concat(a + b) == Concat(a) + Concat(b)
    decreases |a|
  {
    if a == [] {
      assert a + b == b;
    } else {
      assert (a + b)[1..] == a[1..] + b;
      ConcatAppend(a[1..], b);
    }
  }

  /** Joining with the empty separator is plain concatenation. */
  lemma {:induction false} JoinEmptyIsConcat(parts: seq<string>)
    ensures Join(parts, "") == Concat(parts)
    decreases |parts|
  {
    if |parts| == 1 {
      assert parts[1..] == [];
    } else if |parts| > 1 {
      JoinEmptyIsConcat(parts[1..]);
    }
  }

  /** Position of the first `c` in `s`, or `|s|` when there is none. */
  function IndexOf(s: string, c: char): (k: nat)
    ensures k <= |s|
    ensures k < |s| ==> s[k] == c
    ensures forall i :: 0 <= i < k ==> s[i] != c
    decreases |s|
  {
    if s == [] then 0 else if s[0] == c then 0 else 1 + IndexOf(s[1..], c)
  }

  /** `strings.Split(s, string(sep))` for a one-character separator. */
  function Split(s: string, sep: char): (parts: seq<string>)
    ensures |parts| >= 1
    ensures forall i :: 0 <= i < |parts| ==> sep !in parts[i]
    decreases |s|
  {
    var k := IndexOf(s, sep);
    if k == |s| then [s] else [s[..k]] + Split(s[k + 1..], sep)
  }

  /** Joining the pieces of a split with the separator restores the text. */
  lemma {:induction false} JoinSplit(s: string, sep: char)
    ensures Join(Split(s, sep), [sep]) == s
    decreases |s|
  {
    var k := IndexOf(s, sep);
    if k < |s| {
      var rest := Split(s[k + 1..], sep);
      JoinSplit(s[k + 1..], sep);
      var parts := [s[..k]] + rest;
      assert Split(s, sep) == parts;
      assert parts[0] == s[..k] && parts[1..] == rest && |parts| >= 2;
      assert Join(parts, [sep]) == s[..k] + [sep] + Join(rest, [sep]);
      assert s == s[..k] + [sep] + s[k + 1..];
    }
  }

  /** A text free of the separator splits into itself alone. */
  lemma SplitNoSep(s: string, sep: char)
    requires sep !in s
    ensures Split(s, sep) == [s]
  {
  }

  /** Splitting peels off a leading piece free of the separator. */
  lemma SplitLine(a: string, sep: char, rest: string)
    requires sep !in a
    ensures Split(a + [sep] + rest, sep) == [a] + Split(rest, sep)
  {
    var s := a + [sep] + rest;
    assert IndexOf(s, sep) == |a| by {
      assert s[|a|] == sep;
      assert forall i :: 0 <= i < |a| ==> s[i] == a[i];
    }
    assert s[..|a|] == a && s[|a| + 1..] == rest;
  }

  /** Splitting a join of separator-free parts gives the parts back. */
  lemma {:induction false} SplitJoin(parts: seq<string>, sep: char)
    requires parts != []
    requires forall i :: 0 <= i < |parts| ==> sep !in parts[i]
    ensures Split(Join(parts, [sep]), sep) == parts
    decreases |parts|
  {
    if |parts| == 1 {
      SplitNoSep(parts[0], sep);
    } else {
      SplitJoin(parts[1..], sep);
      SplitLine(parts[0], sep, Join(parts[1..], [sep]));
      assert parts == [parts[0]] + parts[1..];
    }
  }

  /** ASCII lower-casing of one character. */
  function LowerChar(c: char): char {
    if 'A' <= c <= 'Z' then (c as int + 32) as char else c
  }

  function Lower(s: string): (r: string)
    ensures |r| == |s|
    ensures forall i :: 0 <= i < |s| ==> r[i] == LowerChar(s[i])
  {
    seq(|s|, i requires 0 <= i < |s| => LowerChar(s[i]))
  }

  /** `strings.EqualFold`, with case folding restricted to ASCII letters. */
  predicate EqualFold(a: string, b: string) {
    |a| == |b| && forall i :: 0 <= i < |a| ==> LowerChar(a[i]) == LowerChar(b[i])
  }

  lemma EqualFoldIsLowerEquality(a: string, b: string)
    ensures EqualFold(a, b) <==> Lower(a) == Lower(b)
  {
    if Lower(a) == Lower(b) {
      assert forall i :: 0 <= i < |a| ==> Lower(a)[i] == Lower(b)[i];
    }
  }

  function DigitChar(d: nat): char
    requires d < 10
  {
    ('0' as int + d) as char
  }

  predicate IsDigit(c: char) { '0' <= c <= '9' }

  /** Decimal rendering of a natural number, as `%d` prints it. */
  function Digits(n: nat): (s: string)
    ensures |s| >= 1
    ensures forall i :: 0 <= i < |s| ==> IsDigit(s[i])
    decreases n
  {
    if n < 10 then [DigitChar(n)] else Digits(n / 10) + [DigitChar(n % 10)]
  }

  /** The value of a string of decimal digits. */
  function ParseDigits(s: string): nat
    requires forall i :: 0 <= i < |s| ==> IsDigit(s[i])
    decreases |s|
  {
    if s == [] then 0 else ParseDigits(s[..|s| - 1]) * 10 + DigitValue(s[|s| - 1])
  }

  function DigitValue(c: char): nat
    requires IsDigit(c)
  {
    c as int - '0' as int
  }

  lemma {:induction false} ParseDigitsOfDigits(n: nat)
    ensures ParseDigits(Digits(n)) == n
    decreases n
  {
    if n >= 10 {
      var s := Digits(n);
      assert s[..|s| - 1] == Digits(n / 10);
      ParseDigitsOfDigits(n / 10);
    }
  }

  lemma {:induction false} ParseDigitsLeadingZero(s: string)
    requires forall i :: 0 <= i < |s| ==> IsDigit(s[i])
    ensures ParseDigits(['0'] + s) == ParseDigits(s)
    decreases |s|
  {
    if s != [] {
      var t := ['0'] + s;
      assert t[..|t| - 1] == ['0'] + s[..|s| - 1];
      ParseDigitsLeadingZero(s[..|s| - 1]);
    }
  }

  function Zeros(k: nat): (z: string)
    ensures |z| == k && forall i :: 0 <= i < k ==> z[i] == '0'
  {
    seq(k, _ => '0')
  }

  /** Left-pads a digit string with zeros to `width` characters. */
  function ZeroPad(s: string, width: nat): (r: string)
    ensures |r| == if |s| >= width then |s| else width
  {
    if |s| >= width then s else Zeros(width - |s|) + s
  }

  /** `fmt.Sprintf("%0<width>d", n)`: the sign counts towards the width. */
  function FormatPadded(n: int, width: nat): string {
    if n < 0 then "-" + ZeroPad(Digits(-n), if width > 0 then width - 1 else 0)
    else ZeroPad(Digits(n), width)
  }

  lemma {:induction false} ParseLeadingZeros(z: string, s: string)
    requires forall i :: 0 <= i < |z| ==> z[i] == '0'
    requires forall i :: 0 <= i < |s| ==> IsDigit(s[i])
    ensures forall i :: 0 <= i < |z + s| ==> IsDigit((z + s)[i])
    ensures ParseDigits(z + s) == ParseDigits(s)
    decreases |z|
  {
    if z != [] {
      var t := z[1..] + s;
      assert z + s == ['0'] + t;
      ParseLeadingZeros(z[1..], s);
      ParseDigitsLeadingZero(t);
    } else {
      assert z + s == s;
    }
  }

  /** A zero-padded non-negative field reads back as the number it encodes,
      and it is exactly `width` long when the number fits. */
  lemma FormatPaddedRoundTrip(n: nat, width: nat)
    ensures forall i :: 0 <= i < |FormatPadded(n, width)| ==> IsDigit(FormatPadded(n, width)[i])
    ensures ParseDigits(FormatPadded(n, width)) == n
    ensures |Digits(n)| <= width ==> |FormatPadded(n, width)| == width
  {
    var d := Digits(n);
    ParseDigitsOfDigits(n);
    if |d| < width {
      ParseLeadingZeros(Zeros(width - |d|), d);
    }
  }

  /** Numbers below 10^k have at most k digits. */
  lemma {:induction false} DigitsLength(n: nat, k: nat)
    requires n < Pow10(k)
    ensures |Digits(n)| <= k || (n == 0 && k == 0)
    decreases n
  {
    if n >= 10 {
      assert k != 0;
      assert k != 1 by { assert Pow10(1) == 10; }
      assert n / 10 < Pow10(k - 1);
      DigitsLength(n / 10, k - 1);
    }
  }

  function Pow10(k: nat): (p: nat)
    ensures p >= 1
  {
    if k == 0 then 1 else 10 * Pow10(k - 1)
  }
}
