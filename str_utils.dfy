/**
 * The string helpers the UCI adapter relies on: splitting a line on single
 * spaces, joining tokens with single spaces, finding the token that follows a
 * keyword, printing integers in decimal and reading them back as std::stoi does.
 * The repository's own `str_utils` header is not part of this model; these are
 * the behaviours the adapter assumes of it.
 */
module StrUtils {
  import opened Wrappers

  // ---------------------------------------------------------------------------
  // Splitting and joining on single spaces
  // ---------------------------------------------------------------------------

  /** Position of the first space in `s`, or `|s|` when there is none. */
  function IndexOfSpace(s: string): (i: nat)
    ensures i <= |s|
    ensures forall j :: 0 <= j < i ==> s[j] != ' '
    ensures i < |s| ==> s[i] == ' '
  {
    if s == [] || s[0] == ' ' then 0 else 1 + IndexOfSpace(s[1..])
  }

  /**
   * Splits `s` at every space. Adjacent spaces give empty tokens; the result is
   * never empty (the empty line is one empty token) and no token holds a space.
   */
  function Split(s: string): (r: seq<string>)
    ensures |r| >= 1
    ensures forall k :: 0 <= k < |r| ==> ' ' !in r[k]
    decreases |s|
  {
    var i := IndexOfSpace(s);
    if i == |s| then
      assert s[..i] == s;
      [s]
    else
      assert forall j :: 0 <= j < |s[..i]| ==> s[..i][j] != ' ';
      [s[..i]] + Split(s[i + 1..])
  }

  /** Every token of `ts` is preceded by one space: " t0 t1 ... tn". */
  function SpacePrefixed(ts: seq<string>): string
  {
    if ts == [] then "" else " " + ts[0] + SpacePrefixed(ts[1..])
  }

  /** The tokens `ts` separated by single spaces. */
  function Join(ts: seq<string>): string
  {
    if ts == [] then "" else ts[0] + SpacePrefixed(ts[1..])
  }

  /** Each token of `ts` split on its own spaces, the pieces concatenated. */
  function SplitAll(ts: seq<string>): seq<string>
  {
    if ts == [] then [] else Split(ts[0]) + SplitAll(ts[1..])
  }

  predicate SpaceFree(ts: seq<string>)
  {
    forall k :: 0 <= k < |ts| ==> ' ' !in ts[k]
  }

  /** Appending tokens one at a time with a leading space is the same as prefixing them all. */
  lemma {:induction false} SpacePrefixedAppend(a: seq<string>, b: seq<string>)
    ensures SpacePrefixed(a + b) == SpacePrefixed(a) + SpacePrefixed(b)
  {
    if a != [] {
      assert (a + b)[1..] == a[1..] + b;
      SpacePrefixedAppend(a[1..], b);
    } else {
      assert a + b == b;
    }
  }

  /** Joining a non-empty prefix and a suffix: the suffix tokens are appended space-prefixed. */
  lemma JoinAppend(a: seq<string>, b: seq<string>)
    requires a != []
    ensures Join(a + b) == Join(a) + SpacePrefixed(b)
  {
    assert (a + b)[1..] == a[1..] + b;
    SpacePrefixedAppend(a[1..], b);
  }

  /** A token without spaces splits to itself. */
  lemma SplitSpaceFree(t: string)
    requires ' ' !in t
    ensures Split(t) == [t]
  {
    assert forall j :: 0 <= j < |t| ==> t[j] != ' ';
    assert t[..|t|] == t;
  }

  // Regrouping concatenations, stated once for any element type.

  lemma AppendNil<T>(a: seq<T>)
    ensures a + [] == a
  {
  }

  lemma Assoc<T>(a: seq<T>, b: seq<T>, c: seq<T>)
    ensures a + b + c == a + (b + c)
  {
  }

  lemma Assoc4<T>(a: seq<T>, b: seq<T>, c: seq<T>, d: seq<T>)
    ensures a + b + c + d == a + (b + c + d)
  {
  }

  lemma Snoc3<T>(a: seq<T>, x: T, y: T, z: T)
    ensures a + [x] + [y] + [z] == a + [x, y, z]
  {
  }

  lemma HeadAndRest<T>(x: T, rest: seq<T>)
    ensures ([x] + rest)[0] == x && ([x] + rest)[1..] == rest
  {
  }

  /** Pieces nested to the right are the same pieces grouped to the left. */
  lemma Regroup<T>(a: seq<T>, b: seq<T>, c: seq<T>, d: seq<T>, whole: seq<T>, right: seq<T>, last: seq<T>)
    requires whole == a + right && right == b + last && last == c + d
    ensures whole == a + b + c + d
  {
  }

  /** The first space of `a + " " + b` is the first space of `a`, or the added one. */
  lemma IndexOfSpaceAppend(a: string, b: string)
    ensures IndexOfSpace(a + " " + b) == IndexOfSpace(a)
  {
    var s := a + " " + b;
    var i := IndexOfSpace(a);
    assert forall j :: 0 <= j < i ==> s[j] == a[j];
    assert s[i] == ' ';
  }

  /** Splitting distributes over a separating space. */
  lemma {:induction false} SplitAppend(a: string, b: string)
    ensures Split(a + " " + b) == Split(a) + Split(b)
    decreases |a|
  {
    var s := a + " " + b;
    var i := IndexOfSpace(a);
    IndexOfSpaceAppend(a, b);
    if i == |a| {
      assert a[..i] == a;
      assert s[..i] == a;
      assert s[i + 1..] == b;
    } else {
      assert s[..i] == a[..i];
      assert s[i + 1..] == a[i + 1..] + " " + b;
      SplitAppend(a[i + 1..], b);
      Assoc([a[..i]], Split(a[i + 1..]), Split(b));
    }
  }

  /** Splitting joined tokens gives back the pieces of every token, in order. */
  lemma {:induction false} SplitJoin(ts: seq<string>)
    requires ts != []
    ensures Split(Join(ts)) == SplitAll(ts)
  {
    if |ts| == 1 {
      assert Join(ts) == ts[0];
      assert SplitAll(ts) == Split(ts[0]) + SplitAll([]);
    } else {
      assert Join(ts) == ts[0] + " " + Join(ts[1..]);
      SplitAppend(ts[0], Join(ts[1..]));
      SplitJoin(ts[1..]);
    }
  }

  /** Space-free tokens are their own pieces. */
  lemma {:induction false} SplitAllSpaceFree(ts: seq<string>)
    requires SpaceFree(ts)
    ensures SplitAll(ts) == ts
  {
    if ts != [] {
      SplitSpaceFree(ts[0]);
      SplitAllSpaceFree(ts[1..]);
    }
  }

  lemma {:induction false} SplitAllAppend(a: seq<string>, b: seq<string>)
    ensures SplitAll(a + b) == SplitAll(a) + SplitAll(b)
  {
    if a == [] {
      assert a + b == b;
    } else {
      assert (a + b)[1..] == a[1..] + b;
      SplitAllAppend(a[1..], b);
    }
  }

  /** Round trip: a non-empty list of space-free tokens survives joining and splitting. */
  lemma SplitJoinRoundTrip(ts: seq<string>)
    requires ts != [] && SpaceFree(ts)
    ensures Split(Join(ts)) == ts
  {
    SplitJoin(ts);
    SplitAllSpaceFree(ts);
  }

  lemma JoinCons(t: string, rest: seq<string>)
    requires rest != []
    ensures Join([t] + rest) == t + " " + Join(rest)
  {
    assert ([t] + rest)[1..] == rest;
  }

  /** Round trip the other way: joining the tokens of a line gives back the line. */
  lemma {:induction false} JoinSplit(s: string)
    ensures Join(Split(s)) == s
    decreases |s|
  {
    var i := IndexOfSpace(s);
    if i == |s| {
      assert Split(s) == [s];
      assert Join([s]) == s + SpacePrefixed([]);
    } else {
      var rest := Split(s[i + 1..]);
      assert Split(s) == [s[..i]] + rest;
      JoinSplit(s[i + 1..]);
      JoinCons(s[..i], rest);
      assert s[..i] + [s[i]] + s[i + 1..] == s;
    }
  }

  // ---------------------------------------------------------------------------
  // Finding the element that follows a key
  // ---------------------------------------------------------------------------

  /** Index of the first occurrence of `key` in `h`, or `|h|` when it does not occur. */
  function IndexOf(h: seq<string>, key: string): (i: nat)
    ensures i <= |h|
    ensures i < |h| ==> h[i] == key
    ensures forall j :: 0 <= j < i ==> h[j] != key
  {
    if h == [] || h[0] == key then 0 else 1 + IndexOf(h[1..], key)
  }

  /**
   * The token right after the first occurrence of `key`. None when `key` does
   * not occur, or occurs only as the final token.
   */
  function FindElement(h: seq<string>, key: string): (r: Option<string>)
    ensures r.Some? ==> exists i :: 0 <= i < |h| - 1 && h[i] == key && key !in h[..i] && r.value == h[i + 1]
    ensures r.None? <==> forall i :: 0 <= i < |h| - 1 ==> h[i] != key
  {
    var i := IndexOf(h, key);
    if i + 1 < |h| then
      assert key !in h[..i];
      Some(h[i + 1])
    else
      None
  }

  /** A prefix without the key does not change what follows the key. */
  lemma {:induction false} IndexOfSkip(a: seq<string>, b: seq<string>, key: string)
    requires key !in a
    ensures IndexOf(a + b, key) == |a| + IndexOf(b, key)
  {
    if a == [] {
      assert a + b == b;
    } else {
      assert (a + b)[1..] == a[1..] + b;
      IndexOfSkip(a[1..], b, key);
    }
  }

  /** Everything after the first occurrence of `key` is what followed it. */
  lemma TailAfterKey(head: seq<string>, key: string, rest: seq<string>)
    requires key !in head
    ensures key in head + ([key] + rest)
    ensures (head + ([key] + rest))[IndexOf(head + ([key] + rest), key) + 1..] == rest
  {
    var toks := head + ([key] + rest);
    IndexOfSkip(head, [key] + rest, key);
    assert toks[|head|] == key;
    assert toks[|head| + 1..] == rest;
  }

  lemma FindElementSkip(a: seq<string>, b: seq<string>, key: string)
    requires key !in a
    ensures FindElement(a + b, key) == FindElement(b, key)
  {
    IndexOfSkip(a, b, key);
  }

  /** The key followed by a value, after a prefix that does not hold the key. */
  lemma FindElementAt(pre: seq<string>, key: string, v: string, post: seq<string>)
    requires key !in pre
    ensures FindElement(pre + [key, v] + post, key) == Some(v)
  {
    assert pre + [key, v] + post == pre + ([key, v] + post);
    FindElementSkip(pre, [key, v] + post, key);
  }

  // ---------------------------------------------------------------------------
  // Decimal numerals
  // ---------------------------------------------------------------------------

  predicate IsDigit(c: char)
  {
    '0' <= c <= '9'
  }

  predicate AllDigits(s: string)
  {
    forall k :: 0 <= k < |s| ==> IsDigit(s[k])
  }

  /** A decimal integer as an output stream prints it: digits, with a leading '-' when negative. */
  predicate IsNumeral(s: string)
  {
    (|s| >= 1 && AllDigits(s)) || (|s| >= 2 && s[0] == '-' && AllDigits(s[1..]))
  }

  /** A protocol keyword: starts with a lower-case letter, so it is never a numeral. */
  predicate IsWord(s: string)
  {
    |s| >= 1 && 'a' <= s[0] <= 'z'
  }

  function DigitChar(d: nat): (c: char)
    requires d < 10
    ensures IsDigit(c)
  {
    ('0' as int + d) as char
  }

  function DigitValue(c: char): (d: nat)
    requires IsDigit(c)
    ensures d < 10
  {
    c as int - '0' as int
  }

  /** The value of a string of decimal digits, most significant first. */
  function DecimalValue(ds: string): nat
    requires AllDigits(ds)
  {
    if ds == [] then 0 else 10 * DecimalValue(ds[..|ds| - 1]) + DigitValue(ds[|ds| - 1])
  }

  /** Shortest decimal digits of `n` (no leading zero). */
  function NatToDecimal(n: nat): (s: string)
    ensures |s| >= 1 && AllDigits(s)
    ensures |s| > 1 ==> s[0] != '0'
  {
    if n < 10 then [DigitChar(n)] else NatToDecimal(n / 10) + [DigitChar(n % 10)]
  }

  /** `x` as `operator<<` prints an integer. */
  function IntToDecimal(x: int): (s: string)
    ensures IsNumeral(s) && ' ' !in s
  {
    if x < 0 then
      var d := NatToDecimal(-x);
      assert ("-" + d)[1..] == d;
      "-" + d
    else
      NatToDecimal(x)
  }

  lemma {:induction false} NatToDecimalRoundTrip(n: nat)
    ensures DecimalValue(NatToDecimal(n)) == n
  {
    if n >= 10 {
      var s := NatToDecimal(n);
      assert s[..|s| - 1] == NatToDecimal(n / 10);
      NatToDecimalRoundTrip(n / 10);
    }
  }

  /** A word is never a numeral. */
  lemma WordNotNumeral(w: string, s: string)
    requires IsWord(w) && IsNumeral(s)
    ensures w != s
  {
  }

  const IntMin: int := -0x8000_0000
  const IntMax: int := 0x7fff_ffff

  /** The longest prefix of `s` made of decimal digits. */
  function DigitPrefix(s: string): (p: string)
    ensures |p| <= |s| && p == s[..|p|] && AllDigits(p)
    ensures |p| < |s| ==> !IsDigit(s[|p|])
  {
    if s == [] || !IsDigit(s[0]) then "" else [s[0]] + DigitPrefix(s[1..])
  }

  /**
   * std::stoi on one token: an optional sign, then the longest run of digits
   * (anything after it is ignored); None where stoi throws, that is when there
   * is no digit or the value does not fit a 32-bit int.
   */
  function StoI(tok: string): (r: Option<int>)
    ensures r.Some? ==> IntMin <= r.value <= IntMax
    ensures r.Some? ==> exists k :: 0 <= k < |tok| && IsDigit(tok[k])
  {
    var signed := |tok| > 0 && (tok[0] == '-' || tok[0] == '+');
    var body := if signed then tok[1..] else tok;
    var ds := DigitPrefix(body);
    if ds == [] then None
    else
      assert IsDigit(tok[if signed then 1 else 0]);
      var v: int := if signed && tok[0] == '-' then -(DecimalValue(ds) as int) else DecimalValue(ds);
      if IntMin <= v <= IntMax then Some(v) else None
  }

  lemma DigitPrefixAllDigits(s: string)
    requires AllDigits(s)
    ensures DigitPrefix(s) == s
  {
    assert s[..|s|] == s;
  }

  /** Round trip: stoi reads back every printed 32-bit integer. */
  lemma StoIRoundTrip(x: int)
    requires IntMin <= x <= IntMax
    ensures StoI(IntToDecimal(x)) == Some(x)
  {
    if x < 0 {
      StoINegative(x);
    } else {
      StoINonNegative(x);
    }
  }

  lemma StoINegative(x: int)
    requires IntMin <= x < 0
    ensures StoI("-" + NatToDecimal(-x)) == Some(x)
  {
    NatToDecimalRoundTrip(-x);
    StoIMinus(NatToDecimal(-x), -x);
  }

  /** stoi on a minus sign and a digit run reads the negated value. */
  lemma StoIMinus(d: string, n: int)
    requires d != [] && AllDigits(d) && DecimalValue(d) == n && 0 <= n <= -IntMin
    ensures StoI("-" + d) == Some(-n)
  {
    assert ("-" + d)[1..] == d;
    DigitPrefixAllDigits(d);
  }

  lemma StoINonNegative(x: int)
    requires 0 <= x <= IntMax
    ensures StoI(NatToDecimal(x)) == Some(x)
  {
    var d := NatToDecimal(x);
    assert IsDigit(d[0]);
    DigitPrefixAllDigits(d);
    NatToDecimalRoundTrip(x);
  }
}
