/** The few JavaScript string operations the storefront relies on, with their ECMAScript meaning. */
module Strings {

  /** ECMAScript WhiteSpace and LineTerminator code points: what `String.prototype.trim`
      removes and what the regular-expression class `\s` matches. */
  predicate IsWhitespace(c: char) {
    c == '\t' || c == '\n' || c == '\U{B}' || c == '\U{C}' || c == '\r' || c == ' '
    || c == '\U{A0}' || c == '\U{1680}' || ('\U{2000}' <= c <= '\U{200A}')
    || c == '\U{2028}' || c == '\U{2029}' || c == '\U{202F}' || c == '\U{205F}'
    || c == '\U{3000}' || c == '\U{FEFF}'
  }

  predicate AllWhitespace(s: string) {
    forall i :: 0 <= i < |s| ==> IsWhitespace(s[i])
  }

  /** `s.startsWith(p)` */
  predicate StartsWith(s: string, p: string) {
    |p| <= |s| && s[..|p|] == p
  }

  /** `s.endsWith(p)` */
  predicate EndsWith(s: string, p: string) {
    |p| <= |s| && s[|s| - |p|..] == p
  }

  /** `s.trimStart()`: `s` without its leading whitespace. */
  function TrimStart(s: string): (r: string)
    ensures |r| <= |s|
  {
    if s != [] && IsWhitespace(s[0]) then TrimStart(s[1..]) else s
  }

  /** `s.trimEnd()`: `s` without its trailing whitespace. */
  function TrimEnd(s: string): (r: string)
    ensures |r| <= |s|
  {
    if s != [] && IsWhitespace(s[|s| - 1]) then TrimEnd(s[..|s| - 1]) else s
  }

  /** `r` is a suffix of `s` after nothing but whitespace, and starts with a character
      that is not whitespace (or is empty). */
  predicate FrontTrimmed(s: string, r: string) {
    && |r| <= |s| && r == s[|s| - |r|..]
    && AllWhitespace(s[..|s| - |r|])
    && (r != [] ==> !IsWhitespace(r[0]))
  }

  /** `r` is a prefix of `s` before nothing but whitespace, and ends with a character
      that is not whitespace (or is empty). */
  predicate BackTrimmed(s: string, r: string) {
    && |r| <= |s| && r == s[..|r|]
    && AllWhitespace(s[|r|..])
    && (r != [] ==> !IsWhitespace(r[|r| - 1]))
  }

  /** `trimStart` removes exactly the leading whitespace. */
  lemma {:induction false} TrimStartSpec(s: string)
    ensures FrontTrimmed(s, TrimStart(s))
  {
    if s != [] && IsWhitespace(s[0]) {
      var tail := s[1..];
      TrimStartSpec(tail);
      var r := TrimStart(tail);
      var front := s[..|s| - |r|];
      assert AllWhitespace(front) by {
        forall k | 0 <= k < |front| ensures IsWhitespace(front[k]) {
          if k > 0 {
            assert tail[..|tail| - |r|][k - 1] == s[k];
          }
        }
      }
    }
  }

  /** `trimEnd` removes exactly the trailing whitespace. */
  lemma {:induction false} TrimEndSpec(s: string)
    ensures BackTrimmed(s, TrimEnd(s))
  {
    if s != [] && IsWhitespace(s[|s| - 1]) {
      var init := s[..|s| - 1];
      TrimEndSpec(init);
      var r := TrimEnd(init);
      assert AllWhitespace(s[|r|..]) by {
        forall k | |r| <= k < |s| ensures IsWhitespace(s[k]) {
          if k < |s| - 1 {
            assert init[|r|..][k - |r|] == s[k];
          }
        }
      }
    }
  }

  /** `r` is what `trim` may leave of `s`: nothing exactly when `s` is all whitespace,
      and otherwise a string that starts and ends with a character that is not. */
  predicate TrimmedFrom(s: string, r: string) {
    && |r| <= |s|
    && (r == [] <==> AllWhitespace(s))
    && (r != [] ==> !IsWhitespace(r[0]) && !IsWhitespace(r[|r| - 1]))
  }

  /** `s.trim()`: `s` without its leading and trailing whitespace. */
  function Trim(s: string): string {
    TrimEnd(TrimStart(s))
  }

  /** `r` sits in `s` at offset `i` with only whitespace before and after it. */
  predicate PaddedSliceAt(s: string, r: string, i: int) {
    && 0 <= i <= |s| - |r|
    && s[i..i + |r|] == r
    && AllWhitespace(s[..i])
    && AllWhitespace(s[i + |r|..])
  }

  /** What `trim` leaves is a slice of `s` with only whitespace before and after it; it is
      empty exactly for an all-whitespace string, and otherwise starts and ends with a
      character that is not whitespace. */
  lemma TrimSpec(s: string)
    ensures exists i :: PaddedSliceAt(s, Trim(s), i)
    ensures TrimmedFrom(s, Trim(s))
  {
    var t := TrimStart(s);
    var r := TrimEnd(t);
    TrimStartSpec(s);
    TrimEndSpec(t);
    TrimEmpty(s, t, r);
    TrimSlice(s, t, r);
    assert PaddedSliceAt(s, Trim(s), |s| - |t|);
  }

  /** After both trims, what is left is a slice of `s` with whitespace on both sides. */
  lemma TrimSlice(s: string, t: string, r: string)
    requires FrontTrimmed(s, t) && BackTrimmed(t, r)
    ensures PaddedSliceAt(s, r, |s| - |t|)
  {
    var i := |s| - |t|;
    assert s[i..i + |r|] == t[..|r|];
    assert s[i + |r|..] == t[|r|..];
  }

  /** A string with a character other than whitespace keeps something after `trim`. */
  lemma TrimNonBlank(s: string)
    requires !AllWhitespace(s)
    ensures Trim(s) != ""
  {
    TrimSpec(s);
  }

  /** Both trims leave nothing exactly when `s` is all whitespace; otherwise what is left
      starts and ends with a character that is not whitespace. */
  lemma TrimEmpty(s: string, t: string, r: string)
    requires FrontTrimmed(s, t) && BackTrimmed(t, r)
    ensures TrimmedFrom(s, r)
  {
    var i := |s| - |t|;
    if r == [] {
      assert t[|r|..] == t;
      assert t == [];
      assert s[..i] == s;
    } else {
      assert r[0] == t[0] == s[i];
    }
  }

  /** `s.split(sep)` for a one-character separator: the pieces between the separators. */
  function Split(s: string, sep: char): (parts: seq<string>)
    ensures |parts| >= 1
    ensures forall i :: 0 <= i < |parts| ==> sep !in parts[i]
  {
    if s == [] then [""]
    else
      var rest := Split(s[1..], sep);
      if s[0] == sep then [""] + rest
      else [[s[0]] + rest[0]] + rest[1..]
  }

  /** `parts.join(sep)`, the inverse of `Split`. */
  function Join(parts: seq<string>, sep: char): string
    requires |parts| >= 1
  {
    if |parts| == 1 then parts[0] else parts[0] + [sep] + Join(parts[1..], sep)
  }

  /** Joining the pieces again gives back the string that was split. */
  lemma {:induction false} JoinSplit(s: string, sep: char)
    ensures Join(Split(s, sep), sep) == s
  {
    if s != [] {
      JoinSplit(s[1..], sep);
      var rest := Split(s[1..], sep);
      if s[0] != sep {
        if |rest| == 1 {
          assert Join(rest, sep) == rest[0];
        } else {
          assert Join(rest, sep) == rest[0] + [sep] + Join(rest[1..], sep);
        }
      }
    }
  }

  /** Splitting a join of separator-free pieces gives back the pieces. */
  lemma {:induction false} SplitJoin(parts: seq<string>, sep: char)
    requires |parts| >= 1
    requires forall i :: 0 <= i < |parts| ==> sep !in parts[i]
    ensures Split(Join(parts, sep), sep) == parts
  {
    if |parts| == 1 {
      SplitPiece(parts[0], sep);
    } else {
      SplitJoin(parts[1..], sep);
      SplitPrefix(parts[0], Join(parts[1..], sep), sep);
      assert Join(parts, sep) == parts[0] + ([sep] + Join(parts[1..], sep));
      assert [parts[0]] + parts[1..] == parts;
    }
  }

  /** Three separator-free pieces joined by the separator split back into those pieces. */
  lemma SplitThree(a: string, b: string, c: string, sep: char)
    requires sep !in a && sep !in b && sep !in c
    ensures Split(a + [sep] + b + [sep] + c, sep) == [a, b, c]
  {
    var tail := b + [sep] + c;
    assert a + [sep] + b + [sep] + c == a + [sep] + tail;
    SplitPrefix(a, tail, sep);
    SplitPrefix(b, c, sep);
    SplitPiece(c, sep);
  }

  lemma {:induction false} SplitPiece(p: string, sep: char)
    requires sep !in p
    ensures Split(p, sep) == [p]
  {
    if p != [] {
      SplitPiece(p[1..], sep);
      assert [p[0]] + p[1..] == p;
    }
  }

  lemma {:induction false} SplitPrefix(p: string, t: string, sep: char)
    requires sep !in p
    ensures Split(p + [sep] + t, sep) == [p] + Split(t, sep)
  {
    if p == [] {
      assert p + [sep] + t == [sep] + t;
      assert ([sep] + t)[1..] == t;
    } else {
      SplitPrefix(p[1..], t, sep);
      assert (p + [sep] + t)[1..] == p[1..] + [sep] + t;
      assert [p[0]] + p[1..] == p;
    }
  }

  /** `parts.join('')` */
  function Concat(parts: seq<string>): string {
    if parts == [] then "" else parts[0] + Concat(parts[1..])
  }

  /** One step of `Concat`. */
  lemma ConcatCons(x: string, rest: seq<string>)
    ensures Concat([x] + rest) == x + Concat(rest)
  {
    assert ([x] + rest)[1..] == rest;
  }

  lemma {:induction false} ConcatAppend(a: seq<string>, b: seq<string>)
    ensures Concat(a + b) == Concat(a) + Concat(b)
  {
    if a == [] {
      assert a + b == b;
    } else {
      ConcatAppend(a[1..], b);
      ConcatAppendStep(a, b);
    }
  }

  /** The inductive step of `ConcatAppend`, for a non-empty first part. */
  lemma ConcatAppendStep(a: seq<string>, b: seq<string>)
    requires a != []
    requires Concat(a[1..] + b) == Concat(a[1..]) + Concat(b)
    ensures Concat(a + b) == Concat(a) + Concat(b)
  {
    var x := a[0];
    var ra := Concat(a[1..]);
    var rb := Concat(b);
    assert a + b == [x] + (a[1..] + b);
    ConcatCons(x, a[1..] + b);
    assert x + (ra + rb) == (x + ra) + rb;
  }

  /** `s.substring(start, end)` for non-negative arguments: both are clamped to the
      length and swapped if they are out of order. */
  function Substring(s: string, start: nat, end: nat): (r: string)
    ensures |r| <= |s|
    ensures start <= end <= |s| ==> r == s[start..end]
    ensures start <= end && |s| <= end && start <= |s| ==> r == s[start..]
  {
    var a := if start < |s| then start else |s|;
    var b := if end < |s| then end else |s|;
    if a <= b then s[a..b] else s[b..a]
  }

  /** `toUpperCase` on the ASCII letters; every other character is kept. */
  function UpperAscii(c: char): char {
    if 'a' <= c <= 'z' then (c as int - 32) as char else c
  }

  function ToUpperAscii(s: string): (r: string)
    ensures |r| == |s| && forall i :: 0 <= i < |s| ==> r[i] == UpperAscii(s[i])
  {
    seq(|s|, i requires 0 <= i < |s| => UpperAscii(s[i]))
  }

  /** The digit character `Number.prototype.toString(radix)` writes for `d`, in lower case. */
  function Digit(d: nat): (c: char)
    requires d < 36
    ensures DigitValue(c) == d
  {
    if d < 10 then ('0' as int + d) as char else ('a' as int + d - 10) as char
  }

  /** The value of a digit in either case, as `parseInt(_, radix)` reads it, or -1. */
  function DigitValue(c: char): (d: int)
    ensures -1 <= d < 36
  {
    if '0' <= c <= '9' then c as int - '0' as int
    else if 'a' <= c <= 'z' then c as int - 'a' as int + 10
    else if 'A' <= c <= 'Z' then c as int - 'A' as int + 10
    else -1
  }

  /** `n.toString(radix)` for a non-negative integer `n`. */
  function ToRadix(n: nat, radix: nat): (s: string)
    requires 2 <= radix <= 36
    ensures |s| >= 1
    ensures forall i :: 0 <= i < |s| ==> 0 <= DigitValue(s[i]) < radix
    ensures n > 0 ==> s[0] != '0'
    decreases n
  {
    if n < radix then [Digit(n)]
    else
      DivSmaller(n, radix);
      ToRadix(n / radix, radix) + [Digit(n % radix)]
  }

  lemma DivSmaller(n: nat, radix: nat)
    requires 2 <= radix <= n
    ensures 0 < n / radix < n && n % radix < radix
    ensures n / radix * radix + n % radix == n
  {
  }

  /** The value of a string of digits in the given radix (case-insensitive). */
  function FromRadix(s: string, radix: nat): int
    requires 2 <= radix <= 36
  {
    if s == [] then 0 else FromRadix(s[..|s| - 1], radix) * radix + DigitValue(s[|s| - 1])
  }

  /** Reading back what `ToRadix` wrote, before or after upper-casing it, gives the number. */
  lemma {:induction false} RadixRoundTrip(n: nat, radix: nat)
    requires 2 <= radix <= 36
    ensures FromRadix(ToRadix(n, radix), radix) == n
    ensures FromRadix(ToUpperAscii(ToRadix(n, radix)), radix) == n
    decreases n
  {
    if n < radix {
      var u := ToUpperAscii([Digit(n)]);
      assert u[..|u| - 1] == [];
    } else {
      DivSmaller(n, radix);
      RadixRoundTrip(n / radix, radix);
      RadixStep(ToRadix(n / radix, radix), n / radix, n % radix, radix);
    }
  }

  /** Writing one more digit `d` after digits that read as `q` reads as `q * radix + d`,
      in either case. */
  lemma RadixStep(p: string, q: nat, d: nat, radix: nat)
    requires 2 <= radix <= 36 && d < radix
    requires FromRadix(p, radix) == q && FromRadix(ToUpperAscii(p), radix) == q
    ensures FromRadix(p + [Digit(d)], radix) == q * radix + d
    ensures FromRadix(ToUpperAscii(p + [Digit(d)]), radix) == q * radix + d
  {
    var s := p + [Digit(d)];
    var u := ToUpperAscii(s);
    assert s[..|s| - 1] == p;
    assert u[..|u| - 1] == ToUpperAscii(p);
    assert DigitValue(u[|u| - 1]) == d;
  }
}
