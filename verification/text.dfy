/**
 * String helpers with the meaning of the Python built-ins the pipeline uses:
 * substring search (`in`), `str.split`, `str.join`, `str.strip`,
 * `str.lower`, slicing with `[:n]` and `[-n:]`, `str.isdigit`, and the
 * decimal rendering of integers inside f-strings.
 */
module Text {
  import opened Wrappers

  /** `w` occurs in `s` starting at index `j`. */
  predicate OccursAt(s: string, w: string, j: nat) {
    j + |w| <= |s| && s[j..j + |w|] == w
  }

  /** The first occurrence of `w` in `s` at or after `k`. */
  function FindFrom(s: string, w: string, k: nat): (r: Option<nat>)
    requires k <= |s|
    decreases |s| - k
    ensures r.Some? ==> k <= r.value && OccursAt(s, w, r.value)
    ensures r.Some? ==> forall j :: k <= j < r.value ==> !OccursAt(s, w, j)
    ensures r.None? ==> forall j :: k <= j ==> !OccursAt(s, w, j)
  {
    if k + |w| > |s| then None
    else if s[k..k + |w|] == w then Some(k)
    else FindFrom(s, w, k + 1)
  }

  /** The index of the first occurrence of `w` in `s` (Python's `s.find(w)`). */
  function Find(s: string, w: string): Option<nat> {
    FindFrom(s, w, 0)
  }

  /** Python's `w in s` for strings. */
  predicate Contains(s: string, w: string) {
    exists j: nat | j <= |s| :: OccursAt(s, w, j)
  }

  /** `Find` succeeds exactly when `w` occurs in `s`. */
  lemma FindIff(s: string, w: string)
    ensures Find(s, w).Some? <==> Contains(s, w)
  {
  }

  /** Python's `any(word in s for word in words)`. */
  predicate ContainsAny(s: string, words: seq<string>) {
    exists w :: w in words && Contains(s, w)
  }

  /** Python's `s.startswith(p)`. */
  predicate StartsWith(s: string, p: string) {
    |p| <= |s| && s[..|p|] == p
  }

  /** Python's `s.split(sep)` for a non-empty separator. */
  function Split(s: string, sep: string): (parts: seq<string>)
    requires |sep| > 0
    decreases |s|
    ensures |parts| >= 1
  {
    match Find(s, sep)
    case None => [s]
    case Some(i) => [s[..i]] + Split(s[i + |sep|..], sep)
  }

  /** Python's `sep.join(parts)`. */
  function Join(parts: seq<string>, sep: string): string {
    if |parts| == 0 then ""
    else if |parts| == 1 then parts[0]
    else parts[0] + sep + Join(parts[1..], sep)
  }

  /** Joining the pieces of a split with the same separator gives back the string. */
  lemma {:induction false} JoinSplit(s: string, sep: string)
    requires |sep| > 0
    ensures Join(Split(s, sep), sep) == s
    decreases |s|
  {
    var f := Find(s, sep);
    if f.Some? {
      var i := f.value;
      var rest := s[i + |sep|..];
      var tail := Split(rest, sep);
      SplitAt(s, sep, i);
      JoinCons(s[..i], tail, sep);
      JoinSplit(rest, sep);
      assert OccursAt(s, sep, i);
      Reassemble(s, i, i + |sep|);
    }
  }

  lemma Reassemble(s: string, i: nat, j: nat)
    requires i <= j <= |s|
    ensures s[..i] + s[i..j] + s[j..] == s
  {
  }

  lemma JoinCons(h: string, tail: seq<string>, sep: string)
    requires |tail| >= 1
    ensures Join([h] + tail, sep) == h + sep + Join(tail, sep)
  {
    assert ([h] + tail)[1..] == tail;
  }

  /** The piece before the first separator is `s` up to its first occurrence, and contains no separator. */
  lemma SplitHead(s: string, sep: string)
    requires |sep| > 0
    ensures Find(s, sep).None? ==> Split(s, sep)[0] == s
    ensures Find(s, sep).Some? ==> Split(s, sep)[0] == s[..Find(s, sep).value]
    ensures !Contains(Split(s, sep)[0], sep)
  {
    var h := Split(s, sep)[0];
    if Contains(h, sep) {
      var j := Find(h, sep).value;
      assert OccursAt(h, sep, j);
      match Find(s, sep)
      case None =>
        assert false;
      case Some(i) =>
        assert h == s[..i];
        assert j + |sep| <= |h| == i;
        assert s[..i][j..j + |sep|] == s[j..j + |sep|];
        assert OccursAt(s, sep, j);
        assert false;
    }
  }

  /** The piece after the first separator, when there is one. */
  lemma SplitSecond(s: string, sep: string)
    requires |sep| > 0 && Contains(s, sep)
    ensures |Split(s, sep)| >= 2
    ensures Split(s, sep)[1] == Split(s[Find(s, sep).value + |sep|..], sep)[0]
  {
  }

  /**
   * The whitespace characters `str.strip()` removes, as `str.isspace()` reads
   * them: the ASCII controls 9 to 13 and 28 to 31, the space, NEL, the
   * no-break space and the other Unicode space separators and line breaks.
   */
  predicate IsSpace(c: char) {
    || '\U{9}' <= c <= '\U{D}' || '\U{1C}' <= c <= '\U{20}'
    || c == '\U{85}' || c == '\U{A0}' || c == '\U{1680}'
    || '\U{2000}' <= c <= '\U{200A}' || c == '\U{2028}' || c == '\U{2029}'
    || c == '\U{202F}' || c == '\U{205F}' || c == '\U{3000}'
  }

  function TrimStart(s: string): (r: string)
    ensures |r| <= |s| && r == s[|s| - |r|..]
    ensures r != [] ==> !IsSpace(r[0])
    ensures forall i :: 0 <= i < |s| - |r| ==> IsSpace(s[i])
  {
    if s != [] && IsSpace(s[0]) then TrimStart(s[1..]) else s
  }

  function TrimEnd(s: string): (r: string)
    ensures |r| <= |s| && r == s[..|r|]
    ensures r != [] ==> !IsSpace(r[|r| - 1])
    ensures forall i :: |r| <= i < |s| ==> IsSpace(s[i])
  {
    if s != [] && IsSpace(s[|s| - 1]) then TrimEnd(s[..|s| - 1]) else s
  }

  /** Python's `s.strip()`: the infix left after removing surrounding whitespace. */
  function Strip(s: string): string {
    TrimEnd(TrimStart(s))
  }

  /** One character of Python's `str.lower()`, for ASCII and basic Cyrillic letters. */
  function LowerChar(c: char): char {
    if 'A' <= c <= 'Z' then (c as int + 32) as char
    else if 'А' <= c <= 'Я' then (c as int + 32) as char
    else if c == 'Ё' then 'ё'
    else c
  }

  /** Python's `s.lower()`. */
  function Lower(s: string): (r: string)
    ensures |r| == |s|
  {
    seq(|s|, i requires 0 <= i < |s| => LowerChar(s[i]))
  }

  /** Python's `s[:n]`. */
  function Take<T>(s: seq<T>, n: nat): seq<T> {
    if |s| <= n then s else s[..n]
  }

  /** Python's `s[-n:]` for a positive `n`. */
  function LastN<T>(s: seq<T>, n: nat): seq<T> {
    if |s| <= n then s else s[|s| - n..]
  }

  /** The shortening `s[:n] + "..." if len(s) > n else s` used by the listings. */
  function Abbreviate(s: string, n: nat): string {
    if |s| > n then s[..n] + "..." else s
  }

  /** `Abbreviate` keeps short text verbatim and long text as its first `n` characters and an ellipsis. */
  lemma AbbreviateBounds(s: string, n: nat)
    ensures |s| <= n ==> Abbreviate(s, n) == s
    ensures |s| > n ==> |Abbreviate(s, n)| == n + 3 && Abbreviate(s, n)[..n] == s[..n] && Abbreviate(s, n)[n..] == "..."
    ensures |Abbreviate(s, n)| <= n + 3
  {
  }

  predicate IsAsciiDigit(c: char) {
    '0' <= c <= '9'
  }

  /** Python's `s.isdigit()` restricted to ASCII digits. */
  predicate IsDigits(s: string) {
    |s| > 0 && forall i :: 0 <= i < |s| ==> IsAsciiDigit(s[i])
  }

  /** Python's `int(s)` for a string of ASCII digits. */
  function DigitsValue(s: string): nat
    requires forall i :: 0 <= i < |s| ==> IsAsciiDigit(s[i])
  {
    if s == [] then 0
    else
      assert IsAsciiDigit(s[|s| - 1]);
      10 * DigitsValue(s[..|s| - 1]) + (s[|s| - 1] as int - '0' as int)
  }

  /**
   * The code point of the digit zero of every run of ten Unicode decimal
   * digits (general category Nd, Unicode 15), in increasing order; a run holds
   * the digits 0 to 9 at consecutive code points. `int()` accepts exactly these.
   */
  const DecimalZeros: seq<int> :=
    [0x0030, 0x0660, 0x06F0, 0x07C0, 0x0966, 0x09E6, 0x0A66, 0x0AE6, 0x0B66, 0x0BE6]
    + [0x0C66, 0x0CE6, 0x0D66, 0x0DE6, 0x0E50, 0x0ED0, 0x0F20, 0x1040, 0x1090, 0x17E0]
    + [0x1810, 0x1946, 0x19D0, 0x1A80, 0x1A90, 0x1B50, 0x1BB0, 0x1C40, 0x1C50, 0xA620]
    + [0xA8D0, 0xA900, 0xA9D0, 0xA9F0, 0xAA50, 0xABF0, 0xFF10, 0x104A0, 0x10D30, 0x11066]
    + [0x110F0, 0x11136, 0x111D0, 0x112F0, 0x11450, 0x114D0, 0x11650, 0x116C0, 0x11730, 0x118E0]
    + [0x11950, 0x11C50, 0x11D50, 0x11DA0, 0x11F50, 0x16A60, 0x16AC0, 0x16B50, 0x1D7CE, 0x1D7D8]
    + [0x1D7E2, 0x1D7EC, 0x1D7F6, 0x1E140, 0x1E2F0, 0x1E4F0, 0x1E950, 0x1FBF0]

  /**
   * The value of code point `cp` in the run of `zeros` holding it; the runs
   * are in increasing order, so the scan stops at the first run above `cp`.
   */
  function DecimalIn(cp: int, zeros: seq<int>): (r: Option<nat>)
    ensures r.Some? ==> r.value < 10 && exists i :: 0 <= i < |zeros| && zeros[i] + r.value == cp
  {
    if zeros == [] || cp < zeros[0] then None
    else if cp < zeros[0] + 10 then
      assert zeros[0] + (cp - zeros[0]) == cp;
      Some(cp - zeros[0])
    else
      var r := DecimalIn(cp, zeros[1..]);
      if r.Some? then
        var i :| 0 <= i < |zeros[1..]| && zeros[1..][i] + r.value == cp;
        assert zeros[i + 1] + r.value == cp;
        r
      else r
  }

  /** The value of `c` as a digit of `int()`: its offset in its run, or None for a character that is no decimal digit. */
  function DecimalValue(c: char): Option<nat> {
    DecimalIn(c as int, DecimalZeros)
  }

  /** An ASCII digit is a decimal digit worth its offset from '0'. */
  lemma AsciiDecimalValue(c: char)
    requires IsAsciiDigit(c)
    ensures DecimalValue(c) == Some(c as int - '0' as int)
  {
    assert DecimalZeros[0] == 0x0030;
  }

  /** No character below U+0660 other than an ASCII digit is a decimal digit. */
  lemma {:induction false} BelowArabicNotDecimal(c: char)
    requires c as int < 0x0660 && !IsAsciiDigit(c)
    ensures DecimalValue(c).None?
  {
    assert DecimalZeros[0] == 0x0030 && DecimalZeros[1..][0] == 0x0660;
  }

  /** Python's `s.isdecimal()`: non-empty, and every character a Unicode decimal digit. */
  predicate IsDecimal(s: string) {
    |s| > 0 && forall i :: 0 <= i < |s| ==> DecimalValue(s[i]).Some?
  }

  /** Python's `int(s)` for a string of Unicode decimal digits, each worth its value in its run. */
  function DecimalsValue(s: string): nat
    requires forall i :: 0 <= i < |s| ==> DecimalValue(s[i]).Some?
  {
    if s == [] then 0
    else 10 * DecimalsValue(s[..|s| - 1]) + DecimalValue(s[|s| - 1]).value
  }

  /** On ASCII digits, `int()` over Unicode digits is the plain decimal reading. */
  lemma {:induction false} AsciiDecimals(s: string)
    requires forall i :: 0 <= i < |s| ==> IsAsciiDigit(s[i])
    ensures forall i :: 0 <= i < |s| ==> DecimalValue(s[i]).Some?
    ensures DecimalsValue(s) == DigitsValue(s)
  {
    forall i | 0 <= i < |s|
      ensures DecimalValue(s[i]).Some?
    {
      AsciiDecimalValue(s[i]);
    }
    if s != [] {
      AsciiDecimals(s[..|s| - 1]);
      AsciiDecimalValue(s[|s| - 1]);
    }
  }

  /** Decimal rendering of a natural number, as `str(n)`. */
  function NatToString(n: nat): (r: string)
    ensures IsDigits(r)
    ensures DigitsValue(r) == n
    decreases n
  {
    var d := ['0' + (n % 10) as char];
    if n < 10 then d
    else
      var r := NatToString(n / 10) + d;
      assert r[..|r| - 1] == NatToString(n / 10);
      r
  }

  /** Decimal rendering of an integer, as `str(i)`. */
  function IntToString(i: int): string {
    if i < 0 then "-" + NatToString(-i) else NatToString(i)
  }

  /** A rendered natural number does not begin with a minus sign. */
  lemma NatToStringUnsigned(n: nat)
    ensures NatToString(n)[0] != '-'
  {
    assert IsAsciiDigit(NatToString(n)[0]);
  }

  /** Different integers are rendered differently. */
  lemma IntToStringInjective(a: int, b: int)
    requires IntToString(a) == IntToString(b)
    ensures a == b
  {
    if a < 0 && b < 0 {
      assert NatToString(-a) == IntToString(a)[1..] == IntToString(b)[1..] == NatToString(-b);
      assert -a == DigitsValue(NatToString(-a)) == DigitsValue(NatToString(-b)) == -b;
    } else if 0 <= a && 0 <= b {
      assert a == DigitsValue(NatToString(a)) == DigitsValue(NatToString(b)) == b;
    } else if a < 0 {
      NatToStringUnsigned(b);
      assert false;
    } else {
      NatToStringUnsigned(a);
      assert false;
    }
  }

  /** The parts put together in order, as `''.join(parts)`. */
  function Concat(parts: seq<string>): string {
    if parts == [] then "" else parts[0] + Concat(parts[1..])
  }

  lemma {:induction false} ConcatAppend(a: seq<string>, b: seq<string>)
    ensures Concat(a + b) == Concat(a) + Concat(b)
  {
    if a == [] {
      assert a + b == b;
    } else {
      ConcatAppend(a[1..], b);
      assert (a + b)[1..] == a[1..] + b;
      assert (a + b)[0] == a[0];
      calc {
        Concat(a + b);
        a[0] + Concat(a[1..] + b);
        a[0] + (Concat(a[1..]) + Concat(b));
        (a[0] + Concat(a[1..])) + Concat(b);
      }
    }
  }

  /** Splitting a join on a one-character separator that no part contains gives the parts back. */
  lemma {:induction false} SplitJoin(parts: seq<string>, sep: string)
    requires |sep| == 1 && |parts| >= 1
    requires forall i :: 0 <= i < |parts| ==> !Contains(parts[i], sep)
    ensures Split(Join(parts, sep), sep) == parts
    decreases |parts|
  {
    if |parts| == 1 {
      assert Find(parts[0], sep).None?;
    } else {
      var p, rest := parts[0], Join(parts[1..], sep);
      var s := p + sep + rest;
      assert Join(parts, sep) == s;
      FindAfterClean(p, sep, rest);
      SplitAt(s, sep, |p|);
      assert s[|p| + |sep|..] == rest && s[..|p|] == p;
      SplitJoin(parts[1..], sep);
      assert [p] + parts[1..] == parts;
    }
  }

  /** Splitting at a known first separator. */
  lemma SplitAt(s: string, sep: string, i: nat)
    requires |sep| > 0 && Find(s, sep) == Some(i)
    ensures i + |sep| <= |s|
    ensures Split(s, sep) == [s[..i]] + Split(s[i + |sep|..], sep)
  {
  }

  /** In `p + sep + rest` with a one-character `sep` absent from `p`, the first separator follows `p`. */
  lemma FindAfterClean(p: string, sep: string, rest: string)
    requires |sep| == 1 && !Contains(p, sep)
    ensures Find(p + sep + rest, sep) == Some(|p|)
  {
    var s := p + sep + rest;
    assert s[|p|..|p| + 1] == sep;
    assert OccursAt(s, sep, |p|);
    var r := Find(s, sep);
    assert r.Some?;
    if r.value < |p| {
      assert s[r.value..r.value + 1] == p[r.value..r.value + 1];
      assert OccursAt(p, sep, r.value);
      FindIff(p, sep);
      assert false;
    }
  }

  /** `a` is a subsequence of `b`: `b` with some elements left out. */
  predicate IsSubseq<T(==)>(a: seq<T>, b: seq<T>)
    decreases |b|
  {
    if b == [] then a == []
    else
      (a != [] && a[|a| - 1] == b[|b| - 1] && IsSubseq(a[..|a| - 1], b[..|b| - 1]))
      || IsSubseq(a, b[..|b| - 1])
  }

  lemma SubseqSkip<T>(a: seq<T>, b: seq<T>, x: T)
    requires IsSubseq(a, b)
    ensures IsSubseq(a, b + [x])
  {
    assert (b + [x])[..|b|] == b;
  }

  lemma SubseqKeep<T>(a: seq<T>, b: seq<T>, x: T)
    requires IsSubseq(a, b)
    ensures IsSubseq(a + [x], b + [x])
  {
    assert (b + [x])[..|b|] == b;
    assert (a + [x])[..|a|] == a;
  }

  lemma {:induction false} SubseqEmpty<T>(b: seq<T>)
    ensures IsSubseq([], b)
    decreases |b|
  {
    if b != [] {
      SubseqEmpty(b[..|b| - 1]);
    }
  }

  lemma {:induction false} SubseqAppendRight<T>(a: seq<T>, b: seq<T>, c: seq<T>)
    requires IsSubseq(a, b)
    ensures IsSubseq(a, b + c)
    decreases |c|
  {
    if c != [] {
      var c', x := c[..|c| - 1], c[|c| - 1];
      SubseqAppendRight(a, b, c');
      SubseqSkip(a, b + c', x);
      AppendLast(b, c);
    } else {
      assert b + c == b;
    }
  }

  lemma {:induction false} SubseqAppendBoth<T>(a: seq<T>, b: seq<T>, c: seq<T>)
    requires IsSubseq(a, b)
    ensures IsSubseq(a + c, b + c)
    decreases |c|
  {
    if c == [] {
      assert a + c == a && b + c == b;
    } else {
      var c', x := c[..|c| - 1], c[|c| - 1];
      SubseqAppendBoth(a, b, c');
      SubseqKeep(a + c', b + c', x);
      AppendLast(a, c);
      AppendLast(b, c);
    }
  }

  /** Appending a non-empty `c` is appending all of it but its last element, then that element. */
  lemma AppendLast<T>(a: seq<T>, c: seq<T>)
    requires c != []
    ensures a + c[..|c| - 1] + [c[|c| - 1]] == a + c
  {
    assert c[..|c| - 1] + [c[|c| - 1]] == c;
  }

  lemma SubseqPrefix<T>(b: seq<T>, n: nat)
    requires n <= |b|
    ensures IsSubseq(b[..n], b)
  {
    SubseqRefl(b[..n]);
    SubseqAppendRight(b[..n], b[..n], b[n..]);
    assert b[..n] + b[n..] == b;
  }

  lemma {:induction false} SubseqRefl<T>(a: seq<T>)
    ensures IsSubseq(a, a)
    decreases |a|
  {
    if a != [] {
      SubseqRefl(a[..|a| - 1]);
      SubseqKeep(a[..|a| - 1], a[..|a| - 1], a[|a| - 1]);
      assert a[..|a| - 1] + [a[|a| - 1]] == a;
    }
  }

  /** A subsequence is no longer than the sequence and draws its elements from it. */
  lemma {:induction false} SubseqMembers<T>(a: seq<T>, b: seq<T>)
    requires IsSubseq(a, b)
    ensures |a| <= |b|
    ensures forall x :: x in a ==> x in b
    decreases |b|
  {
    if b != [] {
      var b' := b[..|b| - 1];
      assert b == b' + [b[|b| - 1]];
      if a != [] && a[|a| - 1] == b[|b| - 1] && IsSubseq(a[..|a| - 1], b') {
        SubseqMembers(a[..|a| - 1], b');
        assert a == a[..|a| - 1] + [a[|a| - 1]];
      } else {
        SubseqMembers(a, b');
      }
    }
  }
}
