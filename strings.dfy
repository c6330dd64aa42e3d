/**
 * The handful of Python `str` operations the marketplace code relies on:
 * `lower`/`upper`/`title` (ASCII letters only), `strip`, `split`, `in`,
 * `startswith`, `replace(old, '')`, and decimal formatting with `%0Nd`.
 */
module Strings {
  import opened Wrappers

  predicate IsUpperAscii(c: char) { 'A' <= c <= 'Z' }
  predicate IsLowerAscii(c: char) { 'a' <= c <= 'z' }
  predicate IsLetter(c: char) { IsUpperAscii(c) || IsLowerAscii(c) }

  /** Python's whitespace, restricted to ASCII. */
  predicate IsSpace(c: char) {
    c == ' ' || c == '\t' || c == '\n' || c == '\r' || c == '\U{000B}' || c == '\U{000C}'
  }

  function LowerChar(c: char): char {
    if IsUpperAscii(c) then (c as int + 32) as char else c
  }

  function UpperChar(c: char): char {
    if IsLowerAscii(c) then (c as int - 32) as char else c
  }

  /** `s.lower()` */
  function Lower(s: string): (r: string)
    ensures |r| == |s|
    ensures forall i :: 0 <= i < |s| ==> r[i] == LowerChar(s[i])
  {
    seq(|s|, i requires 0 <= i < |s| => LowerChar(s[i]))
  }

  /** `s.upper()` */
  function Upper(s: string): (r: string)
    ensures |r| == |s|
    ensures forall i :: 0 <= i < |s| ==> r[i] == UpperChar(s[i])
  {
    seq(|s|, i requires 0 <= i < |s| => UpperChar(s[i]))
  }

  /** `s.title()`: a letter is upper-cased when it does not follow a letter, lower-cased otherwise. */
  function Title(s: string): (r: string)
  {
    seq(|s|, i requires 0 <= i < |s| =>
      if i == 0 || !IsLetter(s[i - 1]) then UpperChar(s[i]) else LowerChar(s[i]))
  }

  /** The title of a lower-case word upper-cases its first letter only. */
  lemma TitleOfLowerWord(s: string)
    requires s != [] && forall i :: 0 <= i < |s| ==> IsLowerAscii(s[i])
    ensures Title(s) == [UpperChar(s[0])] + s[1..]
  {
    var t := Title(s);
    var u := [UpperChar(s[0])] + s[1..];
    forall i | 0 <= i < |s|
      ensures t[i] == u[i]
    {
      if i > 0 {
        assert IsLetter(s[i - 1]);
        assert LowerChar(s[i]) == s[i];
      }
    }
    assert |t| == |u|;
  }

  /** `s == s.lower()` */
  predicate IsLowerCase(s: string) { Lower(s) == s }

  /** Lower-casing is idempotent, so a lower-cased string is left alone by a second pass. */
  lemma LowerIsLowerCase(s: string)
    ensures IsLowerCase(Lower(s))
  {
    var l := Lower(s);
    assert forall i :: 0 <= i < |l| ==> LowerChar(l[i]) == l[i];
  }

  /** `s.lstrip()` */
  function StripLeft(s: string): (r: string)
    ensures |r| <= |s| && r == s[|s| - |r|..]
    ensures r == [] || !IsSpace(r[0])
  {
    if s != [] && IsSpace(s[0]) then StripLeft(s[1..]) else s
  }

  /** `s.rstrip()` */
  function StripRight(s: string): (r: string)
    ensures |r| <= |s| && r == s[..|r|]
    ensures r == [] || !IsSpace(r[|r| - 1])
  {
    if s != [] && IsSpace(s[|s| - 1]) then StripRight(s[..|s| - 1]) else s
  }

  /** `s.strip()` */
  function Strip(s: string): string {
    StripRight(StripLeft(s))
  }

  /** Neither end of `s` is whitespace, so `s.strip() == s`. */
  predicate IsStripped(s: string) {
    s == [] || (!IsSpace(s[0]) && !IsSpace(s[|s| - 1]))
  }

  lemma StrippedUnchanged(s: string)
    requires IsStripped(s)
    ensures Strip(s) == s
  {
  }

  /** `s.startswith(p)` */
  predicate StartsWith(s: string, p: string) {
    |p| <= |s| && s[..|p|] == p
  }

  /** `s.find(p)` as an option: the first position at which `p` occurs in `s`. */
  function IndexOf(s: string, p: string): (r: Option<nat>)
    ensures r.Some? ==> r.value + |p| <= |s| && StartsWith(s[r.value..], p)
    ensures r.Some? ==> forall j :: 0 <= j < r.value ==> !StartsWith(s[j..], p)
    ensures r.None? ==> forall j :: 0 <= j <= |s| - |p| ==> !StartsWith(s[j..], p)
    decreases |s|
  {
    if |s| < |p| then None
    else if StartsWith(s, p) then Some(0)
    else
      match IndexOf(s[1..], p)
      case None =>
        assert forall j :: 1 <= j <= |s| - |p| ==> s[j..] == s[1..][j - 1..];
        None
      case Some(k) =>
        assert forall j :: 1 <= j <= k ==> s[j..] == s[1..][j - 1..];
        assert s[k + 1..] == s[1..][k..];
        Some(k + 1)
  }

  /** `p in s` */
  predicate Contains(s: string, p: string) {
    IndexOf(s, p).Some?
  }

  /** `s.split(sep)` for a non-empty separator. */
  function Split(s: string, sep: string): (r: seq<string>)
    requires |sep| > 0
    ensures |r| >= 1
    decreases |s|
  {
    match IndexOf(s, sep)
    case None => [s]
    case Some(k) => [s[..k]] + Split(s[k + |sep|..], sep)
  }

  /** `s.replace(pat, '')` for a non-empty pattern. */
  function RemoveAll(s: string, pat: string): string
    requires |pat| > 0
    decreases |s|
  {
    match IndexOf(s, pat)
    case None => s
    case Some(k) => s[..k] + RemoveAll(s[k + |pat|..], pat)
  }

  /** An occurrence at `k` with none before it is the one `find` reports. */
  lemma IndexOfIsFirst(t: string, p: string, k: nat)
    requires k + |p| <= |t| && StartsWith(t[k..], p)
    requires forall j :: 0 <= j < k ==> !StartsWith(t[j..], p)
    ensures IndexOf(t, p) == Some(k)
  {
  }

  /**
   * When character `p[o]` of the pattern occurs in `t` only at positions
   * `n + o` or later, no occurrence of `p` starts before `n`.
   */
  lemma NoOccurrenceBefore(t: string, p: string, o: nat, n: nat)
    requires o < |p| && n <= |t|
    requires forall i :: 0 <= i < |t| && t[i] == p[o] ==> i >= n + o
    ensures forall j :: 0 <= j < n ==> !StartsWith(t[j..], p)
  {
    forall j | 0 <= j < n
      ensures !StartsWith(t[j..], p)
    {
      if j + |p| <= |t| {
        assert t[j..][..|p|][o] == t[j + o];
      }
    }
  }

  /** A string that lacks one of the pattern's characters does not contain the pattern. */
  lemma NotContainedWithoutChar(s: string, p: string, o: nat)
    requires o < |p| && p[o] !in s
    ensures !Contains(s, p)
  {
    forall j | 0 <= j <= |s| - |p|
      ensures !StartsWith(s[j..], p)
    {
      assert s[j..][..|p|][o] == s[j + o];
    }
  }

  lemma SplitWithout(s: string, sep: string)
    requires |sep| > 0 && !Contains(s, sep)
    ensures Split(s, sep) == [s]
  {
  }

  lemma RemoveAllWithout(s: string, pat: string)
    requires |pat| > 0 && !Contains(s, pat)
    ensures RemoveAll(s, pat) == s
  {
  }

  /** Removing a pattern from a string that begins with it drops that first copy. */
  lemma RemoveAllPrefix(pre: string, s: string)
    requires |pre| > 0
    ensures RemoveAll(pre + s, pre) == RemoveAll(s, pre)
  {
    assert (pre + s)[0..] == pre + s;
    IndexOfIsFirst(pre + s, pre, 0);
    assert (pre + s)[|pre|..] == s;
  }

  /** `a + sep + b` splits at the join when `sep` does not occur earlier. */
  lemma SplitAtJoin(a: string, sep: string, b: string)
    requires |sep| > 0
    requires forall j :: 0 <= j < |a| ==> !StartsWith((a + sep + b)[j..], sep)
    ensures Split(a + sep + b, sep) == [a] + Split(b, sep)
  {
    var t := a + sep + b;
    assert t[|a|..][..|sep|] == sep;
    IndexOfIsFirst(t, sep, |a|);
    assert t[..|a|] == a;
    assert t[|a| + |sep|..] == b;
  }

  // ---------------------------------------------------------------------------
  // Whitespace-separated words: `s.split()` and `' '.join(words)`.

  /** The leading run of non-whitespace characters. */
  function Token(s: string): (r: string)
    ensures |r| <= |s| && r == s[..|r|]
    ensures forall i :: 0 <= i < |r| ==> !IsSpace(r[i])
    ensures |r| < |s| ==> IsSpace(s[|r|])
  {
    if s == [] || IsSpace(s[0]) then [] else [s[0]] + Token(s[1..])
  }

  /** `s.split()` */
  function Words(s: string): (r: seq<string>)
    decreases |s|
  {
    var t := StripLeft(s);
    if t == [] then []
    else
      var w := Token(t);
      [w] + Words(t[|w|..])
  }

  /** `' '.join(ws)` */
  function JoinSpace(ws: seq<string>): string {
    if ws == [] then ""
    else if |ws| == 1 then ws[0]
    else ws[0] + " " + JoinSpace(ws[1..])
  }

  /** The joined text begins with the first word and ends with the last. */
  lemma {:induction false} JoinSpaceEnds(ws: seq<string>)
    requires ws != []
    ensures |ws[0]| <= |JoinSpace(ws)| && JoinSpace(ws)[..|ws[0]|] == ws[0]
    ensures |ws[|ws| - 1]| <= |JoinSpace(ws)|
    ensures JoinSpace(ws)[|JoinSpace(ws)| - |ws[|ws| - 1]|..] == ws[|ws| - 1]
    decreases |ws|
  {
    if |ws| > 1 {
      var rest := JoinSpace(ws[1..]);
      var last := ws[|ws| - 1];
      JoinSpaceEnds(ws[1..]);
      assert ws[1..][|ws[1..]| - 1] == last;
      var r := ws[0] + " " + rest;
      assert JoinSpace(ws) == r;
      assert r[..|ws[0]|] == ws[0];
      assert r[|r| - |last|..] == rest[|rest| - |last|..];
    }
  }

  /** A word as `split()` produces it: non-empty, no whitespace. */
  predicate IsWord(w: string) {
    w != [] && forall i :: 0 <= i < |w| ==> !IsSpace(w[i])
  }

  lemma TokenOfWord(w: string, rest: string)
    requires IsWord(w)
    requires rest == [] || IsSpace(rest[0])
    ensures Token(w + rest) == w
    decreases |w|
  {
    if |w| > 1 {
      assert (w + rest)[1..] == w[1..] + rest;
      TokenOfWord(w[1..], rest);
    } else {
      assert (w + rest)[1..] == rest;
    }
  }

  /** A word followed by nothing or by whitespace is the first word `split()` finds. */
  lemma WordsCons(w: string, rest: string)
    requires IsWord(w)
    requires rest == [] || IsSpace(rest[0])
    ensures Words(w + rest) == [w] + Words(rest)
  {
    var t := w + rest;
    assert t[0] == w[0];
    assert StripLeft(t) == t;
    TokenOfWord(w, rest);
    assert t[|w|..] == rest;
  }

  lemma WordsSpace(rest: string)
    ensures Words(" " + rest) == Words(rest)
  {
    assert (" " + rest)[1..] == rest;
    assert StripLeft(" " + rest) == StripLeft(rest);
  }

  lemma WordsOfJoinStep(w: string, tail: seq<string>)
    requires IsWord(w) && tail != []
    requires Words(JoinSpace(tail)) == tail
    ensures Words(JoinSpace([w] + tail)) == [w] + tail
  {
    var ws := [w] + tail;
    var rest := JoinSpace(tail);
    assert ws[0] == w && ws[1..] == tail;
    assert JoinSpace(ws) == w + (" " + rest);
    WordsCons(w, " " + rest);
    WordsSpace(rest);
  }

  lemma WordsOfSingle(w: string)
    requires IsWord(w)
    ensures Words(JoinSpace([w])) == [w]
  {
    assert w + [] == w;
    WordsCons(w, []);
  }

  /** Joining words with single spaces and splitting again gives the words back. */
  lemma {:induction false} WordsOfJoin(ws: seq<string>)
    requires forall i :: 0 <= i < |ws| ==> IsWord(ws[i])
    ensures Words(JoinSpace(ws)) == ws
    decreases |ws|
  {
    if |ws| == 1 {
      WordsOfSingle(ws[0]);
      assert ws == [ws[0]];
    } else if |ws| > 1 {
      var w, tail := ws[0], ws[1..];
      assert ws == [w] + tail;
      assert forall i :: 0 <= i < |tail| ==> IsWord(tail[i]) by {
        forall i | 0 <= i < |tail| ensures IsWord(tail[i]) {
          assert tail[i] == ws[i + 1];
        }
      }
      WordsOfJoin(tail);
      WordsOfJoinStep(w, tail);
    }
  }

  // ---------------------------------------------------------------------------
  // Decimal digits: `str(n)`, `'%0Nd' % n` and `int(s)`.

  function Pow10(k: nat): nat {
    if k == 0 then 1 else 10 * Pow10(k - 1)
  }

  function DigitChar(d: nat): char
    requires d < 10
  {
    ('0' as int + d) as char
  }

  predicate IsDigit(c: char) { '0' <= c <= '9' }

  function DigitValue(c: char): nat {
    if IsDigit(c) then c as int - '0' as int else 0
  }

  /** `str(n)` for a non-negative integer. */
  function NatToString(n: nat): (s: string)
    ensures |s| >= 1
    ensures forall i :: 0 <= i < |s| ==> IsDigit(s[i])
  {
    if n < 10 then [DigitChar(n)] else NatToString(n / 10) + [DigitChar(n % 10)]
  }

  /** `int(s)` for a string of decimal digits. */
  function ParseNat(s: string): nat {
    if s == [] then 0 else ParseNat(s[..|s| - 1]) * 10 + DigitValue(s[|s| - 1])
  }

  function Repeat(c: char, k: nat): (r: string)
    ensures |r| == k && forall i :: 0 <= i < k ==> r[i] == c
  {
    if k == 0 then [] else [c] + Repeat(c, k - 1)
  }

  /** `s` left-padded with zeros to at least `w` characters. */
  function ZeroPad(s: string, w: nat): (r: string)
    ensures |r| == if |s| < w then w else |s|
  {
    if |s| < w then Repeat('0', w - |s|) + s else s
  }

  /** `'%0{w}d' % n` */
  function PadNat(n: nat, w: nat): string {
    ZeroPad(NatToString(n), w)
  }

  lemma {:induction false} ParseNatToString(n: nat)
    ensures ParseNat(NatToString(n)) == n
  {
    if n >= 10 {
      var s := NatToString(n);
      assert s[..|s| - 1] == NatToString(n / 10);
      ParseNatToString(n / 10);
    }
  }

  lemma {:induction false} NatToStringLength(n: nat, k: nat)
    requires k >= 1 && n < Pow10(k)
    ensures |NatToString(n)| <= k
  {
    if n >= 10 {
      assert Pow10(1) == 10;
      NatToStringLength(n / 10, k - 1);
    }
  }

  /** Leading zeros do not change the parsed value. */
  lemma {:induction false} ParseNatLeadingZeros(k: nat, s: string)
    ensures ParseNat(Repeat('0', k) + s) == ParseNat(s)
    decreases |s|
  {
    if s == [] {
      assert Repeat('0', k) + s == Repeat('0', k);
      AllZerosParse(k);
    } else {
      var t := Repeat('0', k) + s;
      assert t[..|t| - 1] == Repeat('0', k) + s[..|s| - 1];
      ParseNatLeadingZeros(k, s[..|s| - 1]);
    }
  }

  lemma {:induction false} AllZerosParse(k: nat)
    ensures ParseNat(Repeat('0', k)) == 0
  {
    if k > 0 {
      var z := Repeat('0', k);
      var y := z[..|z| - 1];
      assert forall i :: 0 <= i < |y| ==> y[i] == '0';
      assert y == Repeat('0', k - 1);
      AllZerosParse(k - 1);
    }
  }

  /** `int('%0{w}d' % n) == n` */
  lemma PadNatParses(n: nat, w: nat)
    ensures ParseNat(PadNat(n, w)) == n
  {
    var s := NatToString(n);
    ParseNatToString(n);
    if |s| < w {
      ParseNatLeadingZeros(w - |s|, s);
    }
  }

  /** A padded number is all digits, exactly `w` long when the number has at most `w` digits. */
  lemma PadNatShape(n: nat, w: nat)
    requires w >= 1 && n < Pow10(w)
    ensures |PadNat(n, w)| == w
    ensures forall i :: 0 <= i < w ==> IsDigit(PadNat(n, w)[i])
  {
    NatToStringLength(n, w);
    var s := NatToString(n);
    var r := PadNat(n, w);
    forall i | 0 <= i < w ensures IsDigit(r[i]) {
      if |s| < w && i < w - |s| {
        assert r[i] == Repeat('0', w - |s|)[i];
      } else if |s| < w {
        assert r[i] == s[i - (w - |s|)];
      }
    }
  }

  /** The first `n` characters, as Python's `s[:n]`. */
  function Prefix(s: string, n: nat): (r: string)
    ensures |r| == if |s| < n then |s| else n
  {
    if |s| <= n then s else s[..n]
  }
}
