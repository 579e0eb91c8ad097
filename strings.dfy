/**
 * Character classes and string operations of the JavaScript runtime, as the
 * generator uses them: the regular-expression classes `[a-z]`, `\d`, `\s`,
 * `String.prototype.toUpperCase` on ASCII letters, `trim`, `slice`, `split`,
 * `Array.prototype.join`, and `replace` with a global literal pattern.
 */
module Strings {
  import opened Js

  predicate IsLower(c: char) { 'a' <= c <= 'z' }
  predicate IsUpper(c: char) { 'A' <= c <= 'Z' }
  predicate IsLetter(c: char) { IsLower(c) || IsUpper(c) }
  predicate IsDigit(c: char) { '0' <= c <= '9' }

  /** `[a-zA-Z_$]`: a character that may start an identifier. */
  predicate IsIdentStart(c: char) { IsLetter(c) || c == '_' || c == '$' }

  /** `[a-zA-Z_$\d]`: a character that may continue an identifier. */
  predicate IsIdentChar(c: char) { IsIdentStart(c) || IsDigit(c) }

  /** The line terminators of ECMAScript: LF, CR, LS and PS; `.` matches none of them. */
  predicate IsLineTerminator(c: char) {
    c as int == 0x0A || c as int == 0x0D || c as int == 0x2028 || c as int == 0x2029
  }

  /** `\s` and the characters `trim` removes: ECMAScript WhiteSpace and LineTerminator. */
  predicate IsSpace(c: char) {
    var n := c as int;
    n == 0x09 || n == 0x0B || n == 0x0C || n == 0x20 || n == 0xA0 || n == 0x1680
    || (0x2000 <= n <= 0x200A) || n == 0x202F || n == 0x205F || n == 0x3000 || n == 0xFEFF
    || IsLineTerminator(c)
  }

  /** `['"]`. */
  predicate IsQuote(c: char) { c == '\'' || c == '"' }

  /** `toUpperCase` on one character; only ASCII letters occur where the generator applies it. */
  function Upper(c: char): (r: char)
    ensures IsLower(c) ==> IsUpper(r) && r as int == c as int - 32
    ensures !IsLower(c) ==> r == c
  {
    if IsLower(c) then (c as int - 32) as char else c
  }

  /** A string made only of ASCII letters. */
  predicate IsLetters(s: string) {
    forall i :: 0 <= i < |s| ==> IsLetter(s[i])
  }

  /** `pat` occurs nowhere in `s`. */
  predicate NoOccurrence(s: string, pat: string) {
    forall k :: 0 <= k <= |s| ==> !(pat <= s[k..])
  }

  /**
   * `s.replace(/pat/g, rep)` for a literal pattern: the leftmost occurrence is
   * replaced, the scan resumes after it, and so on.
   */
  function ReplaceAll(s: string, pat: string, rep: string): (r: string)
    requires pat != []
    decreases |s|
  {
    if |s| < |pat| then s
    else if pat <= s then rep + ReplaceAll(s[|pat|..], pat, rep)
    else [s[0]] + ReplaceAll(s[1..], pat, rep)
  }

  lemma {:induction false} ReplaceAllIdentity(s: string, pat: string, rep: string)
    requires pat != []
    requires NoOccurrence(s, pat)
    ensures ReplaceAll(s, pat, rep) == s
    decreases |s|
  {
    if |s| >= |pat| {
      assert !(pat <= s[0..]);
      assert s[0..] == s;
      assert NoOccurrence(s[1..], pat) by {
        forall k | 0 <= k <= |s[1..]| ensures !(pat <= s[1..][k..]) {
          assert s[1..][k..] == s[k + 1..];
        }
      }
      ReplaceAllIdentity(s[1..], pat, rep);
    }
  }

  lemma PrefixHead(q: string, t: string)
    ensures q != [] && q <= t ==> q[0] == t[0]
  {
  }

  /**
   * A proper suffix of the pattern that starts the result already started the
   * input, provided the replacement cannot start inside the pattern.
   */
  lemma {:induction false} SuffixStartsBack(s: string, pat: string, rep: string, k: nat)
    requires pat != [] && rep != []
    requires forall j :: 1 <= j < |pat| ==> pat[j] != rep[0]
    requires 1 <= k <= |pat|
    requires pat[k..] <= ReplaceAll(s, pat, rep)
    ensures pat[k..] <= s
    decreases |s|
  {
    var q := pat[k..];
    if q == [] || |s| < |pat| {
    } else if pat <= s {
      PrefixHead(q, ReplaceAll(s, pat, rep));
      assert false;
    } else {
      var r := ReplaceAll(s, pat, rep);
      assert r == [s[0]] + ReplaceAll(s[1..], pat, rep);
      assert q[0] == s[0];
      if k + 1 <= |pat| {
        assert pat[k + 1..] == q[1..];
        assert q[1..] <= ReplaceAll(s[1..], pat, rep) by {
          assert r[1..] == ReplaceAll(s[1..], pat, rep);
        }
        SuffixStartsBack(s[1..], pat, rep, k + 1);
      }
    }
  }

  /**
   * Replacing every occurrence leaves none, when the replacement cannot begin
   * or complete an occurrence: the pattern's first character is not in the
   * replacement and the replacement's first character is not in the rest of
   * the pattern.
   */
  lemma {:induction false} ReplaceAllLeavesNone(s: string, pat: string, rep: string)
    requires pat != [] && rep != []
    requires forall j :: 0 <= j < |rep| ==> rep[j] != pat[0]
    requires forall j :: 1 <= j < |pat| ==> pat[j] != rep[0]
    ensures NoOccurrence(ReplaceAll(s, pat, rep), pat)
    decreases |s|
  {
    var r := ReplaceAll(s, pat, rep);
    if |s| < |pat| {
      forall k | 0 <= k <= |r| ensures !(pat <= r[k..]) {
        assert |r[k..]| < |pat|;
      }
    } else if pat <= s {
      var t := ReplaceAll(s[|pat|..], pat, rep);
      ReplaceAllLeavesNone(s[|pat|..], pat, rep);
      assert r == rep + t;
      forall k | 0 <= k <= |r| ensures !(pat <= r[k..]) {
        if k < |rep| {
          assert r[k..][0] == rep[k];
        } else {
          assert r[k..] == t[k - |rep|..];
        }
      }
    } else {
      var t := ReplaceAll(s[1..], pat, rep);
      ReplaceAllLeavesNone(s[1..], pat, rep);
      assert r == [s[0]] + t;
      forall k | 0 <= k <= |r| ensures !(pat <= r[k..]) {
        if k == 0 {
          if pat <= r {
            assert pat[1..] <= t by {
              assert r[1..] == t;
            }
            SuffixStartsBack(s[1..], pat, rep, 1);
            assert false;
          }
        } else {
          assert r[k..] == t[k - 1..];
        }
      }
    }
  }

  /**
   * A text that avoids the replacement's first character and starts the result
   * of a replacement already started its input.
   */
  lemma {:induction false} PrefixStaysPrefix(s: string, pat: string, rep: string, w: string)
    requires pat != [] && rep != []
    requires forall j :: 0 <= j < |w| ==> w[j] != rep[0]
    requires w <= ReplaceAll(s, pat, rep)
    ensures w <= s
    decreases |s|
  {
    if w == [] || |s| < |pat| {
    } else if pat <= s {
      StartsWithReplacement(s, pat, rep);
      PrefixHead(w, ReplaceAll(s, pat, rep));
      PrefixHead(rep, ReplaceAll(s, pat, rep));
      assert false;
    } else {
      var t := ReplaceAll(s[1..], pat, rep);
      assert ReplaceAll(s, pat, rep) == [s[0]] + t;
      assert w[1..] <= t;
      PrefixStaysPrefix(s[1..], pat, rep, w[1..]);
      assert w == [w[0]] + w[1..];
    }
  }

  lemma StartsWithReplacement(s: string, pat: string, rep: string)
    requires pat != [] && pat <= s
    ensures rep <= ReplaceAll(s, pat, rep)
  {
  }

  lemma NotAtStart(s: string, q: string)
    requires NoOccurrence(s, q)
    ensures !(q <= s)
  {
    assert s[0..] == s;
  }

  /**
   * Replacing `pat` by `rep` creates no occurrence of another text `q`, when the
   * replacement cannot hold the start of `q` and `q` does not continue with the
   * replacement's first character.
   */
  lemma {:induction false} ReplaceAllKeepsAbsent(s: string, pat: string, rep: string, q: string)
    requires pat != [] && rep != [] && q != []
    requires forall j :: 0 <= j < |rep| ==> rep[j] != q[0]
    requires forall j :: 1 <= j < |q| ==> q[j] != rep[0]
    requires NoOccurrence(s, q)
    ensures NoOccurrence(ReplaceAll(s, pat, rep), q)
    decreases |s|
  {
    var r := ReplaceAll(s, pat, rep);
    if |s| < |pat| {
    } else if pat <= s {
      var t := ReplaceAll(s[|pat|..], pat, rep);
      assert NoOccurrence(s[|pat|..], q) by {
        forall k | 0 <= k <= |s[|pat|..]| ensures !(q <= s[|pat|..][k..]) {
          assert s[|pat|..][k..] == s[|pat| + k..];
        }
      }
      ReplaceAllKeepsAbsent(s[|pat|..], pat, rep, q);
      assert r == rep + t;
      forall k | 0 <= k <= |r| ensures !(q <= r[k..]) {
        if k < |rep| {
          assert r[k..][0] == rep[k];
        } else {
          assert r[k..] == t[k - |rep|..];
        }
      }
    } else {
      var t := ReplaceAll(s[1..], pat, rep);
      assert NoOccurrence(s[1..], q) by {
        forall k | 0 <= k <= |s[1..]| ensures !(q <= s[1..][k..]) {
          assert s[1..][k..] == s[k + 1..];
        }
      }
      ReplaceAllKeepsAbsent(s[1..], pat, rep, q);
      assert r == [s[0]] + t;
      forall k | 0 <= k <= |r| ensures !(q <= r[k..]) {
        if k == 0 {
          if q <= r {
            assert q[1..] <= t by {
              assert r[1..] == t;
            }
            NotAtStart(s, q);
            PrefixStaysPrefix(s[1..], pat, rep, q[1..]);
            assert false;
          }
        } else {
          assert r[k..] == t[k - 1..];
        }
      }
    }
  }

  /** `parts.join(sep)`. */
  function Join(parts: seq<string>, sep: string): (r: string)
    ensures parts == [] ==> r == ""
    ensures |parts| == 1 ==> r == parts[0]
    decreases |parts|
  {
    if parts == [] then ""
    else if |parts| == 1 then parts[0]
    else parts[0] + sep + Join(parts[1..], sep)
  }

  /** `s.trimStart()`: the white space in front is dropped. */
  function TrimStart(s: string): (r: string)
    ensures |r| <= |s| && r == s[|s| - |r|..]
    ensures forall k :: 0 <= k < |s| - |r| ==> IsSpace(s[k])
    ensures r != [] ==> !IsSpace(r[0])
    decreases |s|
  {
    if s != [] && IsSpace(s[0]) then
      var r := TrimStart(s[1..]);
      assert s[1..][|s| - 1 - |r|..] == s[|s| - |r|..];
      assert forall k :: 1 <= k < |s| - |r| ==> s[k] == s[1..][k - 1];
      r
    else s
  }

  /** `s.trimEnd()`: the white space at the end is dropped. */
  function TrimEnd(s: string): (r: string)
    ensures r <= s
    ensures forall k :: |r| <= k < |s| ==> IsSpace(s[k])
    ensures r != [] ==> !IsSpace(r[|r| - 1])
    decreases |s|
  {
    if s != [] && IsSpace(s[|s| - 1]) then TrimEnd(s[..|s| - 1]) else s
  }

  /** `s.trim()`. */
  function Trim(s: string): (r: string)
    ensures |r| <= |s|
    ensures r != [] ==> !IsSpace(r[0]) && !IsSpace(r[|r| - 1])
  {
    var t := TrimEnd(s);
    var u := TrimStart(t);
    assert u != [] ==> u == t[|t| - |u|..] || u == t;
    u
  }

  /** `r` is `s` from `i` on, with only white space before it and after it. */
  predicate SpaceAround(s: string, r: string, i: int) {
    0 <= i <= |s| - |r| && r == s[i..i + |r|] &&
    (forall k :: 0 <= k < i ==> IsSpace(s[k])) && (forall k :: i + |r| <= k < |s| ==> IsSpace(s[k]))
  }

  /** `trim` removes white space at both ends of the text and nothing else. */
  lemma TrimSpec(s: string)
    ensures exists i :: SpaceAround(s, Trim(s), i)
  {
    var t := TrimEnd(s);
    var u := TrimStart(t);
    var i := |t| - |u|;
    assert t == s[..|t|];
    assert u == s[i..i + |u|];
    assert forall k :: 0 <= k < i ==> s[k] == t[k];
    assert SpaceAround(s, u, i);
    assert Trim(s) == u;
  }

  /** ... and the trimmed text is the only such part of `s` whose ends are not white space. */
  lemma TrimUnique(s: string, r: string, i: int)
    requires SpaceAround(s, r, i) && (r != [] ==> !IsSpace(r[0]) && !IsSpace(r[|r| - 1]))
    ensures r == Trim(s)
  {
    TrimSpec(s);
    var j :| SpaceAround(s, Trim(s), j);
    var u := Trim(s);
    if r != [] && u != [] {
      // both start at the first non-blank character and end at the last one
      assert r[0] == s[i] && u[0] == s[j];
      assert i == j;
      assert r[|r| - 1] == s[i + |r| - 1] && u[|u| - 1] == s[j + |u| - 1];
    } else if r != [] {
      assert r[0] == s[i];
    }
  }

  /** `s.slice(2, -2)`: the string without its first two and last two characters. */
  function SliceInner(s: string): (r: string)
    ensures |s| <= 4 ==> r == ""
    ensures |s| > 4 ==> |r| == |s| - 4 && forall i :: 0 <= i < |r| ==> r[i] == s[i + 2]
  {
    if |s| > 4 then s[2..|s| - 2] else ""
  }

  /** The index of the first `c` in `s`, if any. */
  function IndexOf(s: string, c: char): (r: Option<nat>)
    ensures r.Some? ==> r.value < |s| && s[r.value] == c && forall i :: 0 <= i < r.value ==> s[i] != c
    ensures r.None? ==> forall i :: 0 <= i < |s| ==> s[i] != c
  {
    if s == [] then None
    else if s[0] == c then Some(0)
    else match IndexOf(s[1..], c)
      case None => None
      case Some(i) => Some(i + 1)
  }

  /**
   * The first two pieces of `s.split(c)`: the text before the first `c`, and the
   * text between the first and the second `c` (or the end), undefined without a `c`.
   */
  function SplitFirst(s: string, c: char): (r: (string, Option<string>))
    ensures r.1.None? <==> forall i :: 0 <= i < |s| ==> s[i] != c
    ensures r.1.None? ==> r.0 == s
    ensures forall i :: 0 <= i < |r.0| ==> r.0[i] != c
    ensures r.1.Some? ==> r.0 + [c] + r.1.value <= s
    ensures r.1.Some? ==> forall i :: 0 <= i < |r.1.value| ==> r.1.value[i] != c
    ensures r.1.Some? && |r.0| + 1 + |r.1.value| < |s| ==> s[|r.0| + 1 + |r.1.value|] == c
  {
    match IndexOf(s, c)
    case None => (s, None)
    case Some(i) =>
      var rest := s[i + 1..];
      var seg := match IndexOf(rest, c) case None => rest case Some(j) => rest[..j];
      assert s[..i] + [c] + seg <= s by {
        assert s == s[..i] + [c] + rest;
      }
      (s[..i], Some(seg))
  }

  function DigitChar(d: nat): (c: char)
    requires d < 10
    ensures IsDigit(c) && c as int - '0' as int == d
  {
    ('0' as int + d) as char
  }

  /** `String(n)` for a non-negative integer: its decimal numeral, without leading zeros. */
  function DecimalString(n: nat): (r: string)
    ensures r != [] && forall i :: 0 <= i < |r| ==> IsDigit(r[i])
    ensures |r| > 1 ==> r[0] != '0'
    decreases n
  {
    if n < 10 then [DigitChar(n)] else DecimalString(n / 10) + [DigitChar(n % 10)]
  }

  /** The number a string of decimal digits denotes. */
  function DecimalValue(s: string): nat
    requires forall i :: 0 <= i < |s| ==> IsDigit(s[i])
    decreases |s|
  {
    if s == [] then 0
    else
      var last := s[|s| - 1];
      assert '0' <= last <= '9' by { assert IsDigit(last); }
      DecimalValue(s[..|s| - 1]) * 10 + (last as int - '0' as int)
  }

  /** Reading back a numeral gives the number; so distinct indices have distinct numerals. */
  lemma {:induction false} DecimalRoundTrip(n: nat)
    ensures DecimalValue(DecimalString(n)) == n
    decreases n
  {
    if n >= 10 {
      DecimalRoundTrip(n / 10);
      var s := DecimalString(n);
      assert s[..|s| - 1] == DecimalString(n / 10);
    }
  }

  lemma DecimalStringInjective(m: nat, n: nat)
    requires DecimalString(m) == DecimalString(n)
    ensures m == n
  {
    DecimalRoundTrip(m);
    DecimalRoundTrip(n);
  }
  /** The first `c` is found wherever it is. */
  lemma IndexOfIs(s: string, c: char, j: nat)
    requires j < |s| && s[j] == c && forall i :: 0 <= i < j ==> s[i] != c
    ensures IndexOf(s, c) == Some(j)
  {
  }

  /** `s.split(c)`: the pieces between the occurrences of `c`, in order. */
  function SplitAll(s: string, c: char): (r: seq<string>)
    ensures |r| >= 1
    ensures forall i, j :: 0 <= i < |r| && 0 <= j < |r[i]| ==> r[i][j] != c
    decreases |s|
  {
    match IndexOf(s, c)
    case None => [s]
    case Some(i) => [s[..i]] + SplitAll(s[i + 1..], c)
  }

  /** Joining the pieces with the separator gives the string back. */
  lemma {:induction false} JoinSplitAll(s: string, c: char)
    ensures Join(SplitAll(s, c), [c]) == s
    decreases |s|
  {
    match IndexOf(s, c)
    case None =>
    case Some(i) =>
      var x, y := s[..i], s[i + 1..];
      JoinSplitAll(y, c);
      var parts := SplitAll(s, c);
      assert parts == [x] + SplitAll(y, c);
      assert parts[0] == x && parts[1..] == SplitAll(y, c);
      assert Join(parts, [c]) == x + [c] + y;
      assert s == x + [c] + y;
  }

  /** A separator placed between two strings splits each of them on its own. */
  lemma {:induction false} SplitAllAppend(x: string, y: string, c: char)
    ensures SplitAll(x + [c] + y, c) == SplitAll(x, c) + SplitAll(y, c)
    decreases |x|
  {
    var s := x + [c] + y;
    match IndexOf(x, c)
    case None =>
      IndexOfIs(s, c, |x|);
      assert s[..|x|] == x && s[|x| + 1..] == y;
    case Some(i) =>
      IndexOfIs(s, c, i);
      assert s[..i] == x[..i];
      assert s[i + 1..] == x[i + 1..] + [c] + y;
      SplitAllAppend(x[i + 1..], y, c);
  }
}
