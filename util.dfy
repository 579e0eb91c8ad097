/**
 * The string helpers of src/util.ts: `toSafeString` (seven regular-expression
 * replacements that turn any text into an identifier-like name), `removeImport`,
 * `removeGenerics` and `removeQuotes`. Each global `replace` is a left-to-right
 * scan that resumes after every match, as JavaScript's regular-expression engine does.
 */
module Util {
  import opened Js
  import opened Strings

  // ---------------------------------------------------------------------------
  // toSafeString, step by step

  /** The number of `\s` characters that start `s`. */
  function LeadingSpaces(s: string): (n: nat)
    ensures n <= |s|
    ensures forall i :: 0 <= i < n ==> IsSpace(s[i])
    ensures n < |s| ==> !IsSpace(s[n])
    decreases |s|
  {
    if s != [] && IsSpace(s[0]) then 1 + LeadingSpaces(s[1..]) else 0
  }

  /**
   * The length of the match of `^\s*[^a-zA-Z_$]` at the start of `s`, 0 when it
   * does not match. `\s*` backtracks: when the leading spaces are followed by an
   * identifier start (or by nothing), the last space itself is the `[^a-zA-Z_$]`.
   */
  function LeadMatchLength(s: string): (m: nat)
    ensures m <= |s|
    ensures m == 0 <==> s == [] || IsIdentStart(s[0])
  {
    var k := LeadingSpaces(s);
    if k < |s| && !IsIdentStart(s[k]) then k + 1 else k
  }

  /** Every character outside `[a-zA-Z_$\d]` becomes a space. */
  function BlankOthers(s: string): (r: string)
    ensures |r| == |s|
  {
    seq(|s|, i requires 0 <= i < |s| => if IsIdentChar(s[i]) then s[i] else ' ')
  }

  /** Step 1: `replace(/(^\s*[^a-zA-Z_$])|([^a-zA-Z_$\d])/g, ' ')`. */
  function BlankUnsafe(s: string): string {
    var m := LeadMatchLength(s);
    if m > 0 then " " + BlankOthers(s[m..]) else BlankOthers(s)
  }

  /** Step 2: `replace(/^_[a-z]/g, upper-case)`: a leading `_x` becomes `_X`. */
  function CapitalizeLeadingUnderscore(s: string): string {
    if |s| >= 2 && s[0] == '_' && IsLower(s[1]) then [s[0], Upper(s[1])] + s[2..] else s
  }

  /** Step 3: `replace(/_[a-z]/g, m => m.substr(1).toUpperCase())`: `_x` becomes `X`. */
  function SnakeToCamel(s: string): string
    decreases |s|
  {
    if s == [] then []
    else if |s| >= 2 && s[0] == '_' && IsLower(s[1]) then [Upper(s[1])] + SnakeToCamel(s[2..])
    else [s[0]] + SnakeToCamel(s[1..])
  }

  /** The two runs after which steps 4 and 5 capitalise a letter: `[\d$]+` and `\s+`. */
  datatype RunClass = DigitOrDollar | Space

  predicate InRun(cls: RunClass, c: char) {
    match cls
    case DigitOrDollar => IsDigit(c) || c == '$'
    case Space => IsSpace(c)
  }

  lemma RunCharIsNoLetter(cls: RunClass, c: char)
    ensures InRun(cls, c) ==> !IsLetter(c) && Upper(c) == c
  {
  }

  /** The length of the longest run of `cls` characters that starts `s`. */
  function RunLength(s: string, cls: RunClass): (n: nat)
    ensures n <= |s|
    ensures forall i :: 0 <= i < n ==> InRun(cls, s[i])
    ensures n < |s| ==> !InRun(cls, s[n])
    decreases |s|
  {
    if s != [] && InRun(cls, s[0]) then 1 + RunLength(s[1..], cls) else 0
  }

  /**
   * The regular-expression engine's scan for steps 4 and 5:
   * `replace(/([\d$]+[a-zA-Z])/g, upper-case)` and `replace(/\s+([a-zA-Z])/g, upper-case)`.
   * At each position the greedy run is taken; if a letter follows, the whole match
   * is upper-cased (which changes only the letter) and the scan resumes after it,
   * otherwise it moves on by one.
   */
  function MatchRuns(s: string, cls: RunClass): string
    decreases |s|
  {
    if s == [] then []
    else
      var n := RunLength(s, cls);
      if n > 0 && n < |s| && IsLetter(s[n]) then s[..n] + [Upper(s[n])] + MatchRuns(s[n + 1..], cls)
      else [s[0]] + MatchRuns(s[1..], cls)
  }

  /**
   * Steps 4 and 5 as a one-pass scan: `afterRun` says whether the previous
   * character belongs to the run class, and a letter is upper-cased when it does.
   */
  function ScanRuns(s: string, cls: RunClass, afterRun: bool): (r: string)
    ensures |r| == |s|
    decreases |s|
  {
    if s == [] then []
    else [if afterRun && IsLetter(s[0]) then Upper(s[0]) else s[0]] + ScanRuns(s[1..], cls, InRun(cls, s[0]))
  }

  /** Steps 4 and 5 as the chain of replacements applies them; `MatchRunsIsScan` ties this to the regular-expression scan. */
  function UpperAfterRun(s: string, cls: RunClass): string {
    ScanRuns(s, cls, false)
  }

  /** Reference definition of steps 4 and 5: a letter right after a run character is upper-cased. */
  function UpperFollowers(s: string, cls: RunClass): (r: string)
    ensures |r| == |s|
  {
    seq(|s|, i requires 0 <= i < |s| =>
      if i > 0 && InRun(cls, s[i - 1]) && IsLetter(s[i]) then Upper(s[i]) else s[i])
  }

  /** Past position `m`, the reference definition of a suffix is the reference definition of the whole. */
  lemma FollowersOfSuffix(s: string, cls: RunClass, m: nat, i: nat)
    requires m <= i < |s|
    requires i == m && m > 0 ==> !InRun(cls, s[m - 1]) || !IsLetter(s[m])
    ensures UpperFollowers(s, cls)[i] == UpperFollowers(s[m..], cls)[i - m]
  {
    assert s[m..][i - m] == s[i];
    if i > m {
      assert s[m..][i - m - 1] == s[i - 1];
    }
  }

  /** The regular-expression scan of steps 4 and 5 agrees with the reference definition. */
  lemma {:induction false} MatchRunsIsPointwise(s: string, cls: RunClass)
    ensures MatchRuns(s, cls) == UpperFollowers(s, cls)
    decreases |s|
  {
    if s != [] {
      var n := RunLength(s, cls);
      if n > 0 && n < |s| && IsLetter(s[n]) {
        MatchRunsIsPointwise(s[n + 1..], cls);
        MatchCaseIsPointwise(s, cls, n);
      } else {
        MatchRunsIsPointwise(s[1..], cls);
        SkipCaseIsPointwise(s, cls, n);
      }
    }
  }

  lemma MatchCaseIsPointwise(s: string, cls: RunClass, n: nat)
    requires n == RunLength(s, cls) && 0 < n < |s| && IsLetter(s[n])
    requires MatchRuns(s[n + 1..], cls) == UpperFollowers(s[n + 1..], cls)
    ensures MatchRuns(s, cls) == UpperFollowers(s, cls)
  {
    var r := MatchRuns(s, cls);
    var f := UpperFollowers(s, cls);
    var ft := UpperFollowers(s[n + 1..], cls);
    assert r == s[..n] + [Upper(s[n])] + ft;
    forall i | 0 <= i < |s| ensures r[i] == f[i] {
      if i < n {
        assert r[i] == s[i];
        RunCharIsNoLetter(cls, s[i]);
      } else if i == n {
        assert r[i] == Upper(s[n]);
        assert InRun(cls, s[n - 1]);
      } else {
        assert r[i] == ft[i - n - 1];
        RunCharIsNoLetter(cls, s[n]);
        FollowersOfSuffix(s, cls, n + 1, i);
      }
    }
  }

  lemma SkipCaseIsPointwise(s: string, cls: RunClass, n: nat)
    requires s != [] && n == RunLength(s, cls) && !(n > 0 && n < |s| && IsLetter(s[n]))
    requires MatchRuns(s[1..], cls) == UpperFollowers(s[1..], cls)
    ensures MatchRuns(s, cls) == UpperFollowers(s, cls)
  {
    var r := MatchRuns(s, cls);
    var f := UpperFollowers(s, cls);
    var ft := UpperFollowers(s[1..], cls);
    assert r == [s[0]] + ft;
    forall i | 0 <= i < |s| ensures r[i] == f[i] {
      if i > 0 {
        assert r[i] == ft[i - 1];
        if i == 1 && InRun(cls, s[0]) && n >= 2 {
          RunCharIsNoLetter(cls, s[1]);
        }
        FollowersOfSuffix(s, cls, 1, i);
      }
    }
  }

  /** Each character of the one-pass scan depends only on it and on the character before it. */
  lemma {:induction false} ScanRunsAt(s: string, cls: RunClass, afterRun: bool, i: nat)
    requires i < |s|
    ensures ScanRuns(s, cls, afterRun)[i]
      == if (if i == 0 then afterRun else InRun(cls, s[i - 1])) && IsLetter(s[i]) then Upper(s[i]) else s[i]
    decreases i
  {
    if i > 0 {
      ScanRunsAt(s[1..], cls, InRun(cls, s[0]), i - 1);
      if i > 1 {
        assert s[1..][i - 2] == s[i - 1];
      }
    }
  }

  /** The one-pass scan agrees with the reference definition. */
  lemma UpperAfterRunIsPointwise(s: string, cls: RunClass)
    ensures UpperAfterRun(s, cls) == UpperFollowers(s, cls)
  {
    forall i | 0 <= i < |s| ensures UpperAfterRun(s, cls)[i] == UpperFollowers(s, cls)[i] {
      ScanRunsAt(s, cls, false, i);
    }
  }

  /** The regular-expression engine's scan and the one-pass scan compute the same text. */
  lemma MatchRunsIsScan(s: string, cls: RunClass)
    ensures MatchRuns(s, cls) == UpperAfterRun(s, cls)
  {
    MatchRunsIsPointwise(s, cls);
    UpperAfterRunIsPointwise(s, cls);
  }

  /** Step 6: `replace(/\s/g, '')`. */
  function RemoveSpaces(s: string): (r: string)
    ensures |r| <= |s|
    decreases |s|
  {
    if s == [] then []
    else if IsSpace(s[0]) then RemoveSpaces(s[1..])
    else [s[0]] + RemoveSpaces(s[1..])
  }

  /** No white space is left after step 6. */
  lemma {:induction false} RemoveSpacesLeavesNone(s: string)
    ensures forall i :: 0 <= i < |RemoveSpaces(s)| ==> !IsSpace(RemoveSpaces(s)[i])
    decreases |s|
  {
    if s != [] {
      RemoveSpacesLeavesNone(s[1..]);
    }
  }

  /** Step 7: `replace(/^[a-z]/, upper-case)`. */
  function CapitalizeFirst(s: string): string {
    if s != [] && IsLower(s[0]) then [Upper(s[0])] + s[1..] else s
  }

  /** `toSafeString` (src/util.ts and index.js define the same chain of replacements). */
  function ToSafeString(s: string): string {
    CapitalizeFirst(RemoveSpaces(UpperAfterRun(UpperAfterRun(
      SnakeToCamel(CapitalizeLeadingUnderscore(BlankUnsafe(s))), DigitOrDollar), Space)))
  }

  // ---------------------------------------------------------------------------
  // Properties of toSafeString

  /** Every character is an identifier character or white space. */
  predicate IdentOrSpace(s: string) {
    forall i :: 0 <= i < |s| ==> IsIdentChar(s[i]) || IsSpace(s[i])
  }

  predicate AllIdentChars(s: string) {
    forall i :: 0 <= i < |s| ==> IsIdentChar(s[i])
  }

  lemma {:induction false} SnakeToCamelKeeps(s: string)
    ensures |SnakeToCamel(s)| <= |s|
    ensures IdentOrSpace(s) ==> IdentOrSpace(SnakeToCamel(s))
    decreases |s|
  {
    if s == [] {
    } else if |s| >= 2 && s[0] == '_' && IsLower(s[1]) {
      SnakeToCamelKeeps(s[2..]);
      var t := SnakeToCamel(s[2..]);
      if IdentOrSpace(s) {
        assert IdentOrSpace(s[2..]) by {
          forall i | 0 <= i < |s[2..]| ensures IsIdentChar(s[2..][i]) || IsSpace(s[2..][i]) {
            assert s[2..][i] == s[i + 2];
          }
        }
        forall i | 0 <= i < |SnakeToCamel(s)| ensures IsIdentChar(SnakeToCamel(s)[i]) || IsSpace(SnakeToCamel(s)[i]) {
          if i > 0 {
            assert SnakeToCamel(s)[i] == t[i - 1];
          }
        }
      }
    } else {
      SnakeToCamelKeeps(s[1..]);
      var t := SnakeToCamel(s[1..]);
      if IdentOrSpace(s) {
        assert IdentOrSpace(s[1..]) by {
          forall i | 0 <= i < |s[1..]| ensures IsIdentChar(s[1..][i]) || IsSpace(s[1..][i]) {
            assert s[1..][i] == s[i + 1];
          }
        }
        forall i | 0 <= i < |SnakeToCamel(s)| ensures IsIdentChar(SnakeToCamel(s)[i]) || IsSpace(SnakeToCamel(s)[i]) {
          if i > 0 {
            assert SnakeToCamel(s)[i] == t[i - 1];
          }
        }
      }
    }
  }

  /** Deleting the white space of a text of identifier characters and white space leaves identifier characters. */
  lemma {:induction false} RemoveSpacesKeeps(s: string)
    requires IdentOrSpace(s)
    ensures AllIdentChars(RemoveSpaces(s))
    decreases |s|
  {
    if s != [] {
      assert IdentOrSpace(s[1..]) by {
        forall i | 0 <= i < |s[1..]| ensures IsIdentChar(s[1..][i]) || IsSpace(s[1..][i]) {
          assert s[1..][i] == s[i + 1];
        }
      }
      RemoveSpacesKeeps(s[1..]);
    }
  }

  lemma UpperKeepsIdentOrSpace(c: char)
    ensures IsIdentChar(c) || IsSpace(c) ==> IsIdentChar(Upper(c)) || IsSpace(Upper(c))
  {
  }

  lemma UpperAfterRunKeeps(s: string, cls: RunClass)
    ensures |UpperAfterRun(s, cls)| == |s|
    ensures IdentOrSpace(s) ==> IdentOrSpace(UpperAfterRun(s, cls))
  {
    UpperAfterRunIsPointwise(s, cls);
    var f := UpperFollowers(s, cls);
    if IdentOrSpace(s) {
      forall i | 0 <= i < |f| ensures IsIdentChar(f[i]) || IsSpace(f[i]) {
        UpperKeepsIdentOrSpace(s[i]);
      }
    }
  }

  lemma BlankUnsafeShape(s: string)
    ensures |BlankUnsafe(s)| <= |s|
    ensures IdentOrSpace(BlankUnsafe(s))
  {
  }

  /** The result is made of `[A-Za-z0-9_$]` only: no white space and no punctuation. */
  lemma SafeStringChars(s: string)
    ensures AllIdentChars(ToSafeString(s))
  {
    var s1 := BlankUnsafe(s);
    BlankUnsafeShape(s);
    var s2 := CapitalizeLeadingUnderscore(s1);
    assert IdentOrSpace(s2) by {
      if s2 != s1 {
        forall i | 0 <= i < |s2| ensures IsIdentChar(s2[i]) || IsSpace(s2[i]) {
          if i != 1 {
            assert s2[i] == s1[i];
          }
        }
      }
    }
    var s3 := SnakeToCamel(s2);
    SnakeToCamelKeeps(s2);
    var s4 := UpperAfterRun(s3, DigitOrDollar);
    UpperAfterRunKeeps(s3, DigitOrDollar);
    var s5 := UpperAfterRun(s4, Space);
    UpperAfterRunKeeps(s4, Space);
    var s6 := RemoveSpaces(s5);
    RemoveSpacesKeeps(s5);
    var s7 := CapitalizeFirst(s6);
    assert AllIdentChars(s7) by {
      if s7 != s6 {
        forall i | 0 <= i < |s7| ensures IsIdentChar(s7[i]) {
          if i > 0 {
            assert s7[i] == s6[i];
          }
        }
      }
    }
  }

  /** The result is never longer than the input and never starts with a lowercase letter. */
  lemma SafeStringShape(s: string)
    ensures |ToSafeString(s)| <= |s|
    ensures ToSafeString(s) != [] ==> !IsLower(ToSafeString(s)[0])
  {
    var s1 := BlankUnsafe(s);
    BlankUnsafeShape(s);
    var s3 := SnakeToCamel(CapitalizeLeadingUnderscore(s1));
    SnakeToCamelKeeps(CapitalizeLeadingUnderscore(s1));
    var s4 := UpperAfterRun(s3, DigitOrDollar);
    UpperAfterRunKeeps(s3, DigitOrDollar);
    UpperAfterRunKeeps(s4, Space);
  }

  lemma {:induction false} SnakeToCamelOfUnderscoreFree(s: string)
    requires forall i :: 0 <= i < |s| ==> s[i] != '_'
    ensures SnakeToCamel(s) == s
    decreases |s|
  {
    if s != [] {
      SnakeToCamelOfUnderscoreFree(s[1..]);
    }
  }

  lemma {:induction false} RemoveSpacesOfSpaceFree(s: string)
    requires forall i :: 0 <= i < |s| ==> !IsSpace(s[i])
    ensures RemoveSpaces(s) == s
    decreases |s|
  {
    if s != [] {
      RemoveSpacesOfSpaceFree(s[1..]);
    }
  }

  /** Without run characters, steps 4 and 5 change nothing. */
  lemma UpperAfterRunWithoutRuns(s: string, cls: RunClass)
    requires forall i :: 0 <= i < |s| ==> !InRun(cls, s[i])
    ensures UpperAfterRun(s, cls) == s
  {
    UpperAfterRunIsPointwise(s, cls);
    assert UpperFollowers(s, cls) == s;
  }

  lemma UpperAfterRunOfLetters(s: string, cls: RunClass)
    requires IsLetters(s)
    ensures UpperAfterRun(s, cls) == s
  {
    forall i | 0 <= i < |s| ensures !InRun(cls, s[i]) {
      RunCharIsNoLetter(cls, s[i]);
    }
    UpperAfterRunWithoutRuns(s, cls);
  }

  /** A name made of ASCII letters that starts with a capital is already safe: it is returned unchanged. */
  lemma PascalCaseIsFixpoint(s: string)
    requires IsLetters(s) && s != [] && IsUpper(s[0])
    ensures ToSafeString(s) == s
  {
    assert LeadMatchLength(s) == 0;
    assert BlankOthers(s) == s;
    assert CapitalizeLeadingUnderscore(s) == s;
    SnakeToCamelOfUnderscoreFree(s);
    UpperAfterRunOfLetters(s, DigitOrDollar);
    UpperAfterRunOfLetters(s, Space);
    RemoveSpacesOfSpaceFree(s);
  }

  // ---------------------------------------------------------------------------
  // removeImport

  const ImportOpen: string := "import(\""
  const ImportClose: string := "\")."

  /**
   * The length of the match of `import\("[^"]+"\)\.` at the start of `s`, if any:
   * `[^"]+` runs to the first quote, which must be followed by `).`.
   */
  function ImportMatchLength(s: string): (r: Option<nat>)
    ensures r.Some? ==> |ImportOpen| + 1 + |ImportClose| <= r.value <= |s|
  {
    if !(ImportOpen <= s) then None
    else
      var rest := s[|ImportOpen|..];
      match IndexOf(rest, '"')
      case None => None
      case Some(j) =>
        if j >= 1 && ImportClose <= rest[j..] then Some(|ImportOpen| + j + |ImportClose|) else None
  }

  /** `removeImport`: `replace(/import\("[^"]+"\)\./g, '')`. */
  function RemoveImport(s: string): (r: string)
    ensures |r| <= |s|
    decreases |s|
  {
    if s == [] then []
    else match ImportMatchLength(s)
      case Some(n) => RemoveImport(s[n..])
      case None => [s[0]] + RemoveImport(s[1..])
  }

  /** A text without `import("` is returned unchanged. */
  lemma {:induction false} RemoveImportIdentity(s: string)
    requires NoOccurrence(s, ImportOpen)
    ensures RemoveImport(s) == s
    decreases |s|
  {
    if s != [] {
      assert s[0..] == s;
      assert ImportMatchLength(s).None?;
      assert NoOccurrence(s[1..], ImportOpen) by {
        forall k | 0 <= k <= |s[1..]| ensures !(ImportOpen <= s[1..][k..]) {
          assert s[1..][k..] == s[k + 1..];
        }
      }
      RemoveImportIdentity(s[1..]);
    }
  }

  /** One qualifier `import("p").` with a non-empty, quote-free path is deleted entirely. */
  lemma RemoveImportDropsQualifier(p: string, t: string)
    requires p != [] && forall i :: 0 <= i < |p| ==> p[i] != '"'
    ensures RemoveImport(ImportOpen + p + ImportClose + t) == RemoveImport(t)
  {
    var s := ImportOpen + p + ImportClose + t;
    var rest := s[|ImportOpen|..];
    assert rest == p + ImportClose + t;
    assert rest[|p|] == '"';
    assert forall i :: 0 <= i < |p| ==> rest[i] == p[i];
    assert IndexOf(rest, '"') == Some(|p|);
    assert rest[|p|..] == ImportClose + t;
    assert ImportMatchLength(s) == Some(|ImportOpen| + |p| + |ImportClose|);
    assert s[|ImportOpen| + |p| + |ImportClose|..] == t;
  }

  /**
   * Text at whose positions no qualifier starts is copied as it is, and the
   * scan goes on after it: with `RemoveImportDropsQualifier` this is the whole
   * global, left-to-right replacement.
   */
  lemma {:induction false} RemoveImportKeepsPrefix(a: string, s: string)
    requires forall k :: 0 <= k < |a| ==> ImportMatchLength((a + s)[k..]).None?
    ensures RemoveImport(a + s) == a + RemoveImport(s)
    decreases |a|
  {
    if a != [] {
      assert (a + s)[0..] == a + s;
      assert (a + s)[1..] == a[1..] + s;
      forall k | 0 <= k < |a[1..]| ensures ImportMatchLength((a[1..] + s)[k..]).None? {
        assert (a[1..] + s)[k..] == (a + s)[k + 1..];
      }
      RemoveImportKeepsPrefix(a[1..], s);
      assert ImportMatchLength(a + s).None?;
      assert RemoveImport(a + s) == [a[0]] + RemoveImport(a[1..] + s);
      assert a == [a[0]] + a[1..];
    } else {
      assert a + s == s;
    }
  }

  /** No qualifier starts at a character other than `i`, or at an `i` not followed by `m`. */
  lemma NoImportAt(s: string)
    requires s == [] || s[0] != 'i' || (|s| > 1 && s[1] != 'm')
    ensures ImportMatchLength(s).None?
  {
  }

  // ---------------------------------------------------------------------------
  // removeGenerics

  /** `s[i]` is a `<` followed by a non-empty run of non-`>` characters closed by the `>` at `j`. */
  predicate ClosedAt(s: string, i: int, j: int) {
    0 <= i && i + 1 < j < |s| && s[i] == '<' && s[j] == '>'
    && forall k :: i < k < j ==> s[k] != '>'
  }

  /** The capture of `[^<]*<([^>]+)>` when the match starts at or after `i`. */
  function CaptureFrom(s: string, i: nat): (r: Option<string>)
    ensures r.Some? ==> i + |r.value| + 2 <= |s|
    decreases |s| - i
  {
    if i >= |s| then None
    else if s[i] == '<' && i + 1 < |s| && s[i + 1] != '>' then
      match IndexOf(s[i + 1..], '>')
      case Some(j) => Some(s[i + 1..i + 1 + j])
      case None => None
    else CaptureFrom(s, i + 1)
  }

  /** A capture is the inside of the first closed wrapper at or after `i`, and there is none when no wrapper is closed. */
  lemma {:induction false} CaptureFromSpec(s: string, i: nat)
    ensures CaptureFrom(s, i).Some? ==>
      exists a, b :: i <= a && ClosedAt(s, a, b) && CaptureFrom(s, i).value == s[a + 1..b]
    ensures CaptureFrom(s, i).None? ==> forall a, b :: i <= a ==> !ClosedAt(s, a, b)
    decreases |s| - i
  {
    if i < |s| {
      if s[i] == '<' && i + 1 < |s| && s[i + 1] != '>' {
        match IndexOf(s[i + 1..], '>')
        case Some(j) =>
          assert ClosedAt(s, i, i + 1 + j) by {
            forall k | i < k < i + 1 + j ensures s[k] != '>' {
              assert s[i + 1..][k - i - 1] == s[k];
            }
          }
        case None =>
          forall b | i + 1 <= b < |s| ensures s[b] != '>' {
            assert s[i + 1..][b - i - 1] == s[b];
          }
          CaptureFromSpec(s, i + 1);
      } else {
        CaptureFromSpec(s, i + 1);
      }
    }
  }

  /** A search that starts at a `<` opening a closed wrapper captures that wrapper. */
  lemma CaptureAtOpen(s: string, a: nat, b: nat)
    requires ClosedAt(s, a, b)
    ensures CaptureFrom(s, a) == Some(s[a + 1..b])
  {
    var j := b - a - 1;
    var t := s[a + 1..];
    assert t[j] == s[b];
    forall k | 0 <= k < j ensures t[k] != '>' {
      assert t[k] == s[a + 1 + k];
    }
    assert IndexOf(t, '>') == Some(j);
  }

  /** A search that starts at a character other than `<` moves on by one. */
  lemma CaptureSkip(s: string, i: nat)
    requires i < |s| && s[i] != '<'
    ensures CaptureFrom(s, i) == CaptureFrom(s, i + 1)
  {
  }

  /** The search settles on the first `<` that opens a closed wrapper. */
  lemma {:induction false} CaptureFromFirst(s: string, i: nat, a: nat, b: nat)
    requires i <= a && ClosedAt(s, a, b)
    requires forall k :: i <= k < a ==> s[k] != '<'
    ensures CaptureFrom(s, i) == Some(s[a + 1..b])
    decreases a - i
  {
    if i < a {
      CaptureFromFirst(s, i + 1, a, b);
      CaptureSkip(s, i);
    } else {
      CaptureAtOpen(s, a, b);
    }
  }

  /**
   * `GENERIC_WRAPPER_RE.exec(s)[1]`. The regular expression is unanchored, and
   * every start position up to the first `<` leads to that `<`, so trying the
   * `<` positions in order is the same search.
   */
  function WrapperCapture(s: string): (r: Option<string>)
    ensures r.Some? ==> |r.value| + 2 <= |s|
  {
    CaptureFrom(s, 0)
  }

  predicate HasWrapper(s: string) {
    exists i, j :: 0 <= i < j < |s| && ClosedAt(s, i, j)
  }

  /** The regular expression matches exactly when some `<` is followed by a non-empty run closed by `>`. */
  lemma WrapperCaptureIff(s: string)
    ensures WrapperCapture(s).Some? <==> HasWrapper(s)
  {
    CaptureFromSpec(s, 0);
  }

  /** What the loop of `removeGenerics` ends with: captures are taken until none is left. */
  function Unwrapped(s: string): (r: string)
    ensures !HasWrapper(r)
    ensures |r| <= |s|
    decreases |s|
  {
    match WrapperCapture(s)
    case None => WrapperCaptureIff(s); s
    case Some(c) => Unwrapped(c)
  }

  /** `removeGenerics`: peel the first `X<...>` wrapper while one is left. */
  method RemoveGenerics(s: string) returns (r: string)
    ensures r == Unwrapped(s)
    ensures !HasWrapper(r)
  {
    r := s;
    while WrapperCapture(r).Some?
      invariant Unwrapped(r) == Unwrapped(s)
      decreases |r|
    {
      var matches := WrapperCapture(r);
      if matches.Some? {
        r := matches.value;
      }
    }
  }

  /** A text without `<` is returned unchanged. */
  lemma UnwrappedWithoutAngle(s: string)
    requires forall i :: 0 <= i < |s| ==> s[i] != '<'
    ensures Unwrapped(s) == s
  {
    CaptureFromSpec(s, 0);
  }

  // ---------------------------------------------------------------------------
  // removeQuotes

  /** The length of the run of quote characters that starts `s`. */
  function QuoteRun(s: string): (n: nat)
    ensures n <= |s|
    ensures forall i :: 0 <= i < n ==> IsQuote(s[i])
    ensures n < |s| ==> !IsQuote(s[n])
    decreases |s|
  {
    if s != [] && IsQuote(s[0]) then 1 + QuoteRun(s[1..]) else 0
  }

  /** `^['"]+(.*)['"]+$` matches: quotes at both ends and no line terminator for `.` to stop at. */
  predicate Quoted(s: string) {
    |s| >= 2 && IsQuote(s[0]) && IsQuote(s[|s| - 1])
    && forall i :: 0 <= i < |s| ==> !IsLineTerminator(s[i])
  }

  /**
   * `removeQuotes`: the greedy leading `['"]+` takes every leading quote but the
   * one the trailing `['"]+` needs, and the greedy `(.*)` leaves that trailing
   * group exactly one character.
   */
  function RemoveQuotes(s: string): (r: string)
    ensures !Quoted(s) ==> r == s
    ensures Quoted(s) ==>
      exists lead :: 1 <= lead <= |s| - 1 && r == s[lead..|s| - 1]
        && (forall i :: 0 <= i < lead ==> IsQuote(s[i]))
        && (lead < |s| - 1 ==> !IsQuote(s[lead]))
  {
    if Quoted(s) then
      var lead := if QuoteRun(s) < |s| - 1 then QuoteRun(s) else |s| - 1;
      s[lead..|s| - 1]
    else s
  }

  /** Quoting a text that does not itself start with a quote and removing the quotes gives it back. */
  lemma RemoveQuotesRoundTrip(q1: char, x: string, q2: char)
    requires IsQuote(q1) && IsQuote(q2)
    requires x == [] || !IsQuote(x[0])
    requires forall i :: 0 <= i < |x| ==> !IsLineTerminator(x[i])
    ensures RemoveQuotes([q1] + x + [q2]) == x
  {
    var s := [q1] + x + [q2];
    assert Quoted(s);
    var lead :| 1 <= lead <= |s| - 1 && RemoveQuotes(s) == s[lead..|s| - 1]
      && (forall i :: 0 <= i < lead ==> IsQuote(s[i])) && (lead < |s| - 1 ==> !IsQuote(s[lead]));
    if x != [] {
      assert s[1] == x[0];
    }
    assert s[1..|s| - 1] == x;
  }
}
