/** The handful of Python `str` operations the self-improvement loop relies on, written out on
    `seq<char>`: `isspace`, `strip`, `startswith`/`endswith`, `find`, `splitlines`, `split()`,
    `split(c)`, `join`, ASCII `lower` and `str(n)` for naturals. */
module Text {
  import opened Wrappers

  /** Python's `str.isspace()` on one character. */
  predicate IsSpace(c: char) {
    c == ' ' || '\t' <= c <= '\r' || '\U{1C}' <= c <= '\U{1F}' || c == '\U{85}' || c == '\U{A0}'
    || c == '\U{1680}' || '\U{2000}' <= c <= '\U{200A}' || c == '\U{2028}' || c == '\U{2029}'
    || c == '\U{202F}' || c == '\U{205F}' || c == '\U{3000}'
  }

  /** The characters at which Python's `str.splitlines()` ends a line ("\r\n" counts as one break). */
  predicate IsLineBreak(c: char) {
    '\n' <= c <= '\r' || '\U{1C}' <= c <= '\U{1E}' || c == '\U{85}' || c == '\U{2028}' || c == '\U{2029}'
  }

  predicate StartsWith(s: string, prefix: string) {
    |prefix| <= |s| && s[..|prefix|] == prefix
  }

  predicate EndsWith(s: string, suffix: string) {
    |suffix| <= |s| && s[|s| - |suffix|..] == suffix
  }

  /** `pat` occurs in `s` starting at index `i`. */
  predicate OccursAt(s: string, pat: string, i: nat) {
    i + |pat| <= |s| && s[i..i + |pat|] == pat
  }

  /** Python's `pat in s`. */
  predicate Contains(s: string, pat: string) {
    exists i :: 0 <= i <= |s| - |pat| && OccursAt(s, pat, i)
  }

  /** Python's `s.find(pat, start)`: the first occurrence at or after `start`. */
  function Find(s: string, pat: string, start: nat): (r: Option<nat>)
    decreases |s| - start
    ensures r.Some? ==> start <= r.value && OccursAt(s, pat, r.value)
    ensures forall i :: start <= i && (r.None? || i < r.value) ==> !OccursAt(s, pat, i)
  {
    if start + |pat| > |s| then None
    else if s[start..start + |pat|] == pat then Some(start)
    else Find(s, pat, start + 1)
  }

  /** The last occurrence of `pat` at or after `start` (where a greedy `.*` stops backtracking). */
  function FindLast(s: string, pat: string, start: nat): (r: Option<nat>)
    decreases |s| - start
    ensures r.Some? ==> start <= r.value && OccursAt(s, pat, r.value)
    ensures forall i :: start <= i && (r.None? || r.value < i) ==> !OccursAt(s, pat, i)
  {
    if start + |pat| > |s| then None
    else
      match FindLast(s, pat, start + 1)
      case Some(j) => Some(j)
      case None => if s[start..start + |pat|] == pat then Some(start) else None
  }

  lemma FindIsContains(s: string, pat: string)
    ensures Find(s, pat, 0).Some? <==> Contains(s, pat)
  {
    if Contains(s, pat) {
      var i :| 0 <= i <= |s| - |pat| && OccursAt(s, pat, i);
    }
  }

  /** The number of whitespace characters `s` starts with. */
  function LeadingSpace(s: string): (n: nat)
    ensures n <= |s|
    ensures forall k :: 0 <= k < n ==> IsSpace(s[k])
    ensures n < |s| ==> !IsSpace(s[n])
  {
    if s != [] && IsSpace(s[0]) then 1 + LeadingSpace(s[1..]) else 0
  }

  /** The number of whitespace characters `s` ends with. */
  function TrailingSpace(s: string): (n: nat)
    ensures n <= |s|
    ensures forall k :: |s| - n <= k < |s| ==> IsSpace(s[k])
    ensures n < |s| ==> !IsSpace(s[|s| - n - 1])
  {
    if s != [] && IsSpace(s[|s| - 1]) then 1 + TrailingSpace(s[..|s| - 1]) else 0
  }

  /** Python's `s.rstrip()`: `t` without its trailing whitespace. */
  function StripEnd(t: string): (r: string)
    ensures |r| <= |t| && t[..|r|] == r
    ensures forall k :: |r| <= k < |t| ==> IsSpace(t[k])
    ensures r != [] ==> !IsSpace(r[|r| - 1])
  {
    t[..|t| - TrailingSpace(t)]
  }

  /** Python's `s.strip()`: `s` without its leading and trailing whitespace. */
  function Strip(s: string): (r: string)
    ensures LeadingSpace(s) + |r| <= |s| && s[LeadingSpace(s)..LeadingSpace(s) + |r|] == r
    ensures forall k :: LeadingSpace(s) + |r| <= k < |s| ==> IsSpace(s[k])
    ensures r != [] ==> !IsSpace(r[0]) && !IsSpace(r[|r| - 1])
    ensures r == [] <==> forall k :: 0 <= k < |s| ==> IsSpace(s[k])
  {
    var i := LeadingSpace(s);
    var t := s[i..];
    var r := StripEnd(t);
    assert forall k :: i <= k < |s| ==> s[k] == t[k - i];
    assert r != [] ==> r[0] == s[i];
    r
  }

  /** A prefix of a prefix is a prefix. */
  lemma StartsWithTrans(s: string, p: string, q: string)
    requires StartsWith(s, p) && StartsWith(p, q)
    ensures StartsWith(s, q)
  {
    assert s[..|q|] == p[..|q|];
  }

  /** Stripping keeps a prefix that starts and ends with non-whitespace. */
  lemma StripKeepsPrefix(s: string, p: string)
    requires StartsWith(s, p) && p != [] && !IsSpace(p[0]) && !IsSpace(p[|p| - 1])
    ensures StartsWith(Strip(s), p)
  {
    assert s[0] == p[0];
    var r := Strip(s);
    assert LeadingSpace(s) == 0;
    assert s[|p| - 1] == p[|p| - 1];
    assert |p| <= |r|;
    assert r[..|p|] == s[..|p|];
  }

  lemma {:induction false} LeadingSpaceAppend(s: string, x: string)
    requires LeadingSpace(s) < |s|
    ensures LeadingSpace(s + x) == LeadingSpace(s)
  {
    if IsSpace(s[0]) {
      assert (s + x)[1..] == s[1..] + x;
      LeadingSpaceAppend(s[1..], x);
    }
  }

  lemma TrailingSpaceAppend(t: string, c: char)
    requires IsSpace(c)
    ensures TrailingSpace(t + [c]) == 1 + TrailingSpace(t)
  {
    assert (t + [c])[..|t|] == t;
  }

  /** Stripping ignores a trailing whitespace character. */
  lemma StripDropsTrailingSpace(s: string, c: char)
    requires IsSpace(c)
    ensures Strip(s + [c]) == Strip(s)
  {
    var s' := s + [c];
    var i := LeadingSpace(s);
    if i == |s| {
      assert forall k :: 0 <= k < |s'| ==> IsSpace(s'[k]);
      assert Strip(s) == [];
    } else {
      LeadingSpaceAppend(s, [c]);
      var t := s[i..];
      assert s'[i..] == t + [c];
      StripEndDropsSpace(t, c);
    }
  }

  lemma StripEndDropsSpace(t: string, c: char)
    requires IsSpace(c)
    ensures StripEnd(t + [c]) == StripEnd(t)
  {
    TrailingSpaceAppend(t, c);
    assert (t + [c])[..|t| - TrailingSpace(t)] == t[..|t| - TrailingSpace(t)];
  }

  /** Python's `sep.join(parts)`. */
  function Join(parts: seq<string>, sep: string): string
  {
    if parts == [] then ""
    else if |parts| == 1 then parts[0]
    else parts[0] + sep + Join(parts[1..], sep)
  }

  lemma {:induction false} JoinAppend(a: seq<string>, b: seq<string>, sep: string)
    requires a != [] && b != []
    ensures Join(a + b, sep) == Join(a, sep) + sep + Join(b, sep)
  {
    if |a| == 1 {
      assert (a + b)[1..] == b;
    } else {
      assert (a + b)[1..] == a[1..] + b;
      JoinAppend(a[1..], b, sep);
    }
  }

  /** A join starts with its first part. */
  lemma JoinStartsWithFirst(parts: seq<string>, sep: string)
    requires parts != []
    ensures StartsWith(Join(parts, sep), parts[0])
  {
    if |parts| > 1 {
      assert Join(parts, sep)[..|parts[0]|] == parts[0];
    }
  }

  lemma ContainsSelf(x: string)
    ensures Contains(x, x)
  {
    assert OccursAt(x, x, 0);
  }

  /** The middle of a text built from four pieces occurs in it. */
  lemma ContainsMiddle(a: string, b: string, c: string, d: string)
    ensures Contains(a + b + c + d, b + c)
  {
    ContainsSelf(b + c);
    ContainsInfix(a, b + c, d, b + c);
    assert a + (b + c) + d == a + b + c + d;
  }

  /** What occurs in a text occurs in the text extended on the right. */
  lemma ContainsLeft(a: string, b: string, x: string)
    requires Contains(a, x)
    ensures Contains(a + b, x)
  {
    var i :| 0 <= i <= |a| - |x| && OccursAt(a, x, i);
    assert (a + b)[i..i + |x|] == a[i..i + |x|];
    assert OccursAt(a + b, x, i);
  }

  /** What occurs in a text occurs in the text extended on the left. */
  lemma ContainsRight(a: string, b: string, x: string)
    requires Contains(b, x)
    ensures Contains(a + b, x)
  {
    var i :| 0 <= i <= |b| - |x| && OccursAt(b, x, i);
    assert (a + b)[|a| + i..|a| + i + |x|] == b[i..i + |x|];
    assert OccursAt(a + b, x, |a| + i);
  }

  /** What occurs in `b` occurs in any text that has `b` inside it. */
  lemma ContainsInfix(a: string, b: string, c: string, x: string)
    requires Contains(b, x)
    ensures Contains(a + b + c, x)
  {
    var i :| 0 <= i <= |b| - |x| && OccursAt(b, x, i);
    assert (a + b + c)[|a| + i..|a| + i + |x|] == b[i..i + |x|];
    assert OccursAt(a + b + c, x, |a| + i);
  }

  /** Every part occurs in the joined text. */
  lemma {:induction false} JoinContainsPart(parts: seq<string>, sep: string, i: nat)
    requires i < |parts|
    ensures Contains(Join(parts, sep), parts[i])
  {
    ContainsSelf(parts[i]);
    if |parts| > 1 {
      var rest := Join(parts[1..], sep);
      if i == 0 {
        ContainsInfix([], parts[0], sep + rest, parts[0]);
        assert [] + parts[0] + (sep + rest) == Join(parts, sep);
      } else {
        JoinContainsPart(parts[1..], sep, i - 1);
        ContainsInfix(parts[0] + sep, rest, [], parts[i]);
        assert parts[0] + sep + rest + [] == Join(parts, sep);
      }
    }
  }

  /** The index of the first line break in `s`, or `|s|` when there is none. */
  function LineEnd(s: string): (k: nat)
    ensures k <= |s|
    ensures forall j :: 0 <= j < k ==> !IsLineBreak(s[j])
    ensures k < |s| ==> IsLineBreak(s[k])
  {
    if s == [] || IsLineBreak(s[0]) then 0 else 1 + LineEnd(s[1..])
  }

  /** Python's `s.splitlines()`: the lines of `s` without their terminators; a final terminator does
      not open an empty last line and "\r\n" ends a single line. */
  function SplitLines(s: string): (lines: seq<string>)
    decreases |s|
  {
    if s == [] then []
    else
      var k := LineEnd(s);
      if k == |s| then [s] else [s[..k]] + SplitLines(NextLine(s))
  }

  /** What follows the first line and its terminator. */
  function NextLine(s: string): (rest: string)
    requires LineEnd(s) < |s|
    ensures |rest| < |s|
  {
    var k := LineEnd(s);
    s[k + BreakWidth(s, k)..]
  }

  /** The length of the line terminator at `k`: 2 for "\r\n", 1 otherwise. */
  function BreakWidth(s: string, k: nat): (w: nat)
    requires k < |s|
    ensures 1 <= w <= 2 && k + w <= |s|
    ensures s[k] == '\n' ==> w == 1
  {
    if s[k] == '\r' && k + 1 < |s| && s[k + 1] == '\n' then 2 else 1
  }

  /** A text whose only line terminator is "\n". */
  predicate UnixText(s: string) {
    forall k :: 0 <= k < |s| && IsLineBreak(s[k]) ==> s[k] == '\n'
  }

  lemma UnixTextSuffix(s: string, j: nat)
    requires UnixText(s) && j <= |s|
    ensures UnixText(s[j..])
  {
    var rest := s[j..];
    forall i | 0 <= i < |rest| && IsLineBreak(rest[i]) ensures rest[i] == '\n' {
      assert rest[i] == s[j + i];
    }
  }

  /** On "\n"-terminated text, `splitlines` cuts the first line at its "\n" and goes on after it. */
  lemma SplitLinesStep(s: string)
    requires s != [] && LineEnd(s) < |s| && s[LineEnd(s)] == '\n'
    ensures SplitLines(s) == [s[..LineEnd(s)]] + SplitLines(s[LineEnd(s) + 1..])
  {
    NextLineAfterNewline(s);
  }

  lemma NextLineAfterNewline(s: string)
    requires LineEnd(s) < |s| && s[LineEnd(s)] == '\n'
    ensures NextLine(s) == s[LineEnd(s) + 1..]
  {
  }

  /** `splitlines` and `"\n".join` undo each other on text whose only line break is "\n", up to
      one final "\n". */
  lemma {:induction false} SplitLinesJoin(s: string)
    requires UnixText(s)
    ensures Join(SplitLines(s), "\n") == if EndsWith(s, "\n") then s[..|s| - 1] else s
    decreases |s|
  {
    if s == [] {
    } else if LineEnd(s) == |s| {
      assert !IsLineBreak(s[|s| - 1]);
    } else {
      var k := LineEnd(s);
      assert s[k] == '\n';
      UnixTextSuffix(s, k + 1);
      SplitLinesJoin(s[k + 1..]);
      SplitLinesJoinStep(s, k);
    }
  }

  lemma SplitLinesJoinStep(s: string, k: nat)
    requires s != [] && k == LineEnd(s) < |s| && s[k] == '\n'
    requires var rest := s[k + 1..];
      Join(SplitLines(rest), "\n") == if EndsWith(rest, "\n") then rest[..|rest| - 1] else rest
    ensures Join(SplitLines(s), "\n") == if EndsWith(s, "\n") then s[..|s| - 1] else s
  {
    SplitLinesStep(s);
    if k + 1 == |s| {
      assert SplitLines(s) == [s[..k]] by {
        assert s[k + 1..] == [];
      }
      assert s[..|s| - 1] == s[..k];
    } else {
      CutAt(s, k);
      RejoinLine(s[..k], s[k + 1..], SplitLines(s[k + 1..]));
    }
  }

  lemma CutAt(s: string, k: nat)
    requires k < |s| && s[k] == '\n'
    ensures s == s[..k] + "\n" + s[k + 1..]
  {
  }

  lemma RejoinLine(line: string, rest: string, tail: seq<string>)
    requires rest != [] && tail != []
    requires Join(tail, "\n") == if EndsWith(rest, "\n") then rest[..|rest| - 1] else rest
    ensures var s := line + "\n" + rest;
      Join([line] + tail, "\n") == if EndsWith(s, "\n") then s[..|s| - 1] else s
  {
    JoinAppend([line], tail, "\n");
    var s := line + "\n" + rest;
    assert s[|s| - 1] == rest[|rest| - 1];
    if EndsWith(rest, "\n") {
      assert s[..|s| - 1] == line + "\n" + rest[..|rest| - 1];
    }
  }

  /** The length of the run of non-whitespace characters `s` starts with. */
  function WordLength(s: string): (n: nat)
    ensures n <= |s|
    ensures forall k :: 0 <= k < n ==> !IsSpace(s[k])
    ensures n < |s| ==> IsSpace(s[n])
  {
    if s != [] && !IsSpace(s[0]) then 1 + WordLength(s[1..]) else 0
  }

  /** A non-empty run of non-whitespace characters. */
  predicate IsWord(w: string) {
    w != [] && forall k :: 0 <= k < |w| ==> !IsSpace(w[k])
  }

  /** Python's `s.split()` with no argument: the maximal runs of non-whitespace characters. */
  function Words(s: string): (ws: seq<string>)
    decreases |s|
    ensures forall i :: 0 <= i < |ws| ==> IsWord(ws[i])
  {
    var i := LeadingSpace(s);
    if i == |s| then []
    else
      var rest := s[i..];
      var n := WordLength(rest);
      [rest[..n]] + Words(rest[n..])
  }

  /** The characters of `s` that are not whitespace, in order. */
  function NonSpace(s: string): string
  {
    if s == [] then [] else (if IsSpace(s[0]) then [] else [s[0]]) + NonSpace(s[1..])
  }

  lemma {:induction false} NonSpaceAppend(a: string, b: string)
    ensures NonSpace(a + b) == NonSpace(a) + NonSpace(b)
  {
    if a == [] {
      assert a + b == b;
    } else {
      assert (a + b)[0] == a[0];
      assert (a + b)[1..] == a[1..] + b;
      NonSpaceAppend(a[1..], b);
    }
  }

  lemma {:induction false} NonSpaceOfSpaces(s: string)
    requires forall k :: 0 <= k < |s| ==> IsSpace(s[k])
    ensures NonSpace(s) == []
  {
    if s != [] {
      NonSpaceOfSpaces(s[1..]);
    }
  }

  lemma {:induction false} NonSpaceOfWord(s: string)
    requires forall k :: 0 <= k < |s| ==> !IsSpace(s[k])
    ensures NonSpace(s) == s
  {
    if s != [] {
      NonSpaceOfWord(s[1..]);
    }
  }

  /** `split()` loses only whitespace: its words, concatenated, are the non-space characters of `s`. */
  lemma {:induction false} WordsCoverText(s: string)
    ensures Join(Words(s), "") == NonSpace(s)
    decreases |s|, 1
  {
    var i := LeadingSpace(s);
    assert s == s[..i] + s[i..];
    NonSpaceAppend(s[..i], s[i..]);
    NonSpaceOfSpaces(s[..i]);
    if i < |s| {
      WordsCoverFrom(s, i);
    }
  }

  /** The case of `WordsCoverText` where `s` is not blank: the first word runs from `i`. */
  lemma {:induction false} WordsCoverFrom(s: string, i: nat)
    requires i == LeadingSpace(s) < |s|
    ensures Join(Words(s), "") == NonSpace(s[i..])
    decreases |s|, 0
  {
    var rest := s[i..];
    var n := WordLength(rest);
    WordsFirst(s, i);
    WordThenRest(rest);
    WordsCoverText(rest[n..]);
    JoinCons(rest[..n], Words(rest[n..]));
  }

  /** One unfolding of `Words` on a text that is not blank. */
  lemma WordsFirst(s: string, i: nat)
    requires i == LeadingSpace(s) < |s|
    ensures Words(s) == [s[i..][..WordLength(s[i..])]] + Words(s[i..][WordLength(s[i..])..])
  {
  }

  /** The non-space characters of a text are its first word's, then those after it. */
  lemma WordThenRest(rest: string)
    ensures NonSpace(rest) == rest[..WordLength(rest)] + NonSpace(rest[WordLength(rest)..])
  {
    var n := WordLength(rest);
    assert rest == rest[..n] + rest[n..];
    NonSpaceAppend(rest[..n], rest[n..]);
    NonSpaceOfWord(rest[..n]);
  }

  lemma JoinCons(w: string, tail: seq<string>)
    ensures Join([w] + tail, "") == w + Join(tail, "")
  {
    if tail == [] {
      assert [w] + tail == [w];
    } else {
      assert ([w] + tail)[1..] == tail;
    }
  }



  /** Python's `s.split(sep)` for a one-character separator: empty pieces are kept. */
  function SplitOn(s: string, sep: char): (parts: seq<string>)
    decreases |s|
    ensures |parts| >= 1
    ensures forall i, k :: 0 <= i < |parts| && 0 <= k < |parts[i]| ==> parts[i][k] != sep
  {
    match Find(s, [sep], 0)
    case None =>
      assert forall k :: 0 <= k < |s| ==> s[k] != sep by {
        forall k | 0 <= k < |s| ensures s[k] != sep {
          assert !OccursAt(s, [sep], k);
        }
      }
      [s]
    case Some(k) =>
      assert forall j :: 0 <= j < k ==> s[j] != sep by {
        forall j | 0 <= j < k ensures s[j] != sep {
          assert !OccursAt(s, [sep], j);
        }
      }
      [s[..k]] + SplitOn(s[k + 1..], sep)
  }

  /** Joining the pieces of `s.split(sep)` with `sep` gives `s` back. */
  lemma {:induction false} SplitOnJoin(s: string, sep: char)
    ensures Join(SplitOn(s, sep), [sep]) == s
    decreases |s|
  {
    match Find(s, [sep], 0)
    case None =>
    case Some(k) =>
      SplitOnJoin(s[k + 1..], sep);
      JoinAppend([s[..k]], SplitOn(s[k + 1..], sep), [sep]);
      assert s == s[..k] + [sep] + s[k + 1..];
  }

  /** The ASCII letters upper-cased in `c` are lowered; every other character is kept. */
  function LowerChar(c: char): char {
    if 'A' <= c <= 'Z' then (c as int + 32) as char else c
  }

  /** Python's `s.lower()` restricted to ASCII letters. */
  function Lower(s: string): (r: string)
    ensures |r| == |s|
    ensures forall i :: 0 <= i < |s| ==> r[i] == LowerChar(s[i])
  {
    if s == [] then [] else [LowerChar(s[0])] + Lower(s[1..])
  }

  /** Python's `str(n)` for a natural number: its decimal digits, without leading zeros. */
  function NatToString(n: nat): (s: string)
    ensures 1 <= |s|
    ensures forall k :: 0 <= k < |s| ==> '0' <= s[k] <= '9'
    ensures |s| == 1 <==> n < 10
  {
    if n < 10 then ["0123456789"[n]]
    else NatToString(n / 10) + ["0123456789"[n % 10]]
  }

  /** Different numbers print differently. */
  lemma {:induction false} NatToStringInjective(a: nat, b: nat)
    requires NatToString(a) == NatToString(b)
    ensures a == b
  {
    var s := NatToString(a);
    if a >= 10 && b >= 10 {
      assert s[|s| - 1] == "0123456789"[a % 10] == "0123456789"[b % 10];
      assert a % 10 == b % 10;
      assert NatToString(a / 10) == s[..|s| - 1] == NatToString(b / 10);
      NatToStringInjective(a / 10, b / 10);
    } else if a < 10 && b < 10 {
      assert s[0] == "0123456789"[a] == "0123456789"[b];
    }
  }
}
