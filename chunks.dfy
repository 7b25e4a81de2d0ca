/** Line-level processing of an LLM reply shared by the versions of the self-improvement engine:
    dropping noise lines, cutting the remaining lines into per-file chunks at a marker line,
    keeping the chunks a test accepts, and the regular expressions applied to chunk headers. */
module Chunks {
  import opened Wrappers
  import opened Text
  import opened Snapshot

  // ---------------------------------------------------------------------------------------------
  // Cleaning

  /** `line` is dropped by the cleaning step: stripped, it starts with one of `noise`
      (the alternatives of the pattern `^(...|...)` matched against `line.strip()`). */
  predicate IsNoise(line: string, noise: seq<string>) {
    exists p <- noise :: StartsWith(Strip(line), p)
  }

  /** The lines that are not noise, in their order. */
  function Clean(lines: seq<string>, noise: seq<string>): seq<string> {
    if lines == [] then []
    else (if IsNoise(lines[0], noise) then [] else [lines[0]]) + Clean(lines[1..], noise)
  }

  /** Cleaning works line by line: it distributes over concatenation. */
  lemma {:induction false} CleanAppend(a: seq<string>, b: seq<string>, noise: seq<string>)
    ensures Clean(a + b, noise) == Clean(a, noise) + Clean(b, noise)
  {
    if a == [] {
      assert a + b == b;
    } else {
      assert (a + b)[1..] == a[1..] + b;
      CleanAppend(a[1..], b, noise);
    }
  }

  /** A line survives cleaning exactly when it is not noise. */
  lemma {:induction false} CleanKeeps(lines: seq<string>, noise: seq<string>)
    ensures forall x :: x in Clean(lines, noise) <==> x in lines && !IsNoise(x, noise)
  {
    if lines != [] {
      CleanKeeps(lines[1..], noise);
      assert forall x :: x in lines <==> x == lines[0] || x in lines[1..];
    }
  }

  // ---------------------------------------------------------------------------------------------
  // Chunks

  /** The index of the first line that starts with `marker`, or `|lines|` when there is none. */
  function FirstMarker(lines: seq<string>, marker: string): (k: nat)
    ensures k <= |lines|
    ensures forall i :: 0 <= i < k ==> !StartsWith(lines[i], marker)
    ensures k < |lines| ==> StartsWith(lines[k], marker)
  {
    if lines == [] || StartsWith(lines[0], marker) then 0 else 1 + FirstMarker(lines[1..], marker)
  }

  /** The first marker line is determined by the marker lines around it. */
  lemma {:induction false} FirstMarkerIs(lines: seq<string>, marker: string, k: nat)
    requires k <= |lines|
    requires forall i :: 0 <= i < k ==> !StartsWith(lines[i], marker)
    requires k < |lines| ==> StartsWith(lines[k], marker)
    ensures FirstMarker(lines, marker) == k
  {
    if k > 0 {
      FirstMarkerIs(lines[1..], marker, k - 1);
    }
  }

  /** One chunk: a marker line followed by lines that are not marker lines. */
  predicate IsChunk(c: seq<string>, marker: string) {
    c != [] && StartsWith(c[0], marker) && forall i :: 1 <= i < |c| ==> !StartsWith(c[i], marker)
  }

  predicate WellChunked(cs: seq<seq<string>>, marker: string) {
    forall c <- cs :: IsChunk(c, marker)
  }

  /** The lines of the chunks, in order. */
  function Flatten(cs: seq<seq<string>>): seq<string> {
    if cs == [] then [] else cs[0] + Flatten(cs[1..])
  }

  lemma {:induction false} FlattenAppend(a: seq<seq<string>>, b: seq<seq<string>>)
    ensures Flatten(a + b) == Flatten(a) + Flatten(b)
  {
    if a == [] {
      assert a + b == b;
    } else {
      assert (a + b)[1..] == a[1..] + b;
      FlattenAppend(a[1..], b);
    }
  }

  /** The chunks of lines that start with a marker line: each marker line opens a chunk that runs
      up to the next marker line. */
  function ChunksFrom(lines: seq<string>, marker: string): seq<seq<string>>
    requires lines != [] && StartsWith(lines[0], marker)
    decreases |lines|
  {
    var n := 1 + FirstMarker(lines[1..], marker);
    [lines[..n]] + (if n == |lines| then [] else ChunksFrom(lines[n..], marker))
  }

  /** The chunks of `lines`: lines before the first marker line belong to no chunk. */
  function ChunksOf(lines: seq<string>, marker: string): seq<seq<string>> {
    var k := FirstMarker(lines, marker);
    if k == |lines| then [] else ChunksFrom(lines[k..], marker)
  }

  lemma FlattenCons(c: seq<string>, rest: seq<seq<string>>)
    ensures Flatten([c] + rest) == c + Flatten(rest)
  {
    assert ([c] + rest)[1..] == rest;
  }

  lemma WellChunkedCons(c: seq<string>, rest: seq<seq<string>>, marker: string)
    ensures WellChunked([c] + rest, marker) <==> IsChunk(c, marker) && WellChunked(rest, marker)
  {
    assert forall d :: d in [c] + rest <==> d == c || d in rest;
  }

  /** The first chunk of lines that start with a marker line is a chunk, and a marker line
      follows it unless it takes all the lines. */
  lemma FirstChunk(lines: seq<string>, marker: string)
    requires lines != [] && StartsWith(lines[0], marker)
    ensures 1 + FirstMarker(lines[1..], marker) <= |lines|
    ensures IsChunk(lines[..1 + FirstMarker(lines[1..], marker)], marker)
    ensures 1 + FirstMarker(lines[1..], marker) < |lines| ==>
      StartsWith(lines[1 + FirstMarker(lines[1..], marker)], marker)
  {
    var n := 1 + FirstMarker(lines[1..], marker);
    assert forall i :: 1 <= i < |lines| ==> lines[i] == lines[1..][i - 1];
  }

  lemma {:induction false} ChunksFromCover(lines: seq<string>, marker: string)
    requires lines != [] && StartsWith(lines[0], marker)
    ensures WellChunked(ChunksFrom(lines, marker), marker)
    ensures Flatten(ChunksFrom(lines, marker)) == lines
    decreases |lines|
  {
    var n := 1 + FirstMarker(lines[1..], marker);
    FirstChunk(lines, marker);
    var first := lines[..n];
    var rest := if n == |lines| then [] else ChunksFrom(lines[n..], marker);
    assert ChunksFrom(lines, marker) == [first] + rest;
    if n < |lines| {
      ChunksFromCover(lines[n..], marker);
    } else {
      assert lines[n..] == [];
    }
    assert WellChunked(rest, marker) && Flatten(rest) == lines[n..];
    WellChunkedCons(first, rest, marker);
    FlattenCons(first, rest);
    assert lines == first + lines[n..];
  }

  /** Splitting covers every line from the first marker line on, and every chunk is one marker
      line followed by the non-marker lines after it. */
  lemma ChunksCover(lines: seq<string>, marker: string)
    ensures WellChunked(ChunksOf(lines, marker), marker)
    ensures Flatten(ChunksOf(lines, marker)) == lines[FirstMarker(lines, marker)..]
  {
    var k := FirstMarker(lines, marker);
    if k < |lines| {
      ChunksFromCover(lines[k..], marker);
    }
  }

  /** The first chunk of concatenated chunks is found again by looking for the next marker line. */
  lemma ChunkBoundary(c: seq<string>, rest: seq<string>, marker: string)
    requires IsChunk(c, marker)
    requires rest != [] ==> StartsWith(rest[0], marker)
    ensures FirstMarker((c + rest)[1..], marker) == |c| - 1
  {
    var ys := (c + rest)[1..];
    assert forall i :: 0 <= i < |c| - 1 ==> ys[i] == c[i + 1];
    assert rest != [] ==> ys[|c| - 1] == rest[0];
    FirstMarkerIs(ys, marker, |c| - 1);
  }

  lemma SplitAt(c: seq<string>, rest: seq<string>)
    ensures (c + rest)[..|c|] == c && (c + rest)[|c|..] == rest
  {
  }

  /** There is only one way to cut lines into chunks. */
  lemma {:induction false} ChunkingUnique(cs: seq<seq<string>>, marker: string)
    requires cs != [] && WellChunked(cs, marker)
    ensures Flatten(cs) != [] && StartsWith(Flatten(cs)[0], marker)
    ensures cs == ChunksFrom(Flatten(cs), marker)
  {
    var c := cs[0];
    var rest := Flatten(cs[1..]);
    assert cs == [c] + cs[1..];
    WellChunkedCons(c, cs[1..], marker);
    FlattenCons(c, cs[1..]);
    if |cs| > 1 {
      ChunkingUnique(cs[1..], marker);
    }
    ChunkBoundary(c, rest, marker);
    SplitAt(c, rest);
  }

  /** The splitting loop of the engines: a marker line closes the chunk being built (if any) and
      opens a new one; any other line joins the chunk being built, or is dropped before the first
      marker line. */
  method SplitChunks(lines: seq<string>, marker: string) returns (chunks: seq<seq<string>>)
    ensures chunks == ChunksOf(lines, marker)
  {
    chunks := [];
    var current: seq<string> := [];
    for i := 0 to |lines|
      invariant Splitting(lines, marker, i, chunks, current)
    {
      var line := lines[i];
      if StartsWith(line, marker) {
        SplittingMarker(lines, marker, i, chunks, current);
        if current != [] {
          chunks := chunks + [current];
        }
        current := [line];
      } else if current != [] {
        SplittingBody(lines, marker, i, chunks, current);
        current := current + [line];
      } else {
        SplittingSkip(lines, marker, i, chunks, current);
      }
    }
    SplittingEnd(lines, marker, chunks, current);
    if current != [] {
      chunks := chunks + [current];
    }
  }

  /** The state of a splitting loop after `i` lines: `done` holds the closed chunks and `current`
      the chunk being built, and together they are the lines from the first marker line up to `i`. */
  ghost predicate Splitting(lines: seq<string>, marker: string, i: nat, done: seq<seq<string>>, current: seq<string>) {
    i <= |lines| && WellChunked(done, marker)
    && (current == [] ==> done == [] && i <= FirstMarker(lines, marker))
    && (current != [] ==>
          IsChunk(current, marker) && FirstMarker(lines, marker) < i
          && Flatten(done) + current == lines[FirstMarker(lines, marker)..i])
  }

  /** A marker line closes the chunk being built and opens a new one. */
  lemma SplittingMarker(lines: seq<string>, marker: string, i: nat, done: seq<seq<string>>, current: seq<string>)
    requires Splitting(lines, marker, i, done, current) && i < |lines| && StartsWith(lines[i], marker)
    ensures Splitting(lines, marker, i + 1, if current == [] then done else done + [current], [lines[i]])
  {
    var k := FirstMarker(lines, marker);
    if current == [] {
      assert k == i;
    } else {
      Close(done, current, marker);
      assert lines[k..i + 1] == lines[k..i] + [lines[i]];
    }
  }

  /** Any other line joins the chunk being built. */
  lemma SplittingBody(lines: seq<string>, marker: string, i: nat, done: seq<seq<string>>, current: seq<string>)
    requires Splitting(lines, marker, i, done, current) && i < |lines| && !StartsWith(lines[i], marker)
    requires current != []
    ensures Splitting(lines, marker, i + 1, done, current + [lines[i]])
  {
    var k := FirstMarker(lines, marker);
    assert lines[k..i + 1] == lines[k..i] + [lines[i]];
  }

  /** Before the first marker line, lines are dropped. */
  lemma SplittingSkip(lines: seq<string>, marker: string, i: nat, done: seq<seq<string>>, current: seq<string>)
    requires Splitting(lines, marker, i, done, current) && i < |lines| && !StartsWith(lines[i], marker)
    requires current == []
    ensures Splitting(lines, marker, i + 1, done, current)
  {
  }

  /** At the end, closing the chunk being built gives the chunks of the lines. */
  lemma SplittingEnd(lines: seq<string>, marker: string, done: seq<seq<string>>, current: seq<string>)
    requires Splitting(lines, marker, |lines|, done, current)
    ensures (if current == [] then done else done + [current]) == ChunksOf(lines, marker)
  {
    if current != [] {
      Close(done, current, marker);
      ChunkingUnique(done + [current], marker);
      assert lines[FirstMarker(lines, marker)..|lines|] == lines[FirstMarker(lines, marker)..];
    }
  }

  /** Closing the chunk being built keeps the chunks well formed and their lines in order. */
  lemma Close(chunks: seq<seq<string>>, current: seq<string>, marker: string)
    requires WellChunked(chunks, marker) && IsChunk(current, marker)
    ensures WellChunked(chunks + [current], marker)
    ensures Flatten(chunks + [current]) == Flatten(chunks) + current
  {
    FlattenAppend(chunks, [current]);
    FlattenCons(current, []);
    assert [current] + [] == [current];
    assert forall d :: d in chunks + [current] <==> d in chunks || d == current;
  }

  // ---------------------------------------------------------------------------------------------
  // Selection

  /** What `pick` keeps of the chunks, in order; `pick` answers `None` for a chunk it drops. */
  function Selected(chunks: seq<seq<string>>, pick: seq<string> -> Option<string>): seq<string> {
    if chunks == [] then []
    else (match pick(chunks[0]) case Some(s) => [s] case None => []) + Selected(chunks[1..], pick)
  }

  lemma {:induction false} SelectedAppend(a: seq<seq<string>>, b: seq<seq<string>>, pick: seq<string> -> Option<string>)
    ensures Selected(a + b, pick) == Selected(a, pick) + Selected(b, pick)
  {
    if a == [] {
      assert a + b == b;
    } else {
      assert (a + b)[1..] == a[1..] + b;
      SelectedAppend(a[1..], b, pick);
    }
  }

  /** Every kept text comes from a chunk `pick` accepted, and every accepted chunk is kept. */
  lemma {:induction false} SelectedKeeps(chunks: seq<seq<string>>, pick: seq<string> -> Option<string>)
    ensures forall s :: s in Selected(chunks, pick) <==> exists c :: c in chunks && pick(c) == Some(s)
  {
    if chunks != [] {
      SelectedKeeps(chunks[1..], pick);
      assert forall c :: c in chunks <==> c == chunks[0] || c in chunks[1..];
    }
  }

  /** The filtering loop of the engines: each chunk is tested and, when accepted, its text kept. */
  method SelectChunks(chunks: seq<seq<string>>, pick: seq<string> -> Option<string>) returns (kept: seq<string>)
    ensures kept == Selected(chunks, pick)
  {
    kept := [];
    for i := 0 to |chunks|
      invariant kept == Selected(chunks[..i], pick)
    {
      SelectedAppend(chunks[..i], [chunks[i]], pick);
      assert chunks[..i + 1] == chunks[..i] + [chunks[i]];
      match pick(chunks[i]) {
        case Some(s) => kept := kept + [s];
        case None =>
      }
    }
    assert chunks[..|chunks|] == chunks;
  }

  // ---------------------------------------------------------------------------------------------
  // Header patterns

  const GitHeader := "diff --git a/"

  /** `p` is what `re.match(r'diff --git a/(?P<path>app/.*\.py) b/', h)` may capture: a path under
      app/ ending in ".py", with `h` starting "diff --git a/<p> b/". */
  predicate HeaderNames(h: string, p: string) {
    StartsWith(p, "app/") && EndsWith(p, ".py") && StartsWith(h, GitHeader + p + " b/")
  }

  /** The same condition, by position: the captured path ends where ".py b/" occurs. */
  lemma HeaderNamesAt(h: string, p: string)
    ensures HeaderNames(h, p) <==>
      StartsWith(h, GitHeader + "app/") && |p| >= 7 && OccursAt(h, ".py b/", 10 + |p|) && p == h[13..13 + |p|]
  {
    if HeaderNames(h, p) {
      HeaderNamesPosition(h, p);
    }
    if StartsWith(h, GitHeader + "app/") && |p| >= 7 && OccursAt(h, ".py b/", 10 + |p|) && p == h[13..13 + |p|] {
      PositionNamesHeader(h, p);
    }
  }

  lemma HeaderNamesPosition(h: string, p: string)
    requires HeaderNames(h, p)
    ensures StartsWith(h, GitHeader + "app/") && |p| >= 7 && OccursAt(h, ".py b/", 10 + |p|) && p == h[13..13 + |p|]
  {
    var full := GitHeader + p + " b/";
    assert h[..|full|] == full;
    assert h[..13] == full[..13] == GitHeader;
    assert h[13..13 + |p|] == full[13..13 + |p|] == p;
    AppPathLength(p);
    assert h[13..17] == h[13..13 + |p|][..4] == p[..4];
    assert h[..17] == GitHeader + "app/";
    assert h[10 + |p|..13 + |p|] == p[|p| - 3..];
    assert h[13 + |p|..16 + |p|] == full[13 + |p|..];
    assert h[10 + |p|..16 + |p|] == h[10 + |p|..13 + |p|] + h[13 + |p|..16 + |p|];
  }

  /** A path that starts with "app/" and ends with ".py" has at least seven characters. */
  lemma AppPathLength(p: string)
    requires StartsWith(p, "app/") && EndsWith(p, ".py")
    ensures |p| >= 7
  {
    assert p[0] == 'a' && p[1] == 'p' && p[3] == '/';
    assert p[|p| - 3] == '.' && p[|p| - 2] == 'p';
  }

  lemma PositionNamesHeader(h: string, p: string)
    requires StartsWith(h, GitHeader + "app/") && |p| >= 7 && OccursAt(h, ".py b/", 10 + |p|) && p == h[13..13 + |p|]
    ensures HeaderNames(h, p)
  {
    var full := GitHeader + p + " b/";
    assert h[13..17] == (GitHeader + "app/")[13..17] == "app/";
    assert p[..4] == h[13..17];
    assert h[10 + |p|..13 + |p|] == h[10 + |p|..16 + |p|][..3] == ".py";
    assert p[|p| - 3..] == h[10 + |p|..13 + |p|];
    assert h[..|full|] == h[..13] + h[13..13 + |p|] + h[13 + |p|..16 + |p|];
  }

  /** The path `re.match(r'diff --git a/(?P<path>app/.*\.py) b/', h)` captures: the greedy `.*`
      makes it the longest possible one. */
  function MatchAppPath(h: string): (path: Option<string>)
    ensures path.Some? ==> HeaderNames(h, path.value)
    ensures path.Some? ==> forall p :: HeaderNames(h, p) ==> |p| <= |path.value|
    ensures path.None? ==> forall p :: !HeaderNames(h, p)
  {
    if !StartsWith(h, GitHeader + "app/") then
      (forall p | HeaderNames(h, p) ensures false { HeaderNamesAt(h, p); }
      None)
    else
      match FindLast(h, ".py b/", 17)
      case None =>
        (forall p | HeaderNames(h, p) ensures false { HeaderNamesAt(h, p); }
        None)
      case Some(j) =>
        var p := h[13..j + 3];
        HeaderNamesAt(h, p);
        (forall q | HeaderNames(h, q) ensures |q| <= |p| { HeaderNamesAt(h, q); }
        Some(p))
  }

  /** A match of `diff --git a/(app/.*\.py) b/(app/.*\.py)` starting at index `i` of `h`, with the
      first path ending at `j` (where ".py b/app/" occurs) and the second at `k` (where ".py" occurs). */
  predicate TwoAppPathsAt(h: string, i: nat, j: nat, k: nat) {
    OccursAt(h, GitHeader + "app/", i) && i + 17 <= j && OccursAt(h, ".py b/app/", j)
    && j + 10 <= k && OccursAt(h, ".py", k)
  }

  /** `re.search(r'diff --git a/(app/.*\.py) b/(app/.*\.py)', h)` finds a match. */
  function SearchTwoAppPaths(h: string): (found: bool)
  {
    match Find(h, GitHeader + "app/", 0)
    case None => false
    case Some(i) =>
      match Find(h, ".py b/app/", i + 17)
      case None => false
      case Some(j) => Find(h, ".py", j + 10).Some?
  }

  /** The search succeeds exactly when some match exists: taking the first start and the first
      middle loses none. */
  lemma SearchTwoAppPathsSound(h: string)
    ensures SearchTwoAppPaths(h) <==> exists i, j, k :: TwoAppPathsAt(h, i, j, k)
  {
    if SearchTwoAppPaths(h) {
      var i := Find(h, GitHeader + "app/", 0).value;
      var j := Find(h, ".py b/app/", i + 17).value;
      var k := Find(h, ".py", j + 10).value;
      assert TwoAppPathsAt(h, i, j, k);
    }
    if i, j, k :| TwoAppPathsAt(h, i, j, k) {
      var i0 := Find(h, GitHeader + "app/", 0);
      assert i0.Some? && i0.value <= i;
      var j0 := Find(h, ".py b/app/", i0.value + 17);
      assert j0.Some? && j0.value <= j;
      var k0 := Find(h, ".py", j0.value + 10);
      assert k0.Some?;
    }
  }

  // ---------------------------------------------------------------------------------------------
  // Paths

  /** `os.path.exists(p)` for a file path `p` relative to the working directory, whose app/
      directory holds `tree`. */
  predicate InApp(tree: Tree, p: string) {
    StartsWith(p, "app/") && p[4..] in tree
  }
}
