/** The engine saved in backups/snapshot_20250523_150435/self_improve.py. A cycle takes a new
    snapshot, asks the LLM for a diff given the Python files and the feature requests, normalises
    each chunk while splitting the cleaned reply (the header names its app/<...>.py path on both
    sides, each `---`/`+++` line names the last two segments of its own path), keeps the chunks
    whose header names an existing app/<...>.py path, and runs the result through `patch -p1` and
    the tests, restoring the snapshot when `patch` or the tests fail. A `---` or `+++` line with
    no path after it makes the cycle raise. */
module SelfImprove150435 {
  import opened Wrappers
  import opened Text
  import opened Snapshot
  import opened Chunks
  import opened Patching
  import opened CodeContext
  import opened Memory

  /** Lines whose stripped text starts with one of these are dropped. */
  const Noise := ["```", "#", "Note:"]
  /** Each chunk starts at a line starting with this. */
  const Marker := "diff --git "

  // ---------------------------------------------------------------------------------------------
  // Prompt

  const Instruction := "Based on the code above and the requested features, produce a unified diff "
    + "(GitHub style) that directly modifies or creates only the necessary Python files under app/. "
    + "Include pytest test files for all new functionality. "
    + "Output ONLY the diff text (no explanations, commentary, or code blocks)."

  /** The feature text: empty without feature requests. */
  function FeatureBlock(features: seq<Feature>): string {
    if features == [] then "" else "\nImplement these features:\n" + FeatureBullets(features)
  }

  function Prompt(tree: Tree, order: seq<string>, features: seq<Feature>): string {
    BeginEndContext(tree, order) + Instruction + FeatureBlock(features)
  }

  /** The prompt carries every visited Python file, with its path and whole content. */
  lemma PromptCarriesFile(tree: Tree, order: seq<string>, features: seq<Feature>, rel: string)
    requires rel in order && IsPyFile(tree, rel)
    ensures Contains(Prompt(tree, order, features), BeginEndBlock(tree, rel))
  {
    var context := BeginEndContext(tree, order);
    var rest := Instruction + FeatureBlock(features);
    ContextCarriesFile(tree, order, rel);
    ContainsInfix([], context, rest, BeginEndBlock(tree, rel));
    assert [] + context == context;
    assert context + rest == Prompt(tree, order, features);
  }

  /** The prompt lists every feature request; without any it ends with the instruction. */
  lemma PromptListsFeatures(tree: Tree, order: seq<string>, features: seq<Feature>)
    ensures forall i :: 0 <= i < |features| ==> Contains(Prompt(tree, order, features), "- " + FeatureText(features[i]))
    ensures features == [] ==> EndsWith(Prompt(tree, order, features), Instruction)
  {
    var before := BeginEndContext(tree, order) + Instruction;
    var block := FeatureBlock(features);
    forall i | 0 <= i < |features|
      ensures Contains(Prompt(tree, order, features), "- " + FeatureText(features[i]))
    {
      BulletsListFeature(features, i);
      ContainsInfix("\nImplement these features:\n", FeatureBullets(features), [], "- " + FeatureText(features[i]));
      assert "\nImplement these features:\n" + FeatureBullets(features) + [] == block;
      ContainsInfix(before, block, [], "- " + FeatureText(features[i]));
      assert before + block + [] == Prompt(tree, order, features);
    }
    if features == [] {
      assert Prompt(tree, order, features) == BeginEndContext(tree, order) + Instruction;
    }
  }

  // ---------------------------------------------------------------------------------------------
  // Normalising while splitting

  /** A marker line as it opens a chunk: when it names an app/<...>.py path, the same path on
      both sides; otherwise unchanged. */
  function NormHeader(line: string): string {
    match MatchAppPath(line)
    case Some(path) => GitHeader + path + " b/" + path
    case None => line
  }

  /** `xs[-2:]`. */
  function LastTwo(xs: seq<string>): (ys: seq<string>)
    ensures |ys| == if |xs| < 2 then |xs| else 2
    ensures ys == xs[|xs| - |ys|..]
  {
    if |xs| <= 2 then xs else xs[|xs| - 2..]
  }

  /** `"/".join(line.split()[1].split('/')[-2:])`: the last two segments of the second word of
      the line; `None` when the line has no second word (the indexing raises). */
  function SideTarget(line: string): Option<string> {
    var ws := Words(line);
    if |ws| < 2 then None else Some(Join(LastTwo(SplitOn(ws[1], '/')), "/"))
  }

  /** A body line of a chunk being built: `---` and `+++` lines name their target again; `None`
      when that raises. */
  function NormBody(line: string): Option<string> {
    if StartsWith(line, "--- ") then
      (match SideTarget(line) case Some(t) => Some("--- a/" + t) case None => None)
    else if StartsWith(line, "+++ ") then
      (match SideTarget(line) case Some(t) => Some("+++ b/" + t) case None => None)
    else Some(line)
  }

  /** A marker line never raises as a body line. */
  lemma MarkerLineNormalises(line: string)
    requires StartsWith(line, Marker)
    ensures NormBody(line) == Some(line)
  {
    assert line[0] == 'd';
  }

  function NormBodies(lines: seq<string>): seq<string> {
    seq(|lines|, i requires 0 <= i < |lines| => NormBody(lines[i]).GetOr(lines[i]))
  }

  /** A chunk of the cleaned reply as the splitting loop builds it. */
  function NormChunk(chunk: seq<string>): seq<string> {
    if chunk == [] then [] else [NormHeader(chunk[0])] + NormBodies(chunk[1..])
  }

  function NormChunks(chunks: seq<seq<string>>): seq<seq<string>> {
    seq(|chunks|, i requires 0 <= i < |chunks| => NormChunk(chunks[i]))
  }

  /** The splitting loop raises: some line from the first marker line on is a `---` or `+++`
      line with no second word. */
  predicate Raises(lines: seq<string>) {
    exists i :: FirstMarker(lines, Marker) <= i < |lines| && NormBody(lines[i]).None?
  }

  /** No line from `from` up to `i` raises. */
  ghost predicate BodiesNormalise(lines: seq<string>, from: nat, i: nat) {
    forall j :: from <= j < i && j < |lines| ==> NormBody(lines[j]).Some?
  }

  lemma BodiesNormaliseStep(lines: seq<string>, from: nat, i: nat)
    requires BodiesNormalise(lines, from, i) && i < |lines|
    requires i >= from ==> NormBody(lines[i]).Some?
    ensures BodiesNormalise(lines, from, i + 1)
  {
  }

  lemma RaisesAt(lines: seq<string>, i: nat)
    requires FirstMarker(lines, Marker) <= i < |lines| && NormBody(lines[i]).None?
    ensures Raises(lines)
  {
  }

  lemma BodiesNormaliseEnd(lines: seq<string>)
    requires BodiesNormalise(lines, FirstMarker(lines, Marker), |lines|)
    ensures !Raises(lines)
  {
  }

  /** A header naming an app/<...>.py path names it on both sides after normalisation. */
  lemma NormHeaderSameSides(line: string)
    requires MatchAppPath(line).Some?
    ensures var path := MatchAppPath(line).value;
      NormHeader(line) == GitHeader + path + " b/" + path && HeaderNames(NormHeader(line), path)
  {
    var path := MatchAppPath(line).value;
    var h := GitHeader + path + " b/" + path;
    assert h[..|GitHeader + path + " b/"|] == GitHeader + path + " b/";
  }

  /** No `/` occurs twice in `t`. */
  predicate AtMostOneSlash(t: string) {
    forall i, j :: 0 <= i < j < |t| && t[i] == '/' ==> t[j] != '/'
  }

  /** Two segments without `/`, joined by one. */
  lemma OneSlashBetween(a: string, b: string)
    requires forall k :: 0 <= k < |a| ==> a[k] != '/'
    requires forall k :: 0 <= k < |b| ==> b[k] != '/'
    ensures AtMostOneSlash(a + "/" + b)
  {
    var t := a + "/" + b;
    assert forall i :: 0 <= i < |a| ==> t[i] == a[i];
    assert forall i :: |a| < i < |t| ==> t[i] == b[i - |a| - 1];
  }

  /** The rewritten target holds at most one `/`: a file below a sub-directory of app/ is named
      without the app/ part. */
  lemma SideTargetOneSlash(line: string)
    requires SideTarget(line).Some?
    ensures AtMostOneSlash(SideTarget(line).value)
  {
    var segs := SplitOn(Words(line)[1], '/');
    var two := LastTwo(segs);
    if |segs| >= 2 {
      assert |two| == 2 && two[1..] == [two[1]];
      assert Join([two[1]], "/") == two[1];
      assert Join(two, "/") == two[0] + "/" + two[1];
      assert SideTarget(line).value == Join(two, "/");
      OneSlashBetween(two[0], two[1]);
    } else {
      assert SideTarget(line).value == segs[0];
    }
  }

  /** The rewritten target is a suffix of the path the line named. */
  lemma SideTargetIsSuffix(line: string)
    requires SideTarget(line).Some?
    ensures EndsWith(Words(line)[1], SideTarget(line).value)
  {
    var w := Words(line)[1];
    var segs := SplitOn(w, '/');
    var t := SideTarget(line).value;
    SplitOnJoin(w, '/');
    if |segs| > 2 {
      var n := |segs|;
      JoinAppend(segs[..n - 2], segs[n - 2..], "/");
      assert segs[..n - 2] + segs[n - 2..] == segs;
      assert w == Join(segs[..n - 2], "/") + "/" + t;
      assert w[|w| - |t|..] == t;
    }
  }

  lemma NormBodiesAppend(lines: seq<string>, line: string)
    ensures NormBodies(lines + [line]) == NormBodies(lines) + [NormBody(line).GetOr(line)]
  {
    var r := NormBodies(lines + [line]);
    assert |r| == |lines| + 1;
    assert forall k :: 0 <= k < |lines| ==> r[k] == NormBodies(lines)[k];
  }

  lemma NormChunkAppend(chunk: seq<string>, line: string)
    requires chunk != []
    ensures NormChunk(chunk + [line]) == NormChunk(chunk) + [NormBody(line).GetOr(line)]
  {
    var longer := chunk + [line];
    assert longer[1..] == chunk[1..] + [line];
    NormBodiesAppend(chunk[1..], line);
    assert NormChunk(longer) == [NormHeader(chunk[0])] + (NormBodies(chunk[1..]) + [NormBody(line).GetOr(line)]);
  }

  lemma NormChunksAppend(chunks: seq<seq<string>>, chunk: seq<string>)
    ensures NormChunks(chunks + [chunk]) == NormChunks(chunks) + [NormChunk(chunk)]
  {
  }

  /** The rewriting of a marker line. */
  method NormaliseHeader(line: string) returns (header: string)
    ensures header == NormHeader(line)
  {
    var m := MatchAppPath(line);
    if m.Some? {
      var path := m.value;
      header := GitHeader + path + " b/" + path;
    } else {
      header := line;
    }
  }

  /** The rewriting of one body line. */
  method NormaliseBodyLine(line: string) returns (r: Option<string>)
    ensures r == NormBody(line)
  {
    if StartsWith(line, "--- ") {
      var t := SideTarget(line);
      if t.None? {
        return None;
      }
      r := Some("--- a/" + t.value);
    } else if StartsWith(line, "+++ ") {
      var t := SideTarget(line);
      if t.None? {
        return None;
      }
      r := Some("+++ b/" + t.value);
    } else {
      r := Some(line);
    }
  }

  /** The state of the splitting loop after `i` lines: `done` and `current` are the closed
      chunks and the chunk being built, `rawDone` and `rawCurrent` the same before normalisation,
      and no line so far raised. */
  ghost predicate SplitState(lines: seq<string>, i: nat, done: seq<seq<string>>, current: seq<string>,
                             rawDone: seq<seq<string>>, rawCurrent: seq<string>) {
    Splitting(lines, Marker, i, rawDone, rawCurrent)
    && current == NormChunk(rawCurrent) && done == NormChunks(rawDone)
    && BodiesNormalise(lines, FirstMarker(lines, Marker), i)
  }

  lemma SplitStateMarker(lines: seq<string>, i: nat, done: seq<seq<string>>, current: seq<string>,
                         rawDone: seq<seq<string>>, rawCurrent: seq<string>)
    requires SplitState(lines, i, done, current, rawDone, rawCurrent)
    requires i < |lines| && StartsWith(lines[i], Marker)
    ensures current == [] <==> rawCurrent == []
    ensures SplitState(lines, i + 1, if current == [] then done else done + [current], [NormHeader(lines[i])],
                       if rawCurrent == [] then rawDone else rawDone + [rawCurrent], [lines[i]])
  {
    SplittingMarker(lines, Marker, i, rawDone, rawCurrent);
    MarkerLineNormalises(lines[i]);
    BodiesNormaliseStep(lines, FirstMarker(lines, Marker), i);
    NormChunksAppend(rawDone, rawCurrent);
  }

  lemma SplitStateBody(lines: seq<string>, i: nat, done: seq<seq<string>>, current: seq<string>,
                       rawDone: seq<seq<string>>, rawCurrent: seq<string>)
    requires SplitState(lines, i, done, current, rawDone, rawCurrent)
    requires i < |lines| && !StartsWith(lines[i], Marker) && current != []
    ensures NormBody(lines[i]).None? ==> Raises(lines)
    ensures NormBody(lines[i]).Some? ==>
      SplitState(lines, i + 1, done, current + [NormBody(lines[i]).value], rawDone, rawCurrent + [lines[i]])
  {
    SplittingBody(lines, Marker, i, rawDone, rawCurrent);
    NormChunkAppend(rawCurrent, lines[i]);
    if NormBody(lines[i]).None? {
      RaisesAt(lines, i);
    } else {
      BodiesNormaliseStep(lines, FirstMarker(lines, Marker), i);
    }
  }

  lemma SplitStateSkip(lines: seq<string>, i: nat, done: seq<seq<string>>, current: seq<string>,
                       rawDone: seq<seq<string>>, rawCurrent: seq<string>)
    requires SplitState(lines, i, done, current, rawDone, rawCurrent)
    requires i < |lines| && !StartsWith(lines[i], Marker) && current == []
    ensures SplitState(lines, i + 1, done, current, rawDone, rawCurrent)
  {
    SplittingSkip(lines, Marker, i, rawDone, rawCurrent);
    BodiesNormaliseStep(lines, FirstMarker(lines, Marker), i);
  }

  lemma SplitStateEnd(lines: seq<string>, done: seq<seq<string>>, current: seq<string>,
                      rawDone: seq<seq<string>>, rawCurrent: seq<string>)
    requires SplitState(lines, |lines|, done, current, rawDone, rawCurrent)
    ensures !Raises(lines)
    ensures (if current == [] then done else done + [current]) == NormChunks(ChunksOf(lines, Marker))
  {
    SplittingEnd(lines, Marker, rawDone, rawCurrent);
    BodiesNormaliseEnd(lines);
    NormChunksAppend(rawDone, rawCurrent);
  }

  /** Step "Normalize and split into diff chunks": `None` when it raises, otherwise the chunks of
      the cleaned reply, each normalised. */
  method SplitNormalise(lines: seq<string>) returns (r: Option<seq<seq<string>>>)
    ensures r.None? <==> Raises(lines)
    ensures r.Some? ==> r.value == NormChunks(ChunksOf(lines, Marker))
  {
    var chunks: seq<seq<string>> := [];
    var current: seq<string> := [];
    ghost var rawChunks: seq<seq<string>> := [];
    ghost var rawCurrent: seq<string> := [];
    for i := 0 to |lines|
      invariant SplitState(lines, i, chunks, current, rawChunks, rawCurrent)
    {
      var line := lines[i];
      if StartsWith(line, Marker) {
        SplitStateMarker(lines, i, chunks, current, rawChunks, rawCurrent);
        if current != [] {
          chunks := chunks + [current];
          rawChunks := rawChunks + [rawCurrent];
        }
        var header := NormaliseHeader(line);
        current := [header];
        rawCurrent := [line];
      } else if current != [] {
        SplitStateBody(lines, i, chunks, current, rawChunks, rawCurrent);
        var body := NormaliseBodyLine(line);
        if body.None? {
          return None;
        }
        current := current + [body.value];
        rawCurrent := rawCurrent + [line];
      } else {
        SplitStateSkip(lines, i, chunks, current, rawChunks, rawCurrent);
      }
    }
    SplitStateEnd(lines, chunks, current, rawChunks, rawCurrent);
    if current != [] {
      chunks := chunks + [current];
    }
    return Some(chunks);
  }

  // ---------------------------------------------------------------------------------------------
  // Filtering

  /** A normalised chunk is kept, joined with "\n", when its header names an app/<...>.py path
      that exists. */
  function Keep(tree: Tree, chunk: seq<string>): Option<string> {
    if chunk == [] then None
    else
      match MatchAppPath(chunk[0])
      case None => None
      case Some(path) => if InApp(tree, path) then Some(Join(chunk, "\n")) else None
  }

  function Pick(tree: Tree): seq<string> -> Option<string> {
    chunk => Keep(tree, chunk)
  }

  /** The diff text the cycle hands to `patch`; `None` when the splitting loop raises. */
  function Normalise(raw: string, tree: Tree): Option<string> {
    var lines := Clean(SplitLines(raw), Noise);
    if Raises(lines) then None
    else Some(Join(Selected(NormChunks(ChunksOf(lines, Marker)), Pick(tree)), "\n"))
  }

  /** The diff text is made of exactly the normalised chunks whose header names an existing
      app/<...>.py path; each such header names that path on both sides. */
  lemma NormaliseKeeps(raw: string, tree: Tree)
    requires !Raises(Clean(SplitLines(raw), Noise))
    ensures var chunks := NormChunks(ChunksOf(Clean(SplitLines(raw), Noise), Marker));
      forall piece :: piece in Selected(chunks, Pick(tree)) <==>
        exists c :: c in chunks && c != [] && MatchAppPath(c[0]).Some? && InApp(tree, MatchAppPath(c[0]).value)
          && piece == Join(c, "\n")
  {
    SelectedKeeps(NormChunks(ChunksOf(Clean(SplitLines(raw), Noise), Marker)), Pick(tree));
  }

  /** A kept piece is never empty: it starts with its header. */
  lemma {:induction false} KeptPiecesNonEmpty(chunks: seq<seq<string>>, tree: Tree)
    ensures Selected(chunks, Pick(tree)) != [] ==> Selected(chunks, Pick(tree))[0] != ""
  {
    if chunks != [] {
      var c := chunks[0];
      match Keep(tree, c) {
        case None => KeptPiecesNonEmpty(chunks[1..], tree);
        case Some(piece) =>
          JoinStartsWithFirst(c, "\n");
          assert HeaderNames(c[0], MatchAppPath(c[0]).value);
      }
    }
  }

  // ---------------------------------------------------------------------------------------------
  // The cycle

  /** One cycle from the tree it starts on: `None` when the LLM call or the splitting loop
      raises, otherwise the value returned; and the tree left behind. */
  function Cycle(tree: Tree, order: seq<string>, features: seq<Feature>, ask: Llm, shell: Shell): (Option<bool>, Tree) {
    match ask(Prompt(tree, order, features))
    case None => (None, tree)
    case Some(raw) =>
      match Normalise(raw, tree)
      case None => (None, tree)
      case Some(diff) =>
        if diff == "" then (Some(false), tree)
        else
          var (ok, after) := Transaction(diff, 1, tree, tree, shell);
          (Some(ok), after)
  }

  /** A cycle either succeeds, leaving the patched tree on which the tests pass, or leaves the
      tree it started from (also when it raises); a reply with no kept chunk never reaches
      `patch`. */
  lemma CycleAtomic(tree: Tree, order: seq<string>, features: seq<Feature>, ask: Llm, shell: Shell)
    ensures Cycle(tree, order, features, ask, shell).0 != Some(true) ==> Cycle(tree, order, features, ask, shell).1 == tree
    ensures Cycle(tree, order, features, ask, shell).0 == Some(true) ==>
      var diff := Normalise(ask(Prompt(tree, order, features)).value, tree).value;
      diff != "" && Cycle(tree, order, features, ask, shell).1 == shell.patch(1, diff, tree).1
      && shell.test(shell.patch(1, diff, tree).1) == 0
    ensures (ask(Prompt(tree, order, features)).Some? && Normalise(ask(Prompt(tree, order, features)).value, tree).Some?
      && Selected(NormChunks(ChunksOf(Clean(SplitLines(ask(Prompt(tree, order, features)).value), Noise), Marker)), Pick(tree)) == []) ==>
      Cycle(tree, order, features, ask, shell) == (Some(false), tree)
  {
    match ask(Prompt(tree, order, features)) {
      case None =>
      case Some(raw) =>
        match Normalise(raw, tree) {
          case None =>
          case Some(diff) =>
            var kept := Selected(NormChunks(ChunksOf(Clean(SplitLines(raw), Noise), Marker)), Pick(tree));
            if kept != [] {
              KeptPiecesNonEmpty(NormChunks(ChunksOf(Clean(SplitLines(raw), Noise), Marker)), tree);
              JoinStartsWithFirst(kept, "\n");
            }
            TransactionAtomic(diff, 1, tree, shell);
        }
    }
  }

  class SelfImproveEngine {
    /** The manager of the app/ directory and its backups/ directory. */
    const snapshot: SnapshotManager
    /** The shell command the tests run with. */
    const testCmd: string

    constructor (disk: Disk, testCmd: string)
      ensures snapshot.disk == disk && snapshot.srcDir == "app" && snapshot.backupDir == "backups"
      ensures this.testCmd == testCmd
    {
      snapshot := new SnapshotManager("app", "backups", disk);
      this.testCmd := testCmd;
    }

    /** `run_cycle`: `r` is `None` when the LLM call or the splitting loop raises. `order` is
        the walk order of app/, `stamp` and `mtime` the name stamp and modification time of the
        new snapshot. */
    method RunCycle(order: seq<string>, features: seq<Feature>, ask: Llm, shell: Shell,
                    stamp: string, mtime: int) returns (r: Option<bool>)
      requires snapshot.disk.src.Some?
      modifies snapshot.disk
      ensures r == Cycle(old(snapshot.disk.src).value, order, features, ask, shell).0
      ensures snapshot.disk.src == Some(Cycle(old(snapshot.disk.src).value, order, features, ask, shell).1)
      ensures exists name :: (name !in old(snapshot.disk.backups)
        && snapshot.disk.backups == old(snapshot.disk.backups)[name := Directory(old(snapshot.disk.src).value, mtime)])
    {
      var backup := snapshot.Create(stamp, mtime);
      var disk := snapshot.disk;
      var tree := disk.src.value;

      var context := GatherContext(tree, order);
      var prompt := context + Instruction + FeatureBlock(features);
      var reply := ask(prompt);
      if reply.None? {
        return None;
      }
      var lines := Clean(SplitLines(reply.value), Noise);
      var split := SplitNormalise(lines);
      if split.None? {
        return None;
      }
      var valid := SelectChunks(split.value, Pick(tree));
      var diffText := Join(valid, "\n");
      if diffText == "" {
        return Some(false);
      }
      var ok := ApplyWithRollback(disk, backup, diffText, 1, shell);
      return Some(ok);
    }
  }
}
