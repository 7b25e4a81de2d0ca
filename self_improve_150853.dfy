/** The engine saved in backups/snapshot_20250523_150853/self_improve.py. A cycle takes a new
    snapshot, asks the LLM for a diff given the Python files and the feature requests, keeps the
    chunks whose header names an existing app/<...>.py path, rewrites their header and their
    `---`/`+++` lines to name that path, and runs the result through `patch -p1` and the tests,
    restoring the snapshot when `patch` or the tests fail. */
module SelfImprove150853 {
  import opened Wrappers
  import opened Text
  import opened Snapshot
  import opened Chunks
  import opened Patching
  import opened CodeContext
  import opened Memory

  /** Lines whose stripped text starts with one of these are dropped. */
  const Noise := ["```", "#", "Note:"]
  /** Each chunk starts at a line starting with this (no space after it). */
  const Marker := "diff --git"

  // ---------------------------------------------------------------------------------------------
  // Prompt

  const Instruction := "\nBased on the code above and the requested features, generate i) only a "
    + "unified diff in GitHub style that modifies or creates necessary Python modules under app/, "
    + "including corresponding pytest tests; ii) do not include any commentary, explanations, or "
    + "markdown fences.\n"

  /** The feature block: empty without feature requests. */
  function FeatureBlock(features: seq<Feature>): string {
    if features == [] then "" else "Implement these features:\n" + FeatureBullets(features) + "\n"
  }

  function Prompt(tree: Tree, order: seq<string>, features: seq<Feature>): string {
    BeginEndContext(tree, order) + Instruction + FeatureBlock(features)
  }

  /** The prompt carries every visited Python file, with its path and whole content. */
  lemma PromptCarriesFile(tree: Tree, order: seq<string>, features: seq<Feature>, rel: string)
    requires rel in order && IsPyFile(tree, rel)
    ensures Contains(Prompt(tree, order, features), BeginEndBlock(tree, rel))
  {
    var context := BeginEndContext(tree, order);
    var rest := Instruction + FeatureBlock(features);
    ContextCarriesFile(tree, order, rel);
    ContainsInfix([], context, rest, BeginEndBlock(tree, rel));
    assert [] + context == context;
    assert context + rest == Prompt(tree, order, features);
  }

  /** The prompt lists every feature request; without any it ends with the instruction. */
  lemma PromptListsFeatures(tree: Tree, order: seq<string>, features: seq<Feature>)
    ensures forall i :: 0 <= i < |features| ==> Contains(Prompt(tree, order, features), "- " + FeatureText(features[i]))
    ensures features == [] ==> EndsWith(Prompt(tree, order, features), Instruction)
  {
    var before := BeginEndContext(tree, order) + Instruction;
    var block := FeatureBlock(features);
    forall i | 0 <= i < |features|
      ensures Contains(Prompt(tree, order, features), "- " + FeatureText(features[i]))
    {
      BulletsListFeature(features, i);
      ContainsInfix("Implement these features:\n", FeatureBullets(features), "\n", "- " + FeatureText(features[i]));
      ContainsInfix(before, block, [], "- " + FeatureText(features[i]));
      assert before + block + [] == Prompt(tree, order, features);
    }
    if features == [] {
      assert Prompt(tree, order, features) == BeginEndContext(tree, order) + Instruction;
    }
  }

  // ---------------------------------------------------------------------------------------------
  // Normalising a chunk

  /** The header a kept chunk receives. */
  function Header(path: string): string {
    GitHeader + path + " b/" + path
  }

  /** The new header is not mistaken for a `---` or `+++` line. */
  lemma HeaderIsNoFileLine(path: string)
    ensures !StartsWith(Header(path), "--- ") && !StartsWith(Header(path), "+++ ")
  {
    assert Header(path)[0] == 'd';
  }

  /** A body line of a kept chunk: the `---` and `+++` lines are replaced by lines naming `path`. */
  function RewriteLine(line: string, path: string): string {
    if StartsWith(line, "--- ") then "--- a/" + path
    else if StartsWith(line, "+++ ") then "+++ b/" + path
    else line
  }

  /** A kept chunk after normalisation: the new header, then each line rewritten. */
  function Normalised(chunk: seq<string>, path: string): seq<string>
    requires chunk != []
  {
    seq(|chunk|, i requires 0 <= i < |chunk| => if i == 0 then Header(path) else RewriteLine(chunk[i], path))
  }

  /** After normalisation the header and every `---`/`+++` line name the one path the header
      matched; the other lines are kept as they were, and so are the number and place of the
      `---` and `+++` lines. */
  lemma NormalisedNamesOnePath(chunk: seq<string>, path: string)
    requires chunk != []
    ensures |Normalised(chunk, path)| == |chunk|
    ensures Normalised(chunk, path)[0] == GitHeader + path + " b/" + path
    ensures forall i :: 1 <= i < |chunk| ==>
      (StartsWith(Normalised(chunk, path)[i], "--- ") <==> StartsWith(chunk[i], "--- "))
      && (StartsWith(chunk[i], "--- ") ==> Normalised(chunk, path)[i] == "--- a/" + path)
    ensures forall i :: 1 <= i < |chunk| ==>
      (StartsWith(Normalised(chunk, path)[i], "+++ ") <==> StartsWith(chunk[i], "+++ "))
      && (StartsWith(chunk[i], "+++ ") ==> Normalised(chunk, path)[i] == "+++ b/" + path)
    ensures forall i :: 1 <= i < |chunk| && !StartsWith(chunk[i], "--- ") && !StartsWith(chunk[i], "+++ ") ==>
      Normalised(chunk, path)[i] == chunk[i]
  {
    var out := Normalised(chunk, path);
    assert out[0] == Header(path);
    forall i | 1 <= i < |chunk|
      ensures StartsWith(out[i], "--- ") <==> StartsWith(chunk[i], "--- ")
      ensures StartsWith(out[i], "+++ ") <==> StartsWith(chunk[i], "+++ ")
    {
      var a := "--- a/" + path;
      var b := "+++ b/" + path;
      assert a[..4] == "--- " && b[..4] == "+++ ";
    }
  }

  /** Steps "normalize header paths" and "normalize --- +++ lines", in place on the chunk. */
  method NormaliseChunk(chunk: array<string>, path: string)
    requires chunk.Length > 0
    modifies chunk
    ensures chunk[..] == Normalised(old(chunk[..]), path)
  {
    ghost var original := chunk[..];
    chunk[0] := GitHeader + path + " b/" + path;
    for i := 0 to chunk.Length
      invariant forall j :: 0 <= j < i ==> chunk[j] == Normalised(original, path)[j]
      invariant forall j :: i <= j < chunk.Length ==> chunk[j] == if j == 0 then Header(path) else original[j]
    {
      var line := chunk[i];
      if i == 0 {
        HeaderIsNoFileLine(path);
      }
      if StartsWith(line, "--- ") {
        chunk[i] := "--- a/" + path;
      }
      if StartsWith(line, "+++ ") {
        chunk[i] := "+++ b/" + path;
      }
    }
  }

  // ---------------------------------------------------------------------------------------------
  // Filtering

  /** A chunk is kept when its header names an app/<...>.py path that exists; it is kept
      normalised and joined with "\n". */
  function Keep(tree: Tree, chunk: seq<string>): Option<string> {
    if chunk == [] then None
    else
      match MatchAppPath(chunk[0])
      case None => None
      case Some(path) => if InApp(tree, path) then Some(Join(Normalised(chunk, path), "\n")) else None
  }

  function Pick(tree: Tree): seq<string> -> Option<string> {
    chunk => Keep(tree, chunk)
  }

  /** The test and normalisation of one chunk: its text when kept, normalised in an array. */
  method KeepChunk(tree: Tree, chunk: seq<string>) returns (r: Option<string>)
    requires chunk != []
    ensures r == Keep(tree, chunk)
  {
    var m := MatchAppPath(chunk[0]);
    if m.None? || !InApp(tree, m.value) {
      return None;
    }
    var path := m.value;
    var a := new string[|chunk|](i requires 0 <= i < |chunk| => chunk[i]);
    assert a[..] == chunk;
    NormaliseChunk(a, path);
    return Some(Join(a[..], "\n"));
  }

  /** The filtering loop. */
  method FilterChunks(chunks: seq<seq<string>>, tree: Tree) returns (valid: seq<string>)
    requires forall c <- chunks :: c != []
    ensures valid == Selected(chunks, Pick(tree))
  {
    valid := [];
    for n := 0 to |chunks|
      invariant valid == Selected(chunks[..n], Pick(tree))
    {
      var c := chunks[n];
      SelectedAppend(chunks[..n], [c], Pick(tree));
      assert chunks[..n + 1] == chunks[..n] + [c];
      assert c in chunks;
      var r := KeepChunk(tree, c);
      assert Selected([c], Pick(tree)) == if r.Some? then [r.value] else [];
      if r.Some? {
        valid := valid + [r.value];
      }
    }
    assert chunks[..|chunks|] == chunks;
  }

  /** The chunks of the cleaned reply. */
  function ReplyChunks(raw: string): seq<seq<string>> {
    ChunksOf(Clean(SplitLines(raw), Noise), Marker)
  }

  /** The diff text the cycle hands to `patch`. */
  function Normalise(raw: string, tree: Tree): string {
    Join(Selected(ReplyChunks(raw), Pick(tree)), "\n")
  }

  /** Every piece of the diff text is a chunk of the reply whose header names an existing
      app/<...>.py path, normalised to that path; and every such chunk contributes its piece. */
  lemma NormaliseKeeps(raw: string, tree: Tree)
    ensures forall piece :: piece in Selected(ReplyChunks(raw), Pick(tree)) <==>
      exists c, path :: c in ReplyChunks(raw) && c != [] && MatchAppPath(c[0]) == Some(path) && InApp(tree, path)
        && piece == Join(Normalised(c, path), "\n")
  {
    var cs := ReplyChunks(raw);
    ChunksCover(Clean(SplitLines(raw), Noise), Marker);
    forall c | c in cs ensures c != [] {
      assert IsChunk(c, Marker);
    }
    SelectedKeeps(cs, Pick(tree));
  }

  /** A kept piece is never empty: it starts with its header. */
  lemma {:induction false} KeptPiecesNonEmpty(chunks: seq<seq<string>>, tree: Tree)
    ensures Selected(chunks, Pick(tree)) != [] ==> Selected(chunks, Pick(tree))[0] != ""
  {
    if chunks != [] {
      var c := chunks[0];
      match Keep(tree, c) {
        case None => KeptPiecesNonEmpty(chunks[1..], tree);
        case Some(piece) =>
          var path := MatchAppPath(c[0]).value;
          JoinStartsWithFirst(Normalised(c, path), "\n");
          assert Normalised(c, path)[0] == Header(path);
      }
    }
  }

  /** The diff text is empty exactly when no chunk is kept. */
  lemma EmptyIffNoneKept(raw: string, tree: Tree)
    ensures Normalise(raw, tree) == "" <==> Selected(ReplyChunks(raw), Pick(tree)) == []
  {
    var kept := Selected(ReplyChunks(raw), Pick(tree));
    if kept != [] {
      KeptPiecesNonEmpty(ReplyChunks(raw), tree);
      JoinStartsWithFirst(kept, "\n");
    }
  }

  // ---------------------------------------------------------------------------------------------
  // The cycle

  /** One cycle from the tree it starts on: `None` when the LLM call raises, otherwise the value
      returned; and the tree left behind. */
  function Cycle(tree: Tree, order: seq<string>, features: seq<Feature>, ask: Llm, shell: Shell): (Option<bool>, Tree) {
    match ask(Prompt(tree, order, features))
    case None => (None, tree)
    case Some(raw) =>
      var diff := Normalise(raw, tree);
      if diff == "" then (Some(false), tree)
      else
        var (ok, after) := Transaction(diff, 1, tree, tree, shell);
        (Some(ok), after)
  }

  /** A cycle either succeeds, leaving the patched tree on which the tests pass, or leaves the
      tree it started from; a reply with no kept chunk never reaches `patch`. */
  lemma CycleAtomic(tree: Tree, order: seq<string>, features: seq<Feature>, ask: Llm, shell: Shell)
    ensures Cycle(tree, order, features, ask, shell).0 != Some(true) ==> Cycle(tree, order, features, ask, shell).1 == tree
    ensures Cycle(tree, order, features, ask, shell).0 == Some(true) ==>
      var diff := Normalise(ask(Prompt(tree, order, features)).value, tree);
      diff != "" && Cycle(tree, order, features, ask, shell).1 == shell.patch(1, diff, tree).1
      && shell.test(shell.patch(1, diff, tree).1) == 0
    ensures (ask(Prompt(tree, order, features)).Some?
      && Selected(ReplyChunks(ask(Prompt(tree, order, features)).value), Pick(tree)) == []) ==>
      Cycle(tree, order, features, ask, shell) == (Some(false), tree)
  {
    match ask(Prompt(tree, order, features)) {
      case None =>
      case Some(raw) =>
        EmptyIffNoneKept(raw, tree);
        TransactionAtomic(Normalise(raw, tree), 1, tree, shell);
    }
  }

  class SelfImproveEngine {
    /** The manager of the app/ directory and its backups/ directory. */
    const snapshot: SnapshotManager
    /** The shell command the tests run with. */
    const testCmd: string

    constructor (disk: Disk, testCmd: string)
      ensures snapshot.disk == disk && snapshot.srcDir == "app" && snapshot.backupDir == "backups"
      ensures this.testCmd == testCmd
    {
      snapshot := new SnapshotManager("app", "backups", disk);
      this.testCmd := testCmd;
    }

    /** `run_cycle`: `r` is `None` when the LLM call raises. `order` is the walk order of app/,
        `stamp` and `mtime` the name stamp and modification time of the new snapshot. */
    method RunCycle(order: seq<string>, features: seq<Feature>, ask: Llm, shell: Shell,
                    stamp: string, mtime: int) returns (r: Option<bool>)
      requires snapshot.disk.src.Some?
      modifies snapshot.disk
      ensures r == Cycle(old(snapshot.disk.src).value, order, features, ask, shell).0
      ensures snapshot.disk.src == Some(Cycle(old(snapshot.disk.src).value, order, features, ask, shell).1)
      ensures exists name :: (name !in old(snapshot.disk.backups)
        && snapshot.disk.backups == old(snapshot.disk.backups)[name := Directory(old(snapshot.disk.src).value, mtime)])
    {
      var backup := snapshot.Create(stamp, mtime);
      var disk := snapshot.disk;
      var tree := disk.src.value;

      var context := GatherContext(tree, order);
      var prompt := context + Instruction + FeatureBlock(features);
      var reply := ask(prompt);
      if reply.None? {
        return None;
      }
      var lines := Clean(SplitLines(reply.value), Noise);
      var chunks := SplitChunks(lines, Marker);
      ChunksCover(lines, Marker);
      forall c | c in chunks ensures c != [] {
        assert IsChunk(c, Marker);
      }
      var valid := FilterChunks(chunks, tree);
      var diffText := Join(valid, "\n");
      if diffText == "" {
        return Some(false);
      }
      var ok := ApplyWithRollback(disk, backup, diffText, 1, shell);
      return Some(ok);
    }
  }
}
