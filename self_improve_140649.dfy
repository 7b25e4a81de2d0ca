/** The engine saved in backups/snapshot_20250523_140649/self_improve.py. A cycle takes a new
    snapshot, asks the LLM for a diff with a fixed prompt, drops fence and comment lines, keeps
    everything from the first line that looks like the header of a Python diff, and runs the
    stripped result through `patch` (with strip level 1 when it starts with `diff `, 0 otherwise)
    and the tests, restoring the snapshot when `patch` or the tests fail. */
module SelfImprove140649 {
  import opened Wrappers
  import opened Text
  import opened Snapshot
  import opened Chunks
  import opened Patching

  const Prompt := "Review only the Python code in the app/ directory. "
    + "Generate a unified diff (GitHub style) that applies to .py files under app/. "
    + "Do not include any other files, commentary, or fences\U{2014}only the raw diff lines."

  /** Lines whose stripped text starts with one of these are dropped. */
  const Noise := ["```", "#"]

  lemma NoiseIsFenceOrComment(line: string)
    ensures IsNoise(line, Noise) <==> StartsWith(Strip(line), "```") || StartsWith(Strip(line), "#")
  {
    assert Noise[0] == "```" && Noise[1] == "#";
  }

  /** Step "Clean fences and comments". */
  method CleanLines(lines: seq<string>) returns (clean: seq<string>)
    ensures clean == Clean(lines, Noise)
  {
    clean := [];
    for i := 0 to |lines|
      invariant clean == Clean(lines[..i], Noise)
    {
      CleanAppend(lines[..i], [lines[i]], Noise);
      assert lines[..i + 1] == lines[..i] + [lines[i]];
      var line := lines[i];
      NoiseIsFenceOrComment(line);
      assert Clean([line], Noise) == if IsNoise(line, Noise) then [] else [line];
      var stripped := Strip(line);
      if StartsWith(stripped, "```") || StartsWith(stripped, "#") {
        continue;
      }
      clean := clean + [line];
    }
    assert lines[..|lines|] == lines;
  }

  /** A line that starts the extracted diff: a `diff ` line mentioning ".py", or a `--- a/app/`
      line ending in ".py". */
  predicate StartsDiff(line: string) {
    (StartsWith(line, "diff ") && Contains(line, ".py"))
    || (StartsWith(line, "--- a/app/") && EndsWith(line, ".py"))
  }

  /** The index of the first line that starts the diff, or the number of lines. */
  function FirstDiffLine(lines: seq<string>): (k: nat)
    ensures k <= |lines|
    ensures forall i :: 0 <= i < k ==> !StartsDiff(lines[i])
    ensures k < |lines| ==> StartsDiff(lines[k])
  {
    if lines == [] then 0
    else if StartsDiff(lines[0]) then 0
    else 1 + FirstDiffLine(lines[1..])
  }

  /** Step "Extract diff lines": nothing before the first line that starts the diff, every line
      from it on. */
  method ExtractDiffLines(clean: seq<string>) returns (diffLines: seq<string>)
    ensures diffLines == clean[FirstDiffLine(clean)..]
  {
    var diffStarted := false;
    diffLines := [];
    ghost var k := FirstDiffLine(clean);
    for i := 0 to |clean|
      invariant diffStarted <==> k < i
      invariant diffLines == if diffStarted then clean[k..i] else []
    {
      var line := clean[i];
      if !diffStarted {
        if StartsWith(line, "diff ") && Contains(line, ".py") {
          diffStarted := true;
        } else if StartsWith(line, "--- a/app/") && EndsWith(line, ".py") {
          diffStarted := true;
        } else {
          continue;
        }
      }
      if diffStarted {
        assert clean[k..i + 1] == clean[k..i] + [line];
        diffLines := diffLines + [line];
      }
    }
    assert clean[k..|clean|] == clean[k..];
  }

  /** The lines extracted from a reply. */
  function Extracted(raw: string): seq<string> {
    var clean := Clean(SplitLines(raw), Noise);
    clean[FirstDiffLine(clean)..]
  }

  /** The diff text the cycle hands to `patch`. */
  function Normalise(raw: string): string {
    Strip(Join(Extracted(raw), "\n"))
  }

  /** Nothing extracted, no diff. */
  lemma NothingExtractedNoDiff(raw: string)
    ensures Extracted(raw) == [] <==> Normalise(raw) == ""
  {
    var lines := Extracted(raw);
    if lines != [] {
      StripLevelFollowsFirstLine(raw);
    }
  }

  /** The first extracted line opens the diff text, and the strip level follows it: 1 when that
      line is a `diff ` line, 0 when it is a `--- a/app/` line. */
  lemma StripLevelFollowsFirstLine(raw: string)
    requires Extracted(raw) != []
    ensures Normalise(raw) != ""
    ensures StripLevel(Normalise(raw)) == 1 <==> StartsWith(Extracted(raw)[0], "diff ")
  {
    var lines := Extracted(raw);
    JoinStartsWithFirst(lines, "\n");
    assert StartsDiff(lines[0]);
    if StartsWith(lines[0], "diff ") {
      assert lines[0][0] == 'd';
      DiffLineOpensText(lines[0], Join(lines, "\n"));
    } else {
      AppLineOpensText(lines[0], Join(lines, "\n"));
    }
  }

  /** A text opened by a `diff ` line mentioning ".py" still starts with `diff ` once stripped. */
  lemma DiffLineOpensText(line: string, text: string)
    requires StartsWith(text, line) && StartsWith(line, "diff ") && Contains(line, ".py")
    ensures StartsWith(Strip(text), "diff ")
  {
    var j: nat :| j <= |line| - 3 && OccursAt(line, ".py", j);
    assert line[0] == 'd' && line[j] == '.';
    var p := line[..j + 3];
    assert |p| >= 5 && p[..5] == line[..5];
    assert p[|p| - 1] == 'y';
    assert text[..|p|] == p;
    StripKeepsPrefix(text, p);
    assert Strip(text)[..5] == p[..5];
  }

  /** A text opened by a `--- a/app/` line does not start with `diff ` once stripped. */
  lemma AppLineOpensText(line: string, text: string)
    requires StartsWith(text, line) && StartsWith(line, "--- a/app/")
    ensures Strip(text) != "" && !StartsWith(Strip(text), "diff ")
  {
    var p := "--- a/app/";
    assert text[..|p|] == line[..|p|];
    StripKeepsPrefix(text, p);
    assert Strip(text)[0] == '-';
  }

  /** One cycle from the tree it starts on: `None` when the LLM call raises, otherwise the value
      returned; and the tree left behind. */
  function Cycle(tree: Tree, ask: Llm, shell: Shell): (Option<bool>, Tree) {
    match ask(Prompt)
    case None => (None, tree)
    case Some(raw) =>
      var diff := Normalise(raw);
      if diff == "" then (Some(false), tree)
      else
        var (ok, after) := Transaction(diff, StripLevel(diff), tree, tree, shell);
        (Some(ok), after)
  }

  /** A cycle either succeeds, leaving the patched tree on which the tests pass, or leaves the
      tree it started from. */
  lemma CycleAtomic(tree: Tree, ask: Llm, shell: Shell)
    ensures Cycle(tree, ask, shell).0 != Some(true) ==> Cycle(tree, ask, shell).1 == tree
    ensures Cycle(tree, ask, shell).0 == Some(true) ==>
      var diff := Normalise(ask(Prompt).value);
      var strip := StripLevel(diff);
      diff != "" && Cycle(tree, ask, shell).1 == shell.patch(strip, diff, tree).1
      && shell.test(shell.patch(strip, diff, tree).1) == 0
  {
    match ask(Prompt) {
      case None =>
      case Some(raw) =>
        var diff := Normalise(raw);
        TransactionAtomic(diff, StripLevel(diff), tree, shell);
    }
  }

  /** A reply without a line that starts a diff never reaches `patch`. */
  lemma NothingExtractedAborts(tree: Tree, ask: Llm, shell: Shell)
    requires ask(Prompt).Some? && Extracted(ask(Prompt).value) == []
    ensures Cycle(tree, ask, shell) == (Some(false), tree)
  {
    NothingExtractedNoDiff(ask(Prompt).value);
  }

  class SelfImproveEngine {
    /** The manager of the app/ directory and its backups/ directory. */
    const snapshot: SnapshotManager
    /** The shell command the tests run with. */
    const testCmd: string

    constructor (disk: Disk, testCmd: string)
      ensures snapshot.disk == disk && snapshot.srcDir == "app" && snapshot.backupDir == "backups"
      ensures this.testCmd == testCmd
    {
      snapshot := new SnapshotManager("app", "backups", disk);
      this.testCmd := testCmd;
    }

    /** `run_cycle`: `r` is `None` when the LLM call raises. `stamp` and `mtime` are the name
        stamp and modification time of the new snapshot. */
    method RunCycle(ask: Llm, shell: Shell, stamp: string, mtime: int) returns (r: Option<bool>)
      requires snapshot.disk.src.Some?
      modifies snapshot.disk
      ensures r == Cycle(old(snapshot.disk.src).value, ask, shell).0
      ensures snapshot.disk.src == Some(Cycle(old(snapshot.disk.src).value, ask, shell).1)
      ensures exists name :: (name !in old(snapshot.disk.backups)
        && snapshot.disk.backups == old(snapshot.disk.backups)[name := Directory(old(snapshot.disk.src).value, mtime)])
    {
      var backup := snapshot.Create(stamp, mtime);
      var disk := snapshot.disk;
      var tree := disk.src.value;

      var reply := ask(Prompt);
      if reply.None? {
        return None;
      }
      var clean := CleanLines(SplitLines(reply.value));
      var diffLines := ExtractDiffLines(clean);
      var diffText := Strip(Join(diffLines, "\n"));
      if diffText == "" {
        return Some(false);
      }
      var strip := if StartsWith(diffText, "diff ") then 1 else 0;
      var ok := ApplyWithRollback(disk, backup, diffText, strip, shell);
      return Some(ok);
    }
  }
}
