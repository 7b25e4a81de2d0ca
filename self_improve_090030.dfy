/** The engine saved in backups/snapshot_20250523_090030/self_improve.py. A cycle takes a new
    snapshot, asks the LLM for improvements with a fixed prompt, takes the diff from the first
    "```diff" fenced block of the reply or, without one, from the first line that looks like the
    start of a patch, and runs the stripped result through `patch` (with strip level 1 when it
    starts with `diff `, 0 otherwise) and the tests, restoring the snapshot when `patch` or the
    tests fail. */
module SelfImprove090030 {
  import opened Wrappers
  import opened Text
  import opened Snapshot
  import opened Patching

  const Prompt := "Review the entire contents of the `app/` folder in this project. "
    + "Propose any code improvements (new features, refactorings, bug fixes). "
    + "Respond with a unified diff using GitHub style diffs."

  const FenceOpen := "```diff"
  const FenceClose := "```"

  // ---------------------------------------------------------------------------------------------
  // The fenced block

  /** A match of the pattern "```diff(.*?)```" (with `.` matching line breaks) whose opening
      fence starts at `i` and whose closing fence starts at `k`. */
  predicate FenceAt(raw: string, i: nat, k: nat) {
    OccursAt(raw, FenceOpen, i) && i + |FenceOpen| <= k && OccursAt(raw, FenceClose, k)
  }

  /** The group of `re.search(r"```diff(.*?)```", raw, re.S)`, if it matches. */
  function FenceBody(raw: string): Option<string> {
    match Find(raw, FenceOpen, 0)
    case None => None
    case Some(i) =>
      match Find(raw, FenceClose, i + |FenceOpen|)
      case None => None
      case Some(k) => Some(raw[i + |FenceOpen|..k])
  }

  /** `FenceBody` follows the regular expression: it finds a block exactly when some match
      exists, and then takes the leftmost match, shortest for its start. */
  lemma FenceBodyIsLeftmostShortest(raw: string)
    ensures FenceBody(raw).None? <==> !exists i: nat, k: nat :: FenceAt(raw, i, k)
    ensures FenceBody(raw).Some? ==> exists i: nat, k: nat :: (FenceAt(raw, i, k)
      && FenceBody(raw).value == raw[i + |FenceOpen|..k]
      && forall i': nat, k': nat :: FenceAt(raw, i', k') ==> i < i' || (i == i' && k <= k'))
  {
    match Find(raw, FenceOpen, 0) {
      case None =>
      case Some(i) =>
        match Find(raw, FenceClose, i + |FenceOpen|) {
          case None =>
            forall i': nat, k': nat | FenceAt(raw, i', k') ensures false {
            }
          case Some(k) =>
            assert FenceAt(raw, i, k);
        }
    }
  }

  // ---------------------------------------------------------------------------------------------
  // The fallback

  /** A line at which the fallback starts the diff. */
  predicate StartsPatch(line: string) {
    StartsWith(line, "diff ") || StartsWith(line, "--- ") || StartsWith(line, "*** Begin Patch")
  }

  /** The index of the first line that starts a patch, or the number of lines. */
  function FirstPatchLine(lines: seq<string>): (k: nat)
    ensures k <= |lines|
    ensures forall i :: 0 <= i < k ==> !StartsPatch(lines[i])
    ensures k < |lines| ==> StartsPatch(lines[k])
  {
    if lines == [] then 0
    else if StartsPatch(lines[0]) then 0
    else 1 + FirstPatchLine(lines[1..])
  }

  /** Where the fallback starts: the first line that starts a patch, or the first line when none
      does. */
  function PatchStart(lines: seq<string>): nat {
    var k := FirstPatchLine(lines);
    if k == |lines| then 0 else k
  }

  /** The search loop of the fallback. */
  method FindStart(lines: seq<string>) returns (start: nat)
    ensures start == PatchStart(lines)
  {
    start := 0;
    for i := 0 to |lines|
      invariant forall j :: 0 <= j < i ==> !StartsPatch(lines[j])
      invariant start == 0
    {
      var line := lines[i];
      if StartsWith(line, "diff ") || StartsWith(line, "--- ") || StartsWith(line, "*** Begin Patch") {
        start := i;
        assert FirstPatchLine(lines) == i;
        return;
      }
    }
    assert FirstPatchLine(lines) == |lines|;
  }

  // ---------------------------------------------------------------------------------------------
  // Extraction

  /** The diff text the cycle hands to `patch`. */
  function Extract(raw: string): string {
    match FenceBody(raw)
    case Some(body) => Strip(body)
    case None =>
      var lines := SplitLines(raw);
      Strip(Join(lines[PatchStart(lines)..], "\n"))
  }

  /** Step "extract diff". */
  method ExtractDiff(raw: string) returns (diffText: string)
    ensures diffText == Extract(raw)
  {
    var m := FenceBody(raw);
    if m.Some? {
      diffText := Strip(m.value);
    } else {
      var lines := SplitLines(raw);
      var start := FindStart(lines);
      diffText := Strip(Join(lines[start..], "\n"));
    }
  }

  /** Without a fenced block and without a line that starts a patch, the whole reply, stripped,
      is taken as the diff (for a reply whose only line break is "\n"). */
  lemma FallbackIsWholeReply(raw: string)
    requires UnixText(raw) && FenceBody(raw).None?
    requires forall line <- SplitLines(raw) :: !StartsPatch(line)
    ensures Extract(raw) == Strip(raw)
  {
    var lines := SplitLines(raw);
    assert forall j :: 0 <= j < |lines| ==> lines[j] in lines;
    assert FirstPatchLine(lines) == |lines|;
    assert lines[0..] == lines;
    SplitLinesJoin(raw);
    if EndsWith(raw, "\n") {
      assert raw == raw[..|raw| - 1] + ['\n'];
      StripDropsTrailingSpace(raw[..|raw| - 1], '\n');
    }
  }

  /** Without a fenced block, the diff text starts at the first line that starts a patch: what
      comes before it is dropped. */
  lemma FallbackFromFirstPatchLine(raw: string, k: nat)
    requires FenceBody(raw).None? && k < |SplitLines(raw)| && StartsPatch(SplitLines(raw)[k])
    requires forall j :: 0 <= j < k ==> !StartsPatch(SplitLines(raw)[j])
    ensures Extract(raw) == Strip(Join(SplitLines(raw)[k..], "\n"))
  {
    assert FirstPatchLine(SplitLines(raw)) == k;
  }

  // ---------------------------------------------------------------------------------------------
  // The cycle

  /** One cycle from the tree it starts on: `None` when the LLM call raises, otherwise the value
      returned; and the tree left behind. */
  function Cycle(tree: Tree, ask: Llm, shell: Shell): (Option<bool>, Tree) {
    match ask(Prompt)
    case None => (None, tree)
    case Some(raw) =>
      var diff := Extract(raw);
      if diff == "" then (Some(false), tree)
      else
        var (ok, after) := Transaction(diff, StripLevel(diff), tree, tree, shell);
        (Some(ok), after)
  }

  /** A cycle either succeeds, leaving the patched tree on which the tests pass, or leaves the
      tree it started from; an empty diff never reaches `patch`. */
  lemma CycleAtomic(tree: Tree, ask: Llm, shell: Shell)
    ensures Cycle(tree, ask, shell).0 != Some(true) ==> Cycle(tree, ask, shell).1 == tree
    ensures Cycle(tree, ask, shell).0 == Some(true) ==>
      var diff := Extract(ask(Prompt).value);
      var strip := StripLevel(diff);
      diff != "" && Cycle(tree, ask, shell).1 == shell.patch(strip, diff, tree).1
      && shell.test(shell.patch(strip, diff, tree).1) == 0
  {
    match ask(Prompt) {
      case None =>
      case Some(raw) =>
        var diff := Extract(raw);
        TransactionAtomic(diff, StripLevel(diff), tree, shell);
    }
  }

  class SelfImproveEngine {
    /** The manager of the app/ directory and its backups/ directory. */
    const snapshot: SnapshotManager
    /** The shell command the tests run with. */
    const testCmd: string

    constructor (disk: Disk, testCmd: string)
      ensures snapshot.disk == disk && snapshot.srcDir == "app" && snapshot.backupDir == "backups"
      ensures this.testCmd == testCmd
    {
      snapshot := new SnapshotManager("app", "backups", disk);
      this.testCmd := testCmd;
    }

    /** `run_cycle`: `r` is `None` when the LLM call raises. `stamp` and `mtime` are the name
        stamp and modification time of the new snapshot. */
    method RunCycle(ask: Llm, shell: Shell, stamp: string, mtime: int) returns (r: Option<bool>)
      requires snapshot.disk.src.Some?
      modifies snapshot.disk
      ensures r == Cycle(old(snapshot.disk.src).value, ask, shell).0
      ensures snapshot.disk.src == Some(Cycle(old(snapshot.disk.src).value, ask, shell).1)
      ensures exists name :: (name !in old(snapshot.disk.backups)
        && snapshot.disk.backups == old(snapshot.disk.backups)[name := Directory(old(snapshot.disk.src).value, mtime)])
    {
      var backup := snapshot.Create(stamp, mtime);
      var disk := snapshot.disk;
      var tree := disk.src.value;

      var reply := ask(Prompt);
      if reply.None? {
        return None;
      }
      var diffText := ExtractDiff(reply.value);
      if diffText == "" {
        return Some(false);
      }
      var strip := 0;
      if StartsWith(diffText, "diff ") {
        strip := 1;
      }
      var ok := ApplyWithRollback(disk, backup, diffText, strip, shell);
      return Some(ok);
    }
  }
}
