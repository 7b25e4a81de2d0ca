/** The live self-improvement engine of app/self_improve.py. One cycle picks a snapshot, asks the
    LLM for a diff given the Python files and the pending feature requests, keeps the diff chunks
    whose header names two app/<...>.py paths, dry-runs the result with `patch -p1`, applies it and runs
    the tests through two helpers of the engine, and maps the test exit status to an outcome.
    This version never rolls back: the snapshot is taken but not used. */
module SelfImprove {
  import opened Wrappers
  import opened Text
  import opened Snapshot
  import opened Chunks
  import opened Patching
  import opened CodeContext
  import opened Memory

  /** What `run_cycle` returns: the boolean `False`, or one of the strings 'Success', 'Partial'
      and 'Fail'. */
  datatype CycleValue = Flag(b: bool) | Label(s: string)

  /** What the engine's `_apply_patch` helper did: it raised, or it returned a value of the
      given truthiness. Either way it may have changed the tree. */
  datatype ApplyCall = ApplyRaised(left: Tree) | ApplyReturned(truthy: bool, after: Tree)

  /** What the engine's `_run_tests` helper did: it raised (or returned something without a
      `returncode`), or it returned a result with this `returncode`. */
  datatype TestCall = TestRaised | Exited(returncode: int)

  /** The two helpers `run_cycle` calls but the engine's class does not define: they are taken
      as given functions of the diff and the tree. */
  datatype Hooks = Hooks(applyPatch: (string, Tree) -> ApplyCall, runTests: Tree -> TestCall)

  /** Lines whose stripped text starts with one of these are dropped. */
  const Noise := ["```", "Note:", "#"]
  /** Each chunk starts at a line starting with this. */
  const Marker := "diff --git "

  // ---------------------------------------------------------------------------------------------
  // Prompt

  const Intro := "You have these Python files (paths + contents):\n"
  const Request := "Implement these feature requests exactly:\n"
  const Instruction := "Now, produce *only* a unified Git diff (GitHub style) that "
    + "modifies or creates any needed .py files under app/ to satisfy "
    + "those requests. Do NOT output any explanations, commentary, or "
    + "fences\U{2014}output must start with `diff --git a/...` and be valid "
    + "patch input to `patch -p1`."

  /** The "- <path>" lines naming the visited Python files. */
  function FileList(tree: Tree, order: seq<string>): string {
    var files := PyFiles(tree, order);
    Join(seq(|files|, i requires 0 <= i < |files| => "- " + AppPath(files[i])), "\n")
  }

  /** The "### FILE:" blocks of the visited Python files. */
  function FileContext(tree: Tree, order: seq<string>): string {
    var files := PyFiles(tree, order);
    Join(seq(|files|, i requires 0 <= i < |files| => FileBlock(tree, files[i])), "")
  }

  /** The closing part of the prompt: the feature requests and the instruction. */
  function Requests(features: seq<Feature>): string {
    Request + FeatureBullets(features) + "\n\n" + Instruction
  }

  function Prompt(tree: Tree, order: seq<string>, features: seq<Feature>): string {
    Intro + FileList(tree, order) + "\n\n" + FileContext(tree, order) + "\n\n" + Requests(features)
  }

  /** The prompt names every Python file the walk visits, carries its whole content, and lists
      every feature request. */
  lemma PromptShowsAll(tree: Tree, order: seq<string>, features: seq<Feature>)
    ensures forall rel <- order :: IsPyFile(tree, rel) ==>
      Contains(Prompt(tree, order, features), "- " + AppPath(rel))
      && Contains(Prompt(tree, order, features), FileBlock(tree, rel))
    ensures forall f <- features :: Contains(Prompt(tree, order, features), "- " + FeatureText(f))
  {
    var files := PyFiles(tree, order);
    forall rel <- order | IsPyFile(tree, rel)
      ensures Contains(Prompt(tree, order, features), "- " + AppPath(rel))
      ensures Contains(Prompt(tree, order, features), FileBlock(tree, rel))
    {
      var i :| 0 <= i < |files| && files[i] == rel;
      PromptListsFile(tree, order, features, i);
      PromptCarriesFile(tree, order, features, i);
    }
    forall f <- features
      ensures Contains(Prompt(tree, order, features), "- " + FeatureText(f))
    {
      var i :| 0 <= i < |features| && features[i] == f;
      PromptListsFeature(tree, order, features, i);
    }
  }

  lemma PromptListsFile(tree: Tree, order: seq<string>, features: seq<Feature>, i: nat)
    requires i < |PyFiles(tree, order)|
    ensures Contains(Prompt(tree, order, features), "- " + AppPath(PyFiles(tree, order)[i]))
  {
    var x := "- " + AppPath(PyFiles(tree, order)[i]);
    FileListListsFile(tree, order, i);
    ContainsRight(Intro, FileList(tree, order), x);
    ContainsLeft(Intro + FileList(tree, order), "\n\n", x);
    ContainsLeft(Intro + FileList(tree, order) + "\n\n", FileContext(tree, order), x);
    ContainsLeft(Intro + FileList(tree, order) + "\n\n" + FileContext(tree, order), "\n\n", x);
    ContainsLeft(Intro + FileList(tree, order) + "\n\n" + FileContext(tree, order) + "\n\n", Requests(features), x);
  }

  lemma FileListListsFile(tree: Tree, order: seq<string>, i: nat)
    requires i < |PyFiles(tree, order)|
    ensures Contains(FileList(tree, order), "- " + AppPath(PyFiles(tree, order)[i]))
  {
    var files := PyFiles(tree, order);
    var parts := seq(|files|, i requires 0 <= i < |files| => "- " + AppPath(files[i]));
    assert parts[i] == "- " + AppPath(files[i]);
    JoinContainsPart(parts, "\n", i);
  }

  lemma PromptCarriesFile(tree: Tree, order: seq<string>, features: seq<Feature>, i: nat)
    requires i < |PyFiles(tree, order)|
    ensures Contains(Prompt(tree, order, features), FileBlock(tree, PyFiles(tree, order)[i]))
  {
    var files := PyFiles(tree, order);
    var x := FileBlock(tree, files[i]);
    var before := Intro + FileList(tree, order) + "\n\n";
    JoinContainsPart(seq(|files|, i requires 0 <= i < |files| => FileBlock(tree, files[i])), "", i);
    ContainsRight(before, FileContext(tree, order), x);
    ContainsLeft(before + FileContext(tree, order), "\n\n", x);
    ContainsLeft(before + FileContext(tree, order) + "\n\n", Requests(features), x);
  }

  lemma PromptListsFeature(tree: Tree, order: seq<string>, features: seq<Feature>, i: nat)
    requires i < |features|
    ensures Contains(Prompt(tree, order, features), "- " + FeatureText(features[i]))
  {
    var x := "- " + FeatureText(features[i]);
    BulletsListFeature(features, i);
    ContainsRight(Request, FeatureBullets(features), x);
    ContainsLeft(Request + FeatureBullets(features), "\n\n", x);
    ContainsLeft(Request + FeatureBullets(features) + "\n\n", Instruction, x);
    var before := Intro + FileList(tree, order) + "\n\n" + FileContext(tree, order) + "\n\n";
    ContainsRight(before, Requests(features), x);
  }

  // ---------------------------------------------------------------------------------------------
  // Normalising the reply

  /** The live chunk filter: a chunk is kept, joined with "\n", when its header contains
      `diff --git a/app/<...>.py b/app/<...>.py`. The two paths are not compared and neither is
      looked up on disk. */
  function KeepTwoAppPaths(chunk: seq<string>): Option<string> {
    if chunk != [] && SearchTwoAppPaths(chunk[0]) then Some(Join(chunk, "\n")) else None
  }

  /** The chunks of the cleaned reply, in order. */
  function ReplyChunks(raw: string): seq<seq<string>> {
    ChunksOf(Clean(SplitLines(raw), Noise), Marker)
  }

  /** The diff text the cycle hands to `patch`. */
  function Normalise(raw: string): string {
    Join(Selected(ReplyChunks(raw), KeepTwoAppPaths), "\n")
  }

  /** The pieces of the diff text are exactly the chunks of the cleaned reply whose header has
      two app/<...>.py paths, each joined as it was; every chunk is a `diff --git ` line followed by
      the cleaned lines up to the next one, and together they are the cleaned reply from its first
      `diff --git ` line on. */
  lemma NormaliseKeeps(raw: string)
    ensures var lines := Clean(SplitLines(raw), Noise);
      WellChunked(ReplyChunks(raw), Marker)
      && Flatten(ReplyChunks(raw)) == lines[FirstMarker(lines, Marker)..]
    ensures forall piece :: piece in Selected(ReplyChunks(raw), KeepTwoAppPaths) <==>
      exists c :: c in ReplyChunks(raw) && SearchTwoAppPaths(c[0]) && piece == Join(c, "\n")
  {
    ChunksCover(Clean(SplitLines(raw), Noise), Marker);
    SelectedKeeps(ReplyChunks(raw), KeepTwoAppPaths);
    forall c | c in ReplyChunks(raw) ensures c != [] {
      assert IsChunk(c, Marker);
    }
  }

  // ---------------------------------------------------------------------------------------------
  // Outcome

  /** The outcome label of a test exit status. A negative status (a process killed by a signal)
      counts as partial, like status 1. */
  function Classify(returncode: int): (outcome: string)
    ensures outcome == "Success" <==> returncode == 0
    ensures outcome == "Partial" <==> returncode == 1 || returncode < 0
    ensures outcome == "Fail" <==> returncode >= 2
  {
    if returncode == 0 then "Success" else if returncode < 2 then "Partial" else "Fail"
  }

  /** Steps empty check, dry-run, apply and test of a cycle for the diff text `diff`: the value
      `run_cycle` returns and the tree it leaves. */
  function Apply(diff: string, tree: Tree, shell: Shell, hooks: Hooks): (CycleValue, Tree) {
    if Strip(diff) == "" then (Flag(false), tree)
    else if shell.dryRun(1, diff, tree) != 0 then (Flag(false), tree)
    else
      match hooks.applyPatch(diff, tree)
      case ApplyRaised(left) => (Label("Fail"), left)
      case ApplyReturned(ok, patched) =>
        if !ok then (Label("Fail"), patched)
        else
          match hooks.runTests(patched)
          case TestRaised => (Label("Fail"), patched)
          case Exited(code) => (Label(Classify(code)), patched)
  }

  /** One cycle from the tree it starts on: `None` when the LLM call raises (the exception
      leaves `run_cycle`), otherwise the value returned; and the tree left behind. */
  function Cycle(tree: Tree, order: seq<string>, features: seq<Feature>, ask: Llm, shell: Shell, hooks: Hooks)
    : (Option<CycleValue>, Tree)
  {
    match ask(Prompt(tree, order, features))
    case None => (None, tree)
    case Some(raw) =>
      var (value, after) := Apply(Normalise(raw), tree, shell, hooks);
      (Some(value), after)
  }

  /** A diff that is empty or all whitespace ends the cycle with `False` before `patch` or the
      helpers are consulted: the result is the same whatever they would answer, and the tree is
      untouched. */
  lemma BlankDiffAborts(diff: string, tree: Tree, shell: Shell, hooks: Hooks, shell2: Shell, hooks2: Hooks)
    requires Strip(diff) == ""
    ensures Apply(diff, tree, shell, hooks) == Apply(diff, tree, shell2, hooks2) == (Flag(false), tree)
  {
  }

  /** A failing dry-run ends the cycle with `False`, leaves the tree as it was and never reaches
      the helpers. */
  lemma DryRunFailureKeepsTree(diff: string, tree: Tree, shell: Shell, hooks: Hooks, hooks2: Hooks)
    requires Strip(diff) != "" && shell.dryRun(1, diff, tree) != 0
    ensures Apply(diff, tree, shell, hooks) == Apply(diff, tree, shell, hooks2) == (Flag(false), tree)
  {
  }

  /** The cycle returns `False`, 'Success', 'Partial' or 'Fail', and nothing else. */
  lemma OutcomeRange(diff: string, tree: Tree, shell: Shell, hooks: Hooks)
    ensures Apply(diff, tree, shell, hooks).0 in {Flag(false), Label("Success"), Label("Partial"), Label("Fail")}
    ensures Apply(diff, tree, shell, hooks).0 != Flag(true)
  {
  }

  /** Once the dry-run passes, the outcome is the label of the test exit status when the apply
      helper returns a truthy value and the tests run, and 'Fail' otherwise. */
  lemma OutcomeOfTests(diff: string, tree: Tree, shell: Shell, hooks: Hooks)
    requires Strip(diff) != "" && shell.dryRun(1, diff, tree) == 0
    ensures Apply(diff, tree, shell, hooks).0 ==
      match hooks.applyPatch(diff, tree)
      case ApplyReturned(true, patched) =>
        (match hooks.runTests(patched)
         case Exited(code) => Label(Classify(code))
         case TestRaised => Label("Fail"))
      case _ => Label("Fail")
  {
  }

  /** Nothing is rolled back: a cycle that fails after the helpers ran leaves the tree the
      helpers left, not the snapshot. */
  lemma FailureKeepsPatchedTree(diff: string, tree: Tree, shell: Shell, hooks: Hooks)
    requires Strip(diff) != "" && shell.dryRun(1, diff, tree) == 0
    ensures hooks.applyPatch(diff, tree).ApplyRaised? ==>
      Apply(diff, tree, shell, hooks).1 == hooks.applyPatch(diff, tree).left
    ensures hooks.applyPatch(diff, tree).ApplyReturned? ==>
      Apply(diff, tree, shell, hooks).1 == hooks.applyPatch(diff, tree).after
  {
  }

  /** The backup directory holds one more snapshot, a copy of `tree`, under a name it did not have. */
  ghost predicate SnapshotAdded(before: map<string, Entry>, after: map<string, Entry>, tree: Tree, mtime: int) {
    exists name :: name !in before && after == before[name := Directory(tree, mtime)]
  }

  /** `backups` holds some snapshot directory. */
  predicate HasSnapshot(backups: map<string, Entry>) {
    exists n <- backups :: IsSnapshot(backups, n)
  }

  /** Step "build prompt" of `run_cycle`. */
  method BuildPrompt(tree: Tree, order: seq<string>, features: seq<Feature>) returns (prompt: string)
    ensures prompt == Prompt(tree, order, features)
  {
    var paths, snippets := GatherFiles(tree, order);
    var files := PyFiles(tree, order);
    assert paths == seq(|files|, i requires 0 <= i < |files| => AppPath(files[i]));
    assert snippets == seq(|files|, i requires 0 <= i < |files| => FileBlock(tree, files[i]));
    var listing := Join(seq(|paths|, i requires 0 <= i < |paths| => "- " + paths[i]), "\n");
    assert seq(|paths|, i requires 0 <= i < |paths| => "- " + paths[i])
      == seq(|files|, i requires 0 <= i < |files| => "- " + AppPath(files[i]));
    var context := Join(snippets, "");
    prompt := Intro + listing + "\n\n" + context + "\n\n" + Requests(features);
  }

  /** Steps "clean", "split into chunks" and "filter" of `run_cycle`. */
  method NormaliseReply(raw: string) returns (diffText: string)
    ensures diffText == Normalise(raw)
  {
    var lines := Clean(SplitLines(raw), Noise);
    var chunks := SplitChunks(lines, Marker);
    var valid := SelectChunks(chunks, KeepTwoAppPaths);
    diffText := Join(valid, "\n");
  }

  /** Steps empty check, dry-run, apply and test of `run_cycle` on the tree in app/. */
  method ApplyDiff(disk: Disk, diffText: string, shell: Shell, hooks: Hooks) returns (value: CycleValue)
    requires disk.src.Some?
    modifies disk
    ensures value == Apply(diffText, old(disk.src).value, shell, hooks).0
    ensures disk.src == Some(Apply(diffText, old(disk.src).value, shell, hooks).1)
    ensures disk.backups == old(disk.backups)
  {
    var tree := disk.src.value;
    if Strip(diffText) == "" {
      return Flag(false);
    }
    if shell.dryRun(1, diffText, tree) != 0 {
      return Flag(false);
    }
    match hooks.applyPatch(diffText, tree) {
      case ApplyRaised(left) =>
        disk.src := Some(left);
        return Label("Fail");
      case ApplyReturned(ok, patched) =>
        disk.src := Some(patched);
        if !ok {
          return Label("Fail");
        }
        match hooks.runTests(patched) {
          case TestRaised =>
            return Label("Fail");
          case Exited(code) =>
            return Label(Classify(code));
        }
    }
  }

  // ---------------------------------------------------------------------------------------------
  // The engine

  class SelfImproveEngine {
    /** The manager of the app/ directory and its backups/ directory. */
    const snapshot: SnapshotManager
    /** The shell command the test helper runs. */
    const testCmd: string
    /** Reuse the newest snapshot rather than take a new one. */
    const skipBackups: bool

    constructor (disk: Disk, testCmd: string, skipBackups: bool)
      ensures snapshot.disk == disk && snapshot.srcDir == "app" && snapshot.backupDir == "backups"
      ensures this.testCmd == testCmd && this.skipBackups == skipBackups
    {
      snapshot := new SnapshotManager("app", "backups", disk);
      this.testCmd := testCmd;
      this.skipBackups := skipBackups;
    }

    /** Step 1: a new snapshot, or, with `skipBackups`, the newest existing one (a new one when
        there is none). */
    method SelectBackup(stamp: string, mtime: int) returns (backup: string)
      requires snapshot.disk.src.Some?
      modifies snapshot.disk
      ensures snapshot.disk.src == old(snapshot.disk.src)
      ensures IsSnapshot(snapshot.disk.backups, backup)
        || (backup !in old(snapshot.disk.backups) && backup in snapshot.disk.backups)
      ensures skipBackups && HasSnapshot(old(snapshot.disk.backups)) ==>
        snapshot.disk.backups == old(snapshot.disk.backups)
        && forall n :: IsSnapshot(snapshot.disk.backups, n) ==>
          snapshot.disk.backups[n].mtime <= snapshot.disk.backups[backup].mtime
      ensures !(skipBackups && HasSnapshot(old(snapshot.disk.backups))) ==>
        snapshot.disk.backups == old(snapshot.disk.backups)[backup := Directory(old(snapshot.disk.src).value, mtime)]
        && backup !in old(snapshot.disk.backups)
    {
      if !skipBackups {
        backup := snapshot.Create(stamp, mtime);
      } else {
        var latest := snapshot.GetLatest();
        if latest.Some? {
          backup := latest.value;
        } else {
          backup := snapshot.Create(stamp, mtime);
        }
      }
    }

    /** `run_cycle`: `r` is `None` when the LLM call raises. `order` is the walk order of app/,
        `stamp` and `mtime` the name stamp and modification time a new snapshot receives. */
    method RunCycle(order: seq<string>, features: seq<Feature>, ask: Llm, shell: Shell, hooks: Hooks,
                    stamp: string, mtime: int) returns (r: Option<CycleValue>)
      requires snapshot.disk.src.Some?
      modifies snapshot.disk
      ensures r == Cycle(old(snapshot.disk.src).value, order, features, ask, shell, hooks).0
      ensures snapshot.disk.src == Some(Cycle(old(snapshot.disk.src).value, order, features, ask, shell, hooks).1)
      ensures skipBackups && HasSnapshot(old(snapshot.disk.backups)) ==>
        snapshot.disk.backups == old(snapshot.disk.backups)
      ensures !(skipBackups && HasSnapshot(old(snapshot.disk.backups))) ==>
        SnapshotAdded(old(snapshot.disk.backups), snapshot.disk.backups, old(snapshot.disk.src).value, mtime)
    {
      var backup := SelectBackup(stamp, mtime);
      var disk := snapshot.disk;
      var tree := disk.src.value;
      var prompt := BuildPrompt(tree, order, features);
      var reply := ask(prompt);
      if reply.None? {
        return None;
      }
      var diffText := NormaliseReply(reply.value);
      var value := ApplyDiff(disk, diffText, shell, hooks);
      return Some(value);
    }
  }
}
