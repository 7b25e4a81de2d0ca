/** The engine saved in backups/snapshot_20250523_144918/self_improve.py. A cycle takes a new
    snapshot, asks the LLM for a diff given the Python files and the feature requests, cuts the
    cleaned reply into chunks at every `diff ` line, keeps the chunks whose header is a git header
    naming an existing app/<...>.py path, and runs the stripped result through `patch -p1` and the
    tests, restoring the snapshot when `patch` or the tests fail. */
module SelfImprove144918 {
  import opened Wrappers
  import opened Text
  import opened Snapshot
  import opened Chunks
  import opened Patching
  import opened CodeContext
  import opened Memory

  /** Lines whose stripped text starts with one of these are dropped. */
  const Noise := ["```", "#"]
  /** Each chunk starts at a line starting with this. */
  const Marker := "diff "

  // ---------------------------------------------------------------------------------------------
  // Prompt

  const Instruction := "\nBased on the code above and the requested features, generate ONLY a unified "
    + "diff (GitHub style) that applies to .py files under app/. "
    + "Do NOT include any commentary or fences\U{2014}only the raw diff lines."

  /** The feature text: empty without feature requests. */
  function FeatureBlock(features: seq<Feature>): string {
    if features == [] then "" else "\nImplement these features:\n" + FeatureBullets(features)
  }

  function Prompt(tree: Tree, order: seq<string>, features: seq<Feature>): string {
    BeginEndContext(tree, order) + Instruction + FeatureBlock(features)
  }

  /** The prompt carries every visited Python file, with its path and whole content. */
  lemma PromptCarriesFile(tree: Tree, order: seq<string>, features: seq<Feature>, rel: string)
    requires rel in order && IsPyFile(tree, rel)
    ensures Contains(Prompt(tree, order, features), BeginEndBlock(tree, rel))
  {
    var context := BeginEndContext(tree, order);
    var rest := Instruction + FeatureBlock(features);
    ContextCarriesFile(tree, order, rel);
    ContainsInfix([], context, rest, BeginEndBlock(tree, rel));
    assert [] + context == context;
    assert context + rest == Prompt(tree, order, features);
  }

  /** The prompt lists every feature request; without any it ends with the instruction. */
  lemma PromptListsFeatures(tree: Tree, order: seq<string>, features: seq<Feature>)
    ensures forall i :: 0 <= i < |features| ==> Contains(Prompt(tree, order, features), "- " + FeatureText(features[i]))
    ensures features == [] ==> EndsWith(Prompt(tree, order, features), Instruction)
  {
    var before := BeginEndContext(tree, order) + Instruction;
    var block := FeatureBlock(features);
    forall i | 0 <= i < |features|
      ensures Contains(Prompt(tree, order, features), "- " + FeatureText(features[i]))
    {
      BulletsListFeature(features, i);
      ContainsInfix("\nImplement these features:\n", FeatureBullets(features), [], "- " + FeatureText(features[i]));
      assert "\nImplement these features:\n" + FeatureBullets(features) + [] == block;
      ContainsInfix(before, block, [], "- " + FeatureText(features[i]));
      assert before + block + [] == Prompt(tree, order, features);
    }
    if features == [] {
      assert Prompt(tree, order, features) == BeginEndContext(tree, order) + Instruction;
    }
  }

  // ---------------------------------------------------------------------------------------------
  // Cleaning and filtering

  /** Lines starting with "Note:" are no longer noise in this version. */
  lemma NotesKept(line: string)
    requires StartsWith(Strip(line), "Note:")
    ensures !IsNoise(line, Noise)
  {
    assert Strip(line)[0] == 'N';
  }

  /** A chunk is kept, joined with "\n", when its header names an app/<...>.py path that exists. */
  function Keep(tree: Tree, chunk: seq<string>): Option<string> {
    if chunk == [] then None
    else
      match MatchAppPath(chunk[0])
      case None => None
      case Some(path) => if InApp(tree, path) then Some(Join(chunk, "\n")) else None
  }

  function Pick(tree: Tree): seq<string> -> Option<string> {
    chunk => Keep(tree, chunk)
  }

  /** The chunks of the cleaned reply. */
  function ReplyChunks(raw: string): seq<seq<string>> {
    ChunksOf(Clean(SplitLines(raw), Noise), Marker)
  }

  /** The diff text the cycle hands to `patch`. */
  function Normalise(raw: string, tree: Tree): string {
    Strip(Join(Selected(ReplyChunks(raw), Pick(tree)), "\n"))
  }

  /** A header that names a path is a git header. */
  lemma HeaderIsGit(h: string)
    ensures forall p :: HeaderNames(h, p) ==> StartsWith(h, GitHeader)
  {
    forall p | HeaderNames(h, p) ensures StartsWith(h, GitHeader) {
      assert h[..|GitHeader|] == (GitHeader + p + " b/")[..|GitHeader|];
    }
  }

  /** A chunk opened by a `diff ` line that is not a git header (a plain `diff -u` header, say) is
      dropped with all its lines, whatever files it names. */
  lemma PlainDiffChunkDropped(tree: Tree, chunk: seq<string>)
    requires chunk != [] && !StartsWith(chunk[0], GitHeader)
    ensures Keep(tree, chunk) == None
  {
    HeaderIsGit(chunk[0]);
  }

  /** Every piece of the diff text is a chunk of the reply whose header names an existing
      app/<...>.py path, as it was; and every such chunk contributes its piece. */
  lemma NormaliseKeeps(raw: string, tree: Tree)
    ensures forall piece :: piece in Selected(ReplyChunks(raw), Pick(tree)) <==>
      exists c :: c in ReplyChunks(raw) && c != [] && MatchAppPath(c[0]).Some?
        && InApp(tree, MatchAppPath(c[0]).value) && piece == Join(c, "\n")
  {
    SelectedKeeps(ReplyChunks(raw), Pick(tree));
  }

  /** A kept piece starts with its git header. */
  lemma {:induction false} KeptPiecesStartWithHeader(chunks: seq<seq<string>>, tree: Tree)
    ensures Selected(chunks, Pick(tree)) != [] ==> StartsWith(Selected(chunks, Pick(tree))[0], GitHeader)
  {
    if chunks != [] {
      if Keep(tree, chunks[0]).None? {
        KeptPiecesStartWithHeader(chunks[1..], tree);
      } else {
        KeptPieceStartsWithHeader(tree, chunks[0]);
      }
    }
  }

  lemma KeptPieceStartsWithHeader(tree: Tree, c: seq<string>)
    requires Keep(tree, c).Some?
    ensures StartsWith(Keep(tree, c).value, GitHeader)
  {
    HeaderIsGit(c[0]);
    JoinStartsWithFirst(c, "\n");
    StartsWithTrans(Join(c, "\n"), c[0], GitHeader);
  }

  /** The stripped diff text is empty exactly when no chunk is kept; otherwise it starts with the
      first kept header. */
  lemma EmptyIffNoneKept(raw: string, tree: Tree)
    ensures Normalise(raw, tree) == "" <==> Selected(ReplyChunks(raw), Pick(tree)) == []
    ensures Normalise(raw, tree) != "" ==> StartsWith(Normalise(raw, tree), GitHeader)
  {
    var kept := Selected(ReplyChunks(raw), Pick(tree));
    if kept != [] {
      KeptPiecesStartWithHeader(ReplyChunks(raw), tree);
      JoinStartsWithFirst(kept, "\n");
      var joined := Join(kept, "\n");
      assert joined[..|GitHeader|] == kept[0][..|GitHeader|];
      StripKeepsPrefix(joined, GitHeader);
    }
  }

  // ---------------------------------------------------------------------------------------------
  // The cycle

  /** One cycle from the tree it starts on: `None` when the LLM call raises, otherwise the value
      returned; and the tree left behind. */
  function Cycle(tree: Tree, order: seq<string>, features: seq<Feature>, ask: Llm, shell: Shell): (Option<bool>, Tree) {
    match ask(Prompt(tree, order, features))
    case None => (None, tree)
    case Some(raw) =>
      var diff := Normalise(raw, tree);
      if diff == "" then (Some(false), tree)
      else
        var (ok, after) := Transaction(diff, 1, tree, tree, shell);
        (Some(ok), after)
  }

  /** A cycle either succeeds, leaving the patched tree on which the tests pass, or leaves the
      tree it started from; a reply with no kept chunk never reaches `patch`. */
  lemma CycleAtomic(tree: Tree, order: seq<string>, features: seq<Feature>, ask: Llm, shell: Shell)
    ensures Cycle(tree, order, features, ask, shell).0 != Some(true) ==> Cycle(tree, order, features, ask, shell).1 == tree
    ensures Cycle(tree, order, features, ask, shell).0 == Some(true) ==>
      var diff := Normalise(ask(Prompt(tree, order, features)).value, tree);
      diff != "" && Cycle(tree, order, features, ask, shell).1 == shell.patch(1, diff, tree).1
      && shell.test(shell.patch(1, diff, tree).1) == 0
    ensures (ask(Prompt(tree, order, features)).Some?
      && Selected(ReplyChunks(ask(Prompt(tree, order, features)).value), Pick(tree)) == []) ==>
      Cycle(tree, order, features, ask, shell) == (Some(false), tree)
  {
    match ask(Prompt(tree, order, features)) {
      case None =>
      case Some(raw) =>
        EmptyIffNoneKept(raw, tree);
        TransactionAtomic(Normalise(raw, tree), 1, tree, shell);
    }
  }

  class SelfImproveEngine {
    /** The manager of the app/ directory and its backups/ directory. */
    const snapshot: SnapshotManager
    /** The shell command the tests run with. */
    const testCmd: string

    constructor (disk: Disk, testCmd: string)
      ensures snapshot.disk == disk && snapshot.srcDir == "app" && snapshot.backupDir == "backups"
      ensures this.testCmd == testCmd
    {
      snapshot := new SnapshotManager("app", "backups", disk);
      this.testCmd := testCmd;
    }

    /** `run_cycle`: `r` is `None` when the LLM call raises. `order` is the walk order of app/,
        `stamp` and `mtime` the name stamp and modification time of the new snapshot. */
    method RunCycle(order: seq<string>, features: seq<Feature>, ask: Llm, shell: Shell,
                    stamp: string, mtime: int) returns (r: Option<bool>)
      requires snapshot.disk.src.Some?
      modifies snapshot.disk
      ensures r == Cycle(old(snapshot.disk.src).value, order, features, ask, shell).0
      ensures snapshot.disk.src == Some(Cycle(old(snapshot.disk.src).value, order, features, ask, shell).1)
      ensures exists name :: (name !in old(snapshot.disk.backups)
        && snapshot.disk.backups == old(snapshot.disk.backups)[name := Directory(old(snapshot.disk.src).value, mtime)])
    {
      var backup := snapshot.Create(stamp, mtime);
      var disk := snapshot.disk;
      var tree := disk.src.value;

      var context := GatherContext(tree, order);
      var prompt := context + Instruction + FeatureBlock(features);
      var reply := ask(prompt);
      if reply.None? {
        return None;
      }
      var lines := Clean(SplitLines(reply.value), Noise);
      var chunks := SplitChunks(lines, Marker);
      var valid := SelectChunks(chunks, Pick(tree));
      var diffText := Strip(Join(valid, "\n"));
      if diffText == "" {
        return Some(false);
      }
      var ok := ApplyWithRollback(disk, backup, diffText, 1, shell);
      return Some(ok);
    }
  }
}
