# Self-modification loop of the aisapp chat agent, in Dafny

The application is a chat agent that can rewrite its own `app/` package. When it is asked to
"self improve", it does the following:

- takes a snapshot of `app/`;
- asks an LLM for a unified diff, showing it the Python sources and the pending feature requests;
- cleans and filters the reply into a patch;
- dry-runs the patch with `patch`, applies it and runs the test command;
- on failure, restores the snapshot (in some versions).

An episodic environment wraps the cycle for reinforcement learning. It chooses the LLM
temperature, runs one cycle per step once a warm-up is over, and scores the outcome.

This project models that loop and proves its properties:

- `wrappers.dfy`: `Option`.
- `text.dfy`: the Python string operations the loop relies on, written out on `seq<char>`. These are `strip`, `splitlines`, `split`, `join`, `startswith`, `find`, ASCII `lower` and `str(n)`.
- `snapshot.dfy`: the `Disk` (the `app/` tree and the `backups/` entries) and `SnapshotManager`. The manager covers unique naming, latest-by-mtime lookup and whole-tree restore.
- `chunks.dfy`: what all the engine versions share:
  - the cleaning of noise lines;
  - the loop that cuts lines into chunks at a marker line;
  - the chunk filter loop;
  - the two header regular expressions, as hand-written matchers.
- `code_context.dfy`: the `os.walk` loops that read the Python files into the prompt.
- `patching.dfy`: the external tools, modelled as functions returning exit codes. It also holds the dry-run, apply, test and restore transaction used by the snapshot-guarded versions.
- `memory.dfy`: the feature-request store and chat log, held in memory.
- `self_improve.dfy`: the live engine, `app/self_improve.py`.
- `self_improve_090030.dfy` … `self_improve_150853.dfy`: the five earlier engines kept under `backups/`. Each uses a different way of turning the reply into a patch:
  - 090030: fenced-block extraction;
  - 140649: extraction from the first Python diff header;
  - 144918: splitting on `diff ` with an existence filter;
  - 150435: normalising while splitting;
  - 150853: header and `---`/`+++` rewriting after filtering.
- `self_improve_env.dfy`: the reward and observation rules of the environment.
- `agent.dfy`: the `Agent` class and the `SelfImproveEnv` class. They refer to each other, so they share one module. `Agent` covers `handle`, `ask_llm` and the stub LLM.

What the model takes as inputs:

- The file tree is a `map<string, string>` keyed by paths relative to `app/`.
- The order in which `os.walk` visits it is a parameter.
- Snapshot time stamps and modification times are parameters.
- The LLM, the chat endpoint, `patch`, the test command and the live engine's two helpers are function-valued parameters. These helpers, `_apply_patch` and `_run_tests`, are called but never defined.
- A call that raises is `None`.

Where the code and its intended design differ, the model follows the code:

- The live engine returns the boolean `False` or the strings 'Success', 'Partial' and 'Fail'. `handle` and the environment compare against lower-case 'success' and 'partial'.
  - A completed self-improvement request is therefore always answered with the failure message (`ImprovementAlwaysReportsFailure`).
  - After warm-up, every terminal step earns -1 (`LiveTerminalPenalty`, `LiveRewardAfterWarmup`).
- The live engine never restores its snapshot. A failure after the helpers ran leaves the helpers' tree (`FailureKeepsPatchedTree`).
- The older engines roll back only when apply or the tests fail. A failing dry-run returns `False` without restoring, but it has not changed the tree.
- `handle` runs the cycle twice, and only the second result decides the reply.
- A negative test exit status (a process killed by a signal) is classified 'Partial', like status 1.
- An exception from the LLM call is not turned into a failure outcome inside `run_cycle`; it leaves the method. Only the environment's `step` turns it into `False`.
- The chosen temperature is stored on the agent but never sent to the LLM.

## Model

| member | source | states |
|---|---|---|
| Text.Strip | app/self_improve.py:63 | `str.strip()`: the result is the text between the leading and trailing whitespace; it is empty iff the text is all whitespace |
| Text.StripEnd | app/self_improve.py:92 | the trailing half of `strip()`: a prefix of the text, followed only by whitespace, ending in non-whitespace |
| Text.LeadingSpace | app/self_improve.py:63 | the length of the leading run of whitespace, and the first character after it is not whitespace |
| Text.TrailingSpace | app/self_improve.py:92 | the length of the trailing run of whitespace, and the character before it is not whitespace |
| Text.StripKeepsPrefix | backups/snapshot_20250523_140649/self_improve.py:49-58 | stripping keeps a prefix that starts and ends with non-whitespace, which decides `startswith('diff ')` after `strip()` |
| Text.StripDropsTrailingSpace | backups/snapshot_20250523_090030/self_improve.py:38 | a trailing whitespace character (the final "\n") does not change `strip()` |
| Text.Find | app/self_improve.py:82 | `str.find`: the result is an occurrence at or after the start, and no earlier occurrence exists |
| Text.FindLast | backups/snapshot_20250523_150853/self_improve.py:67 | the last occurrence at or after the start, where a greedy `.*` stops; no later occurrence exists |
| Text.FindIsContains | backups/snapshot_20250523_140649/self_improve.py:41 | `find` succeeds iff `pat in s` |
| Text.LineEnd | app/self_improve.py:62 | the index of the first line break, with no break before it |
| Text.SplitLinesJoin | backups/snapshot_20250523_090030/self_improve.py:32-38 | on text whose only line break is "\n" (no "\r", "\r\n" or other `splitlines` break), `"\n".join(s.splitlines())` gives `s` back, less one final "\n" |
| Text.SplitLinesStep | app/self_improve.py:62 | `splitlines` cuts the first line at its "\n" and continues after it |
| Text.JoinStartsWithFirst | app/self_improve.py:86 | a join starts with its first part |
| Text.JoinContainsPart | app/self_improve.py:90 | every part occurs in the joined text |
| Text.WordLength | backups/snapshot_20250523_150435/self_improve.py:68 | the length of the leading run of non-whitespace |
| Text.Words | backups/snapshot_20250523_150435/self_improve.py:68 | `split()` yields non-empty words without whitespace |
| Text.WordsCoverText | backups/snapshot_20250523_150435/self_improve.py:68 | `split()` loses only whitespace: its words, concatenated, are the non-space characters of the text |
| Text.SplitOn | backups/snapshot_20250523_150435/self_improve.py:69 | `split('/')` yields at least one piece, and no piece contains the separator |
| Text.SplitOnJoin | backups/snapshot_20250523_150435/self_improve.py:69 | joining the pieces of `split(sep)` with `sep` gives the text back |
| Text.Lower | app/agent.py:75-82 | `lower()` keeps the length and lowers each character |
| Text.NatToString | app/snapshot.py:22 | `str(i)` is a non-empty string of decimal digits, one digit iff `i < 10` |
| Text.NatToStringInjective | app/snapshot.py:22 | different numbers print differently |
| Snapshot.CandidatesDistinct | app/snapshot.py:19-23 | `base`, `base_1`, `base_2`, … are pairwise distinct names |
| Snapshot.Tried | app/snapshot.py:19-23 | the set of the first `n` names tried holds each of them |
| Snapshot.NotYetTried | app/snapshot.py:19-23 | a later name is not among the earlier ones |
| Snapshot.FewerUntried | app/snapshot.py:21-23 | each name found taken shrinks the set of taken names not yet tried, so the search ends |
| Snapshot.SnapshotManager.Create | app/snapshot.py:11-25 | returns a name not in the backup directory: the first free one of snapshot_<stamp>, snapshot_<stamp>_1, …; it stores a copy of the source tree there, changes no other entry and leaves the source unchanged |
| Snapshot.SnapshotManager.GetLatest | app/snapshot.py:27-37 | `None` iff no directory named snapshot_… exists; otherwise such a directory with the greatest mtime, never a plain file or another name |
| Snapshot.SnapshotManager.Restore | app/snapshot.py:39-45 | the source directory, whether or not it existed, becomes the snapshot's tree; the backups are unchanged |
| Snapshot.CreateTwice | app/snapshot.py:19-24 | two snapshots with the same stamp get distinct new names, and no existing snapshot is overwritten |
| Chunks.CleanAppend | app/self_improve.py:62-63 | cleaning works line by line |
| Chunks.CleanKeeps | app/self_improve.py:62-63 | a line survives cleaning iff its stripped form does not start with a noise prefix |
| Chunks.FirstMarker | app/self_improve.py:66-76 | the index of the first marker line, with no marker line before it |
| Chunks.FirstMarkerIs | app/self_improve.py:66-76 | the first marker line is determined by the marker lines around it |
| Chunks.FlattenAppend | app/self_improve.py:66-76 | flattening distributes over concatenation |
| Chunks.ChunksFromCover | app/self_improve.py:66-76 | from a marker line on, the chunks are well formed and flatten back to the lines |
| Chunks.ChunksCover | app/self_improve.py:66-76 | every chunk is one marker line followed by non-marker lines; lines before the first marker are discarded; the chunks concatenate to the lines from the first marker on |
| Chunks.ChunkingUnique | app/self_improve.py:66-76 | there is only one way to cut lines into chunks |
| Chunks.SplitChunks | app/self_improve.py:66-76 | the splitting loop computes exactly the chunks of the lines |
| Chunks.SplittingEnd | app/self_improve.py:75-76 | closing the last chunk completes the chunks |
| Chunks.SelectedAppend | app/self_improve.py:79-90 | filtering works chunk by chunk |
| Chunks.SelectedKeeps | app/self_improve.py:79-90 | a piece is kept iff it comes from a chunk the test accepts |
| Chunks.SelectChunks | app/self_improve.py:79-90 | the filter loop keeps, in order, exactly the accepted chunks' texts |
| Chunks.HeaderNamesAt | backups/snapshot_20250523_150853/self_improve.py:67 | a header names path `p` iff it starts `diff --git a/app/`, `p` is at index 13, and `.py b/` follows `p` |
| Chunks.AppPathLength | backups/snapshot_20250523_150853/self_improve.py:67 | `app/.*\.py` has at least seven characters |
| Chunks.MatchAppPath | backups/snapshot_20250523_150853/self_improve.py:67-70 | `re.match(r'diff --git a/(app/.*\.py) b/')`: a captured path satisfies the pattern and is the longest that does; `None` iff no path does |
| Chunks.SearchTwoAppPathsSound | app/self_improve.py:82-83 | `re.search(r'diff --git a/(app/.*\.py) b/(app/.*\.py)')` finds a match iff one exists anywhere in the header |
| CodeContext.PyFiles | app/self_improve.py:25-29 | the walk lists exactly the tree's `.py` files it visits, in order |
| CodeContext.PyFilesAppend | app/self_improve.py:25-29 | the walk distributes over the visit order |
| CodeContext.GatherBlocks | backups/snapshot_20250523_144918/self_improve.py:19-30 | one `### BEGIN`/`### END` block per visited Python file, in visit order, with its whole content |
| CodeContext.ContextCarriesFile | backups/snapshot_20250523_144918/self_improve.py:19-30 | the context carries every visited Python file's block |
| CodeContext.GatherContext | backups/snapshot_20250523_144918/self_improve.py:19-30 | the gathering loop's output is the joined blocks |
| CodeContext.GatherFiles | app/self_improve.py:23-36 | the paths and `### FILE:` snippets of exactly the visited Python files, pairwise aligned and in order |
| Memory.BulletsListFeature | app/self_improve.py:50 | every feature request has its `- (id, 'text')` line in the list |
| Memory.Store.SaveMessage | app/memory.py:36-43 | appends one message and leaves the features unchanged |
| Memory.Store.SaveFeature | app/memory.py:52-61 | adds the request with the next id unless the description is already stored (a duplicate insert is rolled back); ids stay increasing and descriptions unique |
| Patching.TransactionAtomic | backups/snapshot_20250523_150853/self_improve.py:90-114 | a cycle succeeds iff dry-run, apply and tests all exit 0; success leaves the patched tree, failure the tree the cycle started from |
| Patching.RestoreApp | app/self_improve.py:121-123 | `_restore`: app/ becomes the snapshot's tree; backups unchanged |
| Patching.ApplyWithRollback | backups/snapshot_20250523_150853/self_improve.py:90-114 | dry-run failure returns false with the tree untouched; apply or test failure restores the cycle's snapshot and returns false; otherwise true with the patched tree |
| SelfImprove.PromptShowsAll | app/self_improve.py:22-56 | the prompt names every visited Python file, carries its content, and lists every feature request |
| SelfImprove.PromptListsFile | app/self_improve.py:35-47 | the prompt names each visited Python file |
| SelfImprove.FileListListsFile | app/self_improve.py:35 | the file list names each visited Python file |
| SelfImprove.PromptCarriesFile | app/self_improve.py:32-48 | the prompt carries each visited file's `### FILE:` block |
| SelfImprove.PromptListsFeature | app/self_improve.py:49-50 | the prompt lists each feature request |
| SelfImprove.NormaliseKeeps | app/self_improve.py:62-90 | the chunks are well formed and cover the cleaned reply from its first `diff --git ` line; the diff consists of exactly the chunks whose header has two app/….py paths, unchanged |
| SelfImprove.Classify | app/self_improve.py:111-116 | exit 0 gives 'Success', 1 or negative gives 'Partial', 2 or more gives 'Fail' |
| SelfImprove.BlankDiffAborts | app/self_improve.py:90-94 | an empty or blank diff returns `False` with the tree untouched, whatever `patch` and the helpers would do |
| SelfImprove.DryRunFailureKeepsTree | app/self_improve.py:96-102 | a failing dry-run returns `False` with the tree untouched, whatever the helpers would do |
| SelfImprove.OutcomeRange | app/self_improve.py:92-119 | the cycle returns only `False`, 'Success', 'Partial' or 'Fail'; never `True` |
| SelfImprove.OutcomeOfTests | app/self_improve.py:104-119 | after a passing dry-run: the label of the test exit status when apply returns truthy and the tests run, otherwise 'Fail' (including raised helpers) |
| SelfImprove.FailureKeepsPatchedTree | app/self_improve.py:104-123 | nothing is restored: a failing cycle leaves the tree the helpers left |
| SelfImprove.BuildPrompt | app/self_improve.py:22-56 | the gathering loop and the concatenation give the prompt |
| SelfImprove.NormaliseReply | app/self_improve.py:61-90 | the clean, split and filter steps give the normalised diff |
| SelfImprove.ApplyDiff | app/self_improve.py:92-119 | the returned value and tree are those of the empty check, dry-run, apply and tests; the backups are unchanged |
| SelfImprove.SelfImproveEngine.SelectBackup | app/self_improve.py:16-20 | without `skip_backups`, a new snapshot; with it, the newest existing snapshot, or a new one when none exists; app/ unchanged |
| SelfImprove.SelfImproveEngine.RunCycle | app/self_improve.py:15-119 | the result and the tree are those of one cycle on the starting tree; the backups gain exactly the new snapshot, or are unchanged when one is reused |
| SelfImprove090030.FenceBodyIsLeftmostShortest | backups/snapshot_20250523_090030/self_improve.py:27-29 | `re.search(r"```diff(.*?)```", re.S)`: a block is found iff a match exists, and it is the leftmost match, shortest for its start |
| SelfImprove090030.FirstPatchLine | backups/snapshot_20250523_090030/self_improve.py:33-37 | the index of the first line starting with `diff `, `--- ` or `*** Begin Patch`, none before it |
| SelfImprove090030.FindStart | backups/snapshot_20250523_090030/self_improve.py:32-37 | the search loop returns the first patch line, or 0 when there is none |
| SelfImprove090030.ExtractDiff | backups/snapshot_20250523_090030/self_improve.py:26-38 | the extraction step computes the fenced body, or the fallback, stripped |
| SelfImprove090030.FallbackIsWholeReply | backups/snapshot_20250523_090030/self_improve.py:30-38 | for a reply whose only line break is "\n", without a fence or a patch line, the whole reply, stripped, is the diff |
| SelfImprove090030.FallbackFromFirstPatchLine | backups/snapshot_20250523_090030/self_improve.py:30-38 | without a fence, the diff starts at the first patch line |
| SelfImprove090030.CycleAtomic | backups/snapshot_20250523_090030/self_improve.py:40-73 | a cycle either succeeds on a non-empty diff with passing tests and the patched tree, or leaves the starting tree |
| SelfImprove090030.SelfImproveEngine.RunCycle | backups/snapshot_20250523_090030/self_improve.py:13-73 | the result and tree are those of one cycle, with strip level 1 iff the diff starts `diff `; exactly one new snapshot is added |
| SelfImprove140649.NoiseIsFenceOrComment | backups/snapshot_20250523_140649/self_improve.py:30-33 | a line is dropped iff its stripped form starts with "```" or "#" |
| SelfImprove140649.CleanLines | backups/snapshot_20250523_140649/self_improve.py:27-34 | the cleaning loop keeps exactly the other lines, in order |
| SelfImprove140649.FirstDiffLine | backups/snapshot_20250523_140649/self_improve.py:37-48 | the first line that is a `diff ` line containing ".py" or a `--- a/app/` line ending in ".py" |
| SelfImprove140649.ExtractDiffLines | backups/snapshot_20250523_140649/self_improve.py:37-48 | the extraction loop keeps every line from that first line on, unfiltered |
| SelfImprove140649.NothingExtractedNoDiff | backups/snapshot_20250523_140649/self_improve.py:49-55 | the stripped diff is empty iff no line was extracted |
| SelfImprove140649.StripLevelFollowsFirstLine | backups/snapshot_20250523_140649/self_improve.py:49-58 | the strip level is 1 iff the first extracted line is a `diff ` line |
| SelfImprove140649.DiffLineOpensText | backups/snapshot_20250523_140649/self_improve.py:41-58 | a text opened by a `diff ` line with ".py" still starts `diff ` when stripped |
| SelfImprove140649.AppLineOpensText | backups/snapshot_20250523_140649/self_improve.py:43-58 | a text opened by a `--- a/app/` line is non-empty and does not start `diff ` when stripped |
| SelfImprove140649.CycleAtomic | backups/snapshot_20250523_140649/self_improve.py:53-87 | success leaves the patched tree on which the tests pass; any other result leaves the starting tree |
| SelfImprove140649.NothingExtractedAborts | backups/snapshot_20250523_140649/self_improve.py:52-55 | a reply without a starting line returns `False` before `patch` |
| SelfImprove140649.SelfImproveEngine.RunCycle | backups/snapshot_20250523_140649/self_improve.py:13-87 | the result and tree are those of one cycle; exactly one new snapshot is added |
| SelfImprove144918.PromptCarriesFile | backups/snapshot_20250523_144918/self_improve.py:19-40 | the prompt carries every visited Python file's block |
| SelfImprove144918.PromptListsFeatures | backups/snapshot_20250523_144918/self_improve.py:33-40 | the prompt lists every feature request; with none, it ends with the instruction |
| SelfImprove144918.NotesKept | backups/snapshot_20250523_144918/self_improve.py:46 | "Note:" lines are not dropped in this version |
| SelfImprove144918.HeaderIsGit | backups/snapshot_20250523_144918/self_improve.py:66 | a header that names a path is a git header |
| SelfImprove144918.PlainDiffChunkDropped | backups/snapshot_20250523_144918/self_improve.py:52-68 | a chunk opened by a non-git `diff ` line is dropped whole |
| SelfImprove144918.NormaliseKeeps | backups/snapshot_20250523_144918/self_improve.py:63-73 | the kept pieces are exactly the chunks whose header names an existing app/….py path, unchanged |
| SelfImprove144918.KeptPiecesStartWithHeader | backups/snapshot_20250523_144918/self_improve.py:63-75 | the first kept piece starts with its git header |
| SelfImprove144918.KeptPieceStartsWithHeader | backups/snapshot_20250523_144918/self_improve.py:66-71 | a kept piece starts with `diff --git a/` |
| SelfImprove144918.EmptyIffNoneKept | backups/snapshot_20250523_144918/self_improve.py:75-80 | the stripped diff is empty iff no chunk is kept, and otherwise starts with a git header |
| SelfImprove144918.CycleAtomic | backups/snapshot_20250523_144918/self_improve.py:78-110 | success leaves the patched tree; any other result leaves the starting tree; no kept chunk means `False` before `patch` |
| SelfImprove144918.SelfImproveEngine.RunCycle | backups/snapshot_20250523_144918/self_improve.py:14-110 | the result and tree are those of one cycle; exactly one new snapshot is added |
| SelfImprove150435.PromptCarriesFile | backups/snapshot_20250523_150435/self_improve.py:19-41 | the prompt carries every visited Python file's block |
| SelfImprove150435.PromptListsFeatures | backups/snapshot_20250523_150435/self_improve.py:33-41 | the prompt lists every feature request; with none, it ends with the instruction |
| SelfImprove150435.LastTwo | backups/snapshot_20250523_150435/self_improve.py:69 | `xs[-2:]` is the last `min(2, len)` items |
| SelfImprove150435.MarkerLineNormalises | backups/snapshot_20250523_150435/self_improve.py:53-76 | a marker line is never rewritten as a body line |
| SelfImprove150435.NormHeaderSameSides | backups/snapshot_20250523_150435/self_improve.py:57-60 | a matching header names its path on both sides after rewriting |
| SelfImprove150435.SideTargetOneSlash | backups/snapshot_20250523_150435/self_improve.py:69-74 | the rewritten `---`/`+++` target holds at most one "/", so app/sub/x.py becomes sub/x.py |
| SelfImprove150435.SideTargetIsSuffix | backups/snapshot_20250523_150435/self_improve.py:69-74 | the rewritten target is a suffix of the path the line named |
| SelfImprove150435.NormaliseHeader | backups/snapshot_20250523_150435/self_improve.py:56-63 | header rewriting: the path on both sides when the pattern matches, otherwise the line unchanged |
| SelfImprove150435.NormaliseBodyLine | backups/snapshot_20250523_150435/self_improve.py:64-76 | rewrites `--- `/`+++ ` lines to their last two segments; raises when there is no second word |
| SelfImprove150435.SplitNormalise | backups/snapshot_20250523_150435/self_improve.py:49-78 | raises iff some line from the first marker on is a `---`/`+++` line without a second word; otherwise gives the chunks, each normalised |
| SelfImprove150435.NormaliseKeeps | backups/snapshot_20250523_150435/self_improve.py:80-91 | the kept pieces are exactly the normalised chunks whose header names an existing app/….py path |
| SelfImprove150435.KeptPiecesNonEmpty | backups/snapshot_20250523_150435/self_improve.py:89-97 | a kept piece is never empty |
| SelfImprove150435.CycleAtomic | backups/snapshot_20250523_150435/self_improve.py:93-123 | success leaves the patched tree; any other result, including a raise, leaves the starting tree; no kept chunk means `False` before `patch` |
| SelfImprove150435.SelfImproveEngine.RunCycle | backups/snapshot_20250523_150435/self_improve.py:14-123 | the result and tree are those of one cycle; exactly one new snapshot is added |
| SelfImprove150853.PromptCarriesFile | backups/snapshot_20250523_150853/self_improve.py:19-42 | the prompt carries every visited Python file's block |
| SelfImprove150853.PromptListsFeatures | backups/snapshot_20250523_150853/self_improve.py:33-42 | the prompt lists every feature request; with none, it ends with the instruction |
| SelfImprove150853.HeaderIsNoFileLine | backups/snapshot_20250523_150853/self_improve.py:73-79 | the new header is not rewritten again as a `---`/`+++` line |
| SelfImprove150853.NormalisedNamesOnePath | backups/snapshot_20250523_150853/self_improve.py:72-79 | the header and every `---`/`+++` line name the matched path; all other lines, and the number and place of those lines, are unchanged |
| SelfImprove150853.NormaliseChunk | backups/snapshot_20250523_150853/self_improve.py:72-79 | the in-place rewrite loop turns the array into the normalised chunk |
| SelfImprove150853.KeepChunk | backups/snapshot_20250523_150853/self_improve.py:65-80 | one chunk: its normalised text iff its header names an existing app/….py path |
| SelfImprove150853.FilterChunks | backups/snapshot_20250523_150853/self_improve.py:63-82 | the filter loop keeps exactly the accepted chunks, normalised, in order |
| SelfImprove150853.NormaliseKeeps | backups/snapshot_20250523_150853/self_improve.py:47-84 | every piece is a reply chunk whose header names an existing path, normalised to that path, and every such chunk contributes its piece |
| SelfImprove150853.KeptPiecesNonEmpty | backups/snapshot_20250523_150853/self_improve.py:73-80 | a kept piece is never empty |
| SelfImprove150853.EmptyIffNoneKept | backups/snapshot_20250523_150853/self_improve.py:84-88 | the diff is empty iff no chunk is kept |
| SelfImprove150853.CycleAtomic | backups/snapshot_20250523_150853/self_improve.py:86-114 | success leaves the patched tree; any other result leaves the starting tree; no kept chunk means `False` before `patch` |
| SelfImprove150853.SelfImproveEngine.RunCycle | backups/snapshot_20250523_150853/self_improve.py:14-114 | the result and tree are those of one cycle; exactly one new snapshot is added |
| EnvRules.StepResult | app/self_improve_env.py:52-55 | during warm-up no cycle runs and the result is `True`; a raising cycle counts as `False` |
| EnvRules.Reward | app/self_improve_env.py:61-76 | the reward is 1.0, 0.5, 0.0, -0.01 or -1.0. Warm-up: 1 on the terminal step, else 0. After warm-up: non-terminal -0.01; terminal +1 iff `True` or 'success', +0.5 iff 'partial', -1 otherwise |
| EnvRules.LiveTerminalPenalty | app/self_improve_env.py:66-76 | with the live engine after warm-up, every terminal step earns -1 and every other step -0.01, whatever the cycle did |
| Agent.FullPromptCarriesPrompt | app/agent.py:115 | the posted prompt carries the caller's prompt after a line break |
| Agent.FullPromptCarriesFile | app/agent.py:101-115 | the posted prompt carries every visited Python file's block |
| Agent.FullPromptListsFeatures | app/agent.py:116-119 | the posted prompt lists every feature request; with none, it ends with the caller's prompt |
| Agent.CollectedNonEmpty | app/agent.py:151-152 | only non-empty contents are collected |
| Agent.CollectedAppend | app/agent.py:141-154 | lines not marked done contribute their contents in arrival order |
| Agent.DoneEndsStream | app/agent.py:153-154 | nothing after the first done line is read; that line's content is included |
| Agent.EmptyReplyMeansBlankText | app/agent.py:156 | the reply is empty iff nothing was collected and the response text is blank |
| Agent.CollectedAt | app/agent.py:141-154 | one step of the stream loop |
| Agent.AssembleStream | app/agent.py:131-156 | the stream loop gives the joined collected contents, or the stripped response text when nothing was collected |
| Agent.AskerModes | app/agent.py:121-129 | without the real LLM every prompt gets the stub diff, whatever the endpoint; with it, the call raises iff the post fails |
| Agent.Route | app/agent.py:75-82 | a feature request iff the lower-cased text starts with either request phrase; self-improvement iff it equals "self improve"; the request check comes first |
| Agent.ImprovementAlwaysReportsFailure | app/agent.py:83-93 | a self-improvement request that completes is answered "Self-improvement failed; rolled back." |
| Agent.LiveRewardAfterWarmup | app/self_improve_env.py:53-76 | the environment's cycle after warm-up earns -1 on the terminal step and -0.01 otherwise |
| Agent.Agent.AskLlm | app/agent.py:100-156 | the reply to the full prompt: the offline patch when the post fails without the real LLM, a raise when it fails with it, otherwise the assembled stream |
| Agent.Agent.CycleOnce | app/agent.py:83 | one live cycle on app/, asking the agent's LLM; backups/ gains exactly one new snapshot of the starting tree, also when the LLM call raises |
| Agent.Agent.ImproveSelf | app/agent.py:82-93 | two cycles, the second on the tree the first left; the reply is from the second result (always the failure message); the second model's temperature is set between them; backups/ gains one new snapshot when the first cycle raises and two otherwise, each a copy of the tree its cycle started on |
| Agent.Agent.RequestFeature | app/agent.py:77-79 | saves the request once and replies with the acknowledgement quoting the text; app/ and backups/ unchanged |
| Agent.Agent.Converse | app/agent.py:96-98 | the LLM's reply to the text, logged as an "ai" message; app/ and backups/ unchanged |
| Agent.Agent.Respond | app/agent.py:74-98 | dispatch by route: feature request, self-improvement or chat, with the store and app/ changed only as each branch does; backups/ unchanged for feature requests and chat, and one or two new snapshots for self-improvement |
| Agent.Agent.Handle | app/agent.py:60-98 | strips and logs the input, resets the environment (one more episode, step 0, reward 0, pending = number of requests), picks the temperature (policy action or 0.5), then answers by route; backups/ unchanged for feature requests and chat, one or two new snapshots for self-improvement |
| Agent.SelfImproveEnv.Reset | app/self_improve_env.py:33-44 | episode +1, step 0, last reward 0, pending = number of requests; observation `[0, pending, 0/max_steps]` |
| Agent.SelfImproveEnv.StepOutcome | app/self_improve_env.py:52-55 | during warm-up `True` with app/ and backups/ untouched; afterwards one cycle on app/, a raise counting as `False`, and one new snapshot in backups/ |
| Agent.SelfImproveEnv.Step | app/self_improve_env.py:46-89 | sets the temperature; steps +1; terminated iff steps ≥ max; during warm-up no cycle and the warm-up reward; otherwise one cycle, its reward and one new snapshot in backups/; observation `[reward, pending, step_count]` |

## Left out

- I/O is not modelled: `print` output, file reading errors (the walk skips unreadable files), and errors while copying or deleting directories. The tree is a map that can always be read.
- The HTTP call and its JSON decoding are not modelled. The chat endpoint returns lines that are already decoded. A line that is not a JSON object, or whose `message` is not an object, is not distinguished from a skipped line. The `iter_lines` signature fallbacks are left out.
- Agent.Agent.AskLlm: only the agent's own method. An agent built without the real LLM never reaches it, because the stub hides it.
- The walk order of `os.walk` is an input. An order that lists a path twice would list its file twice.
- `os.path.join` / backslash replacement: paths are POSIX paths "app/<relative path>".
- Text.Lower: lowers ASCII letters only, not all of Unicode.
- Memory.FeatureText: the tuple `(id, 'description')` is written without Python's escaping of quotes and backslashes inside the description.
- The database (SQLAlchemy), `list_messages`, `delete_feature` and message ids are not modelled. The store is a sequence with add-if-absent.
- Snapshot.SnapshotManager.Create: requires app/ to exist, where `copytree` would raise. The UTC time formatting and the directory mtime are inputs.
- Snapshot.SnapshotManager.GetLatest: among snapshots with equal modification times it may return any of them, where Python's stable sort keeps `listdir` order.
- The agent's own `SnapshotManager` is built but never used.
- The PPO policy and model are given functions. Loading, training and `check_for_correct_spaces` are left out, as are numpy float32 rounding of observations and actions and the Gymnasium `reset(seed)`.
- Agent.SelfImproveEnv: `last_reward` and `pending` do not exist before the first `reset` in the source. Here they are `None` until then.
- Agent.Agent.ImproveSelf: the observation for the second model uses last reward 0, as `getattr(self, "last_reward", 0)` always yields for the agent. The number of pending requests is the feature count.
- The temperature is not passed to the LLM (the source does not pass it either).
- The `patch` program and the test command are functions of their input and tree, returning exit codes. Patch semantics, and a missing `patch` binary, are not modelled.
- The live engine's `_apply_patch` and `_run_tests` are not defined in its class; here they are arbitrary functions that may raise. With the class as written, both calls raise `AttributeError`, which the engine turns into 'Fail'.
- GUI, CLI entry points, training scripts, plotting and the HTTP client wrapper are not part of this model.
- Backup copies that repeat an included algorithm are not modelled separately.
