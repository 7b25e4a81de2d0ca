/** The external tools a self-improvement cycle runs (`patch --dry-run`, `patch`, the test
    command) and the transaction the snapshot-guarded versions of the engine build from them:
    dry-run, apply, test, and restore the cycle's snapshot when apply or test fails. */
module Patching {
  import opened Wrappers
  import opened Text
  import opened Snapshot

  /** What the external tools answer, as functions of what they are given: the exit status of
      `patch -p<strip> --dry-run` fed `diff` on a tree, the exit status of `patch -p<strip>` and the
      tree it leaves, and the exit status of the test command run on a tree. */
  datatype Shell = Shell(
    dryRun: (nat, string, Tree) -> int,
    patch: (nat, string, Tree) -> (int, Tree),
    test: Tree -> int)

  /** The LLM as the engine sees it: the reply to a prompt, `None` when the call raises. */
  type Llm = string -> Option<string>

  /** The strip level the extracting versions pass to `patch`: 1 when the diff starts with a
      `diff ` header (paths carry an a/ or b/ prefix), 0 otherwise. */
  function StripLevel(diff: string): nat {
    if StartsWith(diff, "diff ") then 1 else 0
  }

  /** Dry-run, apply and test of `diff` on `tree`, with `backup` the tree saved at the start of
      the cycle: whether the cycle succeeded, and the tree it leaves behind. */
  function Transaction(diff: string, strip: nat, tree: Tree, backup: Tree, shell: Shell): (bool, Tree)
  {
    if shell.dryRun(strip, diff, tree) != 0 then (false, tree)
    else
      var (code, patched) := shell.patch(strip, diff, tree);
      if code != 0 || shell.test(patched) != 0 then (false, backup) else (true, patched)
  }

  /** All or nothing: when the backup is the tree the cycle started from, a failed transaction
      leaves that tree, and a successful one leaves the patched tree on which the tests pass. */
  lemma TransactionAtomic(diff: string, strip: nat, tree: Tree, shell: Shell)
    ensures !Transaction(diff, strip, tree, tree, shell).0 ==> Transaction(diff, strip, tree, tree, shell).1 == tree
    ensures Transaction(diff, strip, tree, tree, shell).0 <==>
      shell.dryRun(strip, diff, tree) == 0 && shell.patch(strip, diff, tree).0 == 0
      && shell.test(shell.patch(strip, diff, tree).1) == 0
    ensures Transaction(diff, strip, tree, tree, shell).0 ==>
      Transaction(diff, strip, tree, tree, shell).1 == shell.patch(strip, diff, tree).1
  {
  }

  /** `_restore`: the source directory is deleted and replaced by a copy of snapshot `backup`. */
  method RestoreApp(disk: Disk, backup: string)
    requires disk.src.Some? && backup in disk.backups && disk.backups[backup].Directory?
    modifies disk
    ensures disk.src == Some(old(disk.backups[backup].tree))
    ensures disk.backups == old(disk.backups)
  {
    disk.src := None;
    disk.src := Some(disk.backups[backup].tree);
  }

  /** Steps dry-run, apply and test of a snapshot-guarded cycle, on the disk: `backup` names the
      snapshot taken at the start of the cycle. */
  method ApplyWithRollback(disk: Disk, backup: string, diff: string, strip: nat, shell: Shell) returns (ok: bool)
    requires disk.src.Some? && backup in disk.backups && disk.backups[backup].Directory?
    modifies disk
    ensures ok == Transaction(diff, strip, old(disk.src).value, old(disk.backups[backup].tree), shell).0
    ensures disk.src == Some(Transaction(diff, strip, old(disk.src).value, old(disk.backups[backup].tree), shell).1)
    ensures disk.backups == old(disk.backups)
  {
    if shell.dryRun(strip, diff, disk.src.value) != 0 {
      return false;
    }
    var (code, patched) := shell.patch(strip, diff, disk.src.value);
    disk.src := Some(patched);
    if code != 0 {
      RestoreApp(disk, backup);
      return false;
    }
    if shell.test(disk.src.value) != 0 {
      RestoreApp(disk, backup);
      return false;
    }
    return true;
  }
}
