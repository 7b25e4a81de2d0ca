/** The snapshot store of app/snapshot.py: the managed source directory is copied, whole, into a
    fresh uniquely named directory under the backup directory, the newest copy can be looked up
    by modification time, and a copy can be put back in place of the source directory. */
module Snapshot {
  import opened Wrappers
  import opened Text

  /** A directory tree: file paths, relative to the tree's root, mapped to file contents. */
  type Tree = map<string, string>

  /** An entry of the backup directory: a directory holding a tree, or a plain file. Both carry
      their modification time. */
  datatype Entry = Directory(tree: Tree, mtime: int) | RegularFile(mtime: int)

  /** The part of the filesystem the loop works on: the managed source directory (`None` when it
      does not exist) and the entries of the backup directory, by name. */
  class Disk {
    var src: Option<Tree>
    var backups: map<string, Entry>

    constructor (src: Option<Tree>, backups: map<string, Entry>)
      ensures this.src == src && this.backups == backups
    {
      this.src := src;
      this.backups := backups;
    }
  }

  /** Every snapshot directory name starts with this. */
  const SnapshotPrefix := "snapshot_"

  /** The `k`-th name `create` tries for the base name `base`: `base` itself, then `base_1`,
      `base_2`, ... */
  function Candidate(base: string, k: nat): string {
    if k == 0 then base else base + "_" + NatToString(k)
  }

  /** No two tries give the same name, so a fresh name is always found. */
  lemma CandidatesDistinct(base: string, j: nat, k: nat)
    requires j != k
    ensures Candidate(base, j) != Candidate(base, k)
  {
    if j != 0 && k != 0 && Candidate(base, j) == Candidate(base, k) {
      var n := |base| + 1;
      assert NatToString(j) == Candidate(base, j)[n..];
      assert NatToString(k) == Candidate(base, k)[n..];
      NatToStringInjective(j, k);
    }
  }

  /** The names of the first `n` tries. */
  function Tried(base: string, n: nat): (names: set<string>)
    ensures forall j :: 0 <= j < n ==> Candidate(base, j) in names
  {
    if n == 0 then {} else Tried(base, n - 1) + {Candidate(base, n - 1)}
  }

  lemma {:induction false} NotYetTried(base: string, n: nat, k: nat)
    requires n <= k
    ensures Candidate(base, k) !in Tried(base, n)
  {
    if n > 0 {
      NotYetTried(base, n - 1, k);
      CandidatesDistinct(base, n - 1, k);
    }
  }

  /** Each name tried and found taken shrinks the set of taken names not yet tried. */
  lemma FewerUntried(taken: set<string>, base: string, i: nat)
    requires i >= 1 && Candidate(base, i - 1) in taken && Tried(base, i - 1) <= taken
    ensures Tried(base, i) <= taken
    ensures |taken - Tried(base, i)| < |taken - Tried(base, i - 1)|
  {
    NotYetTried(base, i - 1, i - 1);
    var name := Candidate(base, i - 1);
    assert taken - Tried(base, i) == (taken - Tried(base, i - 1)) - {name};
  }

  /** The entry `name` of `backups` is what `get_latest` considers: a directory whose name starts
      with "snapshot_". */
  predicate IsSnapshot(backups: map<string, Entry>, name: string) {
    name in backups && backups[name].Directory? && StartsWith(name, SnapshotPrefix)
  }

  class SnapshotManager {
    const srcDir: string
    const backupDir: string
    /** The filesystem `srcDir` and `backupDir` live on. */
    const disk: Disk

    constructor (srcDir: string, backupDir: string, disk: Disk)
      ensures this.srcDir == srcDir && this.backupDir == backupDir && this.disk == disk
    {
      this.srcDir := srcDir;
      this.backupDir := backupDir;
      this.disk := disk;
    }

    /** Copies the source tree into the first free name among snapshot_<stamp>, snapshot_<stamp>_1,
        snapshot_<stamp>_2, ... of the backup directory and returns that name. `stamp` is the UTC
        time formatted as %Y%m%d_%H%M%S and `mtime` the modification time the copy receives. */
    method Create(stamp: string, mtime: int) returns (name: string)
      requires disk.src.Some?
      modifies disk
      ensures name !in old(disk.backups)
      ensures exists k: nat :: (name == Candidate(SnapshotPrefix + stamp, k) &&
        forall j :: 0 <= j < k ==> Candidate(SnapshotPrefix + stamp, j) in old(disk.backups))
      ensures disk.backups == old(disk.backups)[name := Directory(old(disk.src).value, mtime)]
      ensures disk.src == old(disk.src)
    {
      var base := SnapshotPrefix + stamp;
      var taken := disk.backups.Keys;
      name := base;
      var i: nat := 1;
      while name in taken
        invariant name == Candidate(base, i - 1)
        invariant Tried(base, i - 1) <= taken
        invariant unchanged(disk)
        decreases |taken - Tried(base, i - 1)|
      {
        FewerUntried(taken, base, i);
        name := base + "_" + NatToString(i);
        i := i + 1;
      }
      assert name == Candidate(base, i - 1);
      disk.backups := disk.backups[name := Directory(disk.src.value, mtime)];
    }

    /** The snapshot directory with the latest modification time, or `None` when the backup
        directory holds no directory named snapshot_... */
    method GetLatest() returns (r: Option<string>)
      ensures r.None? <==> forall n :: n in disk.backups ==> !IsSnapshot(disk.backups, n)
      ensures r.Some? ==> IsSnapshot(disk.backups, r.value)
      ensures r.Some? ==> forall n :: IsSnapshot(disk.backups, n) ==>
        disk.backups[n].mtime <= disk.backups[r.value].mtime
    {
      var backups := disk.backups;
      var unseen := backups.Keys;
      r := None;
      while unseen != {}
        invariant unseen <= backups.Keys
        invariant r.None? ==> forall n :: n in backups && n !in unseen ==> !IsSnapshot(backups, n)
        invariant r.Some? ==> IsSnapshot(backups, r.value)
        invariant r.Some? ==> forall n :: n !in unseen && IsSnapshot(backups, n) ==>
          backups[n].mtime <= backups[r.value].mtime
        decreases unseen
      {
        var n :| n in unseen;
        if IsSnapshot(backups, n) && (r.None? || backups[n].mtime > backups[r.value].mtime) {
          r := Some(n);
        }
        unseen := unseen - {n};
      }
    }

    /** Replaces the source directory, whether it exists or not, by a copy of snapshot `name`. */
    method Restore(name: string)
      requires name in disk.backups && disk.backups[name].Directory?
      modifies disk
      ensures disk.src == Some(old(disk.backups[name].tree))
      ensures disk.backups == old(disk.backups)
    {
      if disk.src.Some? {
        disk.src := None;
      }
      disk.src := Some(disk.backups[name].tree);
    }
  }

  /** Two snapshots taken in the same second get different names, and neither replaces an older one. */
  method CreateTwice(m: SnapshotManager, stamp: string, mtime: int) returns (first: string, second: string)
    requires m.disk.src.Some?
    modifies m.disk
    ensures first != second
    ensures first !in old(m.disk.backups) && second !in old(m.disk.backups)
    ensures m.disk.backups == old(m.disk.backups)[first := Directory(old(m.disk.src).value, mtime)]
      [second := Directory(old(m.disk.src).value, mtime)]
  {
    first := m.Create(stamp, mtime);
    second := m.Create(stamp, mtime);
  }
}
