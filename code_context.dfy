/** The code context the prompts carry: the Python files `os.walk('app')` visits, each shown
    with its path and full content. */
module CodeContext {
  import opened Text
  import opened Snapshot

  /** `rel` (a path relative to app/) is a file of the tree whose name ends in ".py". */
  predicate IsPyFile(tree: Tree, rel: string) {
    rel in tree && EndsWith(rel, ".py")
  }

  /** The Python files the walk visits, in the order it visits them. The walk order over the
      tree's paths is an input: `order` lists paths relative to app/, and entries that are not
      Python files of the tree are passed over. */
  function PyFiles(tree: Tree, order: seq<string>): (files: seq<string>)
    ensures forall i :: 0 <= i < |files| ==> IsPyFile(tree, files[i])
    ensures forall rel <- order :: IsPyFile(tree, rel) ==> rel in files
    ensures |files| <= |order|
  {
    if order == [] then []
    else (if IsPyFile(tree, order[0]) then [order[0]] else []) + PyFiles(tree, order[1..])
  }

  lemma {:induction false} PyFilesAppend(tree: Tree, a: seq<string>, b: seq<string>)
    ensures PyFiles(tree, a + b) == PyFiles(tree, a) + PyFiles(tree, b)
  {
    if a == [] {
      assert a + b == b;
    } else {
      assert (a + b)[1..] == a[1..] + b;
      PyFilesAppend(tree, a[1..], b);
    }
  }

  /** The path the walk reports for `rel`. */
  function AppPath(rel: string): string {
    "app/" + rel
  }

  /** The context block of one file: "### BEGIN <path>", the content, "### END <path>". */
  function BeginEndBlock(tree: Tree, rel: string): string
    requires rel in tree
  {
    "### BEGIN " + AppPath(rel) + "\n" + tree[rel] + "\n### END " + AppPath(rel) + "\n"
  }

  /** The loop that reads every Python file the walk visits into a context block. */
  method GatherBlocks(tree: Tree, order: seq<string>) returns (blocks: seq<string>)
    ensures |blocks| == |PyFiles(tree, order)|
    ensures forall i :: 0 <= i < |blocks| ==> blocks[i] == BeginEndBlock(tree, PyFiles(tree, order)[i])
  {
    blocks := [];
    for n := 0 to |order|
      invariant |blocks| == |PyFiles(tree, order[..n])|
      invariant forall i :: 0 <= i < |blocks| ==> blocks[i] == BeginEndBlock(tree, PyFiles(tree, order[..n])[i])
    {
      PyFilesAppend(tree, order[..n], [order[n]]);
      assert order[..n + 1] == order[..n] + [order[n]];
      var rel := order[n];
      if IsPyFile(tree, rel) {
        blocks := blocks + [BeginEndBlock(tree, rel)];
      }
    }
    assert order[..|order|] == order;
  }

  /** The blocks of all the Python files the walk visits, joined. */
  function BeginEndContext(tree: Tree, order: seq<string>): string {
    var files := PyFiles(tree, order);
    Join(seq(|files|, i requires 0 <= i < |files| => BeginEndBlock(tree, files[i])), "")
  }

  /** The context carries every Python file the walk visits, with its path and whole content. */
  lemma ContextCarriesFile(tree: Tree, order: seq<string>, rel: string)
    requires rel in order && IsPyFile(tree, rel)
    ensures Contains(BeginEndContext(tree, order), BeginEndBlock(tree, rel))
  {
    var files := PyFiles(tree, order);
    var i :| 0 <= i < |files| && files[i] == rel;
    var parts := seq(|files|, i requires 0 <= i < |files| => BeginEndBlock(tree, files[i]));
    assert parts[i] == BeginEndBlock(tree, rel);
    JoinContainsPart(parts, "", i);
  }

  /** The context the gathering loop produces. */
  method GatherContext(tree: Tree, order: seq<string>) returns (context: string)
    ensures context == BeginEndContext(tree, order)
  {
    var blocks := GatherBlocks(tree, order);
    var files := PyFiles(tree, order);
    assert blocks == seq(|files|, i requires 0 <= i < |files| => BeginEndBlock(tree, files[i]));
    context := Join(blocks, "");
  }

  /** The live engine's block of one file: "### FILE: <path>" and the content. */
  function FileBlock(tree: Tree, rel: string): string
    requires rel in tree
  {
    "### FILE: " + AppPath(rel) + "\n" + tree[rel] + "\n"
  }

  /** The live engine's loop, which collects the list of file paths and their blocks together. */
  method GatherFiles(tree: Tree, order: seq<string>) returns (paths: seq<string>, snippets: seq<string>)
    ensures |paths| == |snippets| == |PyFiles(tree, order)|
    ensures forall i :: 0 <= i < |paths| ==>
      paths[i] == AppPath(PyFiles(tree, order)[i]) && snippets[i] == FileBlock(tree, PyFiles(tree, order)[i])
  {
    paths, snippets := [], [];
    for n := 0 to |order|
      invariant |paths| == |snippets| == |PyFiles(tree, order[..n])|
      invariant forall i :: 0 <= i < |paths| ==>
        paths[i] == AppPath(PyFiles(tree, order[..n])[i]) && snippets[i] == FileBlock(tree, PyFiles(tree, order[..n])[i])
    {
      var rel := order[n];
      ghost var before := PyFiles(tree, order[..n]);
      PyFilesAppend(tree, order[..n], [rel]);
      assert order[..n + 1] == order[..n] + [rel];
      assert PyFiles(tree, order[..n + 1]) == before + PyFiles(tree, [rel]);
      if IsPyFile(tree, rel) {
        assert PyFiles(tree, [rel]) == [rel];
        paths := paths + [AppPath(rel)];
        snippets := snippets + [FileBlock(tree, rel)];
      } else {
        assert PyFiles(tree, [rel]) == [];
      }
    }
    assert order[..|order|] == order;
  }
}
