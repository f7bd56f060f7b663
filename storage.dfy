/**
 Files on disk, seen as a map from path to content, and the path arithmetic of
 Python's `os.path.join` (POSIX flavour) used to place them.
 */
module Storage {
  import opened Strings

  /** `os.path.join(a, b)`: an absolute `b` replaces `a`; otherwise one `/` is
      put between them unless `a` is empty or already ends with one. */
  function PathJoin(a: string, b: string): string
  {
    if StartsWith(b, "/") then b
    else if a == "" || EndsWith(a, "/") then a + b
    else a + "/" + b
  }

  /** `os.path.join(root, dataset_id, file_name)`, the layout of both the
      SQL output tree and the config tree. */
  function DatasetFile(root: string, datasetId: string, fileName: string): string
  {
    PathJoin(PathJoin(root, datasetId), fileName)
  }

  /** A path component: non-empty and free of `/`. */
  predicate IsComponent(s: string)
  {
    s != [] && '/' !in s
  }

  /** The prefix every file under `root` gets before its dataset directory. */
  function RootPrefix(root: string): string
  {
    if root == "" || EndsWith(root, "/") then root else root + "/"
  }

  lemma DatasetFileShape(root: string, datasetId: string, fileName: string)
    requires IsComponent(datasetId) && IsComponent(fileName)
    ensures DatasetFile(root, datasetId, fileName) == RootPrefix(root) + (datasetId + "/" + fileName)
  {
    NoLeadingSlash(datasetId);
    NoLeadingSlash(fileName);
    var p := RootPrefix(root);
    assert PathJoin(root, datasetId) == p + datasetId;
    NoTrailingSlash(p, datasetId);
    assert PathJoin(p + datasetId, fileName) == p + datasetId + "/" + fileName;
    assert p + datasetId + "/" + fileName == p + (datasetId + "/" + fileName);
  }

  lemma NoLeadingSlash(c: string)
    requires IsComponent(c)
    ensures !StartsWith(c, "/")
  {
    assert c[..1][0] == c[0];
  }

  lemma NoTrailingSlash(p: string, c: string)
    requires IsComponent(c)
    ensures var d := p + c; d != "" && !EndsWith(d, "/")
  {
    var d := p + c;
    assert d[|d| - 1] == c[|c| - 1];
    assert d[|d| - 1..][0] == d[|d| - 1];
  }

  lemma SplitAtSlash(a1: string, b1: string, a2: string, b2: string)
    requires '/' !in a1 && '/' !in a2
    requires a1 + "/" + b1 == a2 + "/" + b2
    ensures a1 == a2 && b1 == b2
  {
    var s := a1 + "/" + b1;
    assert |a1| == |a2| by {
      assert s[|a1|] == '/' && (a2 + "/" + b2)[|a2|] == '/';
      assert forall k :: 0 <= k < |a1| ==> s[k] == a1[k];
      assert forall k :: 0 <= k < |a2| ==> s[k] == a2[k];
    }
    assert a1 == s[..|a1|] && a2 == (a2 + "/" + b2)[..|a2|];
    assert b1 == s[|a1| + 1..] && b2 == (a2 + "/" + b2)[|a2| + 1..];
  }

  /** Distinct (dataset, file) pairs land on distinct paths under one root. */
  lemma DatasetFileInjective(root: string, d1: string, f1: string, d2: string, f2: string)
    requires IsComponent(d1) && IsComponent(f1) && IsComponent(d2) && IsComponent(f2)
    requires DatasetFile(root, d1, f1) == DatasetFile(root, d2, f2)
    ensures d1 == d2 && f1 == f2
  {
    DatasetFileShape(root, d1, f1);
    DatasetFileShape(root, d2, f2);
    var p := RootPrefix(root);
    var x1, x2 := d1 + "/" + f1, d2 + "/" + f2;
    assert x1 == (p + x1)[|p|..];
    assert x2 == (p + x2)[|p|..];
    SplitAtSlash(d1, f1, d2, f2);
  }

  /** A directory tree of text files, keyed by path. */
  class FileStore {
    var files: map<string, string>

    constructor (initial: map<string, string>)
      ensures files == initial
    {
      files := initial;
    }

    /** `open(path, 'w').write(text)`: the whole file is replaced. */
    method Write(path: string, text: string)
      modifies this
      ensures files == old(files)[path := text]
    {
      files := files[path := text];
    }
  }
}
