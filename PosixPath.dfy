/** `os.path.basename` and `os.path.join` on POSIX paths, and the local file
    system the uploads read from, given as data. */
module PosixPath {

  /** What the client can learn about local files: the paths `open` and
      `os.path.isfile` accept, and for each directory its `os.listdir` entries
      in the order the listing returns them. */
  datatype FileSystem = FileSystem(files: set<string>, dirs: map<string, seq<string>>)

  /** The part of `p` after its last '/': `p[p.rfind('/') + 1:]`. */
  function Basename(p: string): (r: string)
    ensures '/' !in r
    ensures |r| <= |p| && p[|p| - |r|..] == r
    ensures |r| < |p| ==> p[|p| - |r| - 1] == '/'
  {
    if |p| == 0 || p[|p| - 1] == '/' then []
    else Basename(p[..|p| - 1]) + [p[|p| - 1]]
  }

  /** `os.path.join(a, b)`: an absolute `b` replaces `a`; otherwise a '/' is
      put between them unless `a` is empty or already ends in one. */
  function Join(a: string, b: string): (r: string)
    ensures |b| > 0 && b[0] == '/' ==> r == b
    ensures !(|b| > 0 && b[0] == '/') ==> |a| <= |r| && r[..|a|] == a
    ensures |b| <= |r| && r[|r| - |b|..] == b
  {
    if |b| > 0 && b[0] == '/' then b
    else if a == [] || a[|a| - 1] == '/' then a + b
    else a + "/" + b
  }

  /** The base name of a path is the name after the last separator whatever
      comes before it. */
  lemma {:induction false} BasenameAfterSeparator(dir: string, name: string)
    requires '/' !in name
    requires dir == [] || dir[|dir| - 1] == '/'
    ensures Basename(dir + name) == name
  {
    if name == [] {
      assert dir + name == dir;
    } else {
      var init := name[..|name| - 1];
      var last := name[|name| - 1];
      assert name == init + [last];
      assert last in name;
      assert '/' !in init;
      assert dir + name == (dir + init) + [last];
      BasenameAfterSeparator(dir, init);
      BasenameSnoc(dir + init, last);
    }
  }

  /** A character other than '/' appended to a path extends its base name. */
  lemma BasenameSnoc(p: string, c: char)
    requires c != '/'
    ensures Basename(p + [c]) == Basename(p) + [c]
  {
    var q := p + [c];
    assert q[..|q| - 1] == p;
  }

  /** An entry of a directory listing, joined onto the directory, has that
      entry as its base name. */
  lemma BasenameOfJoin(dir: string, entry: string)
    requires '/' !in entry
    ensures Basename(Join(dir, entry)) == entry
  {
    if dir == [] || dir[|dir| - 1] == '/' {
      BasenameAfterSeparator(dir, entry);
    } else {
      assert dir + "/" + entry == (dir + "/") + entry;
      BasenameAfterSeparator(dir + "/", entry);
    }
  }
}
