/** `os.path.basename`, `os.path.dirname` and `os.path.join` as CPython's
    `posixpath` defines them for `str` paths. */
module PosixPath {
  import opened Builtins

  const Sep: char := '/'

  /** The part after the last separator: the longest suffix without one. */
  function Basename(p: string): (r: string)
    ensures Sep !in r
    ensures |r| <= |p| && p[|p| - |r|..] == r
    ensures |r| < |p| ==> p[|p| - |r| - 1] == Sep
  {
    p[RFind(p, Sep) + 1..]
  }

  predicate AllSeps(s: string)
  {
    forall i :: 0 <= i < |s| ==> s[i] == Sep
  }

  /** `s.rstrip('/')`. */
  function RStripSeps(s: string): (r: string)
    ensures r == [] || r[|r| - 1] != Sep
    ensures |r| <= |s| && s[..|r|] == r && AllSeps(s[|r|..])
  {
    if s != [] && s[|s| - 1] == Sep then RStripSeps(s[..|s| - 1]) else s
  }

  /** The part up to the last separator, with trailing separators removed unless
      it consists of separators only. */
  function Dirname(p: string): (r: string)
    ensures |r| <= |p| && p[..|r|] == r
    ensures Sep !in p ==> r == []
  {
    var head := p[..RFind(p, Sep) + 1];
    if head != [] && !AllSeps(head) then RStripSeps(head) else head
  }

  /** `os.path.join(a, b)`: an absolute `b` replaces `a`; otherwise one separator
      goes between them unless `a` is empty or already ends with one. */
  function Join(a: string, b: string): (r: string)
    ensures |b| <= |r| && r[|r| - |b|..] == b
    ensures b == [] || b[0] != Sep ==> |a| <= |r| && r[..|a|] == a
  {
    if b != [] && b[0] == Sep then b
    else if a == [] || a[|a| - 1] == Sep then a + b
    else a + [Sep] + b
  }

  /** What `Dirname` can return: empty, separators only, or ending in a non-separator. */
  predicate DirShape(d: string)
  {
    d == [] || AllSeps(d) || d[|d| - 1] != Sep
  }

  lemma DirnameShape(p: string)
    ensures DirShape(Dirname(p))
  {
  }

  /** Joining a separator-free name to a directory and taking the basename gives the name back. */
  lemma BasenameJoin(d: string, f: string)
    requires Sep !in f
    ensures Basename(Join(d, f)) == f
  {
    if d == [] {
      assert Join(d, f) == [] + f;
      RFindAppend([], f, Sep);
    } else if d[|d| - 1] == Sep {
      RFindAppend(d, f, Sep);
    } else {
      RFindAppend(d + [Sep], f, Sep);
    }
  }

  /** Stripping trailing separators from `d` plus one separator gives `d` back when
      `d` does not end in one. */
  lemma RStripAfterDir(d: string)
    requires d != [] && d[|d| - 1] != Sep
    ensures RStripSeps(d + [Sep]) == d
  {
    assert (d + [Sep])[..|d|] == d;
  }

  lemma DirnameJoinPlain(d: string, f: string)
    requires Sep !in f && d != [] && d[|d| - 1] != Sep
    ensures Dirname(d + [Sep] + f) == d
  {
    var head := d + [Sep];
    RFindAppend(head, f, Sep);
    assert RFind(head + f, Sep) == |d|;
    assert (head + f)[..|d| + 1] == head;
    assert !AllSeps(head) by { assert head[|d| - 1] != Sep; }
    RStripAfterDir(d);
  }

  lemma DirnameJoinSlashed(d: string, f: string)
    requires Sep !in f && d != [] && d[|d| - 1] == Sep && DirShape(d)
    ensures Dirname(d + f) == d
  {
    RFindAppend(d, f, Sep);
    assert (d + f)[..|d|] == d;
  }

  /** Joining a separator-free name to a directory and taking the dirname gives the directory back. */
  lemma DirnameJoin(d: string, f: string)
    requires Sep !in f && DirShape(d)
    ensures Dirname(Join(d, f)) == d
  {
    if d == [] {
      assert Join(d, f) == f;
    } else if d[|d| - 1] == Sep {
      DirnameJoinSlashed(d, f);
    } else {
      DirnameJoinPlain(d, f);
    }
  }
}
