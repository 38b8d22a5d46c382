/** The POSIX path helpers the augmenter relies on: `os.path.basename`,
    `os.path.join` and the base-name rule that names every output file. */
module Paths {

  /** `os.path.basename`: everything after the last '/' of `p`. */
  function Basename(p: string): string
    decreases |p|
  {
    if p == [] || p[|p| - 1] == '/' then [] else Basename(p[..|p| - 1]) + [p[|p| - 1]]
  }

  /** The basename is the separator-free tail of `p`, and what precedes it,
      if anything, is a separator. */
  lemma {:induction false} BasenameIsLastComponent(p: string)
    ensures var r := Basename(p);
      '/' !in r && |r| <= |p| && r == p[|p| - |r|..] &&
      (|r| < |p| ==> p[|p| - |r| - 1] == '/')
    decreases |p|
  {
    if p != [] && p[|p| - 1] != '/' {
      var q := p[..|p| - 1];
      BasenameIsLastComponent(q);
      var r := Basename(q);
      assert p[|p| - |r| - 1..] == q[|q| - |r|..] + [p[|p| - 1]];
    }
  }

  /** `s.split('.')[0]`: the longest prefix of `s` without a '.'. */
  function UpToFirstDot(s: string): string
  {
    if s == [] || s[0] == '.' then [] else [s[0]] + UpToFirstDot(s[1..])
  }

  /** The part before the first '.' is a dot-free prefix of `s`, followed
      by a '.' unless it is all of `s`. */
  lemma {:induction false} UpToFirstDotIsPrefix(s: string)
    ensures var r := UpToFirstDot(s);
      '.' !in r && |r| <= |s| && r == s[..|r|] && (|r| < |s| ==> s[|r|] == '.')
  {
    if s != [] && s[0] != '.' {
      UpToFirstDotIsPrefix(s[1..]);
    }
  }

  /** The name every output of one input file starts with: the file's
      basename up to its first '.'. */
  function BaseName(imagePath: string): string
  {
    UpToFirstDot(Basename(imagePath))
  }

  /** The base name is a prefix of the file's basename holding neither a
      separator nor a '.', and it stops at the basename's first '.'. */
  lemma BaseNameIsStem(imagePath: string)
    ensures var r, b := BaseName(imagePath), Basename(imagePath);
      '/' !in r && '.' !in r && |r| <= |b| && r == b[..|r|] && (|r| < |b| ==> b[|r|] == '.')
  {
    BasenameIsLastComponent(imagePath);
    UpToFirstDotIsPrefix(Basename(imagePath));
  }

  /** `os.path.join(a, b)` for two components: `b` replaces `a` when it is
      absolute, and a '/' is inserted only when `a` is non-empty and does
      not already end with one. */
  function Join(a: string, b: string): string
  {
    if b != [] && b[0] == '/' then b
    else if a == [] || a[|a| - 1] == '/' then a + b
    else a + "/" + b
  }

  /** A path that ends in a separator (or is empty) has an empty basename,
      and appending a name without separators makes that name the basename. */
  lemma {:induction false} BasenameAfterSeparator(x: string, b: string)
    requires x == [] || x[|x| - 1] == '/'
    requires '/' !in b
    ensures Basename(x + b) == b
    decreases |b|
  {
    if b == [] {
      assert x + b == x;
    } else {
      var b' := b[..|b| - 1];
      assert (x + b)[..|x + b| - 1] == x + b';
      BasenameAfterSeparator(x, b');
    }
  }

  /** Joining a directory and a plain file name gives a path whose basename
      is that file name again. */
  lemma BasenameOfJoin(a: string, b: string)
    requires '/' !in b
    ensures Basename(Join(a, b)) == b
  {
    if b != [] && b[0] == '/' {
    } else if a == [] || a[|a| - 1] == '/' {
      BasenameAfterSeparator(a, b);
    } else {
      assert a + "/" + b == (a + "/") + b;
      BasenameAfterSeparator(a + "/", b);
    }
  }
}
