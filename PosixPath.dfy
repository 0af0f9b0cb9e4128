/**
 * The parts of Python's `posixpath` that the session uses to take a function
 * path apart and to place its MAT files: `dirname`, `basename`, `splitext`
 * and two-argument `join`, with `/` as the separator and `.` as the
 * extension separator.
 */
module PosixPath {
  import opened Seqs

  /** `p.rfind(c)`: the last index that holds `c`, or -1 when there is none. */
  function LastIndexOf(p: string, c: char): (r: int)
    ensures -1 <= r < |p|
    ensures r >= 0 ==> p[r] == c
    ensures forall i :: r < i < |p| ==> p[i] != c
  {
    if p == [] then -1
    else if p[|p| - 1] == c then |p| - 1
    else LastIndexOf(p[..|p| - 1], c)
  }

  predicate AllAre(s: string, c: char) {
    forall i :: 0 <= i < |s| ==> s[i] == c
  }

  /** `s.rstrip('/')` */
  function TrimSlashes(s: string): (r: string)
    ensures |r| <= |s| && r == s[..|r|]
    ensures AllAre(s[|r|..], '/')
    ensures r == [] || r[|r| - 1] != '/'
  {
    if s != [] && s[|s| - 1] == '/' then
      var r := TrimSlashes(s[..|s| - 1]);
      assert s[..|s| - 1][|r|..] + ['/'] == s[|r|..];
      r
    else s
  }

  /** Everything up to and including the last `/` of `p`: `p[:p.rfind('/') + 1]`. */
  function Head(p: string): string {
    p[..LastIndexOf(p, '/') + 1]
  }

  /** `os.path.basename(p)`: what follows the last `/`. */
  function Basename(p: string): (r: string)
    ensures forall k :: 0 <= k < |r| ==> r[k] != '/'
  {
    p[LastIndexOf(p, '/') + 1..]
  }

  /** `os.path.dirname(p)`: the head, without its trailing slashes unless it is all slashes. */
  function Dirname(p: string): string {
    var head := Head(p);
    if head != [] && !AllAre(head, '/') then TrimSlashes(head) else head
  }

  /** A path is its head followed by its base name; the head is empty or ends with `/`. */
  lemma {:induction false} HeadAndBasename(p: string)
    ensures p == Head(p) + Basename(p)
    ensures Head(p) == [] || Head(p)[|Head(p)| - 1] == '/'
  {
  }

  /**
   * `os.path.splitext(p)`: `(root, ext)` where `ext` runs from the last `.`
   * of the last path component, provided that component has a character
   * other than `.` before that dot; otherwise `ext` is empty.
   */
  function SplitExt(p: string): (string, string) {
    var sepIndex := LastIndexOf(p, '/');
    var dotIndex := LastIndexOf(p, '.');
    if dotIndex > sepIndex && !AllAre(p[sepIndex + 1..dotIndex], '.') then
      (p[..dotIndex], p[dotIndex..])
    else
      (p, "")
  }

  /** What `splitext` promises: the two parts put back together give `p`, and a non-empty extension is one dot-led suffix of the last component whose stem is not all dots. */
  lemma {:induction false} SplitExtParts(p: string)
    ensures SplitExt(p).0 + SplitExt(p).1 == p
    ensures var ext := SplitExt(p).1;
      ext == [] || (ext[0] == '.' && forall k :: 0 < k < |ext| ==> ext[k] != '.' && ext[k] != '/')
    ensures var (root, ext) := SplitExt(p); var sepIndex := LastIndexOf(p, '/');
      ext != [] ==> sepIndex + 1 <= |root| && !AllAre(root[sepIndex + 1..], '.')
  {
    var sepIndex := LastIndexOf(p, '/');
    var dotIndex := LastIndexOf(p, '.');
    if dotIndex > sepIndex && !AllAre(p[sepIndex + 1..dotIndex], '.') {
      var root, ext := p[..dotIndex], p[dotIndex..];
      SplitAt(p, dotIndex);
      assert forall k :: 0 < k < |ext| ==> ext[k] == p[dotIndex + k];
      assert root[sepIndex + 1..] == p[sepIndex + 1..dotIndex];
    }
  }

  lemma {:induction false} SplitAt(p: string, i: nat)
    requires i <= |p|
    ensures p[..i] + p[i..] == p
  {
  }

  /** `os.path.join(a, b)` for two components. */
  function JoinPath(a: string, b: string): string {
    if |b| > 0 && b[0] == '/' then b
    else if a == [] || a[|a| - 1] == '/' then a + b
    else a + "/" + b
  }

  /** A file name joined onto a directory comes back out as the base name, and the directory as the dirname. */
  lemma {:induction false} JoinThenSplit(dir: string, file: string)
    requires file != [] && '/' !in file
    ensures Basename(JoinPath(dir, file)) == file
    ensures Dirname(JoinPath(dir, file)) == if AllAre(dir, '/') then dir else TrimSlashes(dir)
  {
    var p := JoinPath(dir, file);
    var head := if dir == [] || dir[|dir| - 1] == '/' then dir else dir + "/";
    assert p == head + file;
    assert LastIndexOf(p, '/') == |head| - 1 by {
      LastIndexOfAfter(head, file, '/');
    }
    assert Head(p) == head;
    if dir != [] && dir[|dir| - 1] != '/' {
      assert TrimSlashes(head) == TrimSlashes(dir) by {
        assert head[..|head| - 1] == dir;
      }
      assert !AllAre(head, '/') by {
        assert head[|dir| - 1] == dir[|dir| - 1];
      }
    } else if dir != [] {
      if !AllAre(dir, '/') {
        assert !AllAre(head, '/');
      }
    }
  }

  /** When `head` ends with `c` and `tail` holds none, the last `c` of `head + tail` is the end of `head`. */
  lemma {:induction false} LastIndexOfAfter(head: string, tail: string, c: char)
    requires head == [] || head[|head| - 1] == c
    requires c !in tail
    ensures LastIndexOf(head + tail, c) == |head| - 1
    decreases |tail|
  {
    var p := head + tail;
    if tail == [] {
      assert p == head;
    } else {
      assert p[..|p| - 1] == head + tail[..|tail| - 1];
      assert p[|p| - 1] == tail[|tail| - 1];
      LastIndexOfAfter(head, tail[..|tail| - 1], c);
    }
  }

  /** A name with no dot splits into itself and an empty extension. */
  lemma {:induction false} SplitExtNoDot(name: string)
    requires '.' !in name
    ensures SplitExt(name) == (name, "")
  {
    Units(name);
    LastIndexOfAfter([], name, '.');
  }

  /** `stem.e` splits into `stem` and `.e` when neither part holds a dot or a slash. */
  lemma {:induction false} SplitExtOfName(stem: string, e: string)
    requires stem != [] && '/' !in stem && '.' !in stem
    requires '/' !in e && '.' !in e
    ensures '/' !in stem + "." + e
    ensures SplitExt(stem + "." + e) == (stem, "." + e)
  {
    var p := stem + "." + e;
    Units(p);
    LastIndexOfAfter([], p, '/');
    Ends(stem, ".");
    LastIndexOfAfter(stem + ".", e, '.');
    Associative(stem, ".", e);
    Parts(stem, "." + e);
    assert !AllAre(stem, '.') by {
      assert stem[0] in stem;
    }
  }

  /** A path is its head, then the stem and the extension of its base name; the stem holds no `/`. */
  lemma {:induction false} PathParts(p: string) returns (stem: string, ext: string)
    ensures (stem, ext) == SplitExt(Basename(p))
    ensures p == Head(p) + stem + ext
    ensures forall k :: 0 <= k < |stem| ==> stem[k] != '/'
  {
    var base := Basename(p);
    HeadAndBasename(p);
    SplitExtParts(base);
    stem, ext := SplitExt(base).0, SplitExt(base).1;
    Associative(Head(p), stem, ext);
    Parts(stem, ext);
  }
}
