/**
 * The POSIX `os.path` string helpers `format_output` (main.py) uses to name
 * its output file: `dirname`, `basename`, `splitext` and a two-part `join`.
 * They only look at the characters of the path; nothing here touches a file
 * system.
 */
module Paths {

  /** `str.rfind(c)`: the index of the last `c` in `s`, or -1 when there is none. */
  function RFind(s: string, c: char): (r: int)
    ensures -1 <= r < |s|
    ensures r >= 0 ==> s[r] == c
    ensures forall k :: r < k < |s| ==> s[k] != c
  {
    if s == [] then -1
    else if s[|s| - 1] == c then |s| - 1
    else RFind(s[..|s| - 1], c)
  }

  /** Characters after the last `c` do not move the last `c`. */
  lemma {:induction false} RFindAppend(s: string, t: string, c: char)
    requires c !in t
    ensures RFind(s + t, c) == RFind(s, c)
  {
    if t != [] {
      assert (s + t)[..|s + t| - 1] == s + t[..|t| - 1];
      RFindAppend(s, t[..|t| - 1], c);
    } else {
      assert s + t == s;
    }
  }

  /** The last character of `s + [c]` is the last `c` in it. */
  lemma RFindLast(s: string, c: char)
    ensures RFind(s + [c], c) == |s|
  {
  }

  predicate AllAre(s: string, c: char) {
    forall k :: 0 <= k < |s| ==> s[k] == c
  }

  /** `s.rstrip(c)` for a single character. */
  function TrimEndChar(s: string, c: char): (r: string)
    ensures |r| <= |s|
    ensures r == [] || r[|r| - 1] != c
  {
    if s != [] && s[|s| - 1] == c then TrimEndChar(s[..|s| - 1], c) else s
  }

  /** What `TrimEndChar` keeps is a prefix, and it drops only `c`s. */
  lemma {:induction false} TrimEndCharPrefix(s: string, c: char)
    ensures TrimEndChar(s, c) == s[..|TrimEndChar(s, c)|]
    ensures forall k :: |TrimEndChar(s, c)| <= k < |s| ==> s[k] == c
  {
    if s != [] && s[|s| - 1] == c {
      TrimEndCharPrefix(s[..|s| - 1], c);
    }
  }

  /** The path up to and including its last `/`. */
  function Head(p: string): string {
    p[..RFind(p, '/') + 1]
  }

  /** `os.path.basename`: what follows the last `/`. */
  function Basename(p: string): string {
    p[RFind(p, '/') + 1..]
  }

  /**
   * `os.path.dirname`: the head with its trailing slashes removed, unless
   * the head is nothing but slashes.
   */
  function Dirname(p: string): string {
    var head := Head(p);
    if head != [] && !AllAre(head, '/') then TrimEndChar(head, '/') else head
  }

  /** `os.path.join(a, b)`: an absolute `b` replaces `a`; otherwise one `/` goes between them if `a` lacks it. */
  function PathJoin(a: string, b: string): string {
    if b != [] && b[0] == '/' then b
    else if a == [] || a[|a| - 1] == '/' then a + b
    else a + "/" + b
  }

  /**
   * `os.path.splitext`: the extension runs from the last `.` of the last
   * component, provided that component has something other than dots before it.
   */
  function SplitExt(p: string): (string, string) {
    var sep, dot := RFind(p, '/'), RFind(p, '.');
    if dot > sep && !AllAre(p[sep + 1..dot], '.') then (p[..dot], p[dot..]) else (p, "")
  }

  /** The root `os.path.splitext` keeps: the file name without its extension. */
  function Stem(name: string): string {
    SplitExt(name).0
  }

  /** The head and the base name split the path. */
  lemma HeadBasename(p: string)
    ensures Head(p) + Basename(p) == p
    ensures '/' !in Basename(p)
    ensures Head(p) == [] || Head(p)[|Head(p)| - 1] == '/'
  {
    var i := RFind(p, '/') + 1;
    assert p[..i] + p[i..] == p;
    forall k | 0 <= k < |p[i..]| ensures p[i..][k] != '/' {
      assert p[i..][k] == p[i + k];
    }
  }

  /** `root + ext == p`, and the extension is empty or a dot followed by neither a dot nor a slash. */
  lemma SplitExtParts(p: string)
    ensures SplitExt(p).0 + SplitExt(p).1 == p
    ensures var ext := SplitExt(p).1;
      ext == [] || (ext[0] == '.' && '.' !in ext[1..] && '/' !in ext)
  {
    var sep, dot := RFind(p, '/'), RFind(p, '.');
    if dot > sep && !AllAre(p[sep + 1..dot], '.') {
      assert SplitExt(p) == (p[..dot], p[dot..]);
      ExtAfterDot(p, sep, dot);
    } else {
      assert SplitExt(p) == (p, "");
    }
  }

  /** The slices at the last dot, when that dot lies after the last slash, are a root and an extension. */
  lemma ExtAfterDot(p: string, sep: int, dot: int)
    requires -1 <= sep < dot < |p| && p[dot] == '.'
    requires forall k :: dot < k < |p| ==> p[k] != '.'
    requires forall k :: sep < k < |p| ==> p[k] != '/'
    ensures p[..dot] + p[dot..] == p
    ensures var ext := p[dot..]; ext[0] == '.' && '.' !in ext[1..] && '/' !in ext
  {
    assert p[..dot] + p[dot..] == p;
    NotAfter(p, dot, '.');
    assert forall k :: dot < k < |p| ==> p[k] != '/';
    NotAfter(p, dot, '/');
    assert p[dot..][1..] == p[dot + 1..];
    assert p[dot..] == [p[dot]] + p[dot + 1..];
  }

  /** A character absent from every position after `i` is absent from the slice after `i`. */
  lemma NotAfter(p: string, i: int, c: char)
    requires -1 <= i < |p|
    requires forall k :: i < k < |p| ==> p[k] != c
    ensures c !in p[i + 1..]
  {
    var rest := p[i + 1..];
    forall k | 0 <= k < |rest| ensures rest[k] != c {
      assert rest[k] == p[i + 1 + k];
    }
  }

  /** Without a slash in the name, there is none in its stem. */
  lemma StemHasNoSlash(name: string)
    requires '/' !in name
    ensures '/' !in Stem(name)
  {
    SplitExtParts(name);
    var r := Stem(name);
    forall k | 0 <= k < |r| ensures r[k] != '/' {
      assert r[k] == (r + SplitExt(name).1)[k];
    }
  }

  /** A directory as `dirname` returns it: empty, all slashes, or not ending in a slash. */
  predicate IsDirname(d: string) {
    d == [] || AllAre(d, '/') || d[|d| - 1] != '/'
  }

  lemma DirnameShape(p: string)
    ensures IsDirname(Dirname(p))
  {
  }

  /** Joining a directory and a name without slashes, the name is the base name again. */
  lemma BasenameOfJoin(d: string, n: string)
    requires '/' !in n
    ensures Basename(PathJoin(d, n)) == n
  {
    var x := if d == [] || d[|d| - 1] == '/' then d else d + "/";
    assert PathJoin(d, n) == x + n;
    RFindAppend(x, n, '/');
    assert x == [] || x[|x| - 1] == '/';
    assert (x + n)[|x|..] == n;
  }

  /** Joining a directory `dirname` returned and a name without slashes, `dirname` gives the directory back. */
  lemma DirnameOfJoin(d: string, n: string)
    requires IsDirname(d) && '/' !in n
    ensures Dirname(PathJoin(d, n)) == d
  {
    if d == [] {
      assert PathJoin(d, n) == n;
      assert Head(n) == [];
    } else if d[|d| - 1] == '/' {
      assert AllAre(d, '/');
      assert PathJoin(d, n) == d + n;
      RFindAppend(d, n, '/');
      assert Head(d + n) == d;
    } else {
      var x := d + "/";
      assert PathJoin(d, n) == x + n;
      RFindAppend(x, n, '/');
      RFindLast(d, '/');
      assert Head(x + n) == x;
      assert !AllAre(x, '/') by {
        assert x[|d| - 1] != '/';
      }
      assert TrimEndChar(x, '/') == d by {
        assert x[..|x| - 1] == d;
      }
    }
  }

  /** A name with a non-dot character, followed by a dot and dot-free, slash-free letters, splits at that dot. */
  lemma SplitExtOfName(root: string, ext: string, i: nat)
    requires '/' !in root && i < |root| && root[i] != '.'
    requires ext != [] && ext[0] == '.' && '.' !in ext[1..] && '/' !in ext
    ensures SplitExt(root + ext) == (root, ext)
  {
    var p := root + ext;
    assert ext == [ext[0]] + ext[1..];
    assert p == (root + ['.']) + ext[1..];
    RFindAppend(root + ['.'], ext[1..], '.');
    RFindLast(root, '.');
    assert RFind(p, '.') == |root|;
    RFindAppend(root, ext, '/');
    assert RFind(root, '/') == -1;
    assert p[0..|root|] == root;
    assert p[0..|root|][i] != '.';
    assert p[..|root|] == root && p[|root|..] == ext;
  }
}
