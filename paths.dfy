/**
 * The subset of .NET's System.IO.Path used by the helper, on Windows:
 * Combine, GetDirectoryName and GetFileName, plus String.EndsWith.
 * Roots are a leading separator ("\\x") or a drive letter ("C:", "C:\\");
 * UNC and device paths are not modelled.
 */
module Paths {
  import opened Wrappers

  /** The separator Path.Combine inserts between two parts. */
  const DirectorySeparator: char := '\\'

  predicate IsSeparator(c: char) {
    c == '\\' || c == '/'
  }

  predicate IsDriveLetter(c: char) {
    ('A' <= c <= 'Z') || ('a' <= c <= 'z')
  }

  predicate EndsWith(s: string, suffix: string) {
    |suffix| <= |s| && s[|s| - |suffix|..] == suffix
  }

  predicate NoQuote(s: string) {
    forall i :: 0 <= i < |s| ==> s[i] != '"'
  }

  /** Length of the root of `p`: "C:\\" is 3, "C:" is 2, a leading separator is 1. */
  function RootLength(p: string): (n: nat)
    ensures n <= |p| && n <= 3
    ensures n > 0 ==> IsSeparator(p[n - 1]) || (n == 2 && p[1] == ':')
  {
    if |p| >= 2 && IsDriveLetter(p[0]) && p[1] == ':' then
      (if |p| >= 3 && IsSeparator(p[2]) then 3 else 2)
    else if |p| >= 1 && IsSeparator(p[0]) then 1
    else 0
  }

  /** Path.IsPathRooted. */
  predicate IsRooted(p: string) {
    RootLength(p) > 0
  }

  /** The index of the last separator in p[lo..hi], or -1 when there is none. */
  function LastSeparator(p: string, lo: nat, hi: nat): (i: int)
    requires lo <= hi <= |p|
    ensures i == -1 || (lo <= i < hi && IsSeparator(p[i]))
    ensures i == -1 ==> forall j :: lo <= j < hi ==> !IsSeparator(p[j])
    ensures i != -1 ==> forall j :: i < j < hi ==> !IsSeparator(p[j])
    decreases hi
  {
    if hi == lo then -1
    else if IsSeparator(p[hi - 1]) then hi - 1
    else LastSeparator(p, lo, hi - 1)
  }

  /** Moves `end` left over the separators that precede it, never into the root. */
  function TrimSeparators(p: string, root: nat, end: nat): (e: nat)
    requires root <= end <= |p|
    ensures root <= e <= end
    ensures e > root ==> !IsSeparator(p[e - 1])
    ensures forall j :: e <= j < end ==> IsSeparator(p[j])
    decreases end
  {
    if end > root && IsSeparator(p[end - 1]) then TrimSeparators(p, root, end - 1) else end
  }

  /** Path.Combine(dir, name). */
  function Combine(dir: string, name: string): string {
    if name == "" then dir
    else if dir == "" then name
    else if IsRooted(name) then name
    else if IsSeparator(dir[|dir| - 1]) then dir + name
    else dir + [DirectorySeparator] + name
  }

  /** Combine ends with the name; unless the name is rooted, it starts with the directory. */
  lemma CombineShape(dir: string, name: string)
    ensures name != "" ==> EndsWith(Combine(dir, name), name)
    ensures dir != "" && name != "" && !IsRooted(name) ==> |dir| < |Combine(dir, name)| && Combine(dir, name)[..|dir|] == dir
  {
  }

  /** Path.GetFileName: what follows the last separator outside the root. */
  function FileName(p: string): string
  {
    var root := RootLength(p);
    var i := LastSeparator(p, root, |p|);
    p[(if i == -1 then root else i + 1)..]
  }

  /** PathInternal.IsEffectivelyEmpty on Windows: empty or nothing but spaces. */
  predicate IsBlank(p: string) {
    forall i :: 0 <= i < |p| ==> p[i] == ' '
  }

  /** Drops each separator that another follows and writes the rest as backslashes. */
  function Collapse(t: string): string
  {
    if t == "" then ""
    else if IsSeparator(t[0]) then
      (if |t| > 1 && IsSeparator(t[1]) then Collapse(t[1..]) else [DirectorySeparator] + Collapse(t[1..]))
    else [t[0]] + Collapse(t[1..])
  }

  /**
   * PathInternal.NormalizeDirectorySeparators: a leading separator is kept (so that
   * "\\\\server" keeps its two), every later run of separators becomes one backslash.
   */
  function NormalizeSeparators(s: string): string
  {
    if s != "" && IsSeparator(s[0]) then [DirectorySeparator] + Collapse(s[1..]) else Collapse(s)
  }

  /** Backslashes only, never two in a row. */
  predicate SeparatorsNormal(t: string) {
    && (forall i :: 0 <= i < |t| ==> t[i] != '/')
    && (forall i :: 0 < i < |t| ==> !(IsSeparator(t[i - 1]) && IsSeparator(t[i])))
  }

  lemma {:induction false} CollapseNormal(t: string)
    requires SeparatorsNormal(t)
    ensures Collapse(t) == t
    decreases |t|
  {
    if t != "" {
      assert SeparatorsNormal(t[1..]) by {
        forall i | 0 < i < |t[1..]| ensures !(IsSeparator(t[1..][i - 1]) && IsSeparator(t[1..][i])) {
          assert t[1..][i - 1] == t[i] && t[1..][i] == t[i + 1];
        }
      }
      CollapseNormal(t[1..]);
      assert |t| > 1 ==> !(IsSeparator(t[0]) && IsSeparator(t[1]));
      assert [t[0]] + t[1..] == t;
    }
  }

  /** Normalising changes nothing in a path whose separators are already normal. */
  lemma NormalizeNormal(s: string)
    requires SeparatorsNormal(s)
    ensures NormalizeSeparators(s) == s
  {
    if s != "" && IsSeparator(s[0]) {
      assert SeparatorsNormal(s[1..]) by {
        forall i | 0 < i < |s[1..]| ensures !(IsSeparator(s[1..][i - 1]) && IsSeparator(s[1..][i])) {
          assert s[1..][i - 1] == s[i] && s[1..][i] == s[i + 1];
        }
      }
      CollapseNormal(s[1..]);
      assert [s[0]] + s[1..] == s;
    } else {
      CollapseNormal(s);
    }
  }

  /**
   * Path.GetDirectoryName: everything before the last separator outside the root,
   * without trailing separators and with its separators normalised; None (null)
   * when `p` is blank or only a root.
   */
  function DirectoryName(p: string): (r: Option<string>)
  {
    var root := RootLength(p);
    if IsBlank(p) || |p| <= root then None
    else
      var i := LastSeparator(p, root, |p|);
      Some(NormalizeSeparators(p[..TrimSeparators(p, root, if i == -1 then root else i)]))
  }

  /**
   * The file name is the longest suffix after the root that holds no separator:
   * it is a suffix of the path, it lies after the root, it holds no separator, and
   * unless it starts where the root ends, a separator comes just before it.
   */
  lemma FileNameShape(p: string)
    ensures EndsWith(p, FileName(p))
    ensures |FileName(p)| <= |p| - RootLength(p)
    ensures forall j :: 0 <= j < |FileName(p)| ==> !IsSeparator(FileName(p)[j])
    ensures |FileName(p)| < |p| - RootLength(p) ==> IsSeparator(p[|p| - |FileName(p)| - 1])
  {
  }

  lemma {:induction false} CollapseShorter(t: string)
    ensures |Collapse(t)| <= |t|
    decreases |t|
  {
    if t != "" {
      CollapseShorter(t[1..]);
    }
  }

  /**
   * A blank path has no directory; otherwise the directory, when there is one,
   * is shorter than the path.
   */
  lemma DirectoryNameShape(p: string)
    ensures IsBlank(p) ==> DirectoryName(p).None?
    ensures DirectoryName(p).Some? ==> |DirectoryName(p).value| < |p|
  {
    if DirectoryName(p).Some? {
      var root := RootLength(p);
      var i := LastSeparator(p, root, |p|);
      var d := p[..TrimSeparators(p, root, if i == -1 then root else i)];
      if d != "" && IsSeparator(d[0]) {
        CollapseShorter(d[1..]);
      } else {
        CollapseShorter(d);
      }
    }
  }

  lemma CollapseExample()
    ensures Collapse("C:\\a\\\\b") == "C:\\a\\b"
  {
    assert Collapse("b") == "b";
    assert Collapse("\\b") == "\\b";
    assert Collapse("\\\\b") == "\\b";
    assert Collapse("a\\\\b") == "a\\b";
    assert Collapse(":\\a\\\\b") == ":\\a\\b";
  }

  /** A run of separators inside the directory part comes back as one backslash. */
  lemma DirectoryNameCollapses()
    ensures DirectoryName("C:\\a\\\\b\\f") == Some("C:\\a\\b")
  {
    var p := "C:\\a\\\\b\\f";
    assert !IsBlank(p) by { assert p[0] != ' '; }
    assert RootLength(p) == 3;
    assert LastSeparator(p, 3, 9) == 7;
    assert TrimSeparators(p, 3, 7) == 7;
    assert p[..7] == "C:\\a\\\\b";
    CollapseExample();
    assert DirectoryName(p) == Some(NormalizeSeparators(p[..7]));
  }

  /** A forward slash in the directory part comes back as a backslash. */
  lemma DirectoryNameBackslashes()
    ensures DirectoryName("C:/a/f") == Some("C:\\a")
  {
    var p := "C:/a/f";
    assert !IsBlank(p) by { assert p[0] != ' '; }
    assert RootLength(p) == 3;
    assert LastSeparator(p, 3, 6) == 4;
    assert TrimSeparators(p, 3, 4) == 4;
    assert p[..4] == "C:/a";
    assert Collapse("a") == "a";
    assert Collapse("/a") == "\\a";
    assert Collapse(":/a") == ":\\a";
    assert Collapse(p[..4]) == "C:\\a";
    assert DirectoryName(p) == Some(NormalizeSeparators(p[..4]));
  }

  /** Neither part of a file name: no separator and no colon. */
  predicate IsPlainName(s: string) {
    forall i :: 0 <= i < |s| ==> !IsSeparator(s[i]) && s[i] != ':'
  }

  /**
   * A path written the canonical Windows way: backslashes only, never two in a row,
   * no colon outside a drive root, and not drive-relative ("C:file").
   */
  predicate IsCanonical(p: string) {
    && RootLength(p) != 2
    && SeparatorsNormal(p)
    && (forall i :: RootLength(p) <= i < |p| ==> p[i] != ':')
  }

  /** A prefix of a path with normal separators is left alone by the normalisation. */
  lemma NormalPrefix(p: string, k: nat)
    requires SeparatorsNormal(p) && k <= |p|
    ensures NormalizeSeparators(p[..k]) == p[..k]
  {
    assert SeparatorsNormal(p[..k]) by {
      forall i | 0 < i < k ensures !(IsSeparator(p[..k][i - 1]) && IsSeparator(p[..k][i])) {
        assert p[..k][i - 1] == p[i - 1] && p[..k][i] == p[i];
      }
    }
    NormalizeNormal(p[..k]);
  }

  /** A path that is not blank and does not end in a separator or a colon has a directory and a non-empty file name. */
  lemma NamedPathHasDirectory(p: string)
    requires p != "" && !IsSeparator(p[|p| - 1]) && p[|p| - 1] != ':' && !IsBlank(p)
    ensures DirectoryName(p).Some?
    ensures FileName(p) != ""
  {
    var root := RootLength(p);
    assert root < |p|;
  }

  /** A canonical path whose file name follows the root directly has the root as its directory. */
  lemma DirectoryAtRoot(p: string)
    requires IsCanonical(p) && !IsBlank(p) && |p| > RootLength(p)
    requires LastSeparator(p, RootLength(p), |p|) == -1
    ensures DirectoryName(p) == Some(p[..RootLength(p)])
  {
    NormalPrefix(p, RootLength(p));
  }

  /** Combine puts such a path back together from its root and the name after it. */
  lemma CombineAtRoot(p: string)
    requires IsCanonical(p) && |p| > RootLength(p)
    requires forall j :: RootLength(p) <= j < |p| ==> !IsSeparator(p[j])
    ensures Combine(p[..RootLength(p)], p[RootLength(p)..]) == p
  {
    var root := RootLength(p);
    var name := p[root..];
    if root > 0 {
      assert !IsSeparator(name[0]);
      assert |name| >= 2 ==> name[1] == p[root + 1] != ':';
      assert !IsRooted(name);
      assert IsSeparator(p[root - 1]);
      assert p[..root] + name == p;
    }
  }

  /** A canonical path whose file name follows the root directly splits at the root. */
  lemma SplitAtRoot(p: string)
    requires IsCanonical(p) && !IsBlank(p) && |p| > RootLength(p)
    requires LastSeparator(p, RootLength(p), |p|) == -1
    ensures DirectoryName(p) == Some(p[..RootLength(p)])
    ensures FileName(p) == p[RootLength(p)..]
    ensures Combine(p[..RootLength(p)], p[RootLength(p)..]) == p
  {
    DirectoryAtRoot(p);
    CombineAtRoot(p);
  }

  /** The directory of a canonical path ends just before its last separator outside the root. */
  lemma DirectoryAtSeparator(p: string, i: int)
    requires IsCanonical(p) && !IsBlank(p) && |p| > RootLength(p)
    requires i == LastSeparator(p, RootLength(p), |p|) && i != -1
    ensures RootLength(p) < i && DirectoryName(p) == Some(p[..i])
  {
    var root := RootLength(p);
    assert root == 0 || IsSeparator(p[root - 1]);
    assert i > root;
    assert !IsSeparator(p[i - 1]);
    assert TrimSeparators(p, root, i) == i;
    NormalPrefix(p, i);
  }

  /** Combine puts a canonical path back together at a separator that a plain name follows. */
  lemma CombineAtSeparator(p: string, i: nat)
    requires IsCanonical(p) && 0 < i && i + 1 < |p| && RootLength(p) <= i
    requires p[i] == DirectorySeparator && !IsSeparator(p[i + 1])
    ensures Combine(p[..i], p[i + 1..]) == p
  {
    var dir, name := p[..i], p[i + 1..];
    assert !IsSeparator(p[i - 1]);
    assert |name| >= 2 ==> name[1] == p[i + 2] != ':';
    assert !IsRooted(name);
    assert dir + [DirectorySeparator] + name == p;
  }

  /** A canonical path splits at its last separator outside the root. */
  lemma SplitAtSeparator(p: string, i: int)
    requires IsCanonical(p) && !IsBlank(p) && |p| > RootLength(p)
    requires i == LastSeparator(p, RootLength(p), |p|) && i != -1 && i + 1 < |p|
    ensures DirectoryName(p) == Some(p[..i])
    ensures FileName(p) == p[i + 1..]
    ensures Combine(p[..i], p[i + 1..]) == p
  {
    DirectoryAtSeparator(p, i);
    assert p[i] == DirectorySeparator;
    CombineAtSeparator(p, i);
  }

  /**
   * For a canonical path with a file name, GetDirectoryName and GetFileName split the
   * path so that Combine puts it back together exactly.
   */
  lemma SplitRoundTrip(p: string)
    requires IsCanonical(p) && !IsBlank(p) && FileName(p) != ""
    ensures DirectoryName(p).Some?
    ensures |DirectoryName(p).value| < |p| && DirectoryName(p).value == p[..|DirectoryName(p).value|]
    ensures Combine(DirectoryName(p).value, FileName(p)) == p
  {
    var root := RootLength(p);
    var i := LastSeparator(p, root, |p|);
    if i == -1 {
      SplitAtRoot(p);
    } else {
      SplitAtSeparator(p, i);
    }
  }
}
