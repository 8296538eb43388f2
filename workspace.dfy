/**
 * GetTemporaryDirectory (Program.cs lines 162-176): pick "tmp_" plus a random
 * name under the application's base directory, retry while that path exists,
 * then create it. The random names come from a finite oracle, so the retry is
 * bounded by the names it is given.
 */
module Workspace {
  import opened Wrappers
  import opened Paths

  /** The file system as the helper sees it: the existing files and directories. */
  class FileSystem {
    var files: set<string>
    var directories: set<string>

    constructor (files: set<string>, directories: set<string>)
      ensures this.files == files && this.directories == directories
    {
      this.files := files;
      this.directories := directories;
    }

    /** Path.Exists: a file or a directory; never the empty path. */
    predicate PathExists(path: string)
      reads this
    {
      path != "" && (path in files || path in directories)
    }

    /** Directory.CreateDirectory. */
    method CreateDirectory(path: string)
      modifies this
      ensures directories == old(directories) + {path}
      ensures files == old(files)
    {
      directories := directories + {path};
    }
  }

  const TempPrefix: string := "tmp_"

  /** Path.Combine(BaseDirectory, "tmp_" + name). */
  function TempCandidate(baseDir: string, name: string): string {
    Combine(baseDir, TempPrefix + name)
  }

  /** Reference definition: the first candidate, in oracle order, that names no existing path. */
  function FreshTempDir(baseDir: string, names: seq<string>, existing: set<string>): Option<string>
    decreases |names|
  {
    if names == [] then None
    else if TempCandidate(baseDir, names[0]) in existing then FreshTempDir(baseDir, names[1..], existing)
    else Some(TempCandidate(baseDir, names[0]))
  }

  /** Every candidate before the `k`-th names an existing path. */
  ghost predicate TakenBefore(baseDir: string, names: seq<string>, k: int, existing: set<string>)
    requires k <= |names|
  {
    forall j :: 0 <= j < k ==> TempCandidate(baseDir, names[j]) in existing
  }

  lemma {:induction false} FreshTempDirFound(baseDir: string, names: seq<string>, existing: set<string>)
    ensures var r := FreshTempDir(baseDir, names, existing);
      r.Some? ==> && r.value !in existing
                  && exists k :: 0 <= k < |names| && r.value == TempCandidate(baseDir, names[k]) && TakenBefore(baseDir, names, k, existing)
    decreases |names|
  {
    if names != [] {
      var c := TempCandidate(baseDir, names[0]);
      if c in existing {
        FreshTempDirFound(baseDir, names[1..], existing);
        var r := FreshTempDir(baseDir, names[1..], existing);
        assert FreshTempDir(baseDir, names, existing) == r;
        if r.Some? {
          var k :| 0 <= k < |names[1..]| && r.value == TempCandidate(baseDir, names[1..][k]) && TakenBefore(baseDir, names[1..], k, existing);
          assert names[1..][k] == names[k + 1];
          assert TakenBefore(baseDir, names, k + 1, existing) by {
            forall j | 0 <= j < k + 1 ensures TempCandidate(baseDir, names[j]) in existing {
              if j > 0 { assert names[j] == names[1..][j - 1]; }
            }
          }
        }
      } else {
        assert TakenBefore(baseDir, names, 0, existing);
      }
    }
  }

  lemma {:induction false} FreshTempDirExhausted(baseDir: string, names: seq<string>, existing: set<string>)
    ensures FreshTempDir(baseDir, names, existing).None? ==> TakenBefore(baseDir, names, |names|, existing)
    decreases |names|
  {
    if names != [] && TempCandidate(baseDir, names[0]) in existing {
      FreshTempDirExhausted(baseDir, names[1..], existing);
      assert FreshTempDir(baseDir, names, existing) == FreshTempDir(baseDir, names[1..], existing);
      if FreshTempDir(baseDir, names, existing).None? {
        forall j | 0 <= j < |names| ensures TempCandidate(baseDir, names[j]) in existing {
          if j > 0 { assert names[j] == names[1..][j - 1]; }
        }
      }
    }
  }

  /**
   * The chosen directory did not exist, is the candidate of some name in the
   * oracle, and every earlier name's candidate was taken; with no result, all were.
   */
  lemma {:induction false} FreshTempDirIsFirstFree(baseDir: string, names: seq<string>, existing: set<string>)
    ensures var r := FreshTempDir(baseDir, names, existing);
      && (r.Some? ==>
            && r.value !in existing
            && exists k :: 0 <= k < |names| && r.value == TempCandidate(baseDir, names[k])
                 && forall j :: 0 <= j < k ==> TempCandidate(baseDir, names[j]) in existing)
      && (r.None? ==> forall j :: 0 <= j < |names| ==> TempCandidate(baseDir, names[j]) in existing)
  {
    FreshTempDirFound(baseDir, names, existing);
    FreshTempDirExhausted(baseDir, names, existing);
  }

  /**
   * A candidate lies directly under the base directory: it starts with the base
   * directory and its file name is "tmp_" followed by the random name.
   */
  lemma TempCandidateShape(baseDir: string, name: string)
    requires baseDir != "" && IsPlainName(name)
    ensures var c := TempCandidate(baseDir, name);
      && |baseDir| < |c| && c[..|baseDir|] == baseDir
      && FileName(c) == TempPrefix + name
  {
    var n := TempPrefix + name;
    var c := TempCandidate(baseDir, name);
    assert n[0] == 't' && n[1] == 'm';
    assert !IsRooted(n);
    assert IsPlainName(n) by {
      forall i | 0 <= i < |n| ensures !IsSeparator(n[i]) && n[i] != ':' {
        if i >= 4 { assert n[i] == name[i - 4]; }
      }
    }
    var sep := if IsSeparator(baseDir[|baseDir| - 1]) then |baseDir| - 1 else |baseDir|;
    assert c == c[..sep + 1] + n;
    assert IsSeparator(c[sep]);
    assert forall j :: sep < j < |c| ==> c[j] == n[j - sep - 1];
    var root := RootLength(c);
    var i := LastSeparator(c, root, |c|);
    if sep >= root {
      assert i == sep;
    } else {
      assert root - 1 >= sep;
      assert root - 1 == sep;
      assert i == -1;
    }
  }

  /** Program.cs lines 162-176, with the random names drawn from `names`. */
  method GetTemporaryDirectory(fs: FileSystem, baseDir: string, names: seq<string>, ghost existing: set<string>)
    returns (r: Option<string>)
    requires fs.files + fs.directories == existing
    modifies fs
    ensures r == FreshTempDir(baseDir, names, existing)
    ensures fs.files == old(fs.files)
    ensures fs.directories == if r.Some? then old(fs.directories) + {r.value} else old(fs.directories)
    decreases |names|
  {
    if names == [] {
      return None;
    }
    var tempDirectory := TempCandidate(baseDir, names[0]);
    assert tempDirectory != "";
    if fs.PathExists(tempDirectory) {
      r := GetTemporaryDirectory(fs, baseDir, names[1..], existing);
    } else {
      fs.CreateDirectory(tempDirectory);
      r := Some(tempDirectory);
    }
  }
}
