/**
 * The resolution step of Program.Main: check the converter path, then walk the
 * sorted masters and give each one a directory, prompting the user when needed.
 */
module Locator {
  import opened Wrappers
  import opened Paths
  import opened Settings
  import opened Ordering

  /** File.Exists against the set of existing files: always false for the empty path. */
  predicate FileExists(files: set<string>, path: string) {
    path != "" && path in files
  }

  /** The hint ShowDialog gets when the converter must be located. */
  const ConverterHint: string := "Spriggit.CLI.exe"

  /** The n-th answer of a scripted dialog; once the script runs out the user cancels. */
  function Answer(script: seq<string>, n: nat): string {
    if n < |script| then script[n] else ""
  }

  /** The script left after `n` answers. */
  function Drop(script: seq<string>, n: nat): seq<string> {
    if n <= |script| then script[n..] else []
  }

  /**
   * The open-file dialog as a scripted oracle: it answers with the script's
   * next entry (the empty string is a cancel) and records every hint it was shown.
   */
  class Dialog {
    var script: seq<string>
    var asked: seq<string>

    constructor (script: seq<string>)
      ensures this.script == script && asked == []
    {
      this.script := script;
      asked := [];
    }

    method Show(hint: string) returns (path: string)
      modifies this
      ensures path == Answer(old(script), 0)
      ensures script == Drop(old(script), 1)
      ensures asked == old(asked) + [hint]
    {
      path := if script == [] then "" else script[0];
      script := if script == [] then [] else script[1..];
      asked := asked + [hint];
    }
  }

  /** Path.GetDirectoryName(selectPath) ?? "./" */
  function ChosenDirectory(selected: string): string
  {
    match DirectoryName(selected)
    case Some(d) => d
    case None => "./"
  }

  /** A blank answer records the current directory; any other recorded directory is shorter than the answer. */
  lemma ChosenDirectoryShape(selected: string)
    ensures IsBlank(selected) ==> ChosenDirectory(selected) == "./"
    ensures ChosenDirectory(selected) == "./" || |ChosenDirectory(selected)| < |selected|
  {
    DirectoryNameShape(selected);
  }

  /** The outcome of walking the masters: the map, the hints shown, the unused answers, and whether every master was settled. */
  datatype MasterPass = MasterPass(locations: map<string, string>, asked: seq<string>, script: seq<string>, completed: bool)

  /**
   * Reference definition of the master loop. A recorded master is passed over
   * (the source's File.Exists on the recorded directory does not change that);
   * an unrecorded master found in the data folder gets the data folder; any
   * other prompts, and a cancel stops the walk.
   */
  function ResolveMastersSpec(locations: map<string, string>, masters: seq<string>, files: set<string>,
                              dataFolder: string, script: seq<string>): (r: MasterPass)
    decreases |masters|
  {
    if masters == [] then MasterPass(locations, [], script, true)
    else
      var m := masters[0];
      if m in locations then
        ResolveMastersSpec(locations, masters[1..], files, dataFolder, script)
      else if FileExists(files, Combine(dataFolder, m)) then
        ResolveMastersSpec(locations[m := dataFolder], masters[1..], files, dataFolder, script)
      else
        var answer := Answer(script, 0);
        if answer == "" then MasterPass(locations, [m], Drop(script, 1), false)
        else
          var rest := ResolveMastersSpec(locations[m := ChosenDirectory(answer)], masters[1..], files, dataFolder, Drop(script, 1));
          rest.(asked := [m] + rest.asked)
  }

  /** One iteration of the foreach, on the state accumulated so far (hints shown, answers left). */
  function Visit(st: MasterPass, m: string, files: set<string>, dataFolder: string): MasterPass {
    if m in st.locations then st
    else if FileExists(files, Combine(dataFolder, m)) then st.(locations := st.locations[m := dataFolder])
    else
      var answer := Answer(st.script, 0);
      if answer == "" then st.(asked := st.asked + [m], script := Drop(st.script, 1), completed := false)
      else MasterPass(st.locations[m := ChosenDirectory(answer)], st.asked + [m], Drop(st.script, 1), st.completed)
  }

  /** The walk as the foreach runs it: visit the masters in turn until one is cancelled. */
  function Walk(st: MasterPass, masters: seq<string>, files: set<string>, dataFolder: string): MasterPass
    decreases |masters|
  {
    if masters == [] || !st.completed then st
    else Walk(Visit(st, masters[0], files, dataFolder), masters[1..], files, dataFolder)
  }

  /** Walking from an uncancelled state is the reference walk, with the earlier hints in front. */
  lemma {:induction false} WalkIsSpec(locations: map<string, string>, before: seq<string>, masters: seq<string>,
                                      files: set<string>, dataFolder: string, script: seq<string>)
    ensures var r := ResolveMastersSpec(locations, masters, files, dataFolder, script);
      Walk(MasterPass(locations, before, script, true), masters, files, dataFolder) == r.(asked := before + r.asked)
    decreases |masters|
  {
    if masters != [] {
      var m := masters[0];
      if m in locations {
        WalkIsSpec(locations, before, masters[1..], files, dataFolder, script);
      } else if FileExists(files, Combine(dataFolder, m)) {
        WalkIsSpec(locations[m := dataFolder], before, masters[1..], files, dataFolder, script);
      } else if Answer(script, 0) != "" {
        var next := locations[m := ChosenDirectory(Answer(script, 0))];
        WalkIsSpec(next, before + [m], masters[1..], files, dataFolder, Drop(script, 1));
        var rest := ResolveMastersSpec(next, masters[1..], files, dataFolder, Drop(script, 1));
        assert (before + [m]) + rest.asked == before + ([m] + rest.asked);
      }
    }
  }

  /** The outcome of the converter check. */
  datatype ConverterPass = ConverterPass(path: string, asked: seq<string>, script: seq<string>, ok: bool)

  /** Reference definition of the converter check: prompt only when the stored path is not a file. */
  function ResolveConverterSpec(path: string, files: set<string>, script: seq<string>): (r: ConverterPass)
  {
    if FileExists(files, path) then ConverterPass(path, [], script, true)
    else
      var answer := Answer(script, 0);
      if answer == "" then ConverterPass(path, [ConverterHint], Drop(script, 1), false)
      else ConverterPass(answer, [ConverterHint], Drop(script, 1), true)
  }

  /** Converter check then master walk, as Main runs them. */
  datatype Resolution = Resolution(settings: SettingsData, asked: seq<string>, script: seq<string>, completed: bool)

  function ResolveAll(settings: SettingsData, masters: seq<string>, files: set<string>,
                      dataFolder: string, script: seq<string>): (r: Resolution)
  {
    var c := ResolveConverterSpec(settings.spriggitPath, files, script);
    if !c.ok then Resolution(settings, c.asked, c.script, false)
    else
      var p := ResolveMastersSpec(settings.masterLocations, masters, files, dataFolder, c.script);
      Resolution(SettingsData(p.locations, c.path), c.asked + p.asked, p.script, p.completed)
  }

  /** Program.cs lines 60-66. */
  method ResolveConverter(s: ModSettings, files: set<string>, dialog: Dialog, ghost path: string, ghost script: seq<string>)
    returns (ok: bool)
    requires s.SpriggitPath == path && dialog.script == script
    modifies s, dialog
    ensures var c := ResolveConverterSpec(path, files, script);
      && ok == c.ok
      && s.SpriggitPath == c.path
      && dialog.script == c.script
      && dialog.asked == old(dialog.asked) + c.asked
    ensures s.MasterLocations == old(s.MasterLocations)
  {
    if !FileExists(files, s.SpriggitPath) {
      var selectPath := dialog.Show(ConverterHint);
      if selectPath == "" {
        return false;
      }
      s.SpriggitPath := selectPath;
    }
    return true;
  }

  /** Program.cs lines 60-94: the converter check, then the master loop. */
  method Resolve(s: ModSettings, masters: seq<string>, files: set<string>, dataFolder: string, dialog: Dialog,
                 ghost settings: SettingsData, ghost script: seq<string>)
    returns (completed: bool)
    requires s.MasterLocations == settings.masterLocations && s.SpriggitPath == settings.spriggitPath
    requires dialog.script == script
    modifies s, dialog
    ensures var r := ResolveAll(settings, masters, files, dataFolder, script);
      && completed == r.completed
      && s.MasterLocations == r.settings.masterLocations
      && s.SpriggitPath == r.settings.spriggitPath
      && dialog.script == r.script
      && dialog.asked == old(dialog.asked) + r.asked
  {
    ghost var asked0 := dialog.asked;
    ghost var c := ResolveConverterSpec(settings.spriggitPath, files, script);
    completed := ResolveConverter(s, files, dialog, settings.spriggitPath, script);
    if !completed {
      return;
    }
    ghost var p := ResolveMastersSpec(settings.masterLocations, masters, files, dataFolder, c.script);
    completed := ResolveMasters(s, masters, files, dataFolder, dialog, settings.masterLocations, c.script);
    assert dialog.asked == (asked0 + c.asked) + p.asked == asked0 + (c.asked + p.asked);
  }

  /** Program.cs lines 68-94: the foreach over the sorted masters. */
  method ResolveMasters(s: ModSettings, masters: seq<string>, files: set<string>, dataFolder: string, dialog: Dialog,
                        ghost locations: map<string, string>, ghost script: seq<string>)
    returns (completed: bool)
    requires s.MasterLocations == locations && dialog.script == script
    modifies s, dialog
    ensures var r := ResolveMastersSpec(locations, masters, files, dataFolder, script);
      && completed == r.completed
      && s.MasterLocations == r.locations
      && dialog.script == r.script
      && dialog.asked == old(dialog.asked) + r.asked
    ensures s.SpriggitPath == old(s.SpriggitPath)
  {
    ghost var target := Walk(MasterPass(s.MasterLocations, dialog.asked, dialog.script, true), masters, files, dataFolder);
    WalkIsSpec(s.MasterLocations, dialog.asked, masters, files, dataFolder, dialog.script);
    for i := 0 to |masters|
      invariant s.SpriggitPath == old(s.SpriggitPath)
      invariant Walk(MasterPass(s.MasterLocations, dialog.asked, dialog.script, true), masters[i..], files, dataFolder) == target
    {
      var master := masters[i];
      ghost var here := MasterPass(s.MasterLocations, dialog.asked, dialog.script, true);
      assert masters[i..][1..] == masters[i + 1..];
      assert Walk(here, masters[i..], files, dataFolder) == Walk(Visit(here, master, files, dataFolder), masters[i + 1..], files, dataFolder);
      if master in s.MasterLocations {
        if FileExists(files, s.MasterLocations[master]) {
          continue;
        }
      } else if FileExists(files, Combine(dataFolder, master)) {
        s.AddLocation(master, dataFolder);
        continue;
      } else {
        var selectPath := dialog.Show(master);
        if selectPath == "" {
          return false;
        }
        if master !in s.MasterLocations {
          s.AddLocation(master, ChosenDirectory(selectPath));
        } else {
          // the indexer update of line 91: the key was just found absent
          assert false;
        }
        continue;
      }
    }
    return true;
  }
}
