/**
 * Program.Main as a sequence of steps: the input checks, loading the settings,
 * resolving the converter and the masters, the point where the settings are
 * written, the temporary directory and the converter's command line.
 */
module Program {
  import opened Wrappers
  import opened Paths
  import opened Settings
  import opened Ordering
  import opened Locator
  import opened Converter
  import opened Workspace

  /** The extension filter of line 26 (a case-sensitive suffix test). */
  predicate IsSupportedPluginPath(path: string) {
    EndsWith(path, ".esp") || EndsWith(path, ".esm") || EndsWith(path, ".esl")
  }

  /** A path is accepted exactly when its last four characters are one of the three plugin extensions. */
  lemma AcceptedExtensions(stem: string, extension: string)
    requires |extension| == 4
    ensures IsSupportedPluginPath(stem + extension) <==> extension in [".esp", ".esm", ".esl"]
  {
    assert (stem + extension)[|stem|..] == extension;
  }

  /** The check does not fold case. */
  lemma UpperCaseRejected()
    ensures !IsSupportedPluginPath("Plugin.ESP")
  {
    assert "Plugin.ESP"[6..] == ".ESP";
  }

  /** An accepted path has a directory and a non-empty file name, so line 115 never combines a null directory. */
  lemma SupportedPathSplits(path: string)
    requires IsSupportedPluginPath(path)
    ensures DirectoryName(path).Some? && FileName(path) != ""
  {
    assert path[|path| - 1] in "pml";
    NamedPathHasDirectory(path);
  }

  lemma NoQuoteSlices(p: string)
    requires NoQuote(p)
    ensures forall i, j :: 0 <= i <= j <= |p| ==> NoQuote(p[i..j])
  {
  }

  /**
   * For a canonical, accepted plugin path, the converter reads back the staged
   * copy as input and the plugin's own path with ".yaml" appended as output.
   */
  lemma OutputNextToSource(path: string, tempDir: string)
    requires IsSupportedPluginPath(path) && IsCanonical(path) && NoQuote(path) && NoQuote(tempDir)
    ensures DirectoryName(path).Some?
    ensures SplitArguments(Arguments(tempDir, DirectoryName(path).value, FileName(path)))
      == ["serialize", "-i", Combine(tempDir, FileName(path)), "-o", path + ".yaml", "-p", "Spriggit.yaml", "-g", "SkyrimSE"]
  {
    SupportedPathSplits(path);
    SplitRoundTrip(path);
    NoQuoteSlices(path);
    var dir := DirectoryName(path).value;
    assert NoQuote(dir) && NoQuote(FileName(path));
    ArgumentsRoundTrip(tempDir, dir, FileName(path));
  }

  /** The settings Main starts from: the stored ones, or a new ModSettings when the file is missing or holds null. */
  function Loaded(stored: Option<SettingsData>): SettingsData {
    match stored
    case Some(data) => data
    case None => Default
  }

  /** Lines 41-58: deserialise when there is a settings file, otherwise construct the defaults. */
  method LoadSettings(stored: Option<SettingsData>) returns (s: ModSettings)
    ensures fresh(s)
    ensures s.Snapshot() == Loaded(stored)
  {
    s := new ModSettings();
    if stored.Some? {
      s.MasterLocations := stored.value.masterLocations;
      s.SpriggitPath := stored.value.spriggitPath;
    }
  }

  datatype RunOutcome =
    | NoFileSpecified
    | UnsupportedFiletype
    | FileNotFound
      /** A prompt was cancelled: the run ends with the settings file unwritten. */
    | Cancelled
      /** The settings were written but the random-name oracle ran out (the source retries forever). */
    | NoTemporaryDirectory(saved: SettingsData)
      /** The settings written at line 101, the staging directory, and the converter's executable and command line. */
    | Converted(saved: SettingsData, tempDir: string, converter: string, arguments: string)

  predicate IsInputError(outcome: RunOutcome) {
    outcome.NoFileSpecified? || outcome.UnsupportedFiletype? || outcome.FileNotFound?
  }

  /**
   * Program.Main up to the converter launch. `stored` is the settings file's
   * content (None when missing), `masterReferences` the plugin's masters,
   * `dataFolder` the game's data folder, `randomNames` the successive results
   * of Path.GetRandomFileName.
   */
  method Run(args: seq<string>, stored: Option<SettingsData>, masterReferences: seq<string>,
             dataFolder: string, baseDir: string, randomNames: seq<string>,
             fs: FileSystem, dialog: Dialog) returns (outcome: RunOutcome)
    modifies fs, dialog
    ensures outcome.NoFileSpecified? <==> |args| == 0
    ensures |args| > 0 ==> (outcome.UnsupportedFiletype? <==> !IsSupportedPluginPath(args[0]))
    ensures |args| > 0 && IsSupportedPluginPath(args[0]) ==>
      (outcome.FileNotFound? <==> !FileExists(old(fs.files), args[0]))
    ensures IsInputError(outcome) ==>
      dialog.asked == old(dialog.asked) && dialog.script == old(dialog.script) && fs.directories == old(fs.directories)
    ensures fs.files == old(fs.files)
    ensures !IsInputError(outcome) ==> |args| > 0 && Converts(args[0], stored, masterReferences, dataFolder, baseDir, randomNames,
      old(fs.files), old(fs.directories), old(dialog.asked), old(dialog.script),
      outcome, fs.directories, dialog.asked, dialog.script)
  {
    if |args| == 0 {
      return NoFileSpecified;
    }
    var path := args[0];
    if !IsSupportedPluginPath(path) {
      return UnsupportedFiletype;
    }
    if !FileExists(fs.files, path) {
      return FileNotFound;
    }
    outcome := ConvertPlugin(path, stored, masterReferences, dataFolder, baseDir, randomNames, fs, dialog);
  }

  /**
   * What the run does once the input is accepted, against the reference
   * resolution: the prompts, the unused answers, whether the settings are
   * written and with what, the staging directory and the command line.
   */
  ghost predicate Converts(path: string, stored: Option<SettingsData>, masterReferences: seq<string>,
                           dataFolder: string, baseDir: string, randomNames: seq<string>,
                           files: set<string>, directories: set<string>, asked: seq<string>, script: seq<string>,
                           outcome: RunOutcome, directories': set<string>, asked': seq<string>, script': seq<string>)
  {
    var r := ResolveAll(Loaded(stored), Order(masterReferences), files, dataFolder, script);
    var free := FreshTempDir(baseDir, randomNames, files + directories);
    && !IsInputError(outcome)
    && asked' == asked + r.asked
    && script' == r.script
    && (outcome.Cancelled? <==> !r.completed)
    && (r.completed ==> outcome.saved == r.settings)
    && (outcome.NoTemporaryDirectory? <==> r.completed && free.None?)
    && (outcome.Converted? ==>
          && free == Some(outcome.tempDir)
          && outcome.converter == r.settings.spriggitPath
          && DirectoryName(path).Some?
          && outcome.arguments == Arguments(outcome.tempDir, DirectoryName(path).value, FileName(path)))
    && directories' == if outcome.Converted? then directories + {outcome.tempDir} else directories
  }

  /** Lines 40-115 for an accepted plugin path. */
  method ConvertPlugin(path: string, stored: Option<SettingsData>, masterReferences: seq<string>,
                       dataFolder: string, baseDir: string, randomNames: seq<string>,
                       fs: FileSystem, dialog: Dialog) returns (outcome: RunOutcome)
    requires IsSupportedPluginPath(path)
    modifies fs, dialog
    ensures fs.files == old(fs.files)
    ensures Converts(path, stored, masterReferences, dataFolder, baseDir, randomNames,
      old(fs.files), old(fs.directories), old(dialog.asked), old(dialog.script),
      outcome, fs.directories, dialog.asked, dialog.script)
  {
    ghost var files0, directories0 := fs.files, fs.directories;
    var settings := LoadSettings(stored);
    var masters := Order(masterReferences);
    ghost var r := ResolveAll(Loaded(stored), masters, files0, dataFolder, dialog.script);
    ghost var asked0 := dialog.asked;
    var ok := Resolve(settings, masters, fs.files, dataFolder, dialog, Loaded(stored), dialog.script);
    assert fs.files == files0 && fs.directories == directories0;
    assert ok == r.completed && dialog.asked == asked0 + r.asked && dialog.script == r.script;
    if !ok {
      return Cancelled;
    }
    assert settings.Snapshot() == r.settings;
    outcome := Stage(settings, path, baseDir, randomNames, fs, files0 + directories0);
  }

  /**
   * Lines 101-115, once every location is known: the settings are written, the
   * staging directory is created and the converter's command line is built.
   */
  method Stage(settings: ModSettings, path: string, baseDir: string, randomNames: seq<string>,
               fs: FileSystem, ghost existing: set<string>) returns (outcome: RunOutcome)
    requires IsSupportedPluginPath(path)
    requires fs.files + fs.directories == existing
    modifies fs
    ensures fs.files == old(fs.files)
    ensures var free := FreshTempDir(baseDir, randomNames, existing);
      && (outcome.NoTemporaryDirectory? || outcome.Converted?)
      && outcome.saved == settings.Snapshot()
      && (outcome.NoTemporaryDirectory? <==> free.None?)
      && (outcome.Converted? ==>
            && free == Some(outcome.tempDir)
            && outcome.converter == settings.SpriggitPath
            && DirectoryName(path).Some?
            && outcome.arguments == Arguments(outcome.tempDir, DirectoryName(path).value, FileName(path)))
      && fs.directories == if outcome.Converted? then old(fs.directories) + {outcome.tempDir} else old(fs.directories)
  {
    SupportedPathSplits(path);
    // line 101: the settings file is written here and only here
    var saved := settings.Snapshot();
    var tempDir := GetTemporaryDirectory(fs, baseDir, randomNames, existing);
    if tempDir.None? {
      return NoTemporaryDirectory(saved);
    }
    outcome := Converted(saved, tempDir.value, settings.SpriggitPath,
                         Arguments(tempDir.value, DirectoryName(path).value, FileName(path)));
  }
}
