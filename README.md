# spriggit-helper: master resolution, modelled in Dafny

spriggit-helper is a small Windows tool. It converts a Skyrim SE plugin file
(`.esp`, `.esm`, `.esl`) to YAML by running the Spriggit converter
(`Spriggit.CLI.exe`) on a staged copy of the plugin and its masters. Before it
can stage anything it must know where each master lives and where the converter
is. It remembers both in `.spriggit_helper.json`, a `ModSettings` object that
holds a `MasterLocations` dictionary (master file name to directory) and a
`SpriggitPath` string.

This project models the part of `Program.Main` that settles those locations:

- the extension filter on the input path;
- loading the settings (deserialised, or a new `ModSettings`);
- the converter check: prompt when `SpriggitPath` is not an existing file, abort on cancel;
- the loop over the sorted masters. It keeps a recorded entry, records the game's
  data folder when the master is found there, and otherwise prompts. A cancel
  aborts; otherwise the chosen file's directory is recorded;
- the single point where the settings are written;
- `GetTemporaryDirectory`;
- the exact command line passed to the converter.

`ModSettings` is a class whose fields the resolution methods change in place.
Each method is proved against a reference function (`Locator.ResolveConverterSpec`,
`Locator.ResolveMastersSpec`, `Locator.ResolveAll`, `Workspace.FreshTempDir`).
The promised properties are lemmas about those functions.
The foreach's loop invariant is stated with `Locator.Walk`. It visits one master at a
time, and `Locator.WalkIsSpec` ties it to the recursive reference. The methods take
their starting state as ghost parameters, so their contracts name it directly.

The collaborators are parameters:

- file existence is a set of files (`File.Exists`), plus a set of directories for `Path.Exists`;
- the data folder and the application base directory are strings;
- the file dialog is a `Dialog` object that plays back a script of answers.
  The empty string is a cancel, and an exhausted script cancels;
- `Path.GetRandomFileName` is a finite sequence of names;
- the plugin's master list is a sequence of names;
- the settings file's content is an `Option<SettingsData>`.

Modules: `Paths` (the .NET path functions used), `Settings` (`ModSettings`),
`Ordering` (`Order()`), `Locator` and `LocatorProperties` (the resolution step),
`Converter` (the command line), `Workspace` (the temporary directory) and
`Program` (`Main` end to end).

Three points where the model keeps the code's behaviour as written:

- A recorded master is never re-checked. Line 72 applies `File.Exists` to the
  stored directory rather than to directory plus file name. And when the key is
  present, the data-folder and prompt branches are skipped whatever that check
  returns. So a stale record is kept, and copying it fails later (left out).
- The indexer update at line 91 is dead: the key was found absent at line 70 in
  the same iteration. `Locator.ResolveMasters` proves this with `assert false` in that branch.
- The settings are written only after the whole loop completes. There is no
  atomic save, no in-place mode and no JSON output format. An aborted run
  leaves in-memory changes unsaved.

## Model

| member | source | states |
|---|---|---|
| Program.IsSupportedPluginPath | Program.cs:26 | the extension filter: the path ends with `.esp`, `.esm` or `.esl`, compared case-sensitively; its meaning is stated by `AcceptedExtensions` and `UpperCaseRejected` |
| Program.AcceptedExtensions | Program.cs:26-32 | a path whose last four characters are `ext` is accepted exactly when `ext` is `.esp`, `.esm` or `.esl` |
| Program.UpperCaseRejected | Program.cs:26 | the suffix test is case-sensitive: `Plugin.ESP` is rejected |
| Program.SupportedPathSplits | Program.cs:43-44 | an accepted path always has a directory (never null) and a non-empty file name |
| Program.OutputNextToSource | Program.cs:115 | for a canonical accepted path the converter reads `-i <tempDir>\<file>` and `-o <path>.yaml`, with profile `Spriggit.yaml` and game `SkyrimSE` |
| Program.Loaded | Program.cs:46-58 | the settings `Main` starts from: the deserialised object when the file exists and holds one, otherwise a new `ModSettings`; `LoadSettings` builds exactly this |
| Program.LoadSettings | Program.cs:41-58 | the settings are the stored ones, or the defaults when the file is missing or holds null |
| Program.Run | Program.cs:18-38 | no argument, an unsupported extension and a missing file give their own outcomes (each iff its condition); these issue no prompt and create no directory; an accepted input continues as in `Converts` |
| Program.ConvertPlugin | Program.cs:40-115 | the prompts and answers are those of the reference resolution; the run is cancelled iff resolution does not complete; the written settings are the resolved ones; the staging directory is the first free candidate and is the only directory created; the converter is the resolved `SpriggitPath` with the command line of line 115 |
| Program.Stage | Program.cs:101-115 | after a completed resolution: the saved settings are the object's current ones; the staging directory is the first free candidate, or none; exactly that directory is created; the converter and its command line are those of line 115 |
| Settings.ModSettings.constructor | ModSettings.cs:15-16 | a new object has an empty `MasterLocations` and `SpriggitPath == ""` |
| Settings.ModSettings.AddLocation | ModSettings.cs:15 | `Dictionary.Add`: requires the key to be new, adds exactly that entry |
| Ordering.Order | Program.cs:55 | the masters in ascending ordinal order: sorted and a permutation of the input |
| Ordering.OrderIsTheSortedPermutation | Program.cs:55 | every sorted permutation of the masters equals `Order`'s result |
| Ordering.OrderExample | Program.cs:55 | `b.esm, a.esm, c.esm` are visited as `a.esm, b.esm, c.esm` |
| Locator.FileExists | Program.cs:60-77 | `File.Exists` over the set of existing files; false for the empty path, so an unset `SpriggitPath` always prompts |
| Locator.ChosenDirectory | Program.cs:89 | `Path.GetDirectoryName(selectPath) ?? "./"`, the directory recorded for a prompted master |
| Locator.ChosenDirectoryShape | Program.cs:89 | a blank answer, for which GetDirectoryName returns null, records `./`; whatever the answer, the recorded value is `./` or a directory shorter than the chosen path |
| Locator.ResolveConverterSpec | Program.cs:60-66 | reference converter check: keep an existing `SpriggitPath` without a prompt; otherwise prompt once, stop on a cancel, take any other answer |
| Locator.ResolveMastersSpec | Program.cs:68-94 | reference master walk: skip a recorded master, record the data folder when the master is there, otherwise prompt; stop at the first cancel, record the chosen directory otherwise |
| Locator.ResolveAll | Program.cs:60-94 | reference resolution: the converter check, then the master walk on the answers it left, only when the check went on |
| Locator.Dialog.Show | Program.cs:182-205 | the dialog answers with the next scripted path (empty once the script is exhausted) and records the hint shown |
| Locator.ResolveConverter | Program.cs:60-66 | converter check against `ResolveConverterSpec`: the new `SpriggitPath`, the prompts and whether the run goes on; `MasterLocations` untouched |
| Locator.ResolveMasters | Program.cs:68-94 | the loop leaves exactly the map, prompts, remaining answers and completion of `ResolveMastersSpec`; `SpriggitPath` untouched; the update branch of line 91 is unreachable |
| Locator.Visit | Program.cs:70-93 | one pass of the foreach body on the state so far: a recorded master is passed over, a master in the data folder gets the data folder, otherwise one answer is taken; a cancel stops the walk, any other answer records its directory |
| Locator.Walk | Program.cs:68-94 | the foreach: `Visit` on each master in turn, stopping at the first cancel; the loop invariant of `ResolveMasters` is stated with it |
| Locator.WalkIsSpec | Program.cs:68-94 | visiting the masters one at a time from an uncancelled state, as the foreach does, yields the reference walk, with the earlier hints in front |
| Locator.Resolve | Program.cs:60-94 | converter check then master loop: the settings, prompts and completion of `ResolveAll` |
| LocatorProperties.KeepsRecorded | Program.cs:70-76 | every recorded entry keeps its directory whatever files exist; the only keys added are masters of the list |
| LocatorProperties.OthersUntouched | Program.cs:96-100 | an entry for a master not in the list is neither removed nor changed (pruning is commented out) |
| LocatorProperties.CompletedCoversAll | Program.cs:68-94 | when the loop completes every required master has an entry |
| LocatorProperties.PromptsFor | Program.cs:70-86 | independent reference for the prompts, which depend only on which masters are known: a master is asked for when it is neither known nor in the data folder, and becomes known once visited |
| LocatorProperties.PromptsForAreNeeded | Program.cs:77-86 | each reference prompt is for a master of the list that is unrecorded and absent from the data folder; no master is prompted twice |
| LocatorProperties.PromptsArePromptsFor | Program.cs:68-94 | the loop's prompts are a prefix of the reference prompts, and all of them when the loop completes |
| LocatorProperties.PromptsAscending | Program.cs:68-86 | for a sorted list the prompts come in ascending order |
| LocatorProperties.MasterPromptsAscending | Program.cs:55 | with the masters sorted as `Main` sorts them, the master prompts are in ascending order |
| LocatorProperties.AnswersConsumed | Program.cs:84 | exactly one answer is consumed per prompt |
| LocatorProperties.CancelEndsWalk | Program.cs:84-86 | every answer but the last is non-empty, and the loop completes iff the last answer was not a cancel |
| LocatorProperties.PromptedRecorded | Program.cs:88-92 | after completion each prompted master holds the chosen file's directory, or `./` when there is none |
| LocatorProperties.NeededPrompted | Program.cs:82-84 | the converse of `PromptsForAreNeeded`: a listed master that is unrecorded and absent from the data folder is prompted whenever the walk completes |
| LocatorProperties.RecordedNotAsked | Program.cs:70-76 | a master that already has an entry is never prompted |
| LocatorProperties.DataFolderRecorded | Program.cs:77-81 | an unrecorded master present in the data folder is never prompted and, on completion, holds the data folder |
| LocatorProperties.AllRecordedIsNoop | Program.cs:70-76 | when every master is recorded the loop changes nothing, prompts for nothing and completes |
| LocatorProperties.Idempotent | Program.cs:68-94 | a second loop after a completed one changes nothing and prompts for nothing, for any files, data folder and answers |
| LocatorProperties.ConverterKept | Program.cs:60 | an existing converter path is kept without a prompt |
| LocatorProperties.ConverterAskedFirst | Program.cs:60-66 | otherwise the converter is asked for first; a cancel ends the run before any master is examined; any other answer becomes `SpriggitPath` |
| LocatorProperties.FirstRunAsksForConverter | ModSettings.cs:16 | from the default settings the first prompt is always for `Spriggit.CLI.exe` |
| LocatorProperties.CompletedResolution | Program.cs:60-94 | a completed resolution has a non-empty converter path and an entry for every master |
| Converter.Arguments | Program.cs:115 | the argument string of line 115, built from the two `Path.Combine` calls; what it means is stated by `ArgumentsRoundTrip` |
| Converter.ArgumentsRoundTrip | Program.cs:115 | the command line splits into exactly `serialize`, `-i`, the staged plugin, `-o`, the output `.yaml`, `-p`, `Spriggit.yaml`, `-g`, `SkyrimSE`, even when the paths contain spaces |
| Workspace.TempCandidate | Program.cs:165 | the candidate `Path.Combine(BaseDirectory, "tmp_" + name)`; its shape is stated by `TempCandidateShape` |
| Workspace.FreshTempDir | Program.cs:162-176 | reference definition: the first candidate, in the order the names are drawn, that names no existing path, or none when the names run out |
| Workspace.FreshTempDirIsFirstFree | Program.cs:162-176 | the chosen directory did not exist and belongs to the first random name whose candidate was free; when none is found, every candidate existed |
| Workspace.TempCandidateShape | Program.cs:165 | a candidate starts with the base directory and its file name is `tmp_` plus the random name |
| Workspace.GetTemporaryDirectory | Program.cs:162-176 | returns the first free candidate, creates exactly that directory, leaves files alone |
| Workspace.FileSystem.PathExists | Program.cs:167 | `Path.Exists`: the path names an existing file or directory, never the empty path; the retry test of `GetTemporaryDirectory` |
| Workspace.FileSystem.CreateDirectory | Program.cs:173 | adds the directory and nothing else |
| Paths.EndsWith | Program.cs:26 | `String.EndsWith`: the last characters of the string are the suffix, compared ordinally |
| Paths.Combine | Program.cs:77 | `Path.Combine`: the name alone when the directory is empty or the name is rooted, otherwise the two joined by one backslash unless the directory already ends in a separator; its shape is stated by `CombineShape` |
| Paths.FileName | Program.cs:44 | `Path.GetFileName`: what follows the last separator outside the root |
| Paths.FileNameShape | Program.cs:44 | the file name is the longest separator-free suffix after the root: a suffix of the path lying after the root, with no separator in it, and with a separator just before it unless it starts where the root ends |
| Paths.DirectoryName | Program.cs:43 | `Path.GetDirectoryName`: null for a blank path or a bare root; otherwise the part before the last separator outside the root, trailing separators dropped and later runs of separators written as one backslash |
| Paths.DirectoryNameShape | Program.cs:89 | a blank path has no directory; a directory, when there is one, is shorter than the path |
| Paths.DirectoryNameCollapses | Program.cs:89 | `C:\a\\b\f` has the directory `C:\a\b` |
| Paths.DirectoryNameBackslashes | Program.cs:89 | `C:/a/f` has the directory `C:\a` |
| Paths.NormalizeNormal | Program.cs:43 | normalising the separators changes nothing when they are backslashes only, never two in a row |
| Paths.SplitRoundTrip | Program.cs:43-44 | for a canonical path that is not blank and has a file name, the directory is a prefix of the path and Combine(GetDirectoryName(p), GetFileName(p)) == p |
| Paths.NamedPathHasDirectory | Program.cs:43 | a path that is not blank and does not end in a separator or colon has a directory and a non-empty file name |
| Paths.CombineShape | Program.cs:77 | Path.Combine ends with the name; when the name is not rooted, it also starts with the directory |

## Left out

- Reading the plugin's master list (`SkyrimMod.CreateFromBinaryOverlay`, `MasterReferences`) and locating the game (`GameEnvironment`): foreign library calls. The master list and the data folder are inputs.
- `ShowDialog` / `GetOpenFileName` (comdlg32): Windows UI through P/Invoke. A scripted `Dialog` stands in for it, and the filter and title it builds are not modelled.
- JSON (de)serialisation and reading or writing `.spriggit_helper.json`: library I/O. The model says whether the write point of line 101 is reached and with what content. A malformed file, which makes `JsonSerializer` throw, is not modelled.
- Copying the masters and the plugin into the staging directory (lines 106-110) and deleting it (line 131): file-system plumbing. A stale master record makes that copy throw; the model does not capture this.
- Starting the converter, the asynchronous output handlers, `WaitForExit` and the exit code: process I/O and concurrency. The model stops at the executable and the command line.
- Console messages, `Console.ReadKey` and `Thread.Sleep`: UI.
- Workspace.GetTemporaryDirectory: the source retries forever on fresh random names. The model draws the names from a finite sequence and reports `NoTemporaryDirectory` when they run out.
- Ordering.Order: `Enumerable.Order()` compares strings with the current culture. The model compares ordinally, character code by character code.
- Program.IsSupportedPluginPath: `String.EndsWith(string)` is culture-sensitive. The model compares ordinally, which can differ only for strings with characters the culture ignores.
- Paths.DirectoryName: UNC and device roots (`\\server\share`, `\\?\`) are not modelled; the model treats their leading separators as an ordinary one-character root.
- Converter.SplitArguments: it reads a command line without the Windows backslash-escape rules. None apply here, since no quote in the line follows a backslash.
