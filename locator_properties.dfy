/** What the resolution step promises, proved about its reference definitions. */
module LocatorProperties {
  import opened Paths
  import opened Settings
  import opened Ordering
  import opened Locator

  /** One step of the reference walk, branch by branch. */
  lemma MastersStep(locations: map<string, string>, masters: seq<string>, files: set<string>,
                    dataFolder: string, script: seq<string>)
    requires masters != []
    ensures var m := masters[0];
      var r := ResolveMastersSpec(locations, masters, files, dataFolder, script);
      && (m in locations ==> r == ResolveMastersSpec(locations, masters[1..], files, dataFolder, script))
      && (m !in locations && FileExists(files, Combine(dataFolder, m)) ==>
            r == ResolveMastersSpec(locations[m := dataFolder], masters[1..], files, dataFolder, script))
      && (m !in locations && !FileExists(files, Combine(dataFolder, m)) && Answer(script, 0) == "" ==>
            r == MasterPass(locations, [m], Drop(script, 1), false))
      && (m !in locations && !FileExists(files, Combine(dataFolder, m)) && Answer(script, 0) != "" ==>
            var rest := ResolveMastersSpec(locations[m := ChosenDirectory(Answer(script, 0))], masters[1..], files, dataFolder, Drop(script, 1));
            r == rest.(asked := [m] + rest.asked))
  {
  }

  /**
   * Recorded masters keep their directory, whatever the file system holds, and
   * the only keys added are masters of this run.
   */
  lemma {:induction false} KeepsRecorded(locations: map<string, string>, masters: seq<string>, files: set<string>,
                                         dataFolder: string, script: seq<string>)
    ensures var r := ResolveMastersSpec(locations, masters, files, dataFolder, script);
      && (forall k :: k in locations ==> k in r.locations && r.locations[k] == locations[k])
      && (forall k :: k in r.locations && k !in locations ==> k in masters)
    decreases |masters|
  {
    if masters != [] {
      var m := masters[0];
      MastersStep(locations, masters, files, dataFolder, script);
      assert masters == [m] + masters[1..];
      if m in locations {
        KeepsRecorded(locations, masters[1..], files, dataFolder, script);
      } else if FileExists(files, Combine(dataFolder, m)) {
        KeepsRecorded(locations[m := dataFolder], masters[1..], files, dataFolder, script);
      } else if Answer(script, 0) != "" {
        KeepsRecorded(locations[m := ChosenDirectory(Answer(script, 0))], masters[1..], files, dataFolder, Drop(script, 1));
      }
    }
  }

  /** Entries for masters outside the list are left exactly as they were (nothing is pruned). */
  lemma OthersUntouched(locations: map<string, string>, masters: seq<string>, files: set<string>,
                        dataFolder: string, script: seq<string>, k: string)
    requires k !in masters
    ensures var r := ResolveMastersSpec(locations, masters, files, dataFolder, script);
      && (k in r.locations <==> k in locations)
      && (k in locations ==> r.locations[k] == locations[k])
  {
    KeepsRecorded(locations, masters, files, dataFolder, script);
  }

  /** When the walk completes, every required master has a directory. */
  lemma {:induction false} CompletedCoversAll(locations: map<string, string>, masters: seq<string>, files: set<string>,
                                              dataFolder: string, script: seq<string>)
    ensures var r := ResolveMastersSpec(locations, masters, files, dataFolder, script);
      r.completed ==> forall m :: m in masters ==> m in r.locations
    decreases |masters|
  {
    if masters != [] {
      var m := masters[0];
      MastersStep(locations, masters, files, dataFolder, script);
      var r := ResolveMastersSpec(locations, masters, files, dataFolder, script);
      if m in locations {
        CompletedCoversAll(locations, masters[1..], files, dataFolder, script);
        KeepsRecorded(locations, masters[1..], files, dataFolder, script);
      } else if FileExists(files, Combine(dataFolder, m)) {
        CompletedCoversAll(locations[m := dataFolder], masters[1..], files, dataFolder, script);
        KeepsRecorded(locations[m := dataFolder], masters[1..], files, dataFolder, script);
      } else if Answer(script, 0) != "" {
        var next := locations[m := ChosenDirectory(Answer(script, 0))];
        CompletedCoversAll(next, masters[1..], files, dataFolder, Drop(script, 1));
        KeepsRecorded(next, masters[1..], files, dataFolder, Drop(script, 1));
      }
      assert masters == [m] + masters[1..];
    }
  }

  /**
   * Independent account of the prompts: they depend only on which masters are
   * known. A master is asked for when it is neither known nor in the data folder,
   * and becomes known once visited.
   */
  function PromptsFor(known: set<string>, masters: seq<string>, files: set<string>, dataFolder: string): (p: seq<string>)
    decreases |masters|
  {
    if masters == [] then []
    else
      var m := masters[0];
      if m in known then PromptsFor(known, masters[1..], files, dataFolder)
      else if FileExists(files, Combine(dataFolder, m)) then PromptsFor(known + {m}, masters[1..], files, dataFolder)
      else [m] + PromptsFor(known + {m}, masters[1..], files, dataFolder)
  }

  /** Each of `prompts` is a master of the list that was unknown and is absent from the data folder. */
  predicate AllNeeded(prompts: seq<string>, known: set<string>, masters: seq<string>, files: set<string>, dataFolder: string) {
    forall j :: 0 <= j < |prompts| ==>
      prompts[j] in masters && prompts[j] !in known && !FileExists(files, Combine(dataFolder, prompts[j]))
  }

  predicate Distinct(s: seq<string>) {
    forall i, j :: 0 <= i < j < |s| ==> s[i] != s[j]
  }

  /** Every prompt is for a master of the list that was unknown and absent from the data folder, and none is repeated. */
  lemma {:induction false} PromptsForAreNeeded(known: set<string>, masters: seq<string>, files: set<string>, dataFolder: string)
    ensures AllNeeded(PromptsFor(known, masters, files, dataFolder), known, masters, files, dataFolder)
    ensures Distinct(PromptsFor(known, masters, files, dataFolder))
    decreases |masters|
  {
    if masters != [] {
      var m := masters[0];
      var known' := if m in known then known else known + {m};
      PromptsForAreNeeded(known', masters[1..], files, dataFolder);
      var t := PromptsFor(known', masters[1..], files, dataFolder);
      assert AllNeeded(t, known', masters[1..], files, dataFolder);
      forall j | 0 <= j < |t| ensures t[j] in masters && t[j] != m {
        assert t[j] in masters[1..];
      }
    }
  }

  /** Prompts follow the order of the list: for the sorted masters of Main they come in ascending order. */
  lemma {:induction false} PromptsForSorted(known: set<string>, masters: seq<string>, files: set<string>, dataFolder: string)
    requires Sorted(masters)
    ensures Sorted(PromptsFor(known, masters, files, dataFolder))
    decreases |masters|
  {
    if masters != [] {
      var m := masters[0];
      var known' := if m in known then known else known + {m};
      var tail := PromptsFor(known', masters[1..], files, dataFolder);
      PromptsForSorted(known', masters[1..], files, dataFolder);
      PromptsForAreNeeded(known', masters[1..], files, dataFolder);
      assert AllNeeded(tail, known', masters[1..], files, dataFolder);
      forall j | 0 <= j < |tail| ensures Below(m, tail[j]) {
        assert tail[j] in masters[1..];
        var k :| 0 <= k < |masters[1..]| && masters[1..][k] == tail[j];
        assert masters[k + 1] == tail[j];
      }
    }
  }

  /** The prompts the loop issues are the reference prompts, cut short after a cancel. */
  lemma {:induction false} PromptsArePromptsFor(locations: map<string, string>, masters: seq<string>, files: set<string>,
                                                dataFolder: string, script: seq<string>)
    ensures var r := ResolveMastersSpec(locations, masters, files, dataFolder, script);
      && r.asked <= PromptsFor(locations.Keys, masters, files, dataFolder)
      && (r.completed ==> r.asked == PromptsFor(locations.Keys, masters, files, dataFolder))
    decreases |masters|
  {
    if masters != [] {
      var m := masters[0];
      MastersStep(locations, masters, files, dataFolder, script);
      if m in locations {
        PromptsArePromptsFor(locations, masters[1..], files, dataFolder, script);
      } else if FileExists(files, Combine(dataFolder, m)) {
        assert locations[m := dataFolder].Keys == locations.Keys + {m};
        PromptsArePromptsFor(locations[m := dataFolder], masters[1..], files, dataFolder, script);
      } else if Answer(script, 0) != "" {
        var next := locations[m := ChosenDirectory(Answer(script, 0))];
        assert next.Keys == locations.Keys + {m};
        PromptsArePromptsFor(next, masters[1..], files, dataFolder, Drop(script, 1));
      }
    }
  }

  /** With the masters sorted, as Main sorts them, the prompts come in ascending order. */
  lemma PromptsAscending(locations: map<string, string>, masters: seq<string>, files: set<string>,
                         dataFolder: string, script: seq<string>)
    requires Sorted(masters)
    ensures Sorted(ResolveMastersSpec(locations, masters, files, dataFolder, script).asked)
  {
    var r := ResolveMastersSpec(locations, masters, files, dataFolder, script);
    var p := PromptsFor(locations.Keys, masters, files, dataFolder);
    PromptsArePromptsFor(locations, masters, files, dataFolder, script);
    PromptsForSorted(locations.Keys, masters, files, dataFolder);
    assert forall j :: 0 <= j < |r.asked| ==> r.asked[j] == p[j];
  }

  lemma AnswerShift(script: seq<string>, j: nat)
    ensures Answer(Drop(script, 1), j) == Answer(script, j + 1)
    ensures Drop(Drop(script, 1), j) == Drop(script, j + 1)
  {
  }

  /** Answers are consumed one per prompt. */
  lemma {:induction false} AnswersConsumed(locations: map<string, string>, masters: seq<string>, files: set<string>,
                                           dataFolder: string, script: seq<string>)
    ensures var r := ResolveMastersSpec(locations, masters, files, dataFolder, script);
      r.script == Drop(script, |r.asked|)
    decreases |masters|
  {
    if masters != [] {
      var m := masters[0];
      MastersStep(locations, masters, files, dataFolder, script);
      if m in locations {
        AnswersConsumed(locations, masters[1..], files, dataFolder, script);
      } else if FileExists(files, Combine(dataFolder, m)) {
        AnswersConsumed(locations[m := dataFolder], masters[1..], files, dataFolder, script);
      } else if Answer(script, 0) != "" {
        var next := locations[m := ChosenDirectory(Answer(script, 0))];
        AnswersConsumed(next, masters[1..], files, dataFolder, Drop(script, 1));
        AnswerShift(script, |ResolveMastersSpec(next, masters[1..], files, dataFolder, Drop(script, 1)).asked|);
      }
    }
  }

  /** A prompt answered with a file, in front of a walk whose only possible cancel is its last answer. */
  lemma AnswersPrepend(script: seq<string>, rest: seq<string>)
    requires Answer(script, 0) != ""
    requires forall j :: 0 <= j < |rest| - 1 ==> Answer(Drop(script, 1), j) != ""
    ensures forall j :: 0 <= j < |rest| ==> Answer(script, j) != ""
  {
    forall j | 1 <= j < |rest| ensures Answer(script, j) != "" {
      AnswerShift(script, j - 1);
    }
  }

  /** A prompt answered with a file, in front of a walk that completes iff its last answer was not a cancel. */
  lemma LastAnswerPrepend(m: string, script: seq<string>, rest: MasterPass)
    requires Answer(script, 0) != ""
    requires rest.completed <==> (rest.asked == [] || Answer(Drop(script, 1), |rest.asked| - 1) != "")
    ensures var r := rest.(asked := [m] + rest.asked);
      r.completed <==> (r.asked == [] || Answer(script, |r.asked| - 1) != "")
  {
    if rest.asked != [] {
      AnswerShift(script, |rest.asked| - 1);
    }
  }

  /** A prompt answered with a file and recorded, in front of a walk that records its own prompts. */
  lemma PromptedPrepend(m: string, script: seq<string>, rest: MasterPass)
    requires m in rest.locations && rest.locations[m] == ChosenDirectory(Answer(script, 0))
    requires rest.completed ==> forall j :: 0 <= j < |rest.asked| ==>
      rest.asked[j] in rest.locations && rest.locations[rest.asked[j]] == ChosenDirectory(Answer(Drop(script, 1), j))
    ensures var r := rest.(asked := [m] + rest.asked);
      r.completed ==> forall j :: 0 <= j < |r.asked| ==>
        r.asked[j] in r.locations && r.locations[r.asked[j]] == ChosenDirectory(Answer(script, j))
  {
    var r := rest.(asked := [m] + rest.asked);
    if r.completed {
      forall j | 0 <= j < |r.asked|
        ensures r.asked[j] in r.locations && r.locations[r.asked[j]] == ChosenDirectory(Answer(script, j))
      {
        if j > 0 {
          assert r.asked[j] == rest.asked[j - 1];
          AnswerShift(script, j - 1);
        }
      }
    }
  }

  /** Every answer before the last one was a chosen file: only the last prompt can be a cancel. */
  lemma {:induction false} AnswersBeforeLast(locations: map<string, string>, masters: seq<string>, files: set<string>,
                                             dataFolder: string, script: seq<string>)
    ensures var r := ResolveMastersSpec(locations, masters, files, dataFolder, script);
      forall j :: 0 <= j < |r.asked| - 1 ==> Answer(script, j) != ""
    decreases |masters|
  {
    if masters != [] {
      var m := masters[0];
      MastersStep(locations, masters, files, dataFolder, script);
      if m in locations {
        AnswersBeforeLast(locations, masters[1..], files, dataFolder, script);
      } else if FileExists(files, Combine(dataFolder, m)) {
        AnswersBeforeLast(locations[m := dataFolder], masters[1..], files, dataFolder, script);
      } else if Answer(script, 0) != "" {
        var next := locations[m := ChosenDirectory(Answer(script, 0))];
        var script' := Drop(script, 1);
        AnswersBeforeLast(next, masters[1..], files, dataFolder, script');
        AnswersPrepend(script, ResolveMastersSpec(next, masters[1..], files, dataFolder, script').asked);
      }
    }
  }

  /** The walk completes exactly when there was no prompt or the last answer was not a cancel. */
  lemma {:induction false} CompletedIffLastAnswer(locations: map<string, string>, masters: seq<string>, files: set<string>,
                                                  dataFolder: string, script: seq<string>)
    ensures var r := ResolveMastersSpec(locations, masters, files, dataFolder, script);
      r.completed <==> (r.asked == [] || Answer(script, |r.asked| - 1) != "")
    decreases |masters|
  {
    if masters != [] {
      var m := masters[0];
      MastersStep(locations, masters, files, dataFolder, script);
      if m in locations {
        CompletedIffLastAnswer(locations, masters[1..], files, dataFolder, script);
      } else if FileExists(files, Combine(dataFolder, m)) {
        CompletedIffLastAnswer(locations[m := dataFolder], masters[1..], files, dataFolder, script);
      } else if Answer(script, 0) != "" {
        var next := locations[m := ChosenDirectory(Answer(script, 0))];
        var script' := Drop(script, 1);
        CompletedIffLastAnswer(next, masters[1..], files, dataFolder, script');
        LastAnswerPrepend(m, script, ResolveMastersSpec(next, masters[1..], files, dataFolder, script'));
      }
    }
  }

  /** Every answer but a final cancel is a chosen file; the walk completes exactly when no answer was a cancel. */
  lemma CancelEndsWalk(locations: map<string, string>, masters: seq<string>, files: set<string>,
                       dataFolder: string, script: seq<string>)
    ensures var r := ResolveMastersSpec(locations, masters, files, dataFolder, script);
      && (forall j :: 0 <= j < |r.asked| - 1 ==> Answer(script, j) != "")
      && (r.completed <==> (r.asked == [] || Answer(script, |r.asked| - 1) != ""))
  {
    AnswersBeforeLast(locations, masters, files, dataFolder, script);
    CompletedIffLastAnswer(locations, masters, files, dataFolder, script);
  }

  /** After a completed walk, each prompted master holds the directory of the file chosen at its prompt. */
  lemma {:induction false} PromptedRecorded(locations: map<string, string>, masters: seq<string>, files: set<string>,
                                            dataFolder: string, script: seq<string>)
    ensures var r := ResolveMastersSpec(locations, masters, files, dataFolder, script);
      r.completed ==> forall j :: 0 <= j < |r.asked| ==>
        r.asked[j] in r.locations && r.locations[r.asked[j]] == ChosenDirectory(Answer(script, j))
    decreases |masters|
  {
    if masters != [] {
      var m := masters[0];
      MastersStep(locations, masters, files, dataFolder, script);
      if m in locations {
        PromptedRecorded(locations, masters[1..], files, dataFolder, script);
      } else if FileExists(files, Combine(dataFolder, m)) {
        PromptedRecorded(locations[m := dataFolder], masters[1..], files, dataFolder, script);
      } else if Answer(script, 0) != "" {
        var next := locations[m := ChosenDirectory(Answer(script, 0))];
        var script' := Drop(script, 1);
        PromptedRecorded(next, masters[1..], files, dataFolder, script');
        KeepsRecorded(next, masters[1..], files, dataFolder, script');
        PromptedPrepend(m, script, ResolveMastersSpec(next, masters[1..], files, dataFolder, script'));
      }
    }
  }

  /** Once every master is recorded the walk changes nothing, prompts for nothing and completes. */
  lemma {:induction false} AllRecordedIsNoop(locations: map<string, string>, masters: seq<string>, files: set<string>,
                                             dataFolder: string, script: seq<string>)
    requires forall m :: m in masters ==> m in locations
    ensures ResolveMastersSpec(locations, masters, files, dataFolder, script) == MasterPass(locations, [], script, true)
    decreases |masters|
  {
    if masters != [] {
      AllRecordedIsNoop(locations, masters[1..], files, dataFolder, script);
    }
  }

  /**
   * Re-resolution is idempotent: after a completed walk, walking the same master
   * list again, against any file system, data folder and answers, has no effect.
   */
  lemma Idempotent(locations: map<string, string>, masters: seq<string>, files: set<string>,
                   dataFolder: string, script: seq<string>,
                   files': set<string>, dataFolder': string, script': seq<string>)
    ensures var r := ResolveMastersSpec(locations, masters, files, dataFolder, script);
      r.completed ==> ResolveMastersSpec(r.locations, masters, files', dataFolder', script') == MasterPass(r.locations, [], script', true)
  {
    var r := ResolveMastersSpec(locations, masters, files, dataFolder, script);
    if r.completed {
      CompletedCoversAll(locations, masters, files, dataFolder, script);
      AllRecordedIsNoop(r.locations, masters, files', dataFolder', script');
    }
  }

  /** An unrecorded master present in the data folder is never prompted. */
  lemma DataFolderNotAsked(locations: map<string, string>, masters: seq<string>, files: set<string>,
                           dataFolder: string, script: seq<string>, m: string)
    requires m !in locations && FileExists(files, Combine(dataFolder, m))
    ensures m !in ResolveMastersSpec(locations, masters, files, dataFolder, script).asked
  {
    var r := ResolveMastersSpec(locations, masters, files, dataFolder, script);
    var p := PromptsFor(locations.Keys, masters, files, dataFolder);
    PromptsArePromptsFor(locations, masters, files, dataFolder, script);
    PromptsForAreNeeded(locations.Keys, masters, files, dataFolder);
    assert AllNeeded(p, locations.Keys, masters, files, dataFolder);
    forall j | 0 <= j < |r.asked| ensures r.asked[j] != m {
      assert r.asked[j] == p[j];
    }
  }

  /**
   * The converse of PromptsForAreNeeded: an unrecorded master absent from the data
   * folder is prompted (lines 82-84) whenever the walk completes.
   */
  lemma {:induction false} NeededPrompted(locations: map<string, string>, masters: seq<string>, files: set<string>,
                                          dataFolder: string, script: seq<string>, m: string)
    requires m in masters && m !in locations && !FileExists(files, Combine(dataFolder, m))
    ensures var r := ResolveMastersSpec(locations, masters, files, dataFolder, script);
      r.completed ==> m in r.asked
    decreases |masters|
  {
    var m0 := masters[0];
    MastersStep(locations, masters, files, dataFolder, script);
    if m0 != m {
      assert m in masters[1..] by { assert masters == [m0] + masters[1..]; }
    }
    if m0 in locations {
      NeededPrompted(locations, masters[1..], files, dataFolder, script, m);
    } else if FileExists(files, Combine(dataFolder, m0)) {
      NeededPrompted(locations[m0 := dataFolder], masters[1..], files, dataFolder, script, m);
    } else if Answer(script, 0) != "" && m0 != m {
      NeededPrompted(locations[m0 := ChosenDirectory(Answer(script, 0))], masters[1..], files, dataFolder, Drop(script, 1), m);
    }
  }

  /** A master already recorded is never prompted: lines 70-76 skip it before any dialog. */
  lemma RecordedNotAsked(locations: map<string, string>, masters: seq<string>, files: set<string>,
                         dataFolder: string, script: seq<string>, m: string)
    requires m in locations
    ensures m !in ResolveMastersSpec(locations, masters, files, dataFolder, script).asked
  {
    var r := ResolveMastersSpec(locations, masters, files, dataFolder, script);
    var p := PromptsFor(locations.Keys, masters, files, dataFolder);
    PromptsArePromptsFor(locations, masters, files, dataFolder, script);
    PromptsForAreNeeded(locations.Keys, masters, files, dataFolder);
    assert AllNeeded(p, locations.Keys, masters, files, dataFolder);
    forall j | 0 <= j < |r.asked| ensures r.asked[j] != m {
      assert r.asked[j] == p[j];
    }
  }

  /** An unrecorded master present in the data folder holds the data folder once the walk completes. */
  lemma {:induction false} DataFolderKept(locations: map<string, string>, masters: seq<string>, files: set<string>,
                                          dataFolder: string, script: seq<string>, m: string)
    requires m in masters && m !in locations && FileExists(files, Combine(dataFolder, m))
    ensures var r := ResolveMastersSpec(locations, masters, files, dataFolder, script);
      r.completed ==> m in r.locations && r.locations[m] == dataFolder
    decreases |masters|
  {
    var m0 := masters[0];
    MastersStep(locations, masters, files, dataFolder, script);
    if m0 == m {
      assert ResolveMastersSpec(locations, masters, files, dataFolder, script)
          == ResolveMastersSpec(locations[m := dataFolder], masters[1..], files, dataFolder, script);
      KeepsRecorded(locations[m := dataFolder], masters[1..], files, dataFolder, script);
    } else {
      assert m in masters[1..] by { assert masters == [m0] + masters[1..]; }
      if m0 in locations {
        DataFolderKept(locations, masters[1..], files, dataFolder, script, m);
      } else if FileExists(files, Combine(dataFolder, m0)) {
        DataFolderKept(locations[m0 := dataFolder], masters[1..], files, dataFolder, script, m);
      } else if Answer(script, 0) != "" {
        DataFolderKept(locations[m0 := ChosenDirectory(Answer(script, 0))], masters[1..], files, dataFolder, Drop(script, 1), m);
      }
    }
  }

  /** An unrecorded master present in the data folder gets the data folder, without a prompt. */
  lemma DataFolderRecorded(locations: map<string, string>, masters: seq<string>, files: set<string>,
                           dataFolder: string, script: seq<string>, m: string)
    requires m in masters && m !in locations && FileExists(files, Combine(dataFolder, m))
    ensures var r := ResolveMastersSpec(locations, masters, files, dataFolder, script);
      && (r.completed ==> m in r.locations && r.locations[m] == dataFolder)
      && m !in r.asked
  {
    DataFolderNotAsked(locations, masters, files, dataFolder, script, m);
    DataFolderKept(locations, masters, files, dataFolder, script, m);
  }

  /** A stored converter path that is an existing file causes no prompt and stays. */
  lemma ConverterKept(settings: SettingsData, masters: seq<string>, files: set<string>, dataFolder: string, script: seq<string>)
    requires FileExists(files, settings.spriggitPath)
    ensures var r := ResolveAll(settings, masters, files, dataFolder, script);
      var p := ResolveMastersSpec(settings.masterLocations, masters, files, dataFolder, script);
      r == Resolution(SettingsData(p.locations, settings.spriggitPath), p.asked, p.script, p.completed)
  {
  }

  /**
   * Otherwise the converter is asked for first; a cancel ends the run before any
   * master is examined, and any other answer becomes the converter path.
   */
  lemma ConverterAskedFirst(settings: SettingsData, masters: seq<string>, files: set<string>, dataFolder: string, script: seq<string>)
    requires !FileExists(files, settings.spriggitPath)
    ensures var r := ResolveAll(settings, masters, files, dataFolder, script);
      && r.asked != [] && r.asked[0] == ConverterHint
      && (Answer(script, 0) == "" ==> r == Resolution(settings, [ConverterHint], Drop(script, 1), false))
      && (Answer(script, 0) != "" ==> r.settings.spriggitPath == Answer(script, 0))
  {
  }

  /** A missing settings file gives the default settings, and the first run then always asks for the converter. */
  lemma FirstRunAsksForConverter(masters: seq<string>, files: set<string>, dataFolder: string, script: seq<string>)
    ensures var r := ResolveAll(Default, masters, files, dataFolder, script);
      r.asked != [] && r.asked[0] == ConverterHint
  {
    ConverterAskedFirst(Default, masters, files, dataFolder, script);
  }

  /** A completed resolution has a non-empty converter path and a directory for every master. */
  lemma CompletedResolution(settings: SettingsData, masters: seq<string>, files: set<string>, dataFolder: string, script: seq<string>)
    ensures var r := ResolveAll(settings, masters, files, dataFolder, script);
      r.completed ==> r.settings.spriggitPath != "" && forall m :: m in masters ==> m in r.settings.masterLocations
  {
    var c := ResolveConverterSpec(settings.spriggitPath, files, script);
    CompletedCoversAll(settings.masterLocations, masters, files, dataFolder, c.script);
  }

  /** Main sorts the plugin's master references, so the master prompts of a run come in ascending order. */
  lemma MasterPromptsAscending(locations: map<string, string>, masterReferences: seq<string>, files: set<string>,
                               dataFolder: string, script: seq<string>)
    ensures Sorted(ResolveMastersSpec(locations, Order(masterReferences), files, dataFolder, script).asked)
  {
    PromptsAscending(locations, Order(masterReferences), files, dataFolder, script);
  }
}
