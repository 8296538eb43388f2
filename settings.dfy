/** ModSettings: what the helper remembers between runs in .spriggit_helper.json. */
module Settings {

  /** The content of the settings file: the master-to-directory map and the converter path. */
  datatype SettingsData = SettingsData(masterLocations: map<string, string>, spriggitPath: string)

  /** What a default-constructed ModSettings holds. */
  const Default: SettingsData := SettingsData(map[], "")

  class ModSettings {
    /** Master file name to the directory it was found in; at most one directory per master. */
    var MasterLocations: map<string, string>
    /** Path of the converter executable (Spriggit.CLI.exe); empty until chosen. */
    var SpriggitPath: string

    constructor ()
      ensures MasterLocations == map[]
      ensures SpriggitPath == ""
      ensures Snapshot() == Default
    {
      MasterLocations := map[];
      SpriggitPath := "";
    }

    /** The state as it would be serialised. */
    function Snapshot(): SettingsData
      reads this
    {
      SettingsData(MasterLocations, SpriggitPath)
    }

    /** Dictionary.Add: the key must be new, or Add throws. */
    method AddLocation(master: string, directory: string)
      requires master !in MasterLocations
      modifies this
      ensures MasterLocations == old(MasterLocations)[master := directory]
      ensures SpriggitPath == old(SpriggitPath)
    {
      MasterLocations := MasterLocations[master := directory];
    }
  }
}
