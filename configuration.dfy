/** Data and configuration directory precedence (src/configuration/configuration.rs). The
    environment overrides (`<PROJECT>_DATA`, `<PROJECT>_CONFIG`) and the platform's project
    directories are parameters; paths are their displayed strings. */
module Configuration {
  import opened Wrappers
  import opened Strings

  /** What `ProjectDirs` provides here. */
  datatype ProjectDirs = ProjectDirs(dataLocalDir: string, configLocalDir: string)

  /** `PathBuf::from(".").join(".data")` and `.join(".config")`, displayed. */
  const DataFallback: string := "./.data"
  const ConfigFallback: string := "./.config"

  /** A reference reading of the precedence rule: the first present candidate, else the
      fallback. */
  function FirstPresent(candidates: seq<Option<string>>, fallback: string): string {
    if candidates == [] then fallback
    else if candidates[0].Some? then candidates[0].value
    else FirstPresent(candidates[1..], fallback)
  }

  /** `get_data_dir`: the override, else the project data-local directory, else `./.data`. */
  function GetDataDir(dataFolder: Option<string>, projectDirs: Option<ProjectDirs>): (dir: string)
    ensures dataFolder.Some? ==> dir == dataFolder.value
    ensures dataFolder.None? && projectDirs.Some? ==> dir == projectDirs.value.dataLocalDir
    ensures dataFolder.None? && projectDirs.None? ==> dir == DataFallback
  {
    if dataFolder.Some? then dataFolder.value
    else if projectDirs.Some? then projectDirs.value.dataLocalDir
    else DataFallback
  }

  /** `get_config_dir`: the override, else the project config-local directory, else `./.config`. */
  function GetConfigDir(configFolder: Option<string>, projectDirs: Option<ProjectDirs>): (dir: string)
    ensures configFolder.Some? ==> dir == configFolder.value
    ensures configFolder.None? && projectDirs.Some? ==> dir == projectDirs.value.configLocalDir
    ensures configFolder.None? && projectDirs.None? ==> dir == ConfigFallback
  {
    if configFolder.Some? then configFolder.value
    else if projectDirs.Some? then projectDirs.value.configLocalDir
    else ConfigFallback
  }

  function DataLocal(p: Option<ProjectDirs>): Option<string> {
    if p.Some? then Some(p.value.dataLocalDir) else None
  }

  function ConfigLocal(p: Option<ProjectDirs>): Option<string> {
    if p.Some? then Some(p.value.configLocalDir) else None
  }

  lemma PairPrecedence(a: Option<string>, b: Option<string>, fallback: string)
    ensures FirstPresent([a, b], fallback) == if a.Some? then a.value else if b.Some? then b.value else fallback
  {
    assert [a, b][1..] == [b];
    assert [b][1..] == [];
    assert FirstPresent([b], fallback) == if b.Some? then b.value else FirstPresent([], fallback);
  }

  /** Both lookups are the same first-present rule over (override, project directory). */
  lemma DirsFollowPrecedence(dataFolder: Option<string>, configFolder: Option<string>, projectDirs: Option<ProjectDirs>)
    ensures GetDataDir(dataFolder, projectDirs) == FirstPresent([dataFolder, DataLocal(projectDirs)], DataFallback)
    ensures GetConfigDir(configFolder, projectDirs) == FirstPresent([configFolder, ConfigLocal(projectDirs)], ConfigFallback)
  {
    PairPrecedence(dataFolder, DataLocal(projectDirs), DataFallback);
    PairPrecedence(configFolder, ConfigLocal(projectDirs), ConfigFallback);
  }

  /** `version()`: the version message, the authors, then the config and the data directory
      as `get_config_dir` and `get_data_dir` find them, on the lines that the source's
      multi-line literal lays out. */
  function Version(versionMessage: string, authors: string, dataFolder: Option<string>,
                   configFolder: Option<string>, projectDirs: Option<ProjectDirs>): (text: string)
    ensures OccursAt(versionMessage, text, 0)
    ensures var configDir := GetConfigDir(configFolder, projectDirs);
      var dataDir := GetDataDir(dataFolder, projectDirs);
      exists i, j :: OccursAt(configDir, text, i) && OccursAt(dataDir, text, j) && i + |configDir| < j
    ensures var dataDir := GetDataDir(dataFolder, projectDirs);
      OccursAt(dataDir, text, |text| - |dataDir|)
  {
    var configDir := GetConfigDir(configFolder, projectDirs);
    var dataDir := GetDataDir(dataFolder, projectDirs);
    var head := versionMessage + "\n  \n  Authors: " + authors + "\n  \n  Config directory: ";
    var middle := "\n  Data directory: ";
    var text := head + configDir + middle + dataDir;
    assert OccursAt(versionMessage, text, 0);
    assert OccursAt(configDir, text, |head|);
    assert OccursAt(dataDir, text, |head| + |configDir| + |middle|);
    text
  }

  /** With no overrides and no project directories, the version text names the two
      fallbacks and ends with "./.data". */
  lemma VersionFallbacks(versionMessage: string, authors: string)
    ensures var text := Version(versionMessage, authors, None, None, None);
      && (exists i, j :: OccursAt(ConfigFallback, text, i) && OccursAt(DataFallback, text, j) && i < j)
      && EndsWith(text, DataFallback)
  {
    var text := Version(versionMessage, authors, None, None, None);
    assert GetConfigDir(None, None) == ConfigFallback && GetDataDir(None, None) == DataFallback;
    var i, j :| OccursAt(ConfigFallback, text, i) && OccursAt(DataFallback, text, j) && i + |ConfigFallback| < j;
  }
}
