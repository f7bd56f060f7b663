/**
 Stored column configurations: one JSON file per table under
 `config_dir/dataset_id/table_id.json`, seen as a map from path to the
 ordered mapping the file holds.
 */
module Configs {
  import opened Wrappers
  import opened Storage
  import opened Generator

  /** Where the configuration of a table is kept. */
  function ConfigPath(configDir: string, datasetId: string, tableId: string): string
  {
    DatasetFile(configDir, datasetId, tableId + ".json")
  }

  /** The record stored for a table, if there is one. */
  function Stored(records: map<string, ColumnConfigs>, configDir: string, datasetId: string, tableId: string)
    : (r: Option<ColumnConfigs>)
    ensures r.None? <==> ConfigPath(configDir, datasetId, tableId) !in records
    ensures r.Some? ==> r.value == records[ConfigPath(configDir, datasetId, tableId)]
  {
    var path := ConfigPath(configDir, datasetId, tableId);
    if path in records then Some(records[path]) else None
  }

  /** The configuration files on disk. A record is the mapping itself, with
      its key order: `json.dump` and `json.load` keep the order of a dict. */
  class ConfigStore {
    var records: map<string, ColumnConfigs>

    constructor (initial: map<string, ColumnConfigs>)
      ensures records == initial
    {
      records := initial;
    }
  }

  class ConfigManager {
    const configDir: string
    const store: ConfigStore

    constructor (configDir: string, store: ConfigStore)
      ensures this.configDir == configDir && this.store == store
    {
      this.configDir := configDir;
      this.store := store;
    }

    /** `save_config`: overwrites the table's record with `config` and
        returns its path. */
    method SaveConfig(datasetId: string, tableId: string, config: ColumnConfigs) returns (configPath: string)
      modifies store
      ensures configPath == ConfigPath(configDir, datasetId, tableId)
      ensures store.records == old(store.records)[configPath := config]
    {
      var datasetDir := PathJoin(configDir, datasetId);
      configPath := PathJoin(datasetDir, tableId + ".json");
      store.records := store.records[configPath := config];
    }

    /** `load_config`: the stored record, or `None`. */
    method LoadConfig(datasetId: string, tableId: string) returns (config: Option<ColumnConfigs>)
      ensures config == Stored(store.records, configDir, datasetId, tableId)
    {
      var configPath := PathJoin(PathJoin(configDir, datasetId), tableId + ".json");
      if configPath in store.records {
        config := Some(store.records[configPath]);
      } else {
        config := None;
      }
    }
  }

  /** Loading after saving gives back the saved mapping, keys in the same
      order, whatever was there before. */
  lemma LoadAfterSave(records: map<string, ColumnConfigs>, configDir: string, datasetId: string, tableId: string,
                      config: ColumnConfigs)
    ensures Stored(records[ConfigPath(configDir, datasetId, tableId) := config], configDir, datasetId, tableId)
         == Some(config)
  {
  }

  /** Saving one table leaves the record of every other table as it was. */
  lemma SaveKeepsOthers(records: map<string, ColumnConfigs>, configDir: string, datasetId: string, tableId: string,
                        config: ColumnConfigs, otherDataset: string, otherTable: string)
    requires IsComponent(datasetId) && '/' !in tableId
    requires IsComponent(otherDataset) && '/' !in otherTable
    requires (datasetId, tableId) != (otherDataset, otherTable)
    ensures Stored(records[ConfigPath(configDir, datasetId, tableId) := config], configDir, otherDataset, otherTable)
         == Stored(records, configDir, otherDataset, otherTable)
  {
    if ConfigPath(configDir, datasetId, tableId) == ConfigPath(configDir, otherDataset, otherTable) {
      JsonName(tableId);
      JsonName(otherTable);
      DatasetFileInjective(configDir, datasetId, tableId + ".json", otherDataset, otherTable + ".json");
      SuffixCancel(tableId, otherTable, ".json");
      assert false;
    }
  }

  lemma SuffixCancel(a: string, b: string, suffix: string)
    requires a + suffix == b + suffix
    ensures a == b
  {
    assert a == (a + suffix)[..|a|];
    assert b == (b + suffix)[..|b|];
  }

  lemma JsonName(tableId: string)
    requires '/' !in tableId
    ensures IsComponent(tableId + ".json")
  {
    assert '/' !in ".json";
  }
}
