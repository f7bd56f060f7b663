/**
 Regenerating a view file from the configuration saved for its table: the
 stored record is read back and handed, unchanged, to a renderer built over a
 freshly loaded template directory.
 */
module Regenerate {
  import opened Wrappers
  import opened Dicts
  import opened Storage
  import opened Templates
  import opened Generator
  import opened Configs

  /** The text a regeneration writes: the record rendered with the templates
      loaded from the seeded directory. */
  function Regenerated(templateFiles: map<string, string>, listing: seq<string>, config: ColumnConfigs,
                       datasetId: string, tableId: string): string
    requires IsListing(listing, Seed(templateFiles, DefaultTemplates))
  {
    var templates := Load([], Seed(templateFiles, DefaultTemplates), listing);
    BuiltinPresent([], templateFiles, listing, 0);
    RenderSql(Get(templates, "base").value, datasetId, tableId, config, templates)
  }

  /** `regenerate_sql`: `false` and nothing touched when the table has no
      stored configuration; otherwise the view file is rewritten and the
      result is `true`. */
  method RegenerateSql(configs: ConfigStore, templateDir: FileStore, listing: seq<string>, disk: FileStore,
                       datasetId: string, tableId: string, configDir: string, outputDir: string)
    returns (ok: bool)
    requires templateDir != disk
    requires IsListing(listing, Seed(templateDir.files, DefaultTemplates))
    requires var path := ConfigPath(configDir, datasetId, tableId);
             path in configs.records ==> NoBaseSelector(configs.records[path])
    modifies templateDir, disk
    ensures ok <==> ConfigPath(configDir, datasetId, tableId) in configs.records
    ensures !ok ==> disk.files == old(disk.files) && templateDir.files == old(templateDir.files)
    ensures ok ==> templateDir.files == Seed(old(templateDir.files), DefaultTemplates)
    ensures ok ==> disk.files == old(disk.files)[DatasetFile(outputDir, datasetId, tableId + ".sql") :=
                     Regenerated(old(templateDir.files), listing,
                                 configs.records[ConfigPath(configDir, datasetId, tableId)], datasetId, tableId)]
  {
    var configPath := PathJoin(PathJoin(configDir, datasetId), tableId + ".json");
    if configPath !in configs.records {
      return false;
    }
    var columnConfigs := configs.records[configPath];
    ghost var templateFiles := templateDir.files;
    var templateManager := new TemplateManager(templateDir, listing);
    BuiltinPresent([], templateFiles, listing, 0);
    var sqlGenerator := new SqlGenerator(templateManager, outputDir);
    var sqlPath := sqlGenerator.GenerateSql(disk, datasetId, tableId, columnConfigs);
    return true;
  }

  /** The second regeneration sees the directory the first one seeded, which
      loads to the same templates, so it renders the same text. */
  lemma ReseedRenders(templateFiles: map<string, string>, listing: seq<string>, config: ColumnConfigs,
                      datasetId: string, tableId: string)
    requires IsListing(listing, Seed(templateFiles, DefaultTemplates))
    ensures IsListing(listing, Seed(Seed(templateFiles, DefaultTemplates), DefaultTemplates))
    ensures Regenerated(Seed(templateFiles, DefaultTemplates), listing, config, datasetId, tableId)
         == Regenerated(templateFiles, listing, config, datasetId, tableId)
  {
    SeedIdempotent(templateFiles);
  }

  /** Regenerating twice with the same configuration and templates leaves
      the output exactly as the first run left it. */
  method RegenerateTwice(configs: ConfigStore, templateDir: FileStore, listing: seq<string>, disk: FileStore,
                         datasetId: string, tableId: string, configDir: string, outputDir: string)
    returns (first: bool, second: bool)
    requires templateDir != disk
    requires IsListing(listing, Seed(templateDir.files, DefaultTemplates))
    requires var path := ConfigPath(configDir, datasetId, tableId);
             path in configs.records ==> NoBaseSelector(configs.records[path])
    modifies templateDir, disk
    ensures first == second
    ensures first <==> ConfigPath(configDir, datasetId, tableId) in configs.records
    ensures first ==> disk.files == old(disk.files)[DatasetFile(outputDir, datasetId, tableId + ".sql") :=
                        Regenerated(old(templateDir.files), listing,
                                    configs.records[ConfigPath(configDir, datasetId, tableId)], datasetId, tableId)]
    ensures !first ==> disk.files == old(disk.files)
  {
    ghost var files0 := templateDir.files;
    first := RegenerateSql(configs, templateDir, listing, disk, datasetId, tableId, configDir, outputDir);
    ghost var disk1 := disk.files;
    if first {
      ghost var config := configs.records[ConfigPath(configDir, datasetId, tableId)];
      ReseedRenders(files0, listing, config, datasetId, tableId);
    }
    second := RegenerateSql(configs, templateDir, listing, disk, datasetId, tableId, configDir, outputDir);
    if first {
      ghost var path := DatasetFile(outputDir, datasetId, tableId + ".sql");
      SameWrite(disk1, path, disk.files[path]);
    }
  }

  /** Writing a file with the content it already has changes nothing. */
  lemma SameWrite(files: map<string, string>, path: string, content: string)
    requires path in files && files[path] == content
    ensures files[path := content] == files
  {
  }
}
