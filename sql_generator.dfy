/**
 The renderer: folds an ordered column configuration into a column block,
 derives the bronze dataset name and substitutes both into the base template,
 then writes the view file under `output_dir/dataset_id/table_id.sql`.
 */
module Generator {
  import opened Wrappers
  import opened Strings
  import opened Dicts
  import opened Templating
  import opened Storage
  import opened Templates

  /** A column configuration: column name to selector, in insertion order. A
      selector is a template name, `custom` or `skip`. */
  type ColumnConfigs = Dict<string, string>

  /** The name of the dataset the views are created in. */
  function BronzeName(datasetId: string): string
  {
    if EndsWith(datasetId, "_raw") then ReplaceAll(datasetId, "_raw", "_bronze")
    else datasetId + "_bronze"
  }

  /** The line one column contributes to the column block, if any. */
  function ColumnLine(column: string, selector: string, templates: Dict<string, string>): Option<string>
  {
    if selector == "skip" then None
    else if selector == "custom" then Some("    -- custom: " + column)
    else
      match Get(templates, selector)
      case Some(body) => if body != "" then Some("    " + Format(body, map["column_name" := column])) else None
      case None => None
  }

  function AsList(line: Option<string>): seq<string>
  {
    match line
    case Some(l) => [l]
    case None => []
  }

  /** The lines of the column block, in configuration order. */
  function ColumnLines(configs: ColumnConfigs, templates: Dict<string, string>): seq<string>
    decreases |configs|
  {
    if configs == [] then []
    else
      var (column, selector) := configs[|configs| - 1];
      ColumnLines(configs[..|configs| - 1], templates) + AsList(ColumnLine(column, selector, templates))
  }

  /** The value of `{columns}`. */
  function ColumnBlock(configs: ColumnConfigs, templates: Dict<string, string>): string
  {
    Join(ColumnLines(configs, templates), ",\n")
  }

  /** The four values the base template is filled with. */
  function Bindings(datasetId: string, tableId: string, columns: string): Env
  {
    map["source_dataset" := datasetId, "bronze_dataset" := BronzeName(datasetId),
        "table_name" := tableId, "columns" := columns]
  }

  /** The text of the view file for `base`. */
  function RenderSql(base: string, datasetId: string, tableId: string,
                     configs: ColumnConfigs, templates: Dict<string, string>): string
  {
    Format(base, Bindings(datasetId, tableId, ColumnBlock(configs, templates)))
  }

  /** No column asks for the base template as its column template. */
  predicate NoBaseSelector(configs: ColumnConfigs)
  {
    forall i :: 0 <= i < |configs| ==> configs[i].1 != "base"
  }

  class SqlGenerator {
    const templateManager: TemplateManager
    const outputDir: string

    constructor (templateManager: TemplateManager, outputDir: string)
      ensures this.templateManager == templateManager && this.outputDir == outputDir
    {
      this.templateManager := templateManager;
      this.outputDir := outputDir;
    }

    /** `generate_sql`: writes the rendered view to
        `output_dir/dataset_id/table_id.sql`, replacing what was there, and
        returns that path. */
    method GenerateSql(disk: FileStore, datasetId: string, tableId: string, columnConfigs: ColumnConfigs)
      returns (sqlPath: string)
      requires templateManager.GetTemplate("base").Some?
      requires NoBaseSelector(columnConfigs)
      modifies disk
      ensures sqlPath == DatasetFile(outputDir, datasetId, tableId + ".sql")
      ensures disk.files == old(disk.files)[sqlPath := RenderSql(templateManager.GetTemplate("base").value,
                                                                 datasetId, tableId, columnConfigs,
                                                                 templateManager.templates)]
    {
      var baseTemplate := templateManager.GetTemplate("base").value;
      var columnSql: seq<string> := [];
      var i := 0;
      while i < |columnConfigs|
        invariant 0 <= i <= |columnConfigs|
        invariant columnSql == ColumnLines(columnConfigs[..i], templateManager.templates)
      {
        var (columnName, templateType) := columnConfigs[i];
        assert columnConfigs[..i + 1][..i] == columnConfigs[..i];
        if templateType == "skip" {
        } else if templateType == "custom" {
          columnSql := columnSql + ["    -- custom: " + columnName];
        } else {
          var template := templateManager.GetTemplate(templateType);
          if template.Some? && template.value != "" {
            columnSql := columnSql + ["    " + Format(template.value, map["column_name" := columnName])];
          }
        }
        i := i + 1;
      }
      assert columnConfigs[..i] == columnConfigs;
      var sourceDataset := datasetId;
      var bronzeDataset;
      if EndsWith(datasetId, "_raw") {
        bronzeDataset := ReplaceAll(datasetId, "_raw", "_bronze");
      } else {
        bronzeDataset := datasetId + "_bronze";
      }
      var sql := Format(baseTemplate, map["source_dataset" := sourceDataset, "bronze_dataset" := bronzeDataset,
                                          "table_name" := tableId, "columns" := Join(columnSql, ",\n")]);
      var datasetDir := PathJoin(outputDir, datasetId);
      sqlPath := PathJoin(datasetDir, tableId + ".sql");
      disk.Write(sqlPath, sql);
    }
  }

  // Bronze naming.

  /** The bronze name always carries the `_bronze` suffix. */
  lemma BronzeSuffix(datasetId: string)
    ensures EndsWith(BronzeName(datasetId), "_bronze")
  {
    if EndsWith(datasetId, "_raw") {
      var p := datasetId[..|datasetId| - 4];
      assert datasetId == p + "_raw";
      ReplaceAtEnd(p, "_raw", "_bronze");
    }
  }

  /** A trailing `_raw` becomes `_bronze` when it is the only `_raw`. */
  lemma BronzeOfRaw(p: string)
    requires !Occurs(p, "_raw")
    ensures BronzeName(p + "_raw") == p + "_bronze"
  {
    assert EndsWith(p + "_raw", "_raw") by { assert (p + "_raw")[|p|..] == "_raw"; }
    ReplaceAtEnd(p, "_raw", "_bronze");
    ReplaceAbsent(p, "_raw", "_bronze");
  }

  /** Any other id gets `_bronze` appended. */
  lemma BronzeOfOther(datasetId: string)
    requires !EndsWith(datasetId, "_raw")
    ensures BronzeName(datasetId) == datasetId + "_bronze"
  {
  }

  /** Once the id ends in `_raw`, every `_raw` in it is rewritten, not only
      the suffix. */
  lemma BronzeReplacesEvery(p: string, q: string)
    requires !Occurs(p, "_raw") && !Occurs(q, "_raw")
    ensures BronzeName(p + "_raw" + q + "_raw") == p + "_bronze" + q + "_bronze"
  {
    var s := p + "_raw" + q;
    assert s + "_raw" == p + "_raw" + q + "_raw";
    assert EndsWith(s + "_raw", "_raw") by { assert (s + "_raw")[|s|..] == "_raw"; }
    ReplaceAtEnd(s, "_raw", "_bronze");
    ReplaceThrough(p, "_raw", "_bronze", q);
    ReplaceAbsent(p, "_raw", "_bronze");
    ReplaceAbsent(q, "_raw", "_bronze");
  }

  lemma BronzeOfSalesRaw()
    ensures BronzeName("sales_raw") == "sales_bronze"
  {
    AbsentByFirstChar("sales", "_raw");
    BronzeOfRaw("sales");
    assert "sales" + "_raw" == "sales_raw";
    assert "sales" + "_bronze" == "sales_bronze";
  }

  lemma BronzeOfRawSales()
    ensures BronzeName("raw_sales") == "raw_sales_bronze"
  {
    assert "raw_sales"[5..][0] == 'a';
    assert "raw_sales" + "_bronze" == "raw_sales_bronze";
  }

  // The column block.

  /** The block of a concatenation is the concatenation of the blocks, so
      lines keep the configuration's order. */
  lemma {:induction false} ColumnLinesAppend(a: ColumnConfigs, b: ColumnConfigs, templates: Dict<string, string>)
    ensures ColumnLines(a + b, templates) == ColumnLines(a, templates) + ColumnLines(b, templates)
    decreases |b|
  {
    if b == [] {
      assert a + b == a;
    } else {
      var init := b[..|b| - 1];
      assert (a + b)[..|a + b| - 1] == a + init;
      assert (a + b)[|a + b| - 1] == b[|b| - 1];
      ColumnLinesAppend(a, init, templates);
    }
  }

  /** One column on its own. */
  lemma ColumnLinesOne(column: string, selector: string, templates: Dict<string, string>)
    ensures ColumnLines([(column, selector)], templates) == AsList(ColumnLine(column, selector, templates))
  {
    assert [(column, selector)][..0] == [];
  }

  /** `skip` contributes nothing. */
  lemma SkipColumn(configs: ColumnConfigs, column: string, templates: Dict<string, string>)
    ensures ColumnLines(configs + [(column, "skip")], templates) == ColumnLines(configs, templates)
  {
    ColumnLinesAppend(configs, [(column, "skip")], templates);
    ColumnLinesOne(column, "skip", templates);
  }

  /** `custom` contributes a comment line naming the column. */
  lemma CustomColumn(configs: ColumnConfigs, column: string, templates: Dict<string, string>)
    ensures ColumnLines(configs + [(column, "custom")], templates)
         == ColumnLines(configs, templates) + ["    -- custom: " + column]
  {
    ColumnLinesAppend(configs, [(column, "custom")], templates);
    ColumnLinesOne(column, "custom", templates);
  }

  /** A selector whose template is missing or empty contributes nothing and
      is not an error. */
  lemma DroppedColumn(configs: ColumnConfigs, column: string, selector: string, templates: Dict<string, string>)
    requires selector != "skip" && selector != "custom"
    requires Get(templates, selector) == None || Get(templates, selector) == Some("")
    ensures ColumnLines(configs + [(column, selector)], templates) == ColumnLines(configs, templates)
  {
    ColumnLinesAppend(configs, [(column, selector)], templates);
    ColumnLinesOne(column, selector, templates);
  }

  /** A found, non-empty template contributes its body, indented by four
      spaces, with the column name substituted. */
  lemma TemplateColumn(configs: ColumnConfigs, column: string, selector: string, templates: Dict<string, string>)
    requires selector != "skip" && selector != "custom"
    requires Get(templates, selector).Some? && Get(templates, selector).value != ""
    ensures ColumnLines(configs + [(column, selector)], templates)
         == ColumnLines(configs, templates) + ["    " + Format(Get(templates, selector).value, map["column_name" := column])]
  {
    ColumnLinesAppend(configs, [(column, selector)], templates);
    ColumnLinesOne(column, selector, templates);
  }

  /** A column template of the built-in shape puts the column name in both
      of its places. */
  lemma CastColumn(column: string, selector: string, templates: Dict<string, string>, prefix: Literal, middle: Literal)
    requires selector != "skip" && selector != "custom"
    requires Get(templates, selector) == Some(ColumnTemplate(prefix, middle))
    ensures ColumnLine(column, selector, templates) == Some("    " + (prefix + column + middle + column))
  {
    ColumnFormat(prefix, middle, column);
    FoundLine(column, selector, templates);
  }

  /** The built-in `string` template casts the column and keeps its name. */
  lemma StringColumn(column: string, templates: Dict<string, string>)
    requires Get(templates, "string") == Some(StringTemplate)
    ensures ColumnLine(column, "string", templates) == Some("    " + ("CAST(" + column + " AS STRING) AS " + column))
  {
    CastColumn(column, "string", templates, CastOpen, AsString);
  }

  lemma FoundLine(column: string, selector: string, templates: Dict<string, string>)
    requires selector != "skip" && selector != "custom"
    requires Get(templates, selector).Some? && Get(templates, selector).value != ""
    ensures ColumnLine(column, selector, templates)
         == Some("    " + Format(Get(templates, selector).value, map["column_name" := column]))
  {
  }

  /** Every line of the block is indented by four spaces. */
  lemma {:induction false} LinesIndented(configs: ColumnConfigs, templates: Dict<string, string>)
    ensures forall l :: l in ColumnLines(configs, templates) ==> StartsWith(l, "    ")
    decreases |configs|
  {
    if configs != [] {
      var init := configs[..|configs| - 1];
      var (column, selector) := configs[|configs| - 1];
      LinesIndented(init, templates);
      LineIndented(column, selector, templates);
      assert ColumnLines(configs, templates) == ColumnLines(init, templates) + AsList(ColumnLine(column, selector, templates));
    }
  }

  lemma LineIndented(column: string, selector: string, templates: Dict<string, string>)
    ensures forall l :: l in AsList(ColumnLine(column, selector, templates)) ==> StartsWith(l, "    ")
  {
    var line := ColumnLine(column, selector, templates);
    if line.Some? {
      var rest := line.value[4..];
      assert line.value == "    " + rest;
      IndentPrefix(rest);
    }
  }

  lemma IndentPrefix(rest: string)
    ensures StartsWith("    " + rest, "    ")
  {
    assert ("    " + rest)[..4] == "    ";
  }

  /** Skipping every column, or having none, leaves the block empty. */
  lemma {:induction false} AllSkipped(configs: ColumnConfigs, templates: Dict<string, string>)
    requires forall i :: 0 <= i < |configs| ==> configs[i].1 == "skip"
    ensures ColumnLines(configs, templates) == []
    ensures ColumnBlock(configs, templates) == ""
    decreases |configs|
  {
    if configs != [] {
      AllSkipped(configs[..|configs| - 1], templates);
    }
  }

  /** A configuration made from the choices offered to the user (every
      loaded template but `base`, then `custom` and `skip`), over templates
      none of which is empty, yields one line per column not skipped. */
  lemma {:induction false} OfferedSelectors(tm: TemplateManager, configs: ColumnConfigs)
    requires forall i :: 0 <= i < |configs| ==> configs[i].1 in tm.GetAvailableTemplates() + ["custom", "skip"]
    requires forall i :: 0 <= i < |tm.templates| ==> tm.templates[i].1 != ""
    ensures NoBaseSelector(configs)
    ensures |ColumnLines(configs, tm.templates)| == |configs| - Skipped(configs)
    decreases |configs|
  {
    if configs != [] {
      var init := configs[..|configs| - 1];
      var (column, selector) := configs[|configs| - 1];
      OfferedSelectors(tm, init);
      if selector != "skip" && selector != "custom" {
        assert selector in Keys(tm.templates);
        var body := Get(tm.templates, selector).value;
        var k :| 0 <= k < |tm.templates| && tm.templates[k] == (selector, body);
      }
    }
  }

  /** The number of skipped columns. */
  function Skipped(configs: ColumnConfigs): nat
    decreases |configs|
  {
    if configs == [] then 0
    else Skipped(configs[..|configs| - 1]) + (if configs[|configs| - 1].1 == "skip" then 1 else 0)
  }

  // The rendered view.

  /** On the built-in base template, rendering inserts each value verbatim:
      braces inside the column block are not expanded again. */
  lemma DefaultRender(datasetId: string, tableId: string, configs: ColumnConfigs, templates: Dict<string, string>)
    ensures RenderSql(BaseTemplate, datasetId, tableId, configs, templates)
         == Fill(BasePieces, Bindings(datasetId, tableId, ColumnBlock(configs, templates)))
  {
    FormatUnparse(BasePieces, Bindings(datasetId, tableId, ColumnBlock(configs, templates)));
  }
}
