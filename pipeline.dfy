/**
 The two halves of the pipeline together: the view file rendered from the
 built-in base template names, in its view statement, the bronze view that
 the table creator then previews.
 */
module Pipeline {
  import opened Wrappers
  import opened Strings
  import opened Dicts
  import opened Templating
  import opened Storage
  import opened Templates
  import opened Generator
  import opened Tables

  // Facts about single characters of literal texts. Each is stated in a lemma
  // of its own because proving it inside a larger proof costs the verifier far
  // more.

  lemma KeywordChars()
    ensures Keyword[6] == ' ' && Keyword[18] == 'V'
    ensures '\n' !in Keyword && '`' !in Keyword
  {
  }

  lemma ViewOpening()
    ensures "CREATE OR REPLACE VIEW `" == Keyword + " " + "`"
    ensures "` AS\n" == "`" + " AS\n"
  {
  }

  lemma CommentWithoutV()
    ensures 'V' !in "-- Create the bronze dataset " + "if it doesn't exist\n"
  {
  }

  lemma SchemaWithoutV()
    ensures 'V' !in "CREATE SCHEMA IF NOT EXISTS `"
    ensures ' ' !in "`\n"
  {
  }

  lemma OptionsWithoutV()
    ensures 'V' !in "OPTIONS (\n" + "  location = 'US'\n" + ");\n" + "\n" + "-- Create or replace the view\n"
  {
  }

  /** The bronze name keeps out every character kept out of the dataset id
      and of `_bronze`. */
  lemma BronzeAvoids(datasetId: string, c: char)
    requires c !in datasetId && c !in "_bronze"
    ensures c !in BronzeName(datasetId)
  {
    if EndsWith(datasetId, "_raw") {
      ReplaceAvoids(datasetId, "_raw", "_bronze", c);
    }
  }

  lemma BronzeFree(datasetId: string)
    requires ' ' !in datasetId && '`' !in datasetId
    ensures ' ' !in BronzeName(datasetId) && '`' !in BronzeName(datasetId)
  {
    SuffixChars();
    BronzeAvoids(datasetId, ' ');
    BronzeAvoids(datasetId, '`');
  }

  // A literal-character fact, kept apart for the same reason as KeywordChars.
  lemma SuffixChars()
    ensures ' ' !in "_bronze" && '`' !in "_bronze"
  {
  }

  /** The first line of the view statement opens a view clause naming
      `bronze.table`. */
  lemma ViewClause(env: Env, tail: string)
    requires "bronze_dataset" in env && "table_name" in env
    requires '`' !in env["bronze_dataset"] && '`' !in env["table_name"]
    ensures ExtractViewName(Fill(ViewLine, env) + tail) == Some(env["bronze_dataset"] + "." + env["table_name"])
  {
    ViewLineFacts(env);
    var v := env["bronze_dataset"] + "." + env["table_name"];
    ViewText(env["bronze_dataset"], env["table_name"], tail);
    assert AllSpace(" ") by { assert IsSpace(' '); }
    ClauseFirst(" ", v, " AS\n" + tail);
  }

  lemma ViewText(b: string, t: string, tail: string)
    ensures "CREATE OR REPLACE VIEW `" + (b + ("." + (t + "` AS\n"))) + tail
         == Keyword + " " + "`" + (b + "." + t) + "`" + (" AS\n" + tail)
  {
    ViewOpening();
  }

  /** The schema line holds no view keyword when the bronze name has no
      space. */
  lemma SchemaLineQuiet(env: Env)
    requires "bronze_dataset" in env && ' ' !in env["bronze_dataset"]
    ensures var l := Fill(SchemaLine, env); !Occurs(l, Keyword) && l != [] && l[|l| - 1] == '\n'
  {
    SchemaLineFacts(env);
    KeywordChars();
    SchemaWithoutV();
    var a, b := "CREATE SCHEMA IF NOT EXISTS `", env["bronze_dataset"] + "`\n";
    assert ' ' !in b;
    KeywordFreeWithout(b, 6);
    KeywordFreeWithout(a, 18);
    assert a[|a| - 1] == '`';
    KeywordFreeJoin(a, b);
  }

  const SchemaCommentText: string := "-- Create the bronze dataset " + "if it doesn't exist\n"
  const OptionsText: string :=
    "OPTIONS (\n" + "  location = 'US'\n" + ");\n" + "\n" + "-- Create or replace the view\n"

  /** The five literal lines between the schema statement and the view
      statement. */
  const OptionLines: seq<Piece> := OptionsOpen + LocationLine + OptionsClose + BlankLine + ViewComment

  lemma OptionLinesText(env: Env)
    ensures Fill(OptionLines, env) == OptionsText
  {
    TextLine(OptionsOpen, env);
    TextLine(LocationLine, env);
    TextLine(OptionsClose, env);
    TextLine(BlankLine, env);
    TextLine(ViewComment, env);
    var p := OptionsOpen;
    FillAppend(p, LocationLine, env);
    p := p + LocationLine;
    FillAppend(p, OptionsClose, env);
    p := p + OptionsClose;
    FillAppend(p, BlankLine, env);
    p := p + BlankLine;
    FillAppend(p, ViewComment, env);
  }

  lemma HeadText(env: Env)
    requires "bronze_dataset" in env
    ensures Fill(BaseHead, env) == SchemaCommentText + Fill(SchemaLine, env) + OptionsText
  {
    assert BaseHead == SchemaComment + SchemaLine + OptionLines;
    SchemaCommentFacts(env);
    OptionLinesText(env);
    FillAppend(SchemaComment, SchemaLine, env);
    FillAppend(SchemaComment + SchemaLine, OptionLines, env);
  }

  /** Everything above the view statement: free of the view keyword and
      ending in a line break. */
  lemma HeadQuiet(env: Env)
    requires "bronze_dataset" in env && ' ' !in env["bronze_dataset"]
    ensures var h := Fill(BaseHead, env); !Occurs(h, Keyword) && h != [] && h[|h| - 1] == '\n'
  {
    HeadText(env);
    SchemaLineQuiet(env);
    var x, y, z := SchemaCommentText, Fill(SchemaLine, env), OptionsText;
    KeywordChars();
    CommentWithoutV();
    OptionsWithoutV();
    KeywordFreeWithout(x, 18);
    KeywordFreeWithout(z, 18);
    assert x[|x| - 1] == '\n';
    KeywordFreeJoin(x, y);
    KeywordFreeJoin(x + y, z);
  }

  lemma FilledBaseParts(env: Env)
    ensures Fill(BasePieces, env) == Fill(BaseHead, env) + (Fill(ViewLine, env) + Fill(BaseTail, env))
  {
    FillAppend(BaseHead, ViewLine, env);
    FillAppend(BaseHead + ViewLine, BaseTail, env);
  }

  /** The built-in base template, filled in, names `bronze.table` in its
      view statement. */
  lemma FilledBaseClause(env: Env)
    requires "bronze_dataset" in env && "table_name" in env
    requires ' ' !in env["bronze_dataset"] && '`' !in env["bronze_dataset"] && '`' !in env["table_name"]
    ensures ExtractViewName(Fill(BasePieces, env)) == Some(env["bronze_dataset"] + "." + env["table_name"])
  {
    FilledBaseParts(env);
    HeadQuiet(env);
    KeywordChars();
    var h, t := Fill(BaseHead, env), Fill(BaseTail, env);
    SkipQuiet(h, Fill(ViewLine, env) + t);
    ViewClause(env, t);
  }

  /** Extraction on a file rendered from the built-in base template gives
      back `bronze_dataset.table`, for any dataset id without spaces or
      backticks and any table id without backticks. */
  lemma RoundTrip(datasetId: string, tableId: string, configs: ColumnConfigs, templates: Dict<string, string>)
    requires ' ' !in datasetId && '`' !in datasetId && '`' !in tableId
    ensures ExtractViewName(RenderSql(BaseTemplate, datasetId, tableId, configs, templates))
         == Some(BronzeName(datasetId) + "." + tableId)
  {
    var env := Bindings(datasetId, tableId, ColumnBlock(configs, templates));
    DefaultRender(datasetId, tableId, configs, templates);
    BindingsAt(datasetId, tableId, ColumnBlock(configs, templates));
    BronzeFree(datasetId);
    FilledBaseClause(env);
  }

  lemma BindingsAt(datasetId: string, tableId: string, columns: string)
    ensures var env := Bindings(datasetId, tableId, columns);
            && "bronze_dataset" in env && "table_name" in env
            && env["bronze_dataset"] == BronzeName(datasetId) && env["table_name"] == tableId
  {
  }

  /** The worked example: `sales_raw` and `orders` give `sales_bronze.orders`. */
  lemma SalesOrders(configs: ColumnConfigs, templates: Dict<string, string>)
    ensures ExtractViewName(RenderSql(BaseTemplate, "sales_raw", "orders", configs, templates))
         == Some("sales_bronze.orders")
  {
    SalesIds();
    RoundTrip("sales_raw", "orders", configs, templates);
    BronzeOfSalesRaw();
    SalesView();
  }

  // Literal facts of the worked example, kept apart for the same reason.
  lemma SalesIds()
    ensures ' ' !in "sales_raw" && '`' !in "sales_raw" && '`' !in "orders"
  {
  }

  lemma SalesView()
    ensures "sales_bronze" + "." + "orders" == "sales_bronze.orders"
  {
  }

  /** Generating a table's view with the built-in base template, then
      creating it from the same directory: the file is found and run, and
      once the warehouse accepts it the view previewed is the bronze view. */
  method GenerateThenCreate(generator: SqlGenerator, creator: TableCreator, disk: FileStore,
                            datasetId: string, tableId: string, configs: ColumnConfigs)
    returns (success: bool, detail: Detail)
    requires generator.templateManager.GetTemplate("base") == Some(BaseTemplate)
    requires NoBaseSelector(configs)
    requires creator.datasetsDir == generator.outputDir
    requires ' ' !in datasetId && '`' !in datasetId && '`' !in tableId
    modifies disk, creator.bq
    ensures var sql := RenderSql(BaseTemplate, datasetId, tableId, configs, generator.templateManager.templates);
            var view := BronzeName(datasetId) + "." + tableId;
            var message := creator.bq.execute(sql).1;
            && success == creator.bq.execute(sql).0
            && (!success ==> detail == Message(message)
                             && creator.bq.calls == old(creator.bq.calls) + [ExecuteCall(sql)])
            && (success ==> creator.bq.calls == old(creator.bq.calls) + [ExecuteCall(sql), PreviewCall("`" + view + "`")])
            && (success && creator.bq.preview("`" + view + "`").Rows? ==>
                  detail == Preview(message, view, creator.bq.preview("`" + view + "`").data))
  {
    var sqlPath := generator.GenerateSql(disk, datasetId, tableId, configs);
    RoundTrip(datasetId, tableId, configs, generator.templateManager.templates);
    success, detail := creator.CreateTable(disk, datasetId, tableId);
  }
}
