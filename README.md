# bronzemaker in Dafny

bronzemaker builds the "bronze" layer of a BigQuery warehouse. For each raw
table the user chooses, column by column, how the column is carried over:
a cast template such as `string` or `int`, a `custom` placeholder, or
`skip`. That choice (the column configuration) is saved as JSON. From it a
`CREATE OR REPLACE VIEW` script is rendered with SQL templates that are kept
in a template directory. The script is written under
`datasets/<dataset>/<table>.sql`. Later the table creator runs the script in
the warehouse, reads the view name back out of it, and previews the new view.

This project models that core:

- `Templates`: the template directory and the `TemplateManager`. It writes
  whichever of the six default files are missing, then loads every `*.sql`
  file, in listing order, into an insertion-ordered table.
- `Templating`: Python's `str.format`, restricted to simple `{name}`
  placeholders as a single left-to-right pass.
- `Generator`: the `SqlGenerator`, with the column block, the bronze
  dataset name, the rendered view and the file it writes.
- `Tables`: the `TableCreator`. This covers listing, reading the script,
  the view-name regular expression `` CREATE OR REPLACE VIEW\s+`([^`]+)` `` as
  a leftmost search, and `create_table` over a warehouse gateway.
- `Formatter`: the aligned text layout of a preview row.
- `Configs`: the `ConfigManager`, which saves and loads column configurations.
- `Regenerate`: `regenerate_sql`, which re-renders a script from its saved
  configuration.
- `Pipeline`: the two halves composed. Take a dataset id with no space and
  no backtick, and a table id with no backtick. Extraction on a script
  rendered from the built-in base template then returns
  `bronze_dataset.table`. Under the same conditions, generating and then
  creating previews exactly that view. A backtick in an id can end the
  captured name early: dataset id ``a` `` gives the clause
  ``CREATE OR REPLACE VIEW `a`_bronze.orders` ``, from which `a` is extracted.
- Support: `Strings` (`str.replace`, `str.join`), `Dicts` (insertion-ordered
  dictionaries as lists of pairs), `Storage` (`os.path.join`, and files as a
  map from path to text) and `Wrappers` (`Option`).

Files on disk are a `FileStore` object whose `files` map each method updates.
The order of `os.listdir` is a parameter (`listing`), and for the template
directory it is required to list exactly the files present. The BigQuery
connector is a `Warehouse` object. What running a query and previewing a table
give back are fixed functions supplied at construction, and the object
logs every call in order.

The dataset rename follows the code rather than the wording "replace the
`_raw` suffix". When a dataset id ends in `_raw`, `str.replace` rewrites every
`_raw` in it (`Generator.BronzeReplacesEvery`). In the same way, a template's
name is its file name with every `.sql` removed.

## Model

| member | source | states |
|---|---|---|
| Generator.SqlGenerator.GenerateSql | src/sql_generator.py:13-52 | writes the rendered view to `output_dir/dataset_id/table_id.sql`, replacing any earlier file and touching no other path, and returns that path; the loop keeps the lines built so far equal to the column block of the configuration prefix |
| Generator.SqlGenerator.constructor | src/sql_generator.py:9-11 | keeps the template manager and the output directory it is given; the default `"datasets"` is left to the caller |
| Generator.ColumnLine | src/sql_generator.py:20-27 | the line one column contributes, if any; specified by SkipColumn, CustomColumn, DroppedColumn and TemplateColumn |
| Generator.ColumnLines | src/sql_generator.py:18-27 | the lines of the column block in configuration order; specified by ColumnLinesAppend, LinesIndented, AllSkipped and OfferedSelectors |
| Generator.ColumnBlock | src/sql_generator.py:41 | the column lines joined with a comma and a line break; specified by AllSkipped and Strings.JoinAppend |
| Generator.RenderSql | src/sql_generator.py:15-42 | the base template formatted with the four bindings; specified by DefaultRender and Pipeline.RoundTrip |
| Generator.BronzeName | src/sql_generator.py:30-34 | the bronze dataset name; specified by BronzeSuffix, BronzeOfRaw, BronzeOfOther and BronzeReplacesEvery |
| Generator.SkipColumn | src/sql_generator.py:20-21 | a `skip` column adds no line to the block |
| Generator.CustomColumn | src/sql_generator.py:22-23 | a `custom` column adds exactly the line `    -- custom: <column>` at its place |
| Generator.DroppedColumn | src/sql_generator.py:24-27 | a selector whose template is missing or empty adds no line and is not an error |
| Generator.TemplateColumn | src/sql_generator.py:24-27 | a found, non-empty template adds its body, indented by four spaces, with `column_name` bound to the column |
| Generator.CastColumn | src/sql_generator.py:25-27 | a template of the built-in cast shape yields the column name in both of its places |
| Generator.StringColumn | src/sql_generator.py:25-27 | the built-in `string` template yields `    CAST(c AS STRING) AS c` |
| Generator.ColumnLinesAppend | src/sql_generator.py:18-27 | the block of a concatenated configuration is the concatenation of the blocks, so lines follow the configuration's order |
| Generator.LinesIndented | src/sql_generator.py:23-27 | every line of the block starts with four spaces |
| Generator.AllSkipped | src/sql_generator.py:19-21 | a configuration that skips every column, or has none, gives an empty block and an empty `{columns}` text |
| Generator.OfferedSelectors | src/sql_generator.py:19-27 | with selectors drawn from the available templates plus `custom` and `skip`, and no empty template, no column selects `base`, and there is one line per column that is not skipped |
| Generator.BronzeSuffix | src/sql_generator.py:30-34 | the bronze dataset name always ends in `_bronze` |
| Generator.BronzeOfRaw | src/sql_generator.py:31-32 | `p_raw`, with no other `_raw` in `p`, becomes `p_bronze` |
| Generator.BronzeOfOther | src/sql_generator.py:33-34 | an id not ending in `_raw` gets `_bronze` appended |
| Generator.BronzeReplacesEvery | src/sql_generator.py:31-32 | an id ending in `_raw` has every `_raw` rewritten, not only the suffix |
| Generator.BronzeOfSalesRaw | src/sql_generator.py:31-32 | `sales_raw` becomes `sales_bronze` |
| Generator.BronzeOfRawSales | src/sql_generator.py:33-34 | `raw_sales` becomes `raw_sales_bronze` |
| Generator.DefaultRender | src/sql_generator.py:37-42 | rendering the built-in base template inserts each bound value verbatim, and braces inside the column block are not expanded again |
| Templating.FormatUnparse | src/sql_generator.py:37-42 | formatting a template made of literal text and `{name}` fields substitutes each field by its binding in one pass and leaves the literal text unchanged |
| Templating.Format | src/sql_generator.py:27 | `str.format` with keyword arguments, as a single scan; specified by FormatUnparse, and by FormatText and FormatField piece by piece |
| Templates.TemplateManager.constructor | src/template_manager.py:9-12 | starts from an empty table and loads: the directory ends up seeded and the table is what loading the listing gives |
| Templates.TemplateName | src/template_manager.py:48 | the template name of a file; specified by SqlFileName |
| Templates.Seed | src/template_manager.py:38-42 | the directory after writing the missing defaults; specified by SeedSpec and SeedIdempotent |
| Templates.Load | src/template_manager.py:45-49 | the table after reading the listed `*.sql` files in order; specified by LoadDistinct, LoadKeepsOrder, LoadHasName, LoadGetLast and LoadGetUntouched |
| Templates.TemplateManager.LoadTemplates | src/template_manager.py:14-49 | the directory becomes the seeded one, and the table becomes the old table with every `*.sql` file of the listing put under its template name, in listing order; names stay distinct |
| Templates.TemplateManager.GetTemplate | src/template_manager.py:51-53 | `None` exactly when the name is not in the table; otherwise the pair is in the table, and with distinct names (`Valid`) its body is the only one stored under that name |
| Templates.Without | src/template_manager.py:57 | the list comprehension that drops one name: its elements are exactly the others, and a list without that name is returned unchanged; specified further by WithoutAt |
| Templates.TemplateManager.GetAvailableTemplates | src/template_manager.py:55-57 | a name is listed if and only if it is in the table and is not `base`; without a `base` it is the key list itself |
| Templates.WithoutAt | src/template_manager.py:57 | removing `base` from the duplicate-free key list cuts out exactly its one position, keeping the order of the rest |
| Templates.SeedSpec | src/template_manager.py:38-42 | seeding adds exactly the missing default names and never changes a file that was already there |
| Templates.SeedIdempotent | src/template_manager.py:38-42 | seeding a directory that is already seeded changes nothing |
| Templates.LoadDistinct | src/template_manager.py:45-49 | loading keeps template names distinct |
| Templates.LoadKeepsOrder | src/template_manager.py:45-49 | names already in the table stay first, in their order |
| Templates.LoadHasName | src/template_manager.py:45-49 | every `*.sql` file of the listing yields a template of its name |
| Templates.LoadGetLast | src/template_manager.py:45-49 | a template's body is the content of the last `*.sql` file of the listing that has its name |
| Templates.LoadGetUntouched | src/template_manager.py:45-49 | a name that no listed `*.sql` file maps to keeps its old lookup |
| Templates.SqlFileName | src/template_manager.py:48 | a dot-free name's `.sql` file is loaded under that name |
| Templates.BuiltinPresent | src/template_manager.py:19-49 | after loading, every built-in name (`base`, `string`, `int`, `float`, `timestamp`, `date`) has a template |
| Templates.DefaultBodyLoaded | src/template_manager.py:19-49 | a default file written by seeding is loaded verbatim unless a later listed file carries the same template name |
| Templates.BasePlaceholders | src/template_manager.py:20-30 | the base template's placeholders are `bronze_dataset`, `bronze_dataset`, `table_name`, `columns`, `source_dataset`, `table_name`, in that order |
| Templates.ColumnFormat | src/template_manager.py:31-35 | each built-in column template has the placeholders `column_name`, `column_name`, and formatting it puts the column in both places |
| Tables.ExtractViewName | src/table_creator.py:47-54 | a found view name is non-empty and free of backticks |
| Tables.MatchAt | src/table_creator.py:50 | a captured name is non-empty and free of backticks; specified by MatchSound and MatchComplete |
| Tables.Search | src/table_creator.py:51 | `re.search` by trying the pattern at each position in turn; specified by SearchFound and SearchNone |
| Tables.SearchFound | src/table_creator.py:50 | `re.search` from a position returns what the pattern gives at the first position, from there on, where it matches |
| Tables.SearchNone | src/table_creator.py:50 | `re.search` from a position finds nothing if and only if the pattern matches at no position from there on |
| Tables.MatchSound | src/table_creator.py:50 | a match at a position means the keyword, a non-empty whitespace run and a backticked, non-empty, backtick-free name start there |
| Tables.MatchComplete | src/table_creator.py:50 | conversely, such a clause at a position is matched there and yields its name |
| Tables.ExtractSound | src/table_creator.py:50-53 | a returned name belongs to a clause at some position before which no clause starts |
| Tables.ExtractComplete | src/table_creator.py:50-53 | the leftmost clause's name is returned |
| Tables.ExtractAbsent | src/table_creator.py:50-54 | `None` if and only if no clause starts anywhere |
| Tables.NoKeywordNone | src/table_creator.py:50-54 | text without the keyword gives `None` |
| Tables.LowerCaseNone | src/table_creator.py:50-54 | the match is case-sensitive: text with no `C` gives `None` |
| Tables.NoSpaceNone | src/table_creator.py:50-54 | the keyword at the very start, followed directly by a backtick, gives `None` when it occurs nowhere else |
| Tables.EmptyNameNone | src/table_creator.py:50-54 | an empty backticked name is not matched when the keyword occurs nowhere else |
| Tables.SkipQuiet | src/table_creator.py:50-51 | a keyword-free prefix, whose last character is not a keyword character, does not change the result of the search |
| Tables.ListAvailableTables | src/table_creator.py:29-35 | the `.sql` stems of the dataset directory's listing; specified by ListedTables and SqlStemsAppend |
| Tables.ListAvailableDatasets | src/table_creator.py:21-27 | the directory entries that are directories; specified by ListedDatasets |
| Tables.ListedTables | src/table_creator.py:29-35 | `t` is listed if and only if the directory exists and `t.sql` is one of its entries |
| Tables.SqlStemsAppend | src/table_creator.py:35 | listing order is kept: the stems of concatenated listings concatenate |
| Tables.ListedDatasets | src/table_creator.py:21-27 | `d` is listed if and only if the directory exists and `d` is one of its sub-directories |
| Tables.ReadSqlFile | src/table_creator.py:37-45 | `None` if and only if no file exists at `datasets_dir/dataset_id/table_id.sql` |
| Tables.ReadWritten | src/table_creator.py:37-45 | reading back a file just written gives what was written |
| Tables.Warehouse.ExecuteQuery | src/bigquery_connector.py:95-102 | gives the gateway's answer for the query and logs one execute call |
| Tables.Warehouse.PreviewTable | src/bigquery_connector.py:104-133 | gives the gateway's preview outcome and logs one preview call |
| Tables.TableCreator.CreateTable | src/table_creator.py:56-98 | a missing or empty file gives `(False, "SQL file for d.t not found")` and no warehouse call; a failed execution gives `(False, message)`; on success it gives the no-view-name error, or previews exactly `` `view` `` and returns its data, its error or the exception text |
| Tables.TableCreator.constructor | src/table_creator.py:10-19 | keeps the warehouse gateway and the datasets directory it is given; the default `"datasets"` is left to the caller |
| Formatter.RightJustify | src/formatter.py:19 | length `max(width, len(s))`, ends with `s`, padded on the left with spaces only |
| Formatter.Label | src/formatter.py:17 | the label `name (type)`, whose length is the two lengths plus 3, the `+ 3` that calculate_max_width adds at formatter.py:33 |
| Formatter.FormatColumnWithType | src/formatter.py:5-19 | the label `name (type)` right-aligned to `max_width` with spaces; a label that is too long is kept whole |
| Formatter.CalculateMaxWidth | src/formatter.py:21-33 | no label is wider than the result, and some label is exactly that wide |
| Formatter.Truncate | src/formatter.py:58-60 | at most 100 characters; shorter values are unchanged; longer ones keep their first 97 characters and end in `...` |
| Formatter.PreviewLine | src/formatter.py:55-63 | one display line: the padded label, `: `, and the value cut to 100 characters; specified by FormatPreviewRow and AlignedLines |
| Formatter.RowWidth | src/formatter.py:48-49 | the given width, or the computed one when none is given; specified by FormatPreviewRow and AlignedLines |
| Formatter.FormatPreviewRow | src/formatter.py:35-65 | one line per schema column, in schema order, each of them the padded label, `": "` and the truncated value, at the given width or the computed one |
| Formatter.AlignedLines | src/formatter.py:48-63 | with the computed width every padded label has exactly that width, so `": "` sits at the same position on every line |
| Configs.ConfigPath | src/config_manager.py:15-18 | where a table's record is kept; specified by Stored, LoadAfterSave and SaveKeepsOthers |
| Configs.Stored | src/config_manager.py:24-31 | `None` if and only if no record exists at `config_dir/dataset_id/table_id.json`; otherwise that record |
| Configs.ConfigManager.SaveConfig | src/config_manager.py:13-22 | returns `config_dir/dataset_id/table_id.json` and stores `config` there, replacing any earlier record and no other |
| Configs.ConfigManager.constructor | src/config_manager.py:10-11 | keeps the config directory and the record store it is given; the default `"configs"` is left to the caller |
| Configs.ConfigManager.LoadConfig | src/config_manager.py:24-31 | gives the stored record of the table, or `None` |
| Configs.LoadAfterSave | src/config_manager.py:13-31 | loading after saving gives back the saved mapping, keys in the same order |
| Configs.SaveKeepsOthers | src/config_manager.py:15-18 | for ids that are path components, saving one table leaves every other table's record as it was |
| Regenerate.RegenerateSql | src/utils/regenerate.py:11-29 | `False` and nothing touched exactly when the table has no stored configuration; otherwise the template directory is seeded, the view file alone is rewritten with the stored record rendered over the loaded templates, and the result is `True` |
| Regenerate.Regenerated | src/utils/regenerate.py:20-26 | the text a regeneration writes, rendered with the templates of the seeded directory; specified by RegenerateSql and ReseedRenders |
| Regenerate.ReseedRenders | src/utils/regenerate.py:24-26 | a second load over the directory the first one seeded renders the same text |
| Regenerate.RegenerateTwice | src/utils/regenerate.py:11-29 | regenerating twice gives the same answer, and the output is as the first run left it |
| Pipeline.FilledBaseClause | src/template_manager.py:20-30 | the filled base template's first view clause names `bronze_dataset.table_name` |
| Pipeline.RoundTrip | src/table_creator.py:47-54 | extracting the view name from a script rendered from the built-in base template gives `bronze(dataset).table`, for dataset ids without spaces or backticks and table ids without backticks |
| Pipeline.SalesOrders | src/table_creator.py:47-54 | `sales_raw` and `orders` give the view `sales_bronze.orders` |
| Pipeline.GenerateThenCreate | src/table_creator.py:56-98 | generating with the built-in base template and then creating from the same directory runs the rendered script; on success it previews exactly `` `bronze.table` `` and returns that view's data |
| Storage.DatasetFileInjective | src/config_manager.py:15-18 | for ids and file names that are path components, equal paths under one root mean equal dataset ids and equal file names |
| Storage.PathJoin | src/sql_generator.py:45-48 | `os.path.join`; specified by DatasetFileShape and DatasetFileInjective |
| Storage.DatasetFile | src/table_creator.py:39 | the three-part `os.path.join(root, dataset_id, file_name)`, also at config_manager.py:26 and utils/regenerate.py:14; specified by DatasetFileShape (root prefix, then `dataset/file`) and DatasetFileInjective |
| Storage.FileStore.Write | src/sql_generator.py:49-50 | writing a file replaces its text at that path and changes no other path |
| Dicts.PutGet | src/template_manager.py:49 | after assigning a key, it gives the new value and other keys give their old values |
| Dicts.PutKeys | src/template_manager.py:49 | assigning an existing key keeps the key order; a new key is appended |
| Dicts.Get | src/template_manager.py:53 | `dict.get`: `None` if and only if the key is absent, otherwise a value stored under it |
| Dicts.GetUnique | src/template_manager.py:53 | with distinct keys, the value `get` returns is the only one stored under that key |
| Dicts.Keys | src/template_manager.py:57 | `.keys()`: one key per entry, the key of entry `i` at position `i`, so in insertion order |
| Dicts.Put | src/template_manager.py:49 | assignment to a key; specified by PutGet and PutKeys |
| Strings.ReplaceThrough | src/sql_generator.py:32 | for a pattern that cannot overlap itself, such as `_raw`, an occurrence between `p` and `q` is replaced and `p` and `q` are rewritten on their own |
| Strings.JoinAppend | src/sql_generator.py:41 | joining two non-empty line lists puts exactly one separator between their joins |
| Strings.ReplaceAll | src/sql_generator.py:32 | `str.replace`; specified by ReplaceThrough and ReplaceAbsent |
| Strings.Join | src/sql_generator.py:41 | `str.join`; specified by JoinAppend |
| Strings.StartsWith | src/sql_generator.py:45-48 | `str.startswith`, used by `os.path.join` for an absolute part; specified by StartsWithSplit |
| Strings.StartsWithSplit | src/sql_generator.py:45-48 | `startswith(prefix)` holds exactly when the string is the prefix followed by the rest, both directions |
| Strings.StartsWithAppend | src/sql_generator.py:45-48 | a string that begins with the prefix satisfies `startswith` |
| Strings.EndsWith | src/sql_generator.py:31 | `str.endswith`, also at template_manager.py:46 and table_creator.py:35; specified by EndsWithSplit |
| Strings.EndsWithSplit | src/sql_generator.py:31 | `endswith(suffix)` holds exactly when the string is something followed by the suffix, both directions |
| Strings.EndsWithAppend | src/template_manager.py:46 | a name followed by `.sql` satisfies `endswith(".sql")` |

## Left out

- Templating.Format: `str.format` raises `KeyError` on a placeholder with no
  binding. The model copies such a placeholder verbatim. `{{`/`}}` escapes,
  format specifications, conversions, attribute and index fields, and the
  `ValueError` on a stray brace are not modelled either.
- Generator.SqlGenerator.GenerateSql: it requires that no column selects `base`.
  Formatting the base template with only `column_name` bound raises
  `KeyError` in Python. Other user-supplied templates that use more
  placeholders than `column_name` are rendered with those placeholders kept
  verbatim rather than raising.
- Generator.SqlGenerator.GenerateSql: it requires a `base` template, since Python
  fails with an `AttributeError` on `None.format`. After loading, `base` is
  always present (`Templates.BuiltinPresent`).
- The built-in base template is built from one constant per source line,
  each a short list of literal and field pieces. Its text is `Unparse` of
  those pieces rather than a single string literal.
- Templates.Load, Tables.ReadSqlFile, Tables.ReadWritten and
  Pipeline.GenerateThenCreate: a file's text stands for what a text-mode
  `read()` returns. Python's newline translation (`"\r\n"` and a lone
  `"\r"` read back as `"\n"`), the locale encoding and its encode and decode
  errors are not modelled. The model therefore agrees with the source only
  for file texts that contain no `'\r'`; a template saved with Windows line
  endings loads with its `"\r\n"` kept.
- `os.makedirs` and directories themselves are not modelled. A `FileStore`
  holds files only, and existence checks are membership in its map. Errors
  from `open`, such as a path that is a directory or a permission error,
  are not modelled.
- The order of `os.listdir` is a parameter. For the template directory it
  is required to be a duplicate-free listing of exactly the files present.
  For the table and dataset listings, the entries (and for datasets, a flag
  for whether each entry is a directory) are parameters.
- JSON encoding and decoding are not modelled: a saved record is the
  ordered mapping itself. Values that are not strings, and malformed files,
  are not modelled.
- The BigQuery client is left out. `bigquery_connector.py` is not part of
  this model beyond the answers of `execute_query` and `preview_table`.
  Those answers are given as functions of the query or table name, so a
  warehouse whose answers change over time is not modelled. The network, the
  client setup, and how preview rows are built from the result are left
  out too.
- Tables.TableCreator.CreateTable: the `except` branch is modelled as the preview
  outcome `PreviewRaised`, carrying the text of the exception. An exception
  raised by the view-name search itself is not modelled, since the search
  cannot raise.
- Regenerate.RegenerateSql: the template directory and the output tree are
  separate stores (they are different directories in the source). The
  `print` calls and the `argparse` entry point `main` are not modelled.
- Regenerate.RegenerateTwice: both runs are given the same `listing`, so it
  assumes `os.listdir` returns the directory in the same order each time.
  The order matters when two files map to one template name (`x.sql` and
  `x.sql.sql` both give `x`): the file listed last wins.
- A column configuration, and a stored record, is a list of (column,
  selector) pairs with no requirement that the columns be distinct. A
  Python dict, or the result of `json.load`, never repeats a column. The
  model also allows repeated columns; for such a list `GenerateSql`
  emits one line per entry.
- Tables.ListAvailableTables and Tables.ListAvailableDatasets: the path
  `datasets_dir/dataset_id` (or `datasets_dir`), whether it exists, and its
  entries are parameters, not derived from a `FileStore`. Nothing ties a
  listed table to the file that `ReadSqlFile` reads.
- The interactive command line (`cli_manager.py`, `interactive_cli.py`,
  `main.py`) is not part of this model.
- Formatter: lengths are counted in code points, as Python's `len` does.
  Display width of wide characters is not modelled.
