/**
 The template store: a directory of `*.sql` files, seeded with six built-in
 templates, loaded into an insertion-ordered table from template name to body.
 */
module Templates {
  import opened Wrappers
  import opened Strings
  import opened Dicts
  import opened Templating
  import opened Storage

  /** The built-in view template, `base.sql`, one constant per line; its
      placeholders are the bronze dataset, the table name, the column block and
      the source dataset. Long lines are split into shorter literals (the
      comment line in two) only because short literals keep the verifier's
      work small; together they are the source's text. */
  const SchemaComment: seq<Piece> := [Text("-- Create the bronze dataset "), Text("if it doesn't exist\n")]
  const SchemaLine: seq<Piece> := [Text("CREATE SCHEMA IF NOT EXISTS `"), Field("bronze_dataset"), Text("`\n")]
  const OptionsOpen: seq<Piece> := [Text("OPTIONS (\n")]
  const LocationLine: seq<Piece> := [Text("  location = 'US'\n")]
  const OptionsClose: seq<Piece> := [Text(");\n")]
  const BlankLine: seq<Piece> := [Text("\n")]
  const ViewComment: seq<Piece> := [Text("-- Create or replace the view\n")]
  const ViewLine: seq<Piece> :=
    [Text("CREATE OR REPLACE VIEW `"), Field("bronze_dataset"), Text("."), Field("table_name"), Text("` AS\n")]
  const SelectLine: seq<Piece> := [Text("SELECT\n")]
  const ColumnsLine: seq<Piece> := [Field("columns"), Text("\n")]
  const FromLine: seq<Piece> :=
    [Text("FROM `"), Field("source_dataset"), Text("."), Field("table_name"), Text("`")]

  /** The schema statement and the comment above the view statement. */
  const BaseHead: seq<Piece> :=
    SchemaComment + SchemaLine + OptionsOpen + LocationLine + OptionsClose + BlankLine + ViewComment

  /** The body of the view statement after its first line. */
  const BaseTail: seq<Piece> := SelectLine + ColumnsLine + FromLine

  const BasePieces: seq<Piece> := BaseHead + ViewLine + BaseTail

  const BaseTemplate: string := Unparse(BasePieces)

  /** The built-in column templates, each a cast of `{column_name}` aliased
      back to `{column_name}`. */
  const CastOpen: Literal := "CAST("
  const AsString: Literal := " AS STRING) AS "
  const StringTemplate: string := ColumnTemplate(CastOpen, AsString)
  const IntTemplate: string := ColumnTemplate("CAST(", " AS INT64) AS ")
  const FloatTemplate: string := ColumnTemplate("CAST(", " AS FLOAT64) AS ")
  const TimestampTemplate: string := ColumnTemplate("TIMESTAMP(", ") AS ")
  const DateTemplate: string := ColumnTemplate("DATE(", ") AS ")

  /** The default files, in the order they are written when absent. */
  const DefaultTemplates: seq<(string, string)> := [
    ("base.sql", BaseTemplate),
    ("string.sql", StringTemplate),
    ("int.sql", IntTemplate),
    ("float.sql", FloatTemplate),
    ("timestamp.sql", TimestampTemplate),
    ("date.sql", DateTemplate)
  ]

  const BuiltinNames: seq<string> := ["base", "string", "int", "float", "timestamp", "date"]

  /** A column template of the shape `<prefix>{column_name}<middle>{column_name}`. */
  function ColumnTemplate(prefix: Literal, middle: Literal): string
  {
    prefix + Slot("column_name") + middle + Slot("column_name")
  }

  /** The template name of a file: `filename.replace('.sql', '')`, which
      removes every occurrence of `.sql`, not only the suffix. */
  function TemplateName(fileName: string): string
  {
    ReplaceAll(fileName, ".sql", "")
  }

  /** The directory after the default files have been written: `defs` are
      visited in order and each is written only where no file of that name
      exists yet. */
  function Seed(files: map<string, string>, defs: seq<(string, string)>): map<string, string>
    decreases |defs|
  {
    if defs == [] then files
    else
      var prev := Seed(files, defs[..|defs| - 1]);
      var (name, content) := defs[|defs| - 1];
      if name in prev then prev else prev[name := content]
  }

  /** `listing` is an `os.listdir` of a directory holding `files`. */
  ghost predicate IsListing(listing: seq<string>, files: map<string, string>)
  {
    Distinct(listing) && forall f :: f in listing <==> f in files
  }

  /** The table after reading the files of `listing`, in order, into `t`:
      each `*.sql` file is stored under its template name. */
  function Load(t: Dict<string, string>, files: map<string, string>, listing: seq<string>): Dict<string, string>
    requires forall i :: 0 <= i < |listing| ==> listing[i] in files
    decreases |listing|
  {
    if listing == [] then t
    else
      var prev := Load(t, files, listing[..|listing| - 1]);
      var f := listing[|listing| - 1];
      if EndsWith(f, ".sql") then Put(prev, TemplateName(f), files[f]) else prev
  }

  lemma SeedStep(files: map<string, string>, defs: seq<(string, string)>, i: nat)
    requires i < |defs|
    ensures var prev := Seed(files, defs[..i]);
            Seed(files, defs[..i + 1]) == if defs[i].0 in prev then prev else prev[defs[i].0 := defs[i].1]
  {
    assert defs[..i + 1][..i] == defs[..i];
  }

  lemma LoadStep(t: Dict<string, string>, files: map<string, string>, listing: seq<string>, j: nat)
    requires j < |listing| && forall i :: 0 <= i < |listing| ==> listing[i] in files
    ensures var prev := Load(t, files, listing[..j]);
            var f := listing[j];
            Load(t, files, listing[..j + 1]) == if EndsWith(f, ".sql") then Put(prev, TemplateName(f), files[f]) else prev
  {
    assert listing[..j + 1][..j] == listing[..j];
  }

  /** `s` without the element `x`. */
  function Without(s: seq<string>, x: string): (r: seq<string>)
    ensures forall y :: y in r <==> y in s && y != x
    ensures x !in s ==> r == s
  {
    if s == [] then []
    else if s[0] == x then Without(s[1..], x)
    else [s[0]] + Without(s[1..], x)
  }

  /** In a list without repeats, removing `x` cuts out exactly its one position. */
  lemma {:induction false} WithoutAt(s: seq<string>, x: string, k: nat)
    requires Distinct(s) && k < |s| && s[k] == x
    ensures Without(s, x) == s[..k] + s[k + 1..]
  {
    if k == 0 {
      WithoutHead(s, x);
    } else {
      DistinctTail(s);
      WithoutAt(s[1..], x, k - 1);
      WithoutCons(s, x, k);
    }
  }

  lemma WithoutHead(s: seq<string>, x: string)
    requires Distinct(s) && s != [] && s[0] == x
    ensures Without(s, x) == s[..0] + s[1..]
  {
    var t := s[1..];
    assert forall j :: 0 <= j < |t| ==> t[j] == s[j + 1];
    assert x !in t;
    assert s[..0] + t == t;
  }

  lemma DistinctTail(s: seq<string>)
    requires Distinct(s) && s != []
    ensures Distinct(s[1..])
  {
    var t := s[1..];
    assert forall j :: 0 <= j < |t| ==> t[j] == s[j + 1];
  }

  lemma WithoutCons(s: seq<string>, x: string, k: nat)
    requires 0 < k < |s| && s[0] != x
    requires Without(s[1..], x) == s[1..][..k - 1] + s[1..][k..]
    ensures Without(s, x) == s[..k] + s[k + 1..]
  {
    var t := s[1..];
    assert Without(s, x) == [s[0]] + Without(t, x);
    assert t[..k - 1] == s[1..k];
    assert t[k..] == s[k + 1..];
    ConsJoin(s[0], s[1..k], s[k + 1..]);
    assert [s[0]] + s[1..k] == s[..k];
  }

  lemma ConsJoin<T>(a: T, b: seq<T>, c: seq<T>)
    ensures [a] + (b + c) == [a] + b + c
  {
  }

  class TemplateManager {
    /** `self.templates`: template name to body, in insertion order. */
    var templates: Dict<string, string>

    ghost predicate Valid()
      reads this
    {
      DistinctKeys(templates)
    }

    /** `TemplateManager(template_dir)`: an empty table, then `load_templates`. */
    constructor (dir: FileStore, listing: seq<string>)
      requires IsListing(listing, Seed(dir.files, DefaultTemplates))
      modifies dir
      ensures Valid()
      ensures dir.files == Seed(old(dir.files), DefaultTemplates)
      ensures templates == Load([], dir.files, listing)
    {
      templates := [];
      new;
      LoadTemplates(dir, listing);
    }

    /** Writes the missing default files, then reads every `*.sql` file of
        the directory, in `listing` order, into the table. */
    method LoadTemplates(dir: FileStore, listing: seq<string>)
      requires Valid()
      requires IsListing(listing, Seed(dir.files, DefaultTemplates))
      modifies this, dir
      ensures Valid()
      ensures dir.files == Seed(old(dir.files), DefaultTemplates)
      ensures templates == Load(old(templates), dir.files, listing)
    {
      var i := 0;
      while i < |DefaultTemplates|
        invariant 0 <= i <= |DefaultTemplates|
        invariant dir.files == Seed(old(dir.files), DefaultTemplates[..i])
        invariant templates == old(templates)
      {
        var (name, content) := DefaultTemplates[i];
        SeedStep(old(dir.files), DefaultTemplates, i);
        if name !in dir.files {
          dir.Write(name, content);
        }
        i := i + 1;
      }
      assert DefaultTemplates[..i] == DefaultTemplates;
      var j := 0;
      while j < |listing|
        invariant 0 <= j <= |listing|
        invariant dir.files == Seed(old(dir.files), DefaultTemplates)
        invariant templates == Load(old(templates), dir.files, listing[..j])
        invariant DistinctKeys(templates)
      {
        var f := listing[j];
        LoadStep(old(templates), dir.files, listing, j);
        if EndsWith(f, ".sql") {
          PutDistinct(templates, TemplateName(f), dir.files[f]);
          templates := Put(templates, TemplateName(f), dir.files[f]);
        }
        j := j + 1;
      }
      assert listing[..j] == listing;
    }

    /** `get_template(name)`: the body stored under `name`, or `None`. */
    function GetTemplate(name: string): (r: Option<string>)
      reads this
      ensures r.None? <==> name !in Keys(templates)
      ensures r.Some? ==> (name, r.value) in templates
      ensures r.Some? && Valid() ==> forall v :: (name, v) in templates ==> v == r.value
    {
      GetUnique(templates, name);
      Get(templates, name)
    }

    /** `get_available_templates()`: every name but `base`, in table order. */
    function GetAvailableTemplates(): (r: seq<string>)
      reads this
      ensures forall n :: n in r <==> n in Keys(templates) && n != "base"
      ensures "base" !in Keys(templates) ==> r == Keys(templates)
    {
      Without(Keys(templates), "base")
    }
  }

  /** `os.path.exists` before each write: seeding adds exactly the missing
      default names and never changes a file that was already there. */
  lemma {:induction false} SeedSpec(files: map<string, string>, defs: seq<(string, string)>)
    requires DistinctKeys(defs)
    ensures forall n :: n in Seed(files, defs) <==> n in files || n in Keys(defs)
    ensures forall n :: n in files ==> Seed(files, defs)[n] == files[n]
    ensures forall i :: 0 <= i < |defs| && defs[i].0 !in files ==> Seed(files, defs)[defs[i].0] == defs[i].1
  {
    SeedNames(files, defs);
    SeedKeeps(files, defs);
    forall i | 0 <= i < |defs| && defs[i].0 !in files
      ensures Seed(files, defs)[defs[i].0] == defs[i].1
    {
      SeedWrites(files, defs, i);
    }
  }

  lemma {:induction false} SeedNames(files: map<string, string>, defs: seq<(string, string)>)
    ensures forall n :: n in Seed(files, defs) <==> n in files || n in Keys(defs)
    decreases |defs|
  {
    if defs != [] {
      var init := defs[..|defs| - 1];
      SeedNames(files, init);
      SeedLast(files, defs);
      KeysLast(defs);
    }
  }

  lemma {:induction false} SeedKeeps(files: map<string, string>, defs: seq<(string, string)>)
    ensures forall n :: n in files ==> n in Seed(files, defs) && Seed(files, defs)[n] == files[n]
    decreases |defs|
  {
    if defs != [] {
      SeedKeeps(files, defs[..|defs| - 1]);
    }
  }

  lemma {:induction false} SeedWrites(files: map<string, string>, defs: seq<(string, string)>, i: nat)
    requires DistinctKeys(defs)
    requires i < |defs| && defs[i].0 !in files
    ensures defs[i].0 in Seed(files, defs) && Seed(files, defs)[defs[i].0] == defs[i].1
    decreases |defs|
  {
    var last := |defs| - 1;
    var init := defs[..last];
    InitDistinct(defs);
    SeedLast(files, defs);
    if i == last {
      SeedNames(files, init);
    } else {
      assert init[i] == defs[i];
      SeedWrites(files, init, i);
      assert Keys(defs)[i] != Keys(defs)[last];
    }
  }

  lemma SeedLast(files: map<string, string>, defs: seq<(string, string)>)
    requires defs != []
    ensures var prev := Seed(files, defs[..|defs| - 1]);
            var (name, content) := defs[|defs| - 1];
            Seed(files, defs) == if name in prev then prev else prev[name := content]
  {
  }

  /** Dropping the last default keeps names distinct, and the last name is
      not among the others. */
  lemma InitDistinct(defs: seq<(string, string)>)
    requires DistinctKeys(defs) && defs != []
    ensures DistinctKeys(defs[..|defs| - 1])
    ensures defs[|defs| - 1].0 !in Keys(defs[..|defs| - 1])
  {
    var last := |defs| - 1;
    assert Keys(defs[..last]) == Keys(defs)[..last];
  }

  /** Seeding a directory that already holds every default changes nothing. */
  lemma {:induction false} SeedComplete(files: map<string, string>, defs: seq<(string, string)>)
    requires forall i :: 0 <= i < |defs| ==> defs[i].0 in files
    ensures Seed(files, defs) == files
    decreases |defs|
  {
    if defs != [] {
      SeedComplete(files, defs[..|defs| - 1]);
    }
  }

  lemma DefaultFiles()
    ensures Keys(DefaultTemplates) == ["base.sql", "string.sql", "int.sql", "float.sql", "timestamp.sql", "date.sql"]
  {
  }

  lemma FileNamesDistinct()
    ensures Distinct(["base.sql", "string.sql", "int.sql", "float.sql", "timestamp.sql", "date.sql"])
  {
  }

  lemma DefaultsDistinct()
    ensures DistinctKeys(DefaultTemplates)
  {
    DefaultFiles();
    FileNamesDistinct();
  }

  /** Each default file is its built-in name, which holds no dot, with the
      `.sql` extension. */
  lemma DefaultFileName(k: nat)
    requires k < |BuiltinNames|
    ensures k < |DefaultTemplates| && DefaultTemplates[k].0 == BuiltinNames[k] + ".sql"
    ensures '.' !in BuiltinNames[k]
  {
    BuiltinNoDot(k);
    DefaultFiles();
    assert Keys(DefaultTemplates)[k] == DefaultTemplates[k].0;
    BuiltinFile(k);
  }

  // Per-name literal facts, each in a small lemma to keep the verifier's work low.
  lemma BuiltinFile(k: nat)
    requires k < |BuiltinNames|
    ensures ["base.sql", "string.sql", "int.sql", "float.sql", "timestamp.sql", "date.sql"][k] == BuiltinNames[k] + ".sql"
  {
    if k == 0 {
    } else if k == 1 {
    } else if k == 2 {
    } else if k == 3 {
    } else if k == 4 {
    } else {
    }
  }

  lemma BuiltinNoDot(k: nat)
    requires k < |BuiltinNames|
    ensures '.' !in BuiltinNames[k]
  {
    var n := BuiltinNames[k];
    if k == 0 {
      assert n == "base";
    } else if k == 1 {
      assert n == "string";
    } else if k == 2 {
      assert n == "int";
    } else if k == 3 {
      assert n == "float";
    } else if k == 4 {
      assert n == "timestamp";
    } else {
      assert n == "date";
    }
  }

  /** A second `load_templates` writes no default file again. */
  lemma SeedIdempotent(files: map<string, string>)
    ensures Seed(Seed(files, DefaultTemplates), DefaultTemplates) == Seed(files, DefaultTemplates)
  {
    DefaultsDistinct();
    SeedSpec(files, DefaultTemplates);
    SeedComplete(Seed(files, DefaultTemplates), DefaultTemplates);
  }

  /** The default file of a built-in is loaded under the built-in's name. */
  lemma SqlFileName(name: string)
    requires '.' !in name
    ensures TemplateName(name + ".sql") == name
  {
    AbsentByFirstChar(name, ".sql");
    ReplaceAbsent(name, ".sql", "");
    ReplaceAtEnd(name, ".sql", "");
  }

  lemma {:induction false} LoadDistinct(t: Dict<string, string>, files: map<string, string>, listing: seq<string>)
    requires forall i :: 0 <= i < |listing| ==> listing[i] in files
    requires DistinctKeys(t)
    ensures DistinctKeys(Load(t, files, listing))
    decreases |listing|
  {
    if listing != [] {
      LoadDistinct(t, files, listing[..|listing| - 1]);
      var f := listing[|listing| - 1];
      PutDistinct(Load(t, files, listing[..|listing| - 1]), TemplateName(f), files[f]);
    }
  }

  /** Loading keeps the names already in the table, in their order, first. */
  lemma {:induction false} LoadKeepsOrder(t: Dict<string, string>, files: map<string, string>, listing: seq<string>)
    requires forall i :: 0 <= i < |listing| ==> listing[i] in files
    ensures Keys(t) <= Keys(Load(t, files, listing))
    decreases |listing|
  {
    if listing != [] {
      var prev := Load(t, files, listing[..|listing| - 1]);
      LoadKeepsOrder(t, files, listing[..|listing| - 1]);
      var f := listing[|listing| - 1];
      PutKeys(prev, TemplateName(f), files[f]);
    }
  }

  /** A body is the content of the last `*.sql` file of the listing that
      carries its name. */
  lemma {:induction false} LoadGetLast(t: Dict<string, string>, files: map<string, string>, listing: seq<string>, i: nat)
    requires forall j :: 0 <= j < |listing| ==> listing[j] in files
    requires i < |listing| && EndsWith(listing[i], ".sql")
    requires forall j :: i < j < |listing| && EndsWith(listing[j], ".sql") ==>
               TemplateName(listing[j]) != TemplateName(listing[i])
    ensures Get(Load(t, files, listing), TemplateName(listing[i])) == Some(files[listing[i]])
    decreases |listing|
  {
    var init := listing[..|listing| - 1];
    var f := listing[|listing| - 1];
    if i == |listing| - 1 {
      PutGet(Load(t, files, init), TemplateName(f), files[f], TemplateName(f));
    } else {
      LoadGetLast(t, files, init, i);
      if EndsWith(f, ".sql") {
        PutGet(Load(t, files, init), TemplateName(f), files[f], TemplateName(listing[i]));
      }
    }
  }

  /** A name no `*.sql` file of the listing maps to keeps its old lookup. */
  lemma {:induction false} LoadGetUntouched(t: Dict<string, string>, files: map<string, string>, listing: seq<string>, n: string)
    requires forall j :: 0 <= j < |listing| ==> listing[j] in files
    requires forall j :: 0 <= j < |listing| && EndsWith(listing[j], ".sql") ==> TemplateName(listing[j]) != n
    ensures Get(Load(t, files, listing), n) == Get(t, n)
    decreases |listing|
  {
    if listing != [] {
      var init := listing[..|listing| - 1];
      var f := listing[|listing| - 1];
      LoadGetUntouched(t, files, init, n);
      if EndsWith(f, ".sql") {
        PutGet(Load(t, files, init), TemplateName(f), files[f], n);
      }
    }
  }

  /** Every `*.sql` file of the listing yields a template of its name. */
  lemma {:induction false} LoadHasName(t: Dict<string, string>, files: map<string, string>, listing: seq<string>, i: nat)
    requires forall j :: 0 <= j < |listing| ==> listing[j] in files
    requires i < |listing| && EndsWith(listing[i], ".sql")
    ensures TemplateName(listing[i]) in Keys(Load(t, files, listing))
    decreases |listing|
  {
    var init := listing[..|listing| - 1];
    var f := listing[|listing| - 1];
    PutKeys(Load(t, files, init), TemplateName(f), files[f]);
    if i < |listing| - 1 {
      LoadHasName(t, files, init, i);
    }
  }

  /** After `load_templates` every built-in name has a template. */
  lemma BuiltinPresent(t: Dict<string, string>, files: map<string, string>, listing: seq<string>, k: nat)
    requires IsListing(listing, Seed(files, DefaultTemplates))
    requires k < |BuiltinNames|
    ensures BuiltinNames[k] in Keys(Load(t, Seed(files, DefaultTemplates), listing))
  {
    BuiltinFileName(k);
    DefaultListed(files, DefaultTemplates, listing, k);
    var i :| 0 <= i < |listing| && listing[i] == DefaultTemplates[k].0;
    LoadHasName(t, Seed(files, DefaultTemplates), listing, i);
  }

  /** Every default file is in a listing of the seeded directory. */
  lemma DefaultListed(files: map<string, string>, defs: seq<(string, string)>, listing: seq<string>, k: nat)
    requires IsListing(listing, Seed(files, defs)) && k < |defs|
    ensures exists i :: 0 <= i < |listing| && listing[i] == defs[k].0
  {
    SeedNames(files, defs);
    assert Keys(defs)[k] == defs[k].0;
    assert defs[k].0 in Seed(files, defs);
  }

  lemma BuiltinFileName(k: nat)
    requires k < |BuiltinNames|
    ensures k < |DefaultTemplates|
    ensures EndsWith(DefaultTemplates[k].0, ".sql")
    ensures TemplateName(DefaultTemplates[k].0) == BuiltinNames[k]
  {
    var n := BuiltinNames[k];
    DefaultFileName(k);
    SqlFileName(n);
  }

  /** A default file written by seeding is loaded verbatim, unless a later
      file of the listing carries the same template name. */
  lemma DefaultBodyLoaded(t: Dict<string, string>, files: map<string, string>, listing: seq<string>, k: nat, i: nat)
    requires IsListing(listing, Seed(files, DefaultTemplates))
    requires k < |DefaultTemplates| && DefaultTemplates[k].0 !in files
    requires i < |listing| && listing[i] == DefaultTemplates[k].0
    requires forall j :: i < j < |listing| && EndsWith(listing[j], ".sql") ==> TemplateName(listing[j]) != BuiltinNames[k]
    ensures Get(Load(t, Seed(files, DefaultTemplates), listing), BuiltinNames[k]) == Some(DefaultTemplates[k].1)
  {
    DefaultsDistinct();
    SeedSpec(files, DefaultTemplates);
    BuiltinFileName(k);
    LoadGetLast(t, Seed(files, DefaultTemplates), listing, i);
  }

  /** A line of literal text only. */
  lemma TextLine(line: seq<Piece>, env: Env)
    requires |line| == 1 && line[0].Text?
    ensures FieldNames(line) == [] && Fill(line, env) == line[0].text
  {
    assert line[1..] == [];
    assert line[0].text + "" == line[0].text;
  }

  lemma SchemaCommentFacts(env: Env)
    ensures FieldNames(SchemaComment) == []
    ensures Fill(SchemaComment, env) == "-- Create the bronze dataset " + ("if it doesn't exist\n")
  {
    var a, b := SchemaComment[0], SchemaComment[1];
    assert SchemaComment == [a] + [b];
    FillOne(b, env);
    FillCons(a, [b], env);
  }

  lemma SchemaLineFacts(env: Env)
    requires "bronze_dataset" in env
    ensures FieldNames(SchemaLine) == ["bronze_dataset"]
    ensures Fill(SchemaLine, env) == "CREATE SCHEMA IF NOT EXISTS `" + (env["bronze_dataset"] + ("`\n"))
  {
    var a, b, c := SchemaLine[0], SchemaLine[1], SchemaLine[2];
    assert SchemaLine == [a] + ([b] + [c]);
    FillOne(c, env);
    FillCons(b, [c], env);
    FillCons(a, [b] + [c], env);
  }

  lemma ViewLineFacts(env: Env)
    requires "bronze_dataset" in env && "table_name" in env
    ensures FieldNames(ViewLine) == ["bronze_dataset", "table_name"]
    ensures Fill(ViewLine, env) == "CREATE OR REPLACE VIEW `" + (env["bronze_dataset"] + ("." + (env["table_name"] + ("` AS\n"))))
  {
    var a, b, c, d, e := ViewLine[0], ViewLine[1], ViewLine[2], ViewLine[3], ViewLine[4];
    assert ViewLine == [a] + ([b] + ([c] + ([d] + [e])));
    FillOne(e, env);
    FillCons(d, [e], env);
    FillCons(c, [d] + [e], env);
    FillCons(b, [c] + ([d] + [e]), env);
    FillCons(a, [b] + ([c] + ([d] + [e])), env);
  }

  lemma ColumnsLineFacts(env: Env)
    requires "columns" in env
    ensures FieldNames(ColumnsLine) == ["columns"]
    ensures Fill(ColumnsLine, env) == env["columns"] + ("\n")
  {
    var a, b := ColumnsLine[0], ColumnsLine[1];
    assert ColumnsLine == [a] + [b];
    FillOne(b, env);
    FillCons(a, [b], env);
  }

  lemma FromLineFacts(env: Env)
    requires "source_dataset" in env && "table_name" in env
    ensures FieldNames(FromLine) == ["source_dataset", "table_name"]
    ensures Fill(FromLine, env) == "FROM `" + (env["source_dataset"] + ("." + (env["table_name"] + ("`"))))
  {
    var a, b, c, d, e := FromLine[0], FromLine[1], FromLine[2], FromLine[3], FromLine[4];
    assert FromLine == [a] + ([b] + ([c] + ([d] + [e])));
    FillOne(e, env);
    FillCons(d, [e], env);
    FillCons(c, [d] + [e], env);
    FillCons(b, [c] + ([d] + [e]), env);
    FillCons(a, [b] + ([c] + ([d] + [e])), env);
  }

  /** Rendering a column template puts the column name in both places. */
  lemma ColumnFormat(prefix: Literal, middle: Literal, column: string)
    ensures Format(ColumnTemplate(prefix, middle), map["column_name" := column]) == prefix + column + middle + column
    ensures Placeholders(ColumnTemplate(prefix, middle)) == ["column_name", "column_name"]
  {
    TwoSlots(prefix, middle, "column_name", map["column_name" := column]);
  }

  /** The base template names its four parameters, in this order. */
  lemma BasePlaceholders()
    ensures Placeholders(BaseTemplate)
         == ["bronze_dataset", "bronze_dataset", "table_name", "columns", "source_dataset", "table_name"]
  {
    FormatUnparse(BasePieces, map[]);
    BaseNames();
  }

  lemma BaseNames()
    ensures FieldNames(BasePieces)
         == ["bronze_dataset", "bronze_dataset", "table_name", "columns", "source_dataset", "table_name"]
  {
    HeadNames();
    ViewNames();
    TailNames();
    FieldNamesAppend(BaseHead, ViewLine);
    FieldNamesAppend(BaseHead + ViewLine, BaseTail);
    var h, v, t := FieldNames(BaseHead), FieldNames(ViewLine), FieldNames(BaseTail);
    assert FieldNames(BasePieces) == h + v + t;
    NamesList();
  }

  lemma NamesList()
    ensures ["bronze_dataset"] + ["bronze_dataset", "table_name"] + ["columns", "source_dataset", "table_name"]
         == ["bronze_dataset", "bronze_dataset", "table_name", "columns", "source_dataset", "table_name"]
  {
  }

  lemma ViewNames()
    ensures FieldNames(ViewLine) == ["bronze_dataset", "table_name"]
  {
    ViewLineFacts(map["bronze_dataset" := "", "table_name" := ""]);
  }

  lemma HeadNames()
    ensures FieldNames(BaseHead) == ["bronze_dataset"]
  {
    SchemaNames();
    var p := SchemaComment + SchemaLine;
    TextNames(OptionsOpen);
    NoFieldsAppend(p, OptionsOpen);
    p := p + OptionsOpen;
    TextNames(LocationLine);
    NoFieldsAppend(p, LocationLine);
    p := p + LocationLine;
    TextNames(OptionsClose);
    NoFieldsAppend(p, OptionsClose);
    p := p + OptionsClose;
    TextNames(BlankLine);
    NoFieldsAppend(p, BlankLine);
    p := p + BlankLine;
    TextNames(ViewComment);
    NoFieldsAppend(p, ViewComment);
  }

  lemma SchemaNames()
    ensures FieldNames(SchemaComment + SchemaLine) == ["bronze_dataset"]
  {
    var env: Env := map["bronze_dataset" := ""];
    SchemaCommentFacts(env);
    SchemaLineFacts(env);
    FieldNamesAppend(SchemaComment, SchemaLine);
  }

  lemma TextNames(line: seq<Piece>)
    requires |line| == 1 && line[0].Text?
    ensures FieldNames(line) == []
  {
    assert line[1..] == [];
  }

  lemma NoFieldsAppend(p: seq<Piece>, q: seq<Piece>)
    requires FieldNames(q) == []
    ensures FieldNames(p + q) == FieldNames(p)
  {
    FieldNamesAppend(p, q);
    assert FieldNames(p) + [] == FieldNames(p);
  }

  lemma TailNames()
    ensures FieldNames(BaseTail) == ["columns", "source_dataset", "table_name"]
  {
    TextNames(SelectLine);
    ColumnsNames();
    FromNames();
    FieldNamesAppend(SelectLine, ColumnsLine);
    FieldNamesAppend(SelectLine + ColumnsLine, FromLine);
    TailList();
  }

  lemma TailList()
    ensures [] + ["columns"] + ["source_dataset", "table_name"] == ["columns", "source_dataset", "table_name"]
  {
  }

  lemma ColumnsNames()
    ensures FieldNames(ColumnsLine) == ["columns"]
  {
    ColumnsLineFacts(map["columns" := ""]);
  }

  lemma FromNames()
    ensures FieldNames(FromLine) == ["source_dataset", "table_name"]
  {
    FromLineFacts(map["source_dataset" := "", "table_name" := ""]);
  }
}
