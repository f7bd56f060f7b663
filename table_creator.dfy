/**
 The way back from a generated file to the warehouse: listing the generated
 files, reading one, finding the view it creates, and running it through the
 warehouse gateway with a preview of the new view.
 */
module Tables {
  import opened Wrappers
  import opened Strings
  import opened Storage

  // The view-name pattern ``CREATE OR REPLACE VIEW\s+`([^`]+)` ``.

  const Keyword: string := "CREATE OR REPLACE VIEW"

  /** Python's `\s` on `str` patterns: the characters `str.isspace` accepts. */
  predicate IsSpace(c: char)
  {
    c == ' ' || '\t' <= c <= '\r' || '\U{1c}' <= c <= '\U{1f}' || c == '\U{85}' || c == '\U{a0}'
    || c == '\U{1680}' || '\U{2000}' <= c <= '\U{200a}' || c == '\U{2028}' || c == '\U{2029}'
    || c == '\U{202f}' || c == '\U{205f}' || c == '\U{3000}'
  }

  predicate AllSpace(w: string)
  {
    forall i :: 0 <= i < |w| ==> IsSpace(w[i])
  }

  /** Length of the longest prefix of `s` that `\s*` takes. */
  function SpaceRun(s: string): (n: nat)
    ensures n <= |s| && AllSpace(s[..n])
    ensures n < |s| ==> !IsSpace(s[n])
  {
    if s == [] || !IsSpace(s[0]) then 0 else 1 + SpaceRun(s[1..])
  }

  /** Length of the longest prefix of `s` that ``[^`]*`` takes. */
  function TickFreeRun(s: string): (n: nat)
    ensures n <= |s| && '`' !in s[..n]
    ensures n < |s| ==> s[n] == '`'
  {
    if s == [] || s[0] == '`' then 0 else 1 + TickFreeRun(s[1..])
  }

  /** The text of a view clause at the start of `s`: the keyword, the
      whitespace `w`, then the name `v` between backticks. */
  predicate ClauseAt(s: string, w: string, v: string)
  {
    StartsWith(s, Keyword + w + "`" + v + "`") && w != [] && AllSpace(w) && v != [] && '`' !in v
  }

  /** The pattern tried at the start of `s`: the captured name, if it matches
      there. Neither `\s` nor ``[^`]`` takes a backtick, so each greedy run must
      end right before the backtick that follows it and there is nothing to
      backtrack over. */
  function MatchAt(s: string): (r: Option<string>)
    ensures r.Some? ==> r.value != [] && '`' !in r.value
  {
    if !StartsWith(s, Keyword) then None
    else
      var rest := s[|Keyword|..];
      var w := SpaceRun(rest);
      if w == 0 || w == |rest| || rest[w] != '`' then None
      else
        var q := rest[w + 1..];
        var n := TickFreeRun(q);
        if n == 0 || n == |q| then None else Some(q[..n])
  }

  /** `re.search`: the pattern, given as the matcher `m` that tries it at
      the start of a text, is tried at each position from `i` on, and the
      first position where it matches gives the group. */
  function Search(m: string -> Option<string>, s: string, i: nat): Option<string>
    requires i <= |s|
    decreases |s| - i
  {
    match m(s[i..])
    case Some(v) => Some(v)
    case None => if i == |s| then None else Search(m, s, i + 1)
  }

  /** `extract_view_name`: the view pattern searched for over the whole text. */
  function ExtractViewName(sql: string): (r: Option<string>)
    ensures r.Some? ==> r.value != [] && '`' !in r.value
  {
    var r := Search(MatchAt, sql, 0);
    if r.Some? then
      SearchFound(MatchAt, sql, 0);
      r
    else r
  }

  lemma {:induction false} SpaceRunOf(w: string, rest: string)
    requires AllSpace(w) && rest != [] && !IsSpace(rest[0])
    ensures SpaceRun(w + rest) == |w|
    decreases |w|
  {
    var s := w + rest;
    if w == [] {
      assert s == rest;
    } else {
      var w' := w[1..];
      assert s[0] == w[0] && IsSpace(w[0]);
      assert AllSpace(w') by {
        assert forall i :: 0 <= i < |w'| ==> w'[i] == w[i + 1];
      }
      assert s[1..] == w' + rest;
      SpaceRunOf(w', rest);
    }
  }

  lemma {:induction false} TickFreeRunOf(v: string, rest: string)
    requires '`' !in v
    ensures TickFreeRun(v + ("`" + rest)) == |v|
    decreases |v|
  {
    if v == [] {
      assert v + ("`" + rest) == "`" + rest;
    } else {
      assert (v + ("`" + rest))[1..] == v[1..] + ("`" + rest);
      TickFreeRunOf(v[1..], rest);
    }
  }

  /** A match at the start of `s` is a view clause there. */
  lemma MatchSound(s: string)
    requires MatchAt(s).Some?
    ensures exists w :: ClauseAt(s, w, MatchAt(s).value)
  {
    var k := |Keyword|;
    var rest := s[k..];
    var n := SpaceRun(rest);
    var w := rest[..n];
    var q := rest[n + 1..];
    var v := q[..TickFreeRun(q)];
    assert s[..k] == Keyword;
    assert s[..k + n + 1 + |v| + 1] == Keyword + w + "`" + v + "`";
    assert ClauseAt(s, w, v);
  }

  /** A view clause at the start of `s` is matched there, with its name. */
  lemma MatchComplete(s: string, w: string, v: string)
    requires ClauseAt(s, w, v)
    ensures MatchAt(s) == Some(v)
  {
    var k := |Keyword|;
    var tail := s[|Keyword + w + "`" + v + "`"|..];
    ClauseParts(s, w, v);
    var rest := s[k..];
    SpaceRunOf(w, "`" + (v + ("`" + tail)));
    assert rest[|w|] == '`';
    var q := rest[|w| + 1..];
    assert q == v + ("`" + tail);
    TickFreeRunOf(v, tail);
    assert q[..|v|] == v;
  }

  /** A text that starts with a clause: the keyword, then the rest of the
      clause and what follows it. */
  lemma ClauseParts(s: string, w: string, v: string)
    requires StartsWith(s, Keyword + w + "`" + v + "`")
    ensures var tail := s[|Keyword + w + "`" + v + "`"|..];
            StartsWith(s, Keyword) && s[|Keyword|..] == w + ("`" + (v + ("`" + tail)))
  {
    var c := Keyword + w + "`" + v + "`";
    var tail := s[|c|..];
    assert s == c + tail;
    assert s[..|Keyword|] == Keyword;
    assert s[|Keyword|..] == w + "`" + v + "`" + tail;
  }

  /** Positions where nothing matches are passed over. */
  lemma {:induction false} SearchSkip(m: string -> Option<string>, s: string, k: nat, i: nat)
    requires k <= i <= |s|
    requires forall j :: k <= j < i ==> m(s[j..]).None?
    ensures Search(m, s, k) == Search(m, s, i)
    decreases i - k
  {
    if k < i {
      SearchStep(m, s, k);
      SearchSkip(m, s, k + 1, i);
    }
  }

  /** The search finds a name at the first position that matches from `k` on. */
  lemma {:induction false} SearchFound(m: string -> Option<string>, s: string, k: nat)
    requires k <= |s| && Search(m, s, k).Some?
    ensures exists i :: k <= i <= |s| && m(s[i..]) == Search(m, s, k)
                        && forall j :: k <= j < i ==> m(s[j..]).None?
    decreases |s| - k
  {
    if m(s[k..]).None? {
      assert k < |s|;
      SearchStep(m, s, k);
      SearchFound(m, s, k + 1);
      var i :| k + 1 <= i <= |s| && m(s[i..]) == Search(m, s, k + 1)
               && forall j :: k + 1 <= j < i ==> m(s[j..]).None?;
      assert forall j :: k <= j < i ==> m(s[j..]).None?;
    } else {
      SearchStop(m, s, k);
      assert k <= k <= |s| && m(s[k..]) == Search(m, s, k);
    }
  }

  /** The search finds nothing exactly when no position matches from `k` on. */
  lemma SearchNone(m: string -> Option<string>, s: string, k: nat)
    requires k <= |s|
    ensures Search(m, s, k).None? <==> forall j :: k <= j <= |s| ==> m(s[j..]).None?
  {
    if Search(m, s, k).None? {
      SearchMiss(m, s, k);
    }
    if forall j :: k <= j <= |s| ==> m(s[j..]).None? {
      SearchSkip(m, s, k, |s|);
      SearchStop(m, s, |s|);
    }
  }

  /** A search that finds nothing passed over positions that all fail. */
  lemma {:induction false} SearchMiss(m: string -> Option<string>, s: string, k: nat)
    requires k <= |s| && Search(m, s, k).None?
    ensures forall j :: k <= j <= |s| ==> m(s[j..]).None?
    decreases |s| - k
  {
    assert m(s[k..]).None?;
    if k < |s| {
      SearchStep(m, s, k);
      SearchMiss(m, s, k + 1);
    }
  }

  /** Where the pattern does not match, the search moves on. */
  lemma SearchStep(m: string -> Option<string>, s: string, k: nat)
    requires k < |s| && m(s[k..]).None?
    ensures Search(m, s, k) == Search(m, s, k + 1)
  {
  }

  /** Where it matches, or at the end, the search stops. */
  lemma SearchStop(m: string -> Option<string>, s: string, k: nat)
    requires k <= |s| && (k == |s| || m(s[k..]).Some?)
    ensures Search(m, s, k) == m(s[k..])
  {
  }

  /** Searching the tail of `x + y` is searching `y`. */
  lemma {:induction false} SearchShift(m: string -> Option<string>, x: string, y: string, j: nat)
    requires j <= |y|
    ensures Search(m, x + y, |x| + j) == Search(m, y, j)
    decreases |y| - j
  {
    assert (x + y)[|x| + j..] == y[j..];
    if j < |y| && m(y[j..]).None? {
      SearchStep(m, x + y, |x| + j);
      SearchStep(m, y, j);
      SearchShift(m, x, y, j + 1);
    } else {
      SearchStop(m, x + y, |x| + j);
      SearchStop(m, y, j);
    }
  }

  /** The leftmost clause is the one found. */
  lemma ExtractFirst(s: string, i: nat)
    requires i <= |s| && MatchAt(s[i..]).Some?
    requires forall j :: 0 <= j < i ==> MatchAt(s[j..]).None?
    ensures ExtractViewName(s) == MatchAt(s[i..])
  {
    var m := MatchAt;
    forall j | 0 <= j < i
      ensures m(s[j..]).None?
    {
      assert m(s[j..]) == MatchAt(s[j..]);
    }
    SearchSkip(m, s, 0, i);
    SearchStop(m, s, i);
  }

  /** A found name comes from the leftmost position where the pattern matches. */
  lemma ExtractFound(s: string)
    requires ExtractViewName(s).Some?
    ensures exists i :: 0 <= i <= |s| && MatchAt(s[i..]) == ExtractViewName(s)
                        && forall j :: 0 <= j < i ==> MatchAt(s[j..]).None?
  {
    var m := MatchAt;
    SearchFound(m, s, 0);
    var i :| 0 <= i <= |s| && m(s[i..]) == Search(m, s, 0) && forall j :: 0 <= j < i ==> m(s[j..]).None?;
    forall j | 0 <= j < i
      ensures MatchAt(s[j..]).None?
    {
      assert m(s[j..]).None?;
    }
    assert MatchAt(s[i..]) == ExtractViewName(s);
  }

  /** No name is found exactly when the pattern matches at no position. */
  lemma ExtractNone(s: string)
    ensures ExtractViewName(s).None? <==> forall i :: 0 <= i <= |s| ==> MatchAt(s[i..]).None?
  {
    var m := MatchAt;
    SearchNone(m, s, 0);
    if forall i :: 0 <= i <= |s| ==> MatchAt(s[i..]).None? {
      forall i | 0 <= i <= |s|
        ensures m(s[i..]).None?
      {
        assert m(s[i..]) == MatchAt(s[i..]);
      }
    } else {
      var i :| 0 <= i <= |s| && MatchAt(s[i..]).Some?;
      assert m(s[i..]).Some?;
    }
  }

  /** What `extract_view_name` returns, in terms of clauses: the name of a
      view clause that starts at `i`, with no clause starting earlier. */
  lemma ExtractSound(s: string)
    requires ExtractViewName(s).Some?
    ensures exists i, w :: 0 <= i <= |s| && ClauseAt(s[i..], w, ExtractViewName(s).value)
                           && forall j, w', v' :: 0 <= j < i ==> !ClauseAt(s[j..], w', v')
  {
    ExtractFound(s);
    var i :| 0 <= i <= |s| && MatchAt(s[i..]) == ExtractViewName(s)
             && forall j :: 0 <= j < i ==> MatchAt(s[j..]).None?;
    MatchSound(s[i..]);
    var w :| ClauseAt(s[i..], w, ExtractViewName(s).value);
    forall j, w', v' | 0 <= j < i
      ensures !ClauseAt(s[j..], w', v')
    {
      if ClauseAt(s[j..], w', v') {
        MatchComplete(s[j..], w', v');
      }
    }
  }

  /** The converse: the leftmost view clause yields its name. */
  lemma ExtractComplete(s: string, i: nat, w: string, v: string)
    requires i <= |s| && ClauseAt(s[i..], w, v)
    requires forall j, w', v' :: 0 <= j < i ==> !ClauseAt(s[j..], w', v')
    ensures ExtractViewName(s) == Some(v)
  {
    MatchComplete(s[i..], w, v);
    forall j | 0 <= j < i
      ensures MatchAt(s[j..]).None?
    {
      if MatchAt(s[j..]).Some? {
        MatchSound(s[j..]);
      }
    }
    ExtractFirst(s, i);
  }

  /** A text that opens with a view clause yields that clause's name. */
  lemma ClauseFirst(w: string, v: string, rest: string)
    requires w != [] && AllSpace(w) && v != [] && '`' !in v
    ensures ExtractViewName(Keyword + w + "`" + v + "`" + rest) == Some(v)
  {
    var c := Keyword + w + "`" + v + "`";
    var s := c + rest;
    assert s[..|c|] == c;
    assert s[0..] == s;
    ExtractComplete(s, 0, w, v);
  }

  /** `None` exactly when the text holds no view clause anywhere. */
  lemma ExtractAbsent(s: string)
    ensures ExtractViewName(s).None? <==> forall i, w, v :: 0 <= i <= |s| ==> !ClauseAt(s[i..], w, v)
  {
    ExtractNone(s);
    if ExtractViewName(s).None? {
      forall i, w, v | 0 <= i <= |s|
        ensures !ClauseAt(s[i..], w, v)
      {
        if ClauseAt(s[i..], w, v) {
          MatchComplete(s[i..], w, v);
        }
      }
    } else {
      ExtractSound(s);
    }
  }

  /** Without the keyword, in exactly this case, there is no name. */
  lemma NoKeywordNone(s: string)
    requires !Occurs(s, Keyword)
    ensures ExtractViewName(s) == None
  {
    ExtractNone(s);
    forall i | 0 <= i <= |s|
      ensures MatchAt(s[i..]).None?
    {
      if StartsWith(s[i..], Keyword) {
        assert s[i..][..|Keyword|] == s[i..i + |Keyword|];
        assert OccursAt(s, Keyword, i);
      }
    }
  }

  /** The match is case-sensitive: a text without a capital `C`, such as a
      statement written in lower case, gives no name. */
  lemma LowerCaseNone(s: string)
    requires forall i :: 0 <= i < |s| ==> s[i] != 'C'
    ensures ExtractViewName(s) == None
  {
    assert Keyword[0] == 'C';
    AbsentByFirstChar(s, Keyword);
    NoKeywordNone(s);
  }

  /** A text whose keyword only appears at its start. */
  predicate KeywordOnlyAtStart(s: string)
  {
    forall i :: 0 < i <= |s| ==> !OccursAt(s, Keyword, i)
  }

  lemma OnlyStartCounts(s: string)
    requires KeywordOnlyAtStart(s) && MatchAt(s).None?
    ensures ExtractViewName(s) == None
  {
    ExtractNone(s);
    forall i | 0 <= i <= |s|
      ensures MatchAt(s[i..]).None?
    {
      if i == 0 {
        assert s[0..] == s;
      } else if StartsWith(s[i..], Keyword) {
        assert s[i..][..|Keyword|] == s[i..i + |Keyword|];
        assert OccursAt(s, Keyword, i);
      }
    }
  }

  /** A backtick right after the keyword, with no whitespace between, gives
      no name. */
  lemma NoSpaceNone(s: string)
    requires StartsWith(s, Keyword + "`") && KeywordOnlyAtStart(s)
    ensures ExtractViewName(s) == None
  {
    var k := |Keyword|;
    assert s[..k] == (Keyword + "`")[..k];
    assert s[k..][0] == (Keyword + "`")[k];
    OnlyStartCounts(s);
  }

  /** Two backticks with nothing between them give no name. */
  lemma EmptyNameNone(s: string, w: string)
    requires StartsWith(s, Keyword + w + "``") && AllSpace(w) && KeywordOnlyAtStart(s)
    ensures ExtractViewName(s) == None
  {
    var k := |Keyword|;
    var c := Keyword + w + "``";
    assert s[..k] == c[..k];
    var rest := s[k..];
    assert rest == w + ("``" + s[|c|..]) by {
      assert s == c + s[|c|..];
    }
    SpaceRunOf(w, "``" + s[|c|..]);
    if w != [] {
      assert rest[|w| + 1..][0] == '`';
    }
    OnlyStartCounts(s);
  }

  /** A text lacking one of the keyword's characters holds no keyword. */
  lemma KeywordFreeWithout(s: string, k: nat)
    requires k < |Keyword| && Keyword[k] !in s
    ensures !Occurs(s, Keyword)
  {
    forall i | 0 <= i <= |s|
      ensures !OccursAt(s, Keyword, i)
    {
      if i + |Keyword| <= |s| {
        assert s[i..i + |Keyword|][k] == s[i + k];
      }
    }
  }

  /** Two keyword-free texts joined after a character foreign to the keyword
      hold no keyword either. */
  lemma KeywordFreeJoin(x: string, y: string)
    requires !Occurs(x, Keyword) && !Occurs(y, Keyword)
    requires x != [] && x[|x| - 1] !in Keyword
    ensures !Occurs(x + y, Keyword)
  {
    var s := x + y;
    var k := |Keyword|;
    forall i | 0 <= i <= |s|
      ensures !OccursAt(s, Keyword, i)
    {
      if i + k <= |s| {
        if i + k <= |x| {
          SliceLeft(x, y, i, k);
          assert !OccursAt(x, Keyword, i);
        } else if i >= |x| {
          SliceRight(x, y, i, k);
          assert !OccursAt(y, Keyword, i - |x|);
        } else {
          assert s[i..i + k][|x| - 1 - i] == x[|x| - 1];
        }
      }
    }
  }

  /** The pattern matches nowhere inside a keyword-free text that ends in a
      character foreign to the keyword, whatever follows it. */
  lemma QuietPositions(x: string, y: string)
    requires !Occurs(x, Keyword)
    requires x != [] && x[|x| - 1] !in Keyword
    ensures forall j :: 0 <= j < |x| ==> MatchAt((x + y)[j..]).None?
  {
    var s := x + y;
    var k := |Keyword|;
    forall j | 0 <= j < |x|
      ensures MatchAt(s[j..]).None?
    {
      if j + k <= |s| {
        if j + k <= |x| {
          SliceLeft(x, y, j, k);
          assert s[j..][..k] == s[j..j + k];
          assert !OccursAt(x, Keyword, j);
        } else {
          assert s[j..][..k][|x| - 1 - j] == x[|x| - 1];
        }
      }
    }
  }

  /** Such a text in front does not change what is found. */
  lemma SkipQuiet(x: string, y: string)
    requires !Occurs(x, Keyword)
    requires x != [] && x[|x| - 1] !in Keyword
    ensures ExtractViewName(x + y) == ExtractViewName(y)
  {
    QuietPositions(x, y);
    var m := MatchAt;
    forall j | 0 <= j < |x|
      ensures m((x + y)[j..]).None?
    {
      assert m((x + y)[j..]) == MatchAt((x + y)[j..]);
    }
    SearchSkip(m, x + y, 0, |x|);
    SearchShift(m, x, y, 0);
  }

  // The generated files.

  /** `list_available_tables`: the names of the `*.sql` entries of the
      dataset directory, each without its last four characters. */
  function ListAvailableTables(dirExists: bool, listing: seq<string>): seq<string>
  {
    if dirExists then SqlStems(listing) else []
  }

  function SqlStems(listing: seq<string>): seq<string>
  {
    if listing == [] then []
    else
      var f := listing[0];
      (if EndsWith(f, ".sql") then [f[..|f| - 4]] else []) + SqlStems(listing[1..])
  }

  /** A table is listed exactly when its `.sql` file is in the directory. */
  lemma {:induction false} ListedTables(dirExists: bool, listing: seq<string>, t: string)
    ensures t in ListAvailableTables(dirExists, listing) <==> dirExists && t + ".sql" in listing
  {
    if dirExists {
      SqlStemsMember(listing, t);
    }
  }

  lemma {:induction false} SqlStemsMember(listing: seq<string>, t: string)
    ensures t in SqlStems(listing) <==> t + ".sql" in listing
  {
    if listing != [] {
      var f := listing[0];
      SqlStemsMember(listing[1..], t);
      if EndsWith(f, ".sql") {
        assert f == f[..|f| - 4] + ".sql";
      }
      if f == t + ".sql" {
        assert f[..|f| - 4] == t;
      }
      assert listing == [f] + listing[1..];
    }
  }

  /** The listing keeps the directory's order: one name per `.sql` entry. */
  lemma {:induction false} SqlStemsAppend(a: seq<string>, b: seq<string>)
    ensures SqlStems(a + b) == SqlStems(a) + SqlStems(b)
  {
    if a == [] {
      assert a + b == b;
    } else {
      assert (a + b)[1..] == a[1..] + b;
      SqlStemsAppend(a[1..], b);
    }
  }

  /** `list_available_datasets`: the entries of the directory that are
      directories, in listing order; an entry is its name and whether it is
      a directory. */
  function ListAvailableDatasets(dirExists: bool, entries: seq<(string, bool)>): seq<string>
  {
    if dirExists then Directories(entries) else []
  }

  function Directories(entries: seq<(string, bool)>): seq<string>
  {
    if entries == [] then []
    else (if entries[0].1 then [entries[0].0] else []) + Directories(entries[1..])
  }

  lemma {:induction false} ListedDatasets(dirExists: bool, entries: seq<(string, bool)>, d: string)
    ensures d in ListAvailableDatasets(dirExists, entries) <==> dirExists && (d, true) in entries
  {
    if dirExists {
      DirectoriesMember(entries, d);
    }
  }

  lemma {:induction false} DirectoriesMember(entries: seq<(string, bool)>, d: string)
    ensures d in Directories(entries) <==> (d, true) in entries
  {
    if entries != [] {
      DirectoriesMember(entries[1..], d);
      assert entries == [entries[0]] + entries[1..];
    }
  }

  /** `read_sql_file`: the text at `datasets_dir/dataset_id/table_id.sql`, or
      `None` when there is no file. */
  function ReadSqlFile(files: map<string, string>, datasetsDir: string, datasetId: string, tableId: string)
    : (r: Option<string>)
    ensures r.None? <==> DatasetFile(datasetsDir, datasetId, tableId + ".sql") !in files
  {
    var path := DatasetFile(datasetsDir, datasetId, tableId + ".sql");
    if path in files then Some(files[path]) else None
  }

  /** Reading back a file just written gives what was written. */
  lemma ReadWritten(files: map<string, string>, datasetsDir: string, datasetId: string, tableId: string, text: string)
    ensures ReadSqlFile(files[DatasetFile(datasetsDir, datasetId, tableId + ".sql") := text], datasetsDir, datasetId, tableId)
         == Some(text)
  {
  }

  // The warehouse gateway.

  /** A successful preview: column names, column types and rows of strings. */
  datatype PreviewData = PreviewData(schema: seq<string>, columnTypes: map<string, string>, rows: seq<map<string, string>>)

  /** What asking for a preview can give: the data, the gateway's error
      message, or an exception escaping from the gateway. */
  datatype PreviewOutcome = Rows(data: PreviewData) | PreviewFailed(reason: string) | PreviewRaised(error: string)

  datatype Call = ExecuteCall(query: string) | PreviewCall(tableName: string)

  /** The warehouse connector, seen only through its answers: what running a
      query and previewing a table give back are fixed by the two functions,
      and the calls made are logged in order. */
  class Warehouse {
    const execute: string -> (bool, string)
    const preview: string -> PreviewOutcome
    var calls: seq<Call>

    constructor (execute: string -> (bool, string), preview: string -> PreviewOutcome)
      ensures this.execute == execute && this.preview == preview && calls == []
    {
      this.execute := execute;
      this.preview := preview;
      calls := [];
    }

    /** `execute_query(query)`: success and a message. */
    method ExecuteQuery(query: string) returns (success: bool, message: string)
      modifies this
      ensures (success, message) == execute(query)
      ensures calls == old(calls) + [ExecuteCall(query)]
    {
      success, message := execute(query).0, execute(query).1;
      calls := calls + [ExecuteCall(query)];
    }

    /** `preview_table(full_table_name)`. */
    method PreviewTable(fullTableName: string) returns (outcome: PreviewOutcome)
      modifies this
      ensures outcome == preview(fullTableName)
      ensures calls == old(calls) + [PreviewCall(fullTableName)]
    {
      outcome := preview(fullTableName);
      calls := calls + [PreviewCall(fullTableName)];
    }
  }

  /** The second half of `create_table`'s result: a plain message, or one of
      the three dictionaries it builds. */
  datatype Detail =
    | Message(text: string)
    | Failure(message: string, error: string)
    | Preview(message: string, viewName: string, preview: PreviewData)
    | PreviewError(message: string, viewName: string, previewError: string)

  const NoViewName: string := "Could not extract view name from SQL"
  const PreviewProblem: string := "Could not preview table: "

  class TableCreator {
    const bq: Warehouse
    const datasetsDir: string

    constructor (bq: Warehouse, datasetsDir: string)
      ensures this.bq == bq && this.datasetsDir == datasetsDir
    {
      this.bq := bq;
      this.datasetsDir := datasetsDir;
    }

    /** `create_table(dataset_id, table_id)`: runs the generated file and
        previews the view it names. */
    method CreateTable(disk: FileStore, datasetId: string, tableId: string) returns (success: bool, detail: Detail)
      modifies bq
      ensures var sql := ReadSqlFile(disk.files, datasetsDir, datasetId, tableId);
              sql.None? || sql.value == "" ==>
                !success && detail == Message("SQL file for " + datasetId + "." + tableId + " not found")
                && bq.calls == old(bq.calls)
      ensures var sql := ReadSqlFile(disk.files, datasetsDir, datasetId, tableId);
              sql.Some? && sql.value != "" && !bq.execute(sql.value).0 ==>
                !success && detail == Message(bq.execute(sql.value).1)
                && bq.calls == old(bq.calls) + [ExecuteCall(sql.value)]
      ensures var sql := ReadSqlFile(disk.files, datasetsDir, datasetId, tableId);
              sql.Some? && sql.value != "" && bq.execute(sql.value).0 && ExtractViewName(sql.value).None? ==>
                success && detail == Failure(bq.execute(sql.value).1, NoViewName)
                && bq.calls == old(bq.calls) + [ExecuteCall(sql.value)]
      ensures var sql := ReadSqlFile(disk.files, datasetsDir, datasetId, tableId);
              sql.Some? && sql.value != "" && bq.execute(sql.value).0 && ExtractViewName(sql.value).Some? ==>
                var message, view := bq.execute(sql.value).1, ExtractViewName(sql.value).value;
                success
                && bq.calls == old(bq.calls) + [ExecuteCall(sql.value), PreviewCall("`" + view + "`")]
                && detail == match bq.preview("`" + view + "`")
                             case Rows(data) => Preview(message, view, data)
                             case PreviewFailed(reason) => PreviewError(message, view, reason)
                             case PreviewRaised(error) => Failure(message, PreviewProblem + error)
    {
      var sql := ReadSqlFile(disk.files, datasetsDir, datasetId, tableId);
      if sql.None? || sql.value == "" {
        return false, Message("SQL file for " + datasetId + "." + tableId + " not found");
      }
      var message;
      success, message := bq.ExecuteQuery(sql.value);
      if success {
        var viewName := ExtractViewName(sql.value);
        if viewName.None? {
          return true, Failure(message, NoViewName);
        }
        var outcome := bq.PreviewTable("`" + viewName.value + "`");
        match outcome
        case Rows(data) =>
          return true, Preview(message, viewName.value, data);
        case PreviewFailed(reason) =>
          return true, PreviewError(message, viewName.value, reason);
        case PreviewRaised(error) =>
          return true, Failure(message, PreviewProblem + error);
      }
      return success, Message(message);
    }
  }
}
