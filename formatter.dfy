/**
 The text layout of a table preview: each column shown as `name (type)`,
 right-aligned to a common width, followed by its value cut to 100 characters.
 */
module Formatter {
  import opened Wrappers

  function Spaces(n: nat): (s: string)
    ensures |s| == n && forall i :: 0 <= i < n ==> s[i] == ' '
  {
    if n == 0 then "" else " " + Spaces(n - 1)
  }

  /** `s.rjust(width)`: `s` behind enough spaces to make `width` characters,
      or `s` itself when it is already that long. */
  function RightJustify(s: string, width: int): (r: string)
    ensures |r| == if |s| < width then width else |s|
    ensures r[|r| - |s|..] == s
    ensures forall i :: 0 <= i < |r| - |s| ==> r[i] == ' '
  {
    if width <= |s| then s else Spaces(width - |s|) + s
  }

  /** The label of a column: `f"{col_name} ({col_type})"`. */
  function Label(colName: string, colType: string): (r: string)
    ensures |r| == |colName| + |colType| + 3
  {
    colName + " (" + colType + ")"
  }

  /** `format_column_with_type`: the label padded on the left to `maxWidth`;
      too long a label is kept whole. */
  function FormatColumnWithType(colName: string, colType: string, maxWidth: int): (r: string)
    ensures var l := Label(colName, colType);
            |r| == (if |l| < maxWidth then maxWidth else |l|)
            && r[|r| - |l|..] == l
            && (forall i :: 0 <= i < |r| - |l| ==> r[i] == ' ')
            && (maxWidth <= |l| ==> r == l)
  {
    RightJustify(Label(colName, colType), maxWidth)
  }

  /** `calculate_max_width`: the width of the widest label. Python's `max`
      fails on an empty schema and the lookup on a column without a type. */
  function CalculateMaxWidth(schema: seq<string>, columnTypes: map<string, string>): (w: nat)
    requires schema != []
    requires forall c :: c in schema ==> c in columnTypes
    ensures forall c :: c in schema ==> |Label(c, columnTypes[c])| <= w
    ensures exists c :: c in schema && |Label(c, columnTypes[c])| == w
  {
    var c := schema[0];
    var here := |Label(c, columnTypes[c])|;
    if |schema| == 1 then here
    else
      var there := CalculateMaxWidth(schema[1..], columnTypes);
      assert forall d :: d in schema ==> d == c || d in schema[1..];
      if here < there then there else here
  }

  /** A value as displayed: one over 100 characters keeps its first 97 and
      gets `...`. */
  function Truncate(value: string): (r: string)
    ensures |r| <= 100
    ensures |value| <= 100 ==> r == value
    ensures |value| > 100 ==> |r| == 100 && r[..97] == value[..97] && r[97..] == "..."
  {
    if |value| > 100 then value[..97] + "..." else value
  }

  /** One line of a row preview. */
  function PreviewLine(colName: string, colType: string, value: string, width: int): string
  {
    FormatColumnWithType(colName, colType, width) + ": " + Truncate(value)
  }

  /** The width a row is laid out with: the one given, or the computed one. */
  function RowWidth(schema: seq<string>, columnTypes: map<string, string>, maxWidth: Option<int>): int
    requires maxWidth.None? ==> schema != []
    requires forall c :: c in schema ==> c in columnTypes
  {
    match maxWidth
    case Some(w) => w
    case None => CalculateMaxWidth(schema, columnTypes)
  }

  /** `format_preview_row`: one line per schema column, in schema order. */
  method FormatPreviewRow(row: map<string, string>, schema: seq<string>, columnTypes: map<string, string>,
                          maxWidth: Option<int>)
    returns (lines: seq<string>)
    requires maxWidth.None? ==> schema != []
    requires forall c :: c in schema ==> c in columnTypes && c in row
    ensures |lines| == |schema|
    ensures forall i :: 0 <= i < |schema| ==>
              lines[i] == PreviewLine(schema[i], columnTypes[schema[i]], row[schema[i]],
                                      RowWidth(schema, columnTypes, maxWidth))
  {
    var width: int;
    if maxWidth.None? {
      width := CalculateMaxWidth(schema, columnTypes);
    } else {
      width := maxWidth.value;
    }
    lines := [];
    for k := 0 to |schema|
      invariant |lines| == k
      invariant forall i :: 0 <= i < k ==>
                  lines[i] == PreviewLine(schema[i], columnTypes[schema[i]], row[schema[i]], width)
    {
      var col := schema[k];
      var colType := columnTypes[col];
      var formattedCol := FormatColumnWithType(col, colType, width);
      var value := row[col];
      if |value| > 100 {
        value := value[..97] + "...";
      }
      lines := lines + [formattedCol + ": " + value];
    }
  }

  /** With the computed width the separators of all lines line up: each line
      has `": "` at the same position, right after its padded label. */
  lemma AlignedLines(row: map<string, string>, schema: seq<string>, columnTypes: map<string, string>, i: nat)
    requires schema != []
    requires forall c :: c in schema ==> c in columnTypes && c in row
    requires i < |schema|
    ensures var w := CalculateMaxWidth(schema, columnTypes);
            var line := PreviewLine(schema[i], columnTypes[schema[i]], row[schema[i]], w);
            |FormatColumnWithType(schema[i], columnTypes[schema[i]], w)| == w
            && |line| >= w + 2 && line[w..w + 2] == ": "
            && line[..w] == FormatColumnWithType(schema[i], columnTypes[schema[i]], w)
  {
    var c := schema[i];
    var w := CalculateMaxWidth(schema, columnTypes);
    assert |Label(c, columnTypes[c])| <= w;
    var f := FormatColumnWithType(c, columnTypes[c], w);
    assert |f| == w;
    SeparatorAt(f, Truncate(row[c]));
  }

  lemma SeparatorAt(f: string, value: string)
    ensures var line := f + ": " + value;
            |line| >= |f| + 2 && line[|f|..|f| + 2] == ": " && line[..|f|] == f
  {
    var line := f + ": " + value;
    assert line[|f|] == ':' && line[|f| + 1] == ' ';
  }
}
