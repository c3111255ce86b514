/** The LaTeX summary tables of `port_risk/io/latex.py`: formatting of model names
    and metric headers, and the text of the statistics table and of the metrics
    table. The float formatter (`format_scientific`) is a parameter `fmt`; writing
    the text to a file is left to the caller. */
module Latex {
  import Tables
  import opened Dicts
  import opened Strings
  import opened Models

  /** `format_name(name)`: the underscore-separated words of `name`, each title-cased,
      joined by single spaces. */
  function FormatName(name: string): string
  {
    Join(Titles(Split(name, '_')), " ")
  }

  /** `format_header(s)`: `s` upper-cased inside a LaTeX bold command. */
  function FormatHeader(s: string): string
  {
    "\\textbf{" + Upper(s) + "}"
  }

  /** `format_header` applied to every key. */
  function Headers(keys: seq<string>): (r: seq<string>)
    ensures |r| == |keys|
    ensures forall i :: 0 <= i < |keys| ==> r[i] == FormatHeader(keys[i])
  {
    seq(|keys|, i requires 0 <= i < |keys| => FormatHeader(keys[i]))
  }

  /** The float formatter applied to every value. */
  function Formatted(values: seq<real>, fmt: real -> string): (r: seq<string>)
    ensures |r| == |values|
    ensures forall i :: 0 <= i < |values| ==> r[i] == fmt(values[i])
  {
    seq(|values|, i requires 0 <= i < |values| => fmt(values[i]))
  }

  /** The column spec of a table with `n` numeric columns: a left-aligned name
      column, then one right-aligned column per header. */
  function TabularSpec(n: nat): (r: string)
    ensures |r| == n + 2 && r[..2] == "l "
    ensures forall i :: 2 <= i < |r| ==> r[i] == 'r'
  {
    "l " + seq(n, _ => 'r')
  }

  /** The data block once its first `n` lines are added: the rule, then each line
      followed by a newline. */
  function Data(lines: seq<string>, n: nat): string
    requires n <= |lines|
  {
    if n == 0 then "\\midrule\n" else Data(lines, n - 1) + (lines[n - 1] + "\n")
  }

  /** The table text both functions assemble around their column spec, header and data. */
  function Document(tabular: string, header: string, data: string): string
  {
    "\\begin{tabular}{" + tabular + "}\n" + "\\toprule" + header + "\n"
      + data + "\\bottomrule\n" + "\\end{tabular}"
  }

  // ---------------------------------------------------------------------------
  // The statistics table

  /** `statistics` maps a distribution name to its test result (statistic, p-value). */
  type Statistics = Dict<string, (real, real)>

  const StatsColumns: seq<string> := ["p-value", "statistic"]

  function StatsHeader(): string
  {
    " Distribution &  " + Join(Titles(StatsColumns), " & ") + "\\\\"
  }

  /** The line for one entry: the p-value first, then the statistic. */
  function StatsLine(name: string, result: (real, real), fmt: real -> string): string
  {
    Title(name) + " & " + fmt(result.1) + " & " + fmt(result.0) + " \\\\"
  }

  function StatsLines(statistics: Statistics, fmt: real -> string): (r: seq<string>)
    ensures |r| == |statistics|
    ensures forall i :: 0 <= i < |statistics| ==> r[i] == StatsLine(statistics[i].0, statistics[i].1, fmt)
  {
    seq(|statistics|, i requires 0 <= i < |statistics| => StatsLine(statistics[i].0, statistics[i].1, fmt))
  }

  function StatsTable(statistics: Statistics, fmt: real -> string): string
  {
    var lines := StatsLines(statistics, fmt);
    Document(TabularSpec(|StatsColumns|), StatsHeader(), Data(lines, |lines|))
  }

  /** The text `make_stats_table` writes, built line by line in insertion order. */
  method MakeStatsTable(statistics: Statistics, fmt: real -> string) returns (text: string)
    ensures text == StatsTable(statistics, fmt)
  {
    var headers := StatsColumns;
    var textabular := TabularSpec(|headers|);
    var textheader := " Distribution &  " + Join(Titles(headers), " & ") + "\\\\";
    var textdata := "\\midrule\n";
    ghost var lines := StatsLines(statistics, fmt);
    for i := 0 to |statistics|
      invariant textdata == Data(lines, i)
    {
      var (name, result) := statistics[i];
      var (stat, pValue) := result;
      var line := Title(name) + " & " + fmt(pValue) + " & " + fmt(stat) + " \\\\";
      textdata := textdata + (line + "\n");
    }
    text := "\\begin{tabular}{" + textabular + "}\n" + "\\toprule" + textheader + "\n"
      + textdata + "\\bottomrule\n" + "\\end{tabular}";
  }

  // ---------------------------------------------------------------------------
  // The metrics table

  /** The (name, metrics) pairs `make_metrics_table` reads from the ran models. */
  function MetricsOf(allModels: Dict<string, Model>): (r: Dict<string, Dict<string, real>>)
    reads set i | 0 <= i < |allModels| :: allModels[i].1
    ensures |r| == |allModels|
    ensures forall i :: 0 <= i < |allModels| ==> r[i] == (allModels[i].0, allModels[i].1.metrics)
  {
    seq(|allModels|, i requires 0 <= i < |allModels|
      reads set j | 0 <= j < |allModels| :: allModels[j].1 => (allModels[i].0, allModels[i].1.metrics))
  }

  /** The header line with the bold upper-cased metric names. */
  function MetricsHeader(keys: seq<string>): string
  {
    " Model &  " + Join(Headers(keys), " & ") + "\\\\"
  }

  /** The header line as the source builds it: the bold headers are title-cased once more. */
  function MetricsHeaderAsWritten(keys: seq<string>): string
  {
    " Model &  " + Join(Titles(Headers(keys)), " & ") + "\\\\"
  }

  /** The line for one model: its formatted name, then every metric value in order. */
  function MetricsLine(name: string, metrics: Dict<string, real>, fmt: real -> string): string
  {
    FormatName(name) + " & " + Join(Formatted(Values(metrics), fmt), " & ") + " \\\\"
  }

  function MetricsLines(tables: Dict<string, Dict<string, real>>, fmt: real -> string): (r: seq<string>)
    ensures |r| == |tables|
    ensures forall i :: 0 <= i < |tables| ==> r[i] == MetricsLine(tables[i].0, tables[i].1, fmt)
  {
    seq(|tables|, i requires 0 <= i < |tables| => MetricsLine(tables[i].0, tables[i].1, fmt))
  }

  /** The metrics table: headers from the first model's metric names; an empty
      collection of models has no first model. */
  function MetricsTable(tables: Dict<string, Dict<string, real>>, fmt: real -> string): (r: Tables.Result<string>)
    ensures r.Err? <==> |tables| == 0
    ensures r.Err? ==> r.error == Tables.IndexError
  {
    if |tables| == 0 then Tables.Err(Tables.IndexError)
    else
      var keys := Keys(tables[0].1);
      var lines := MetricsLines(tables, fmt);
      Tables.Ok(Document(TabularSpec(|keys|), MetricsHeader(keys), Data(lines, |lines|)))
  }

  /** The text `make_metrics_table` writes, built line by line in insertion order,
      with the header cells left as `format_header` makes them. */
  method MakeMetricsTable(allModels: Dict<string, Model>, fmt: real -> string) returns (r: Tables.Result<string>)
    ensures r == MetricsTable(MetricsOf(allModels), fmt)
  {
    if |allModels| == 0 {
      return Tables.Err(Tables.IndexError);
    }
    var headers := Headers(Keys(allModels[0].1.metrics));
    var textabular := TabularSpec(|headers|);
    var textheader := " Model &  " + Join(headers, " & ") + "\\\\";
    var textdata := "\\midrule\n";
    ghost var lines := MetricsLines(MetricsOf(allModels), fmt);
    for i := 0 to |allModels|
      invariant textdata == Data(lines, i)
    {
      var (name, model) := allModels[i];
      var metrics := model.metrics;
      var line := FormatName(name) + " & " + Join(Formatted(Values(metrics), fmt), " & ") + " \\\\";
      textdata := textdata + (line + "\n");
    }
    var text := "\\begin{tabular}{" + textabular + "}\n" + "\\toprule" + textheader + "\n"
      + textdata + "\\bottomrule\n" + "\\end{tabular}";
    return Tables.Ok(text);
  }

  // ---------------------------------------------------------------------------
  // Names and headers

  /** A formatted name is the name with every underscore turned into a space,
      title-cased: same length, no underscore left. */
  lemma FormatNameSpaces(name: string)
    ensures FormatName(name) == Title(ReplaceChar(name, '_', ' '))
    ensures |FormatName(name)| == |name|
    ensures '_' !in FormatName(name)
  {
    TitleJoin(Split(name, '_'), ' ');
    JoinSplitReplace(name, '_', ' ');
    TitleKeepsUncased(ReplaceChar(name, '_', ' '), false, '_');
  }

  /** Formatting a name neither adds nor drops an uncased character other than `_` and ` `. */
  lemma FormatNameKeeps(name: string, c: char)
    requires !IsCased(c) && c != '_' && c != ' '
    ensures c in FormatName(name) <==> c in name
  {
    FormatNameSpaces(name);
    TitleKeepsUncased(ReplaceChar(name, '_', ' '), false, c);
    if c in name {
      var i :| 0 <= i < |name| && name[i] == c;
      assert ReplaceChar(name, '_', ' ')[i] == c;
    }
  }

  /** Two keys get the same header exactly when they agree up to case. */
  lemma FormatHeaderCase(a: string, b: string)
    ensures FormatHeader(a) == FormatHeader(b) <==> Upper(a) == Upper(b)
  {
    if FormatHeader(a) == FormatHeader(b) {
      var n := |FormatHeader(a)|;
      assert Upper(a) == FormatHeader(a)[8..n - 1];
      assert Upper(b) == FormatHeader(b)[8..n - 1];
    }
  }

  /** Every metric name appears in the header upper-cased inside `\textbf{...}`. */
  lemma MetricsHeaderBold(keys: seq<string>, i: int)
    requires 0 <= i < |keys|
    ensures Contains(MetricsHeader(keys), "\\textbf{" + Upper(keys[i]) + "}")
  {
    var p, q := JoinHas(Headers(keys), " & ", i);
    assert MetricsHeader(keys) == (" Model &  " + p) + FormatHeader(keys[i]) + (q + "\\\\");
    ContainsMiddle(" Model &  " + p, FormatHeader(keys[i]), q + "\\\\");
  }

  /** Each piece of a join stands between some prefix and suffix of it. */
  lemma {:induction false} JoinHas(pieces: seq<string>, sep: string, i: int) returns (p: string, q: string)
    requires 0 <= i < |pieces|
    ensures Join(pieces, sep) == p + pieces[i] + q
  {
    if |pieces| == 1 {
      p, q := "", "";
    } else if i == 0 {
      p, q := "", sep + Join(pieces[1..], sep);
    } else {
      var p', q' := JoinHas(pieces[1..], sep, i - 1);
      p, q := pieces[0] + sep + p', q';
    }
  }

  lemma {:induction false} ContainsMiddle(a: string, x: string, b: string)
    ensures Contains(a + x + b, x)
  {
    if a == [] {
      assert a + x + b == x + b;
      assert (x + b)[..|x|] == x;
    } else {
      assert (a + x + b)[1..] == a[1..] + x + b;
      ContainsMiddle(a[1..], x, b);
    }
  }

  lemma TextbfTitled()
    ensures TitleAfter("\\textbf{", false) == "\\Textbf{"
  {
    TitleAt("\\textbf{", false, 0);
    TitleAt("\\textbf{", false, 1);
    TitleAt("\\textbf{", false, 2);
    TitleAt("\\textbf{", false, 3);
    TitleAt("\\textbf{", false, 4);
    TitleAt("\\textbf{", false, 5);
    TitleAt("\\textbf{", false, 6);
    TitleAt("\\textbf{", false, 7);
  }

  /** As written, the header's bold command is title-cased into `\Textbf{`, for every
      metric name: LaTeX has no such command. */
  lemma HeaderTitleBreaks(key: string)
    ensures FormatHeader(key)[..8] == "\\textbf{"
    ensures Title(FormatHeader(key))[..8] == "\\Textbf{"
  {
    var rest := Upper(key) + "}";
    assert FormatHeader(key) == "\\textbf{" + rest;
    TitleAfterAppend("\\textbf{", rest, false);
    TextbfTitled();
  }

  /** As written, every metric name's cell in the header is a `\Textbf{...}` command. */
  lemma AsWrittenHeaderBroken(keys: seq<string>, i: int)
    requires 0 <= i < |keys|
    ensures var cell := Title(FormatHeader(keys[i]));
      Contains(MetricsHeaderAsWritten(keys), cell) && cell[..8] == "\\Textbf{"
  {
    var cells := Titles(Headers(keys));
    var p, q := JoinHas(cells, " & ", i);
    assert MetricsHeaderAsWritten(keys) == (" Model &  " + p) + cells[i] + (q + "\\\\");
    ContainsMiddle(" Model &  " + p, cells[i], q + "\\\\");
    HeaderTitleBreaks(keys[i]);
  }

  // ---------------------------------------------------------------------------
  // One line per entry

  lemma MidruleLine()
    ensures Count(Data([], 0), '\n') == 1
  {
    assert "\\midrule\n" == "\\midrule" + "\n";
    CountNone("\\midrule", '\n');
    CountAppend("\\midrule", "\n", '\n');
  }

  lemma DataStep(lines: seq<string>, n: nat)
    requires 0 < n <= |lines| && '\n' !in lines[n - 1]
    ensures Count(Data(lines, n), '\n') == Count(Data(lines, n - 1), '\n') + 1
  {
    CountAppend(Data(lines, n - 1), lines[n - 1] + "\n", '\n');
    CountAppend(lines[n - 1], "\n", '\n');
    CountNone(lines[n - 1], '\n');
  }

  /** Each added line ends in exactly one newline of its own. */
  lemma {:induction false} DataNewlines(lines: seq<string>, n: nat)
    requires n <= |lines|
    requires forall i :: 0 <= i < |lines| ==> '\n' !in lines[i]
    ensures Count(Data(lines, n), '\n') == n + 1
  {
    if n == 0 {
      MidruleLine();
    } else {
      DataNewlines(lines, n - 1);
      DataStep(lines, n);
    }
  }

  lemma FrameCounts()
    ensures Count("\\begin{tabular}{", '\n') == 0 && Count("}\n", '\n') == 1
    ensures Count("\\toprule", '\n') == 0 && Count("\n", '\n') == 1
    ensures Count("\\end{tabular}", '\n') == 0
  {
    CountNone("\\begin{tabular}{", '\n');
    CountNone("\\toprule", '\n');
    CountNone("\\end{tabular}", '\n');
  }

  lemma BottomruleCount()
    ensures Count("\\bottomrule\n", '\n') == 1
  {
    assert "\\bottomrule\n" == "\\bottomrule" + "\n";
    CountNone("\\bottomrule", '\n');
    CountAppend("\\bottomrule", "\n", '\n');
  }

  /** The opening and header lines hold two newlines. */
  lemma OpeningNewlines(tabular: string, header: string)
    requires '\n' !in tabular && '\n' !in header
    ensures Count("\\begin{tabular}{" + tabular + "}\n" + "\\toprule" + header + "\n", '\n') == 2
  {
    var a, c, d, f := "\\begin{tabular}{", "}\n", "\\toprule", "\n";
    FrameCounts();
    CountNone(tabular, '\n');
    CountNone(header, '\n');
    CountAppend(a, tabular, '\n');
    CountAppend(a + tabular, c, '\n');
    CountAppend(a + tabular + c, d, '\n');
    CountAppend(a + tabular + c + d, header, '\n');
    CountAppend(a + tabular + c + d + header, f, '\n');
  }

  lemma DocumentNewlines(tabular: string, header: string, data: string)
    requires '\n' !in tabular && '\n' !in header
    ensures Count(Document(tabular, header, data), '\n') == Count(data, '\n') + 3
  {
    var opening := "\\begin{tabular}{" + tabular + "}\n" + "\\toprule" + header + "\n";
    OpeningNewlines(tabular, header);
    FrameCounts();
    BottomruleCount();
    CountAppend(opening, data, '\n');
    CountAppend(opening + data, "\\bottomrule\n", '\n');
    CountAppend(opening + data + "\\bottomrule\n", "\\end{tabular}", '\n');
  }

  /** A table with `n` lines of data has `n + 4` newlines: one line per entry between
      the fixed opening three and the closing two. */
  lemma TableNewlines(tabular: string, header: string, lines: seq<string>)
    requires '\n' !in tabular && '\n' !in header
    requires forall i :: 0 <= i < |lines| ==> '\n' !in lines[i]
    ensures Count(Document(tabular, header, Data(lines, |lines|)), '\n') == |lines| + 4
  {
    DataNewlines(lines, |lines|);
    DocumentNewlines(tabular, header, Data(lines, |lines|));
  }

  lemma {:induction false} JoinNoChar(pieces: seq<string>, sep: string, c: char)
    requires c !in sep && forall i :: 0 <= i < |pieces| ==> c !in pieces[i]
    ensures c !in Join(pieces, sep)
  {
    if |pieces| > 1 {
      JoinNoChar(pieces[1..], sep, c);
    }
  }

  /** Title-casing pieces that lack an uncased character leaves them without it. */
  lemma TitlesFree(pieces: seq<string>, c: char)
    requires !IsCased(c) && forall i :: 0 <= i < |pieces| ==> c !in pieces[i]
    ensures forall i :: 0 <= i < |Titles(pieces)| ==> c !in Titles(pieces)[i]
  {
    forall i | 0 <= i < |pieces| ensures c !in Titles(pieces)[i] {
      TitleKeepsUncased(pieces[i], false, c);
    }
  }

  lemma StatsHeaderFree()
    ensures '\n' !in Join(Titles(StatsColumns), " & ")
  {
    TitlesFree(StatsColumns, '\n');
    JoinNoChar(Titles(StatsColumns), " & ", '\n');
  }

  /** One line per distribution, when names and numbers hold no newline. */
  lemma StatsTableLines(statistics: Statistics, fmt: real -> string)
    requires forall i :: 0 <= i < |statistics| ==> '\n' !in statistics[i].0
    requires forall x :: '\n' !in fmt(x)
    ensures Count(StatsTable(statistics, fmt), '\n') == |statistics| + 4
  {
    var lines := StatsLines(statistics, fmt);
    forall i | 0 <= i < |lines| ensures '\n' !in lines[i] {
      var name, stat, pValue := statistics[i].0, statistics[i].1.0, statistics[i].1.1;
      assert lines[i] == Title(name) + " & " + fmt(pValue) + " & " + fmt(stat) + " \\\\";
      assert '\n' !in fmt(pValue) && '\n' !in fmt(stat);
      TitleKeepsUncased(name, false, '\n');
    }
    StatsHeaderFree();
    TableNewlines(TabularSpec(2), StatsHeader(), lines);
  }

  /** One line per model, when names, metric names and numbers hold no newline. */
  lemma MetricsTableLines(tables: Dict<string, Dict<string, real>>, fmt: real -> string)
    requires |tables| > 0
    requires forall i :: 0 <= i < |tables| ==> '\n' !in tables[i].0
    requires forall i :: 0 <= i < |tables[0].1| ==> '\n' !in tables[0].1[i].0
    requires forall x :: '\n' !in fmt(x)
    ensures MetricsTable(tables, fmt).Ok?
    ensures Count(MetricsTable(tables, fmt).value, '\n') == |tables| + 4
  {
    var keys := Keys(tables[0].1);
    var headers := Headers(keys);
    forall i | 0 <= i < |headers| ensures '\n' !in headers[i] {
      UpperKeepsUncased(keys[i], '\n');
    }
    JoinNoChar(headers, " & ", '\n');
    var lines := MetricsLines(tables, fmt);
    forall i | 0 <= i < |lines| ensures '\n' !in lines[i] {
      FormatNameKeeps(tables[i].0, '\n');
      var cells := Formatted(Values(tables[i].1), fmt);
      forall k | 0 <= k < |cells| ensures '\n' !in cells[k] {
        var v := Values(tables[i].1)[k];
        assert '\n' !in fmt(v);
      }
      JoinNoChar(cells, " & ", '\n');
    }
    TableNewlines(TabularSpec(|keys|), MetricsHeader(keys), lines);
  }

  // ---------------------------------------------------------------------------
  // Columns

  lemma SeparatorCount()
    ensures Count(" & ", '&') == 1
  {
    assert " & " == " &" + " ";
    CountAppend(" &", " ", '&');
    assert " &"[..1] == " ";
  }

  lemma ModelCellCount()
    ensures Count(" Model &  ", '&') == 1
  {
    var a := " Model " + "&";
    assert " Model &  " == a + "  ";
    CountNone(" Model ", '&');
    CountNone("  ", '&');
    assert Count("&", '&') == 1;
    CountAppend(" Model ", "&", '&');
    CountAppend(a, "  ", '&');
  }

  lemma LiteralCounts()
    ensures Count(" Model &  ", '&') == 1
    ensures Count("\\\\", '&') == 0 && Count(" \\\\", '&') == 0
  {
    ModelCellCount();
    CountNone("\\\\", '&');
    CountNone(" \\\\", '&');
  }

  lemma JoinStep(cells: seq<string>)
    requires |cells| > 1
    ensures Count(Join(cells, " & "), '&') == Count(cells[0], '&') + 1 + Count(Join(cells[1..], " & "), '&')
  {
    SeparatorCount();
    assert Join(cells, " & ") == cells[0] + " & " + Join(cells[1..], " & ");
    CountAppend(cells[0], " & ", '&');
    CountAppend(cells[0] + " & ", Join(cells[1..], " & "), '&');
  }

  /** Joining `&`-free cells with " & " puts one separator between each two. */
  lemma {:induction false} JoinColumns(cells: seq<string>)
    requires forall i :: 0 <= i < |cells| ==> '&' !in cells[i]
    ensures Count(Join(cells, " & "), '&') == if cells == [] then 0 else |cells| - 1
  {
    if |cells| > 1 {
      JoinColumns(cells[1..]);
      JoinStep(cells);
      CountNone(cells[0], '&');
    } else if |cells| == 1 {
      CountNone(cells[0], '&');
    }
  }

  /** The header has one separator after "Model" and one between each two metric names. */
  lemma MetricsHeaderColumns(keys: seq<string>)
    requires forall i :: 0 <= i < |keys| ==> '&' !in keys[i]
    ensures Count(MetricsHeader(keys), '&') == if keys == [] then 1 else |keys|
  {
    var headers := Headers(keys);
    forall i | 0 <= i < |headers| ensures '&' !in headers[i] {
      UpperKeepsUncased(keys[i], '&');
    }
    JoinColumns(headers);
    LiteralCounts();
    var j := Join(headers, " & ");
    CountAppend(" Model &  ", j, '&');
    CountAppend(" Model &  " + j, "\\\\", '&');
  }

  /** A model's line has one separator after its name and one between each two values. */
  lemma MetricsLineColumns(name: string, metrics: Dict<string, real>, fmt: real -> string)
    requires '&' !in name && forall x :: '&' !in fmt(x)
    ensures Count(MetricsLine(name, metrics, fmt), '&') == if metrics == [] then 1 else |metrics|
  {
    var cells := Formatted(Values(metrics), fmt);
    forall k | 0 <= k < |cells| ensures '&' !in cells[k] {
      var v := Values(metrics)[k];
      assert '&' !in fmt(v);
    }
    JoinColumns(cells);
    LiteralCounts();
    FormatNameKeeps(name, '&');
    CountNone(FormatName(name), '&');
    var j := Join(cells, " & ");
    CountAppend(FormatName(name), " & ", '&');
    CountAppend(FormatName(name) + " & ", j, '&');
    CountAppend(FormatName(name) + " & " + j, " \\\\", '&');
  }

  /** Every model's line has as many columns as the header whenever each model has
      as many metrics as the first, and no name, metric name or number holds `&`. */
  lemma MetricsColumnsAlign(tables: Dict<string, Dict<string, real>>, fmt: real -> string, i: int)
    requires 0 <= i < |tables| && |tables[i].1| == |tables[0].1|
    requires forall k :: 0 <= k < |tables[0].1| ==> '&' !in tables[0].1[k].0
    requires '&' !in tables[i].0 && forall x :: '&' !in fmt(x)
    ensures Count(MetricsHeader(Keys(tables[0].1)), '&') == Count(MetricsLines(tables, fmt)[i], '&')
  {
    MetricsHeaderColumns(Keys(tables[0].1));
    MetricsLineColumns(tables[i].0, tables[i].1, fmt);
  }

  /** Three `&`-free cells joined by `&` split back into the same three cells. */
  lemma CellsSplit3(c0: string, c1: string, c2: string)
    requires '&' !in c0 && '&' !in c1 && '&' !in c2
    ensures Split(c0 + "&" + (c1 + "&" + c2), '&') == [c0, c1, c2]
  {
    SplitAppend(c0, c1 + "&" + c2, '&');
    SplitAppend(c1, c2, '&');
    SplitNone(c0, '&');
    SplitNone(c1, '&');
    SplitNone(c2, '&');
  }

  lemma DistributionCell()
    ensures '&' !in " Distribution " && " Distribution &  " == " Distribution " + "&" + "  "
  {
  }

  lemma StatsTitlesFree()
    ensures '&' !in Titles(StatsColumns)[0] && '&' !in Titles(StatsColumns)[1]
  {
    TitlesFree(StatsColumns, '&');
  }

  /** The statistics header around any two column titles, cut at its two `&`. */
  lemma DistributionHeader(a: string, b: string)
    ensures " Distribution &  " + Join([a, b], " & ") + "\\\\" ==
      " Distribution " + "&" + (("  " + a + " ") + "&" + (" " + b + "\\\\"))
  {
    assert [a, b][1..] == [b];
    DistributionCell();
  }

  lemma StatsHeaderShape()
    ensures var t := Titles(StatsColumns);
      StatsHeader() == " Distribution " + "&" + (("  " + t[0] + " ") + "&" + (" " + t[1] + "\\\\"))
  {
    var t := Titles(StatsColumns);
    assert t == [t[0], t[1]];
    DistributionHeader(t[0], t[1]);
  }

  lemma StatsHeaderCells()
    ensures Split(StatsHeader(), '&') ==
      [" Distribution ", "  " + Titles(StatsColumns)[0] + " ", " " + Titles(StatsColumns)[1] + "\\\\"]
  {
    var t := Titles(StatsColumns);
    StatsTitlesFree();
    StatsHeaderShape();
    DistributionCell();
    CellsSplit3(" Distribution ", "  " + t[0] + " ", " " + t[1] + "\\\\");
  }

  /** The p-value sits under the "P-Value" header and the statistic under "Statistic",
      although each entry stores the statistic first: the line's `&`-separated cells
      line up with the header's. */
  lemma StatsLineCells(name: string, result: (real, real), fmt: real -> string)
    requires '&' !in name && '&' !in fmt(result.0) && '&' !in fmt(result.1)
    ensures Split(StatsLine(name, result, fmt), '&') ==
      [Title(name) + " ", " " + fmt(result.1) + " ", " " + fmt(result.0) + " \\\\"]
  {
    TitleKeepsUncased(name, false, '&');
    var c0, c1, c2 := Title(name) + " ", " " + fmt(result.1) + " ", " " + fmt(result.0) + " \\\\";
    assert StatsLine(name, result, fmt) == c0 + "&" + (c1 + "&" + c2);
    CellsSplit3(c0, c1, c2);
  }

}
