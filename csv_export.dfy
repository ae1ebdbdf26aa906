/** CSV export of the pages' records: a header of the first record's keys,
    then one line per record, fields joined by ',' and lines by '\n'. A
    string field holding ',' or '"' is quoted with its quotes doubled
    (rules 6 and 7 of section 2 of RFC 4180); a field holding a line break
    is not quoted, unlike what rule 6 asks. */
module CsvExport {
  import opened Js
  import opened Meals
  import Queries

  /** A record value: a string, or any other value as `Array.join`
      renders it (`null` and `undefined` render as the empty string). */
  datatype Value = Str(s: string) | Other(rendered: string)

  /** An object: its keys and values in insertion order. */
  type Record = seq<(string, Value)>

  /** `xs.join(sep)`. */
  function Join(xs: seq<string>, sep: string): string
  {
    if xs == [] then ""
    else if |xs| == 1 then xs[0]
    else xs[0] + sep + Join(xs[1..], sep)
  }

  predicate NeedsQuotes(s: string)
  {
    ',' in s || '"' in s
  }

  /** `val.replace(/"/g, '""')`. */
  function DoubleQuotes(s: string): (r: string)
    ensures |r| >= |s|
    ensures forall c :: c in r <==> c in s
  {
    if s == [] then ""
    else (if s[0] == '"' then "\"\"" else [s[0]]) + DoubleQuotes(s[1..])
  }

  /** One field of a row. */
  function Field(v: Value): (r: string)
    ensures v.Str? && NeedsQuotes(v.s) ==> r == "\"" + DoubleQuotes(v.s) + "\""
    ensures v.Str? && !NeedsQuotes(v.s) ==> r == v.s
    ensures v.Other? ==> r == v.rendered
  {
    match v
    case Str(s) => if NeedsQuotes(s) then "\"" + DoubleQuotes(s) + "\"" else s
    case Other(rendered) => rendered
  }

  /** The text a value stands for. */
  function Text(v: Value): string
  {
    match v
    case Str(s) => s
    case Other(rendered) => rendered
  }

  /** A field never gains a line break: a line break in the output comes
      from a value that already had one. */
  lemma FieldNewlines(v: Value)
    ensures '\n' in Field(v) <==> '\n' in Text(v)
  {
  }

  /** A string with a line break but no ',' or '"' is emitted as is,
      not quoted. */
  lemma NewlineNotQuoted(s: string)
    requires '\n' in s && ',' !in s && '"' !in s
    ensures Field(Str(s)) == s
  {
  }

  function Keys(rec: Record): (r: seq<string>)
    ensures |r| == |rec| && forall k :: 0 <= k < |rec| ==> r[k] == rec[k].0
  {
    seq(|rec|, k requires 0 <= k < |rec| => rec[k].0)
  }

  function Fields(rec: Record): (r: seq<string>)
    ensures |r| == |rec| && forall k :: 0 <= k < |rec| ==> r[k] == Field(rec[k].1)
  {
    seq(|rec|, k requires 0 <= k < |rec| => Field(rec[k].1))
  }

  function Header(rec: Record): string
  {
    Join(Keys(rec), ",")
  }

  function Row(rec: Record): string
  {
    Join(Fields(rec), ",")
  }

  /** The header line, then one line per record in input order. */
  function Lines(data: seq<Record>): (r: seq<string>)
    requires |data| > 0
    ensures |r| == |data| + 1 && r[0] == Header(data[0])
    ensures forall k :: 0 <= k < |data| ==> r[k + 1] == Row(data[k])
  {
    [Header(data[0])] + seq(|data|, k requires 0 <= k < |data| => Row(data[k]))
  }

  /** `exportToCSV(data)` up to the download: fails when `data` is
      missing or empty, otherwise gives the lines joined by '\n'. */
  function ExportToCSV(data: Option<seq<Record>>): (r: Result<string>)
    ensures r.Err? <==> data.None? || |data.value| == 0
    ensures r.Err? ==> r.error == "Nenhum dado para exportar"
    ensures r.Ok? ==> r.value == Join(Lines(data.value), "\n")
  {
    if data.None? || |data.value| == 0 then Err("Nenhum dado para exportar")
    else Ok(Join(Lines(data.value), "\n"))
  }

  // ------------------------------------------------------ reading it back

  /** Reads a quoted field after its opening quote: `""` stands for '"',
      and a lone '"' closes the field; gives the content and what follows. */
  function Unquote(s: string): (r: Option<(string, string)>)
    ensures r.Some? ==> |r.value.1| < |s|
    decreases |s|
  {
    if s == [] then None
    else if s[0] == '"' then
      if |s| >= 2 && s[1] == '"' then
        match Unquote(s[2..])
        case None => None
        case Some(p) => Some(("\"" + p.0, p.1))
      else Some(("", s[1..]))
    else
      match Unquote(s[1..])
      case None => None
      case Some(p) => Some(([s[0]] + p.0, p.1))
  }

  /** Un-escaping a quoted field gives back the original string. */
  lemma {:induction false} UnquoteEscaped(x: string, rest: string)
    requires rest == [] || rest[0] != '"'
    ensures Unquote(DoubleQuotes(x) + "\"" + rest) == Some((x, rest))
  {
    if x != [] {
      UnquoteEscaped(x[1..], rest);
      EscapedCons(x, rest);
      UnquoteStep(x[0], DoubleQuotes(x[1..]) + "\"" + rest, x[1..], rest);
      assert [x[0]] + x[1..] == x;
    } else {
      var w := DoubleQuotes(x) + "\"" + rest;
      assert w == "\"" + rest;
      assert w[0] == '"' && w[1..] == rest;
    }
  }

  /** The first character of an escaped field before `DoubleQuotes(x)` of the rest. */
  lemma EscapedCons(x: string, rest: string)
    requires x != []
    ensures DoubleQuotes(x) + "\"" + rest == Escape(x[0]) + (DoubleQuotes(x[1..]) + "\"" + rest)
  {
  }

  /** How `DoubleQuotes` writes one character. */
  function Escape(c: char): string
  {
    if c == '"' then "\"\"" else [c]
  }

  /** Reading an escaped character then `tail` reads the character then
      what `tail` reads. */
  lemma UnquoteStep(c: char, tail: string, xs: string, rest: string)
    requires Unquote(tail) == Some((xs, rest))
    ensures Unquote(Escape(c) + tail) == Some(([c] + xs, rest))
  {
    var w := Escape(c) + tail;
    if c == '"' {
      assert w[0] == '"' && w[1] == '"' && w[2..] == tail;
    } else {
      assert w[0] == c && w[1..] == tail;
    }
  }

  /** A quoted field on its own: dropping the outer quotes and collapsing
      `""` gives back the string. */
  lemma UnescapeField(s: string)
    requires NeedsQuotes(s)
    ensures Field(Str(s))[0] == '"'
    ensures Unquote(Field(Str(s))[1..]) == Some((s, ""))
  {
    var inner := DoubleQuotes(s) + "\"" + "";
    UnquoteEscaped(s, "");
    assert Field(Str(s)) == "\"" + inner by {
      Queries.ConcatAssoc("\"", DoubleQuotes(s), "\"");
      assert DoubleQuotes(s) + "\"" + "" == DoubleQuotes(s) + "\"";
    }
    assert ("\"" + inner)[1..] == inner;
  }

  /** The text up to the first ',' and what follows from it. */
  function UntilComma(s: string): (r: (string, string))
    ensures r.0 + r.1 == s && ',' !in r.0 && (r.1 == [] || r.1[0] == ',')
  {
    if s == [] then ("", "")
    else if s[0] == ',' then ("", s)
    else var p := UntilComma(s[1..]); ([s[0]] + p.0, p.1)
  }

  lemma {:induction false} UntilCommaSplits(f: string, rest: string)
    requires ',' !in f && (rest == [] || rest[0] == ',')
    ensures UntilComma(f + rest) == (f, rest)
  {
    if f != [] {
      assert (f + rest)[0] == f[0] && (f + rest)[1..] == f[1..] + rest;
      UntilCommaSplits(f[1..], rest);
      assert [f[0]] + f[1..] == f;
    } else {
      assert f + rest == rest;
    }
  }

  /** Splits one row into its fields' texts, reading quoted fields per
      rule 7 of section 2 of RFC 4180. */
  function ParseFields(s: string): Option<seq<string>>
    decreases |s|, 1
  {
    if |s| > 0 && s[0] == '"' then
      match Unquote(s[1..])
      case None => None
      case Some(p) => if p.1 == [] || p.1[0] == ',' then FieldThen(p.0, p.1) else None
    else
      var p := UntilComma(s);
      FieldThen(p.0, p.1)
  }

  /** A field read, followed by the end of the row or by ',' and more fields. */
  function FieldThen(x: string, rest: string): Option<seq<string>>
    decreases |rest|, 0
  {
    if rest == [] then Some([x])
    else
      match ParseFields(rest[1..])
      case None => None
      case Some(more) => Some([x] + more)
  }

  /** A value that reads back as its text. Strings always do; a non-string
      value is emitted unquoted, so its rendering must hold no ',' or '"'. */
  predicate Readable(v: Value)
  {
    v.Other? ==> ',' !in v.rendered && '"' !in v.rendered && (v.rendered == [] || v.rendered[0] != '"')
  }

  function Texts(rec: Record): (r: seq<string>)
    ensures |r| == |rec| && forall k :: 0 <= k < |rec| ==> r[k] == Text(rec[k].1)
  {
    seq(|rec|, k requires 0 <= k < |rec| => Text(rec[k].1))
  }

  /** One field followed by the rest of a row reads back as that value. */
  lemma ParseFirstField(v: Value, rest: string)
    requires Readable(v) && (rest == [] || rest[0] == ',')
    ensures ParseFields(Field(v) + rest) == FieldThen(Text(v), rest)
  {
    if v.Str? && NeedsQuotes(v.s) {
      ParseQuotedField(v.s, rest);
    } else {
      ParsePlainField(Field(v), rest);
    }
  }

  lemma ParseQuotedField(x: string, rest: string)
    requires rest == [] || rest[0] == ','
    ensures ParseFields("\"" + DoubleQuotes(x) + "\"" + rest) == FieldThen(x, rest)
  {
    var inner := DoubleQuotes(x) + "\"" + rest;
    var s := "\"" + DoubleQuotes(x) + "\"" + rest;
    UnquoteEscaped(x, rest);
    assert s == "\"" + inner;
    assert s[0] == '"' && s[1..] == inner;
  }

  lemma ParsePlainField(f: string, rest: string)
    requires ',' !in f && (f == [] || f[0] != '"') && (rest == [] || rest[0] == ',')
    ensures ParseFields(f + rest) == FieldThen(f, rest)
  {
    UntilCommaSplits(f, rest);
    if f != [] {
      assert (f + rest)[0] == f[0];
    } else {
      assert f + rest == rest;
    }
  }

  lemma RowCons(rec: Record)
    requires |rec| > 1
    ensures Row(rec) == Field(rec[0].1) + ("," + Row(rec[1..]))
  {
    assert Fields(rec)[1..] == Fields(rec[1..]);
    assert Join(Fields(rec), ",") == Fields(rec)[0] + "," + Join(Fields(rec)[1..], ",");
  }

  lemma TextsCons(rec: Record)
    requires |rec| > 0
    ensures Texts(rec) == [Text(rec[0].1)] + Texts(rec[1..])
  {
  }

  /** Every row reads back as the texts of its values, whatever commas and
      quotes the strings hold. */
  lemma {:induction false} RowRoundTrip(rec: Record)
    requires |rec| > 0
    requires forall k :: 0 <= k < |rec| ==> Readable(rec[k].1)
    ensures ParseFields(Row(rec)) == Some(Texts(rec))
  {
    TextsCons(rec);
    if |rec| == 1 {
      ParseFirstField(rec[0].1, "");
      assert Row(rec) == Fields(rec)[0] == Field(rec[0].1) + "";
      assert Texts(rec[1..]) == [];
      assert FieldThen(Text(rec[0].1), "") == Some([Text(rec[0].1)]);
      assert ParseFields(Field(rec[0].1) + "") == Some([Text(rec[0].1)]);
      assert ParseFields(Row(rec)) == Some([Text(rec[0].1)]);
      assert Texts(rec) == [Text(rec[0].1)];
    } else {
      var tail := Row(rec[1..]);
      RowRoundTrip(rec[1..]);
      RowCons(rec);
      ParseFirstField(rec[0].1, "," + tail);
      assert ("," + tail)[1..] == tail;
    }
  }

  /** `s.split('\n')`. */
  function SplitLines(s: string): (r: seq<string>)
    ensures |r| > 0
  {
    if s == [] then [""]
    else
      var more := SplitLines(s[1..]);
      if s[0] == '\n' then [""] + more
      else [[s[0]] + more[0]] + more[1..]
  }

  lemma {:induction false} SplitLine(line: string, rest: string)
    requires '\n' !in line
    ensures SplitLines(line + rest) == [line + SplitLines(rest)[0]] + SplitLines(rest)[1..]
  {
    var r := SplitLines(rest);
    if line != [] {
      assert (line + rest)[0] == line[0] && (line + rest)[1..] == line[1..] + rest;
      SplitLine(line[1..], rest);
      var more := SplitLines(line[1..] + rest);
      assert more[0] == line[1..] + r[0] && more[1..] == r[1..];
      assert [line[0]] + (line[1..] + r[0]) == line + r[0];
    } else {
      assert line + rest == rest && line + r[0] == r[0];
      assert [r[0]] + r[1..] == r;
    }
  }

  /** Lines free of line breaks are recovered by splitting the output. */
  lemma {:induction false} SplitJoin(lines: seq<string>)
    requires |lines| > 0
    requires forall k :: 0 <= k < |lines| ==> '\n' !in lines[k]
    ensures SplitLines(Join(lines, "\n")) == lines
  {
    if |lines| == 1 {
      SplitLine(lines[0], "");
      assert lines[0] + "" == lines[0];
    } else {
      var j := Join(lines[1..], "\n");
      SplitJoin(lines[1..]);
      assert Join(lines, "\n") == lines[0] + ("\n" + j);
      SplitLine(lines[0], "\n" + j);
      assert ("\n" + j)[0] == '\n' && ("\n" + j)[1..] == j;
      var r := SplitLines("\n" + j);
      assert r == [""] + lines[1..];
      assert lines[0] + r[0] == lines[0];
      assert [lines[0]] + lines[1..] == lines;
    }
  }

  lemma {:induction false} JoinNoNewline(xs: seq<string>)
    requires forall k :: 0 <= k < |xs| ==> '\n' !in xs[k]
    ensures '\n' !in Join(xs, ",")
  {
    if |xs| > 1 {
      JoinNoNewline(xs[1..]);
    }
  }

  /** Keys and values with no line break in them. */
  predicate SingleLine(rec: Record)
  {
    forall k :: 0 <= k < |rec| ==> '\n' !in rec[k].0 && '\n' !in Text(rec[k].1)
  }

  /** When no key or value holds a line break, splitting the output on
      '\n' gives the header and then each record's row, in input order. */
  lemma ExportSplitsIntoRows(data: seq<Record>)
    requires |data| > 0
    requires forall k :: 0 <= k < |data| ==> SingleLine(data[k])
    ensures ExportToCSV(Some(data)).Ok?
    ensures SplitLines(ExportToCSV(Some(data)).value) == Lines(data)
  {
    var lines := Lines(data);
    JoinNoNewline(Keys(data[0]));
    forall k | 0 <= k < |data|
      ensures '\n' !in Row(data[k])
    {
      forall j | 0 <= j < |data[k]|
        ensures '\n' !in Fields(data[k])[j]
      {
        FieldNewlines(data[k][j].1);
      }
      JoinNoNewline(Fields(data[k]));
    }
    forall k | 0 <= k < |lines|
      ensures '\n' !in lines[k]
    {
      if k > 0 {
        assert lines[k] == Row(data[k - 1]);
      }
    }
    SplitJoin(lines);
  }

  /** A note with a line break splits its record over two lines. */
  lemma NewlineSplitsRecord()
    ensures var data := [[("Notas", Str("a\nb"))]];
      SplitLines(ExportToCSV(Some(data)).value) == ["Notas", "a", "b"]
  {
    var data: seq<Record> := [[("Notas", Str("a\nb"))]];
    assert Fields(data[0]) == ["a\nb"];
    assert Keys(data[0]) == ["Notas"];
    assert Lines(data) == ["Notas", "a\nb"];
    assert ExportToCSV(Some(data)).value == "Notas" + "\n" + "a\nb";
    SplitThreeLines();
  }

  lemma SplitThreeLines()
    ensures SplitLines("Notas" + "\n" + "a\nb") == ["Notas", "a", "b"]
  {
    SplitTwoLines();
    SplitAtNewline("a\nb");
    SplitLine("Notas", "\n" + "a\nb");
    assert "Notas" + "\n" + "a\nb" == "Notas" + ("\n" + "a\nb");
    assert "Notas" + "" == "Notas" && ["", "a", "b"][1..] == ["a", "b"];
  }

  lemma SplitTwoLines()
    ensures SplitLines("a\nb") == ["a", "b"]
  {
    SplitOneLine();
    SplitAtNewline("b");
    SplitLine("a", "\nb");
    assert "a" + "\nb" == "a\nb";
    assert "a" + "" == "a" && ["", "b"][1..] == ["b"];
  }

  lemma SplitOneLine()
    ensures SplitLines("b") == ["b"]
  {
    SplitLine("b", "");
    assert "b" + "" == "b" && [""][1..] == [];
  }

  lemma SplitAtNewline(rest: string)
    ensures SplitLines("\n" + rest) == [""] + SplitLines(rest)
  {
    assert ("\n" + rest)[0] == '\n' && ("\n" + rest)[1..] == rest;
  }

  // ---------------------------------------------------- meals as records

  /** `${i.alimento_nome} (${i.quantidade}${i.unidade})`, with the number
      rendered by `num`. */
  function ItemText(i: Item, num: real -> string): string
  {
    i.alimentoNome + " (" + num(i.quantidade) + i.unidade + ")"
  }

  function ItemsText(itens: seq<Item>, num: real -> string): string
  {
    Join(seq(|itens|, k requires 0 <= k < |itens| => ItemText(itens[k], num)), "; ")
  }

  /** The record `exportRefeicoesToCSV` builds for a meal; dates and
      numbers are rendered by `date` and `num`. */
  function MealRecord(m: Meal, date: int -> string, num: real -> string): (r: Record)
    ensures Keys(r) == MealColumns
    ensures r[2].1 == Other(if RawMealCalories(m).Some? then num(RawMealCalories(m).value) else "NaN")
    ensures r[3].1 == Str(ItemsText(m.itens, num)) && r[4].1 == Str(m.notas)
  {
    var cal := RawMealCalories(m);
    [("Data", Str(date(m.data))),
     ("Tipo", Str(m.tipo)),
     ("Calorias", Other(if cal.Some? then num(cal.value) else "NaN")),
     ("Itens", Str(ItemsText(m.itens, num))),
     ("Notas", Str(m.notas))]
  }

  /** `exportRefeicoesToCSV(refeicoes)` up to the download. */
  function ExportRefeicoes(refeicoes: seq<Meal>, date: int -> string, num: real -> string): (r: Result<string>)
    ensures r.Err? <==> refeicoes == []
    ensures r.Ok? ==> r.value == Join(Lines(seq(|refeicoes|, k requires 0 <= k < |refeicoes| => MealRecord(refeicoes[k], date, num))), "\n")
  {
    ExportToCSV(Some(seq(|refeicoes|, k requires 0 <= k < |refeicoes| => MealRecord(refeicoes[k], date, num))))
  }

  /** The columns of a meal record. */
  const MealColumns: seq<string> := ["Data", "Tipo", "Calorias", "Itens", "Notas"]

  /** The export of any non-empty meal list starts with the fixed header. */
  lemma ExportRefeicoesHeader(refeicoes: seq<Meal>, date: int -> string, num: real -> string)
    requires refeicoes != []
    ensures var data := seq(|refeicoes|, k requires 0 <= k < |refeicoes| => MealRecord(refeicoes[k], date, num));
      Lines(data)[0] == Join(MealColumns, ",")
  {
  }
}
