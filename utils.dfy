/** The presentation helpers of frog-budget/src/utils/index.ts: status and
    progress colour classes, month keys, the chart palette, `cn`, the text of
    a CSV export and the simple CSV reader. */
module Utils {
  import opened Common
  import opened Text
  import opened Calendar
  import opened Records
  import Analytics

  // ---------------------------------------------------------------------
  // Colour classes

  /** `getStatusColor`: the background class of a status badge. */
  function StatusColor(s: Status): string
  {
    match s
    case Ok => "bg-green-500"
    case Warning => "bg-yellow-500"
    case Danger => "bg-orange-500"
    case Overspent => "bg-red-500"
  }

  /** `getStatusTextColor`: the text class, with its dark-mode variant. */
  function StatusTextColor(s: Status): string
  {
    match s
    case Ok => "text-green-600 dark:text-green-400"
    case Warning => "text-yellow-600 dark:text-yellow-400"
    case Danger => "text-orange-600 dark:text-orange-400"
    case Overspent => "text-red-600 dark:text-red-400"
  }

  /** `getProgressBarColor`: the bar's class for a percentage used. */
  function ProgressBarColor(percentage: real): string
  {
    if percentage > 100.0 then "bg-red-500"
    else if percentage > 80.0 then "bg-orange-500"
    else if percentage > 60.0 then "bg-yellow-500"
    else "bg-green-500"
  }

  /** The progress bar cuts where the status tiers cut: its colour is the
      badge colour of the status the same percentage gets. */
  lemma ProgressBarFollowsStatus(percentage: real)
    ensures ProgressBarColor(percentage) == StatusColor(Analytics.StatusOf(percentage))
  {
  }

  /** The last letter of the colour a status is drawn in. */
  function ColourLetter(s: Status): char
  {
    match s
    case Ok => 'n'
    case Warning => 'w'
    case Danger => 'e'
    case Overspent => 'd'
  }

  /** Both classes end with the colour's name and a shade number. */
  lemma ColourNames(s: Status)
    ensures |StatusColor(s)| > 5 && StatusColor(s)[|StatusColor(s)| - 5] == ColourLetter(s)
    ensures |StatusTextColor(s)| > 5 && StatusTextColor(s)[|StatusTextColor(s)| - 5] == ColourLetter(s)
  {
  }

  /** Each status has a badge class and a text class of its own. */
  lemma StatusColorsDistinct(s: Status, t: Status)
    requires s != t
    ensures StatusColor(s) != StatusColor(t)
    ensures StatusTextColor(s) != StatusTextColor(t)
  {
    ColourNames(s);
    ColourNames(t);
  }

  // ---------------------------------------------------------------------
  // Month keys

  /** `getMonthKey(date)`: `YYYY-MM` from the year and the 1-based month. */
  function GetMonthKey(d: Date): string
    requires 1 <= d.month <= 12
  {
    MonthKey(d.year, d.month)
  }

  /** The result of `parseMonthKey`; None stands for NaN or `undefined`. */
  datatype YearMonth = YearMonth(year: Option<int>, month: Option<int>)

  /** `parseMonthKey(key)`: the key split at `-`, the first two parts read
      with `Number`. */
  function ParseMonthKey(key: string): YearMonth
  {
    var parts := Split(key, '-');
    YearMonth(NumberOf(parts[0]), if |parts| > 1 then NumberOf(parts[1]) else None)
  }

  /** A string of digits is left alone by `trim`. */
  lemma DigitsTrimmed(s: string)
    requires AllDigits(s)
    ensures Trim(s) == s
  {
    TrimOfTrimmed(s);
  }

  /** The two-digit month of a month key and its value. */
  lemma PaddedMonth(month: int)
    requires 1 <= month <= 12
    ensures var m := PadStart(NatToString(month), 2, '0');
      AllDigits(m) && m != [] && m[0] != '-' && m[0] != '+' && DigitsValue(m) == month
  {
    var s := NatToString(month);
    DigitsOfNatToString(month);
    if month < 10 {
      assert PadStart(s, 2, '0') == "0" + s;
      LeadingZero(s);
    } else {
      assert |s| == 2;
      assert PadStart(s, 2, '0') == s;
    }
  }

  /** For years from 0 on, reading a month key gives back the year and the
      1-based month it was made from. */
  lemma MonthKeyRoundTrip(d: Date)
    requires d.year >= 0 && 1 <= d.month <= 12
    ensures ParseMonthKey(GetMonthKey(d)) == YearMonth(Some(d.year), Some(d.month))
  {
    var y := NatToString(d.year);
    var m := PadStart(NatToString(d.month), 2, '0');
    PaddedMonth(d.month);
    assert GetMonthKey(d) == y + ['-'] + m;
    assert '-' !in y;
    assert '-' !in m;
    SplitAtSeparator(y, m, '-');
    SplitNoSeparator(m, '-');
    assert Split(GetMonthKey(d), '-') == [y, m];
    DigitsTrimmed(y);
    DigitsTrimmed(m);
    NatToStringRoundTrip(d.month);
  }

  // ---------------------------------------------------------------------
  // Chart palette

  const ChartColors: seq<string> := ["#22c55e", "#8b5cf6", "#f59e0b", "#ec4899", "#06b6d4",
                                     "#84cc16", "#f97316", "#6366f1", "#14b8a6", "#ef4444"]

  /** JavaScript's `i % n`: the remainder takes the sign of the dividend. */
  function JsRemainder(i: int, n: int): (r: int)
    requires n > 0
    ensures -n < r < n
    ensures i >= 0 ==> r == i % n
    ensures i < 0 ==> r <= 0
  {
    if i >= 0 then i % n else -((-i) % n)
  }

  /** `getCategoryColor(index)`: `CHART_COLORS[index % 10]`; a negative
      remainder indexes nothing and gives `undefined` (None). */
  function CategoryColor(index: int): Option<string>
  {
    var k := JsRemainder(index, |ChartColors|);
    if k >= 0 then Some(ChartColors[k]) else None
  }

  /** From index 0 on, every index has a colour and the palette repeats
      with period 10. */
  lemma CategoryColorPeriodic(index: int)
    requires index >= 0
    ensures CategoryColor(index) == Some(ChartColors[index % 10])
    ensures CategoryColor(index + 10) == CategoryColor(index)
  {
  }

  /** A negative index has a colour only when it is a multiple of 10 (the
      remainder is then -0, which reads element 0). */
  lemma CategoryColorNegative(index: int)
    requires index < 0
    ensures CategoryColor(index) == if index % 10 == 0 then Some(ChartColors[0]) else None
  {
  }

  /** Ten consecutive categories from index 0 on get ten different colours. */
  lemma PaletteDistinct(i: int, j: int)
    requires 0 <= i < j < i + 10
    ensures CategoryColor(i) != CategoryColor(j)
  {
    var a, b := i % 10, j % 10;
    assert a != b;
    assert ChartColors[a][1..3] != ChartColors[b][1..3] || ChartColors[a][3..] != ChartColors[b][3..];
  }

  // ---------------------------------------------------------------------
  // cn

  /** An argument of `cn`: a class name, a boolean, `undefined` or `null`. */
  datatype ClassValue = ClassName(name: string) | Flag(flag: bool) | Undefined | Null

  /** `Boolean(v)`. */
  predicate Truthy(v: ClassValue)
  {
    match v
    case ClassName(s) => s != ""
    case Flag(b) => b
    case _ => false
  }

  /** How `join` prints an argument. */
  function ClassText(v: ClassValue): string
  {
    match v
    case ClassName(s) => s
    case Flag(b) => if b then "true" else "false"
    case _ => ""
  }

  /** `cn(...classes)`: the truthy arguments joined by single spaces. */
  function Cn(classes: seq<ClassValue>): string
  {
    Join(Map(Filter(classes, Truthy), ClassText), " ")
  }

  /** When no kept class name holds a space, the words of `cn`'s result are
      exactly the kept arguments, in order, and none of them is empty. */
  lemma CnWords(classes: seq<ClassValue>)
    requires Exists(classes, Truthy)
    requires forall v :: v in classes && Truthy(v) ==> ' ' !in ClassText(v)
    ensures Split(Cn(classes), ' ') == Map(Filter(classes, Truthy), ClassText)
    ensures forall k :: 0 <= k < |Split(Cn(classes), ' ')| ==> Split(Cn(classes), ' ')[k] != ""
  {
    var kept := Filter(classes, Truthy);
    var i :| 0 <= i < |classes| && Truthy(classes[i]);
    assert classes[i] in kept;
    var parts := Map(kept, ClassText);
    forall k | 0 <= k < |parts|
      ensures ' ' !in parts[k] && parts[k] != ""
    {
      assert kept[k] in kept;
    }
    SplitJoin(parts, ' ');
  }

  /** With no truthy argument `cn` gives the empty string. */
  lemma CnNothingTruthy(classes: seq<ClassValue>)
    requires forall v :: v in classes ==> !Truthy(v)
    ensures Cn(classes) == ""
  {
    FilterNone(classes, Truthy);
  }

  /** Falsy arguments make no difference to `cn`. */
  lemma CnIgnoresFalsy(classes: seq<ClassValue>)
    ensures Cn(Filter(classes, Truthy)) == Cn(classes)
  {
    FilterIdempotent(classes, Truthy);
  }

  // ---------------------------------------------------------------------
  // CSV export

  /** A record handed to the export: its keys in `Object.keys` order and the
      printed value (`String(value)`) of each key whose value is neither
      `null` nor `undefined`. */
  datatype Row = Row(keys: seq<string>, fields: map<string, string>)

  /** `String(row[header] ?? '')`. */
  function FieldText(row: Row, header: string): string
  {
    if header in row.fields then row.fields[header] else ""
  }

  /** `s.replace(/"/g, '""')`. */
  function DoubleQuotes(s: string): (r: string)
    ensures |r| >= |s|
  {
    if s == [] then [] else (if s[0] == '"' then "\"\"" else [s[0]]) + DoubleQuotes(s[1..])
  }

  predicate NeedsQuotes(s: string)
  {
    ',' in s || '"' in s
  }

  /** A field as the export writes it: quoted, with inner quotes doubled,
      when it holds a comma or a quote; verbatim otherwise. */
  function EscapeField(s: string): string
  {
    if NeedsQuotes(s) then "\"" + DoubleQuotes(s) + "\"" else s
  }

  /** `headers.map(header => ...)`: the written fields of one record. */
  function RowFields(row: Row, headers: seq<string>): (r: seq<string>)
    ensures |r| == |headers|
  {
    if headers == [] then [] else [EscapeField(FieldText(row, headers[0]))] + RowFields(row, headers[1..])
  }

  /** One data line: the record's fields in header order, joined by commas. */
  function RowLine(row: Row, headers: seq<string>): string
  {
    Join(RowFields(row, headers), ",")
  }

  /** `data.map(row => ...)`: the data lines. */
  function RowLines(data: seq<Row>, headers: seq<string>): (r: seq<string>)
    ensures |r| == |data|
  {
    if data == [] then [] else [RowLine(data[0], headers)] + RowLines(data[1..], headers)
  }

  /** The `csvContent` string; None when there is no data and the export
      returns without writing anything. */
  function CsvContent(data: seq<Row>): (r: Option<string>)
    ensures r.None? <==> data == []
  {
    if data == [] then None
    else
      var headers := data[0].keys;
      Some(Join([Join(headers, ",")] + RowLines(data, headers), "\n"))
  }

  /** The `i`th written field is the `i`th header's value, escaped. */
  lemma {:induction false} RowFieldsAt(row: Row, headers: seq<string>, i: nat)
    requires i < |headers|
    ensures RowFields(row, headers)[i] == EscapeField(FieldText(row, headers[i]))
  {
    if i > 0 {
      RowFieldsAt(row, headers[1..], i - 1);
    }
  }

  /** The `k`th data line is the `k`th record's line. */
  lemma {:induction false} RowLinesAt(data: seq<Row>, headers: seq<string>, k: nat)
    requires k < |data|
    ensures RowLines(data, headers)[k] == RowLine(data[k], headers)
  {
    if k > 0 {
      RowLinesAt(data[1..], headers, k - 1);
    }
  }

  /** Reading `""` back as `"`: the inverse of `DoubleQuotes`. */
  function UndoubleQuotes(s: string): string
  {
    if s == [] then []
    else if |s| >= 2 && s[0] == '"' && s[1] == '"' then "\"" + UndoubleQuotes(s[2..])
    else [s[0]] + UndoubleQuotes(s[1..])
  }

  /** Reading a field back in the manner of section 2 of RFC 4180: a quoted
      field loses its quotes and its doubled quotes are undone. */
  function UnescapeField(s: string): string
  {
    if |s| >= 2 && s[0] == '"' && s[|s| - 1] == '"' then UndoubleQuotes(s[1..|s| - 1]) else s
  }

  lemma {:induction false} UndoubleDouble(s: string)
    ensures UndoubleQuotes(DoubleQuotes(s)) == s
  {
    if s != [] {
      UndoubleDouble(s[1..]);
      var rest := DoubleQuotes(s[1..]);
      if s[0] == '"' {
        assert DoubleQuotes(s) == "\"\"" + rest;
        assert (DoubleQuotes(s))[2..] == rest;
      } else {
        assert DoubleQuotes(s) == [s[0]] + rest;
        assert (DoubleQuotes(s))[1..] == rest;
      }
    }
  }

  /** A field is quoted exactly when it holds a comma or a quote, and reading
      the written field back gives the value. */
  lemma EscapeFieldRoundTrip(s: string)
    ensures EscapeField(s) != s <==> NeedsQuotes(s)
    ensures UnescapeField(EscapeField(s)) == s
  {
    if NeedsQuotes(s) {
      var q := "\"" + DoubleQuotes(s) + "\"";
      assert q[1..|q| - 1] == DoubleQuotes(s);
      UndoubleDouble(s);
    } else {
      assert s != [] ==> s[0] != '"';
    }
  }

  /** Doubling quotes adds no other character. */
  lemma {:induction false} DoubleQuotesAvoids(s: string, c: char)
    requires c != '"' && c !in s
    ensures c !in DoubleQuotes(s)
  {
    if s != [] {
      DoubleQuotesAvoids(s[1..], c);
    }
  }

  /** A character absent from the parts and the separator is absent from
      their join. */
  lemma {:induction false} JoinAvoids(parts: seq<string>, sep: string, c: char)
    requires c !in sep
    requires forall k :: 0 <= k < |parts| ==> c !in parts[k]
    ensures c !in Join(parts, sep)
  {
    if |parts| > 1 {
      JoinAvoids(parts[1..], sep, c);
    }
  }

  /** A data line has no line break when the record's values have none. */
  lemma RowLineSingle(row: Row, headers: seq<string>)
    requires forall h :: h in row.fields ==> '\n' !in row.fields[h]
    ensures '\n' !in RowLine(row, headers)
  {
    var fields := RowFields(row, headers);
    forall i | 0 <= i < |fields|
      ensures '\n' !in fields[i]
    {
      RowFieldsAt(row, headers, i);
      var v := FieldText(row, headers[i]);
      assert '\n' !in v;
      DoubleQuotesAvoids(v, '\n');
    }
    JoinAvoids(fields, ",", '\n');
  }

  /** No key and no printed value of the data holds a line break. */
  predicate SingleLine(data: seq<Row>)
  {
    (data != [] ==> forall k :: 0 <= k < |data[0].keys| ==> '\n' !in data[0].keys[k])
    && forall k, h :: 0 <= k < |data| && h in data[k].fields ==> '\n' !in data[k].fields[h]
  }

  /** When no key and no value holds a line break, the export is a header
      line of the first record's keys followed by exactly one line per
      record, in order, each listing that record's fields in header order. */
  lemma CsvLines(data: seq<Row>)
    requires data != [] && SingleLine(data)
    ensures var headers := data[0].keys;
      var lines := Split(CsvContent(data).value, '\n');
      |lines| == |data| + 1 && lines[0] == Join(headers, ",")
      && forall k :: 0 <= k < |data| ==> lines[k + 1] == RowLine(data[k], headers)
  {
    var headers := data[0].keys;
    var rows := RowLines(data, headers);
    var lines := [Join(headers, ",")] + rows;
    JoinAvoids(headers, ",", '\n');
    forall k | 0 <= k < |lines|
      ensures '\n' !in lines[k]
    {
      if k > 0 {
        RowLinesAt(data, headers, k - 1);
        RowLineSingle(data[k - 1], headers);
      }
    }
    SplitJoin(lines, '\n');
    forall k | 0 <= k < |data|
      ensures lines[k + 1] == RowLine(data[k], headers)
    {
      RowLinesAt(data, headers, k);
    }
  }

  // ---------------------------------------------------------------------
  // parseCSV

  /** `s.replace(/^"|"$/g, '')`: one leading and one trailing quote removed;
      a lone quote is removed once. */
  function StripQuotes(s: string): (r: string)
    ensures |r| <= |s|
  {
    var a := if s != [] && s[0] == '"' then s[1..] else s;
    if a != [] && a[|a| - 1] == '"' then a[..|a| - 1] else a
  }

  /** `v.trim().replace(/^"|"$/g, '')`. */
  function CleanCell(v: string): string
  {
    StripQuotes(Trim(v))
  }

  /** `line.split(',').map(clean)`. */
  function Cells(line: string): (r: seq<string>)
    ensures |r| >= 1
  {
    Map(Split(line, ','), CleanCell)
  }

  /** `values[index] || ''`. */
  function CellAt(values: seq<string>, i: nat): string
  {
    if i < |values| then values[i] else ""
  }

  /** The object built by `headers.forEach` over the first `n` headers:
      each assignment overwrites, so a later duplicate header wins. */
  function ObjectOf(headers: seq<string>, values: seq<string>, n: nat): map<string, string>
    requires n <= |headers|
  {
    if n == 0 then map[] else ObjectOf(headers, values, n - 1)[headers[n - 1] := CellAt(values, n - 1)]
  }

  /** The object of one data line. */
  function RowObject(headers: seq<string>, line: string): map<string, string>
  {
    ObjectOf(headers, Cells(line), |headers|)
  }

  /** `lines.map(line => ...)` over the data lines. */
  function RowObjects(headers: seq<string>, lines: seq<string>): (r: seq<map<string, string>>)
    ensures |r| == |lines|
    ensures forall k :: 0 <= k < |lines| ==> r[k] == RowObject(headers, lines[k])
  {
    if lines == [] then [] else [RowObject(headers, lines[0])] + RowObjects(headers, lines[1..])
  }

  /** `parseCSV(text)`: nothing for fewer than two lines; otherwise one
      object per line after the header line. */
  function ParseCsv(text: string): seq<map<string, string>>
  {
    var lines := Split(Trim(text), '\n');
    if |lines| < 2 then [] else RowObjects(Cells(lines[0]), lines[1..])
  }

  /** The keys of the object are the first `n` headers. */
  lemma {:induction false} ObjectKeys(headers: seq<string>, values: seq<string>, n: nat)
    requires n <= |headers|
    ensures forall h :: h in ObjectOf(headers, values, n) <==> exists i :: 0 <= i < n && headers[i] == h
  {
    if n > 0 {
      ObjectKeys(headers, values, n - 1);
    }
  }

  /** A header holds the value of the column of its last occurrence, or ''
      past the end of the line. */
  lemma {:induction false} ObjectLastWins(headers: seq<string>, values: seq<string>, n: nat, i: nat)
    requires i < n <= |headers|
    requires forall j :: i < j < n ==> headers[j] != headers[i]
    ensures headers[i] in ObjectOf(headers, values, n)
    ensures ObjectOf(headers, values, n)[headers[i]] == CellAt(values, i)
  {
    if i < n - 1 {
      ObjectLastWins(headers, values, n - 1, i);
    }
  }

  /** Each parsed object is keyed by exactly the header cells, and a header
      that does not occur again later holds the cell of its column. */
  lemma RowObjectShape(headers: seq<string>, line: string)
    ensures forall h :: h in RowObject(headers, line) <==> h in headers
    ensures forall i :: 0 <= i < |headers| && (forall j :: i < j < |headers| ==> headers[j] != headers[i]) ==>
      RowObject(headers, line)[headers[i]] == CellAt(Cells(line), i)
  {
    ObjectKeys(headers, Cells(line), |headers|);
    forall i | 0 <= i < |headers| && (forall j :: i < j < |headers| ==> headers[j] != headers[i])
      ensures RowObject(headers, line)[headers[i]] == CellAt(Cells(line), i)
    {
      ObjectLastWins(headers, Cells(line), |headers|, i);
    }
  }

  /** Text with fewer than two lines (after trimming) yields no objects;
      otherwise there is one object per data line, in order, built from the
      header line's cells (its shape is `RowObjectShape`). */
  lemma ParseCsvShape(text: string)
    ensures var lines := Split(Trim(text), '\n');
      var r := ParseCsv(text);
      (|lines| < 2 ==> r == [])
      && (|lines| >= 2 ==>
        |r| == |lines| - 1
        && forall k :: 0 <= k < |r| ==> r[k] == RowObject(Cells(lines[0]), lines[k + 1]))
  {
  }

  /** A text without a line break, once trimmed, has no data lines. */
  lemma ParseCsvSingleLine(text: string)
    requires '\n' !in Trim(text)
    ensures ParseCsv(text) == []
  {
    SplitNoSeparator(Trim(text), '\n');
  }
}
