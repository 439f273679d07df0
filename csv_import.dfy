/** The CSV import of the newer client (src/App.tsx, `CSVImportModal`): the
    quote-aware line splitter, the duplicate test, column detection, the
    preview rows, the selection toggles and the import loop with its
    success and failure counters. */
module CsvImport {
  import opened Common
  import opened Text
  import opened Calendar
  import opened Records

  // ---------------------------------------------------------------------
  // The line splitter

  /** The splitter's variables after some characters: the fields pushed so
      far, the field being read, and whether a quote is open. */
  datatype ScanState = ScanState(fields: seq<string>, current: string, inQuotes: bool)

  /** One turn of the splitter's loop: a quote flips the quote state and is
      dropped, a comma outside quotes ends the field (trimmed), any other
      character is appended to the current field. */
  function ScanChar(st: ScanState, c: char): ScanState
  {
    if c == '"' then st.(inQuotes := !st.inQuotes)
    else if c == ',' && !st.inQuotes then ScanState(st.fields + [Trim(st.current)], "", st.inQuotes)
    else st.(current := st.current + [c])
  }

  /** The splitter's variables after the first `n` characters of `line`. */
  function Scan(line: string, n: nat): ScanState
    requires n <= |line|
  {
    if n == 0 then ScanState([], "", false) else ScanChar(Scan(line, n - 1), line[n - 1])
  }

  /** The fields of one line: those the loop pushed, then the trimmed rest. */
  function LineFields(line: string): (r: seq<string>)
    ensures |r| >= 1
  {
    var st := Scan(line, |line|);
    st.fields + [Trim(st.current)]
  }

  /** The splitter's character loop. */
  method SplitLine(line: string) returns (result: seq<string>)
    ensures result == LineFields(line)
  {
    result := [];
    var current := "";
    var inQuotes := false;
    for i := 0 to |line|
      invariant ScanState(result, current, inQuotes) == Scan(line, i)
    {
      var c := line[i];
      if c == '"' {
        inQuotes := !inQuotes;
      } else if c == ',' && !inQuotes {
        result := result + [Trim(current)];
        current := "";
      } else {
        current := current + [c];
      }
    }
    result := result + [Trim(current)];
  }

  /** The number of quote characters among the first `n` of `line`. */
  function QuotesBefore(line: string, n: nat): nat
    requires n <= |line|
  {
    if n == 0 then 0 else QuotesBefore(line, n - 1) + (if line[n - 1] == '"' then 1 else 0)
  }

  /** A comma outside quotes: one preceded by an even number of quotes. */
  predicate SeparatorAt(line: string, j: nat)
    requires j < |line|
  {
    line[j] == ',' && QuotesBefore(line, j) % 2 == 0
  }

  /** The number of separating commas among the first `n` characters. */
  function SeparatorsBefore(line: string, n: nat): nat
    requires n <= |line|
  {
    if n == 0 then 0 else SeparatorsBefore(line, n - 1) + (if SeparatorAt(line, n - 1) then 1 else 0)
  }

  /** What the loop keeps while it runs: a quote is open after an odd number
      of quotes, one field per separating comma has been pushed, and no
      field holds a quote character or surrounding white space. */
  lemma ScanInvariant(line: string, n: nat)
    requires n <= |line|
    ensures var st := Scan(line, n);
      (st.inQuotes <==> QuotesBefore(line, n) % 2 == 1)
      && |st.fields| == SeparatorsBefore(line, n)
      && '"' !in st.current
      && forall k :: 0 <= k < |st.fields| ==> '"' !in st.fields[k] && Trimmed(st.fields[k])
  {
    ScanQuotes(line, n);
    ScanCount(line, n);
    ScanClean(line, n);
  }

  lemma {:induction false} ScanQuotes(line: string, n: nat)
    requires n <= |line|
    ensures Scan(line, n).inQuotes <==> QuotesBefore(line, n) % 2 == 1
  {
    if n > 0 {
      ScanQuotes(line, n - 1);
    }
  }

  lemma {:induction false} ScanCount(line: string, n: nat)
    requires n <= |line|
    ensures |Scan(line, n).fields| == SeparatorsBefore(line, n)
  {
    if n > 0 {
      ScanCount(line, n - 1);
      ScanQuotes(line, n - 1);
    }
  }

  lemma {:induction false} ScanClean(line: string, n: nat)
    requires n <= |line|
    ensures var st := Scan(line, n);
      '"' !in st.current && forall k :: 0 <= k < |st.fields| ==> '"' !in st.fields[k] && Trimmed(st.fields[k])
  {
    if n > 0 {
      ScanClean(line, n - 1);
      var st := Scan(line, n - 1);
      if line[n - 1] == ',' && !st.inQuotes {
        TrimKeepsOut(st.current, '"');
        TrimShape(st.current);
      }
    }
  }

  /** A line has one field more than it has commas outside quotes. */
  lemma FieldCount(line: string)
    ensures |LineFields(line)| == SeparatorsBefore(line, |line|) + 1
  {
    ScanInvariant(line, |line|);
  }

  /** Every field is trimmed and holds no quote character. */
  lemma FieldsClean(line: string)
    ensures forall k :: 0 <= k < |LineFields(line)| ==>
      '"' !in LineFields(line)[k] && Trimmed(LineFields(line)[k])
  {
    var st := Scan(line, |line|);
    ScanInvariant(line, |line|);
    TrimKeepsOut(st.current, '"');
    TrimShape(st.current);
  }

  /** Without quote characters the splitter is `line.split(',')` with every
      part trimmed. */
  lemma FieldsWithoutQuotes(line: string)
    requires '"' !in line
    ensures LineFields(line) == Map(Split(line, ','), Trim)
  {
    UnquotedScan(line, |line|);
    assert line[..|line|] == line;
    ReadsFields(Scan(line, |line|), Split(line, ','));
  }

  /** What the loop has read gives the fields of the line. */
  lemma ReadsFields(st: ScanState, parts: seq<string>)
    requires Reads(st, parts)
    ensures st.fields + [Trim(st.current)] == Map(parts, Trim)
  {
    var k := |parts| - 1;
    assert parts == parts[..k] + [parts[k]];
    MapSnoc(parts[..k], parts[k], Trim);
  }

  lemma {:induction false} UnquotedScan(line: string, n: nat)
    requires '"' !in line && n <= |line|
    ensures Reads(Scan(line, n), Split(line[..n], ','))
  {
    if n > 0 {
      UnquotedScan(line, n - 1);
      var st := Scan(line, n - 1);
      var c := line[n - 1];
      assert line[..n] == line[..n - 1] + [c];
      var parts := Split(line[..n - 1], ',');
      if c == ',' {
        SplitSnocSeparator(line[..n - 1], ',');
        CommaStep(st, parts);
      } else {
        SplitSnocOther(line[..n - 1], c, ',');
        OtherStep(st, parts, c);
      }
    }
  }

  /** Outside quotes, the pushed fields are the trimmed parts before the
      last one, and the current field is the last part. */
  predicate Reads(st: ScanState, parts: seq<string>)
  {
    |parts| >= 1 && !st.inQuotes
    && st.fields == Map(parts[..|parts| - 1], Trim) && st.current == parts[|parts| - 1]
  }

  lemma CommaStep(st: ScanState, parts: seq<string>)
    requires Reads(st, parts)
    ensures Reads(ScanChar(st, ','), parts + [""])
  {
    var k := |parts| - 1;
    assert (parts + [""])[..k + 1] == parts == parts[..k] + [parts[k]];
    MapSnoc(parts[..k], parts[k], Trim);
  }

  lemma OtherStep(st: ScanState, parts: seq<string>, c: char)
    requires Reads(st, parts) && c != ',' && c != '"'
    ensures var k := |parts| - 1; Reads(ScanChar(st, c), parts[..k] + [parts[k] + [c]])
  {
    var k := |parts| - 1;
    assert (parts[..k] + [parts[k] + [c]])[..k] == parts[..k];
  }

  lemma MapSnoc<T, U>(s: seq<T>, x: T, f: T -> U)
    ensures Map(s + [x], f) == Map(s, f) + [f(x)]
  {
  }

  /** `parseCSV(text)`: the trimmed text cut at line feeds, each line split. */
  function ParseCsvText(text: string): (rows: seq<seq<string>>)
    ensures |rows| == |Split(Trim(text), '\n')| >= 1
  {
    Map(Split(Trim(text), '\n'), LineFields)
  }

  /** The file's first row is the header row; the other rows are data. */
  lemma ParsedFile(text: string)
    ensures var rows := ParseCsvText(text); var lines := Split(Trim(text), '\n');
      rows[0] == LineFields(lines[0]) && |rows[1..]| == |lines| - 1
      && forall k :: 1 <= k < |rows| ==> rows[k] == LineFields(lines[k]) && |rows[k]| >= 1
  {
  }

  // ---------------------------------------------------------------------
  // The duplicate test

  /** The stored date string a CSV date is compared with: an ISO time stamp
      gives its part before the `T`, a three-part `M/D/YYYY` date is
      rearranged to `YYYY-MM-DD` with month and day padded, anything else is
      compared as it is. */
  function NormalizeDate(dateStr: string): string
  {
    if 'T' in dateStr && 'Z' in dateStr then Split(dateStr, 'T')[0]
    else if '/' in dateStr then
      var parts := Split(dateStr, '/');
      if |parts| == 3 then parts[2] + "-" + PadStart(parts[0], 2, '0') + "-" + PadStart(parts[1], 2, '0')
      else dateStr
    else dateStr
  }

  function Abs(x: real): real
  {
    if x < 0.0 then -x else x
  }

  /** The name as the duplicate test compares it: lower-cased, then trimmed. */
  function NameKey(name: string): string
  {
    Trim(ToLower(name))
  }

  /** Does the stored purchase `p` match the name, amount and stored date? */
  predicate SamePurchase(p: Purchase, name: string, amount: real, date: string)
  {
    NameKey(p.name) == NameKey(name) && Abs(p.amount - amount) < 0.01 && FormatDate(p.date) == date
  }

  /** `isDuplicatePurchase`; an amount that is not a number (None) compares
      unequal with every stored amount. */
  function IsDuplicatePurchase(purchases: seq<Purchase>, name: string, amount: Option<real>, dateStr: string): bool
  {
    amount.Some? && exists i :: 0 <= i < |purchases| && SamePurchase(purchases[i], name, amount.value, NormalizeDate(dateStr))
  }

  /** A stored purchase read back with the same name, amount and a date that
      normalises to its stored date is reported as a duplicate. */
  lemma StoredPurchaseIsDuplicate(purchases: seq<Purchase>, i: nat, dateStr: string)
    requires i < |purchases| && NormalizeDate(dateStr) == FormatDate(purchases[i].date)
    ensures IsDuplicatePurchase(purchases, purchases[i].name, Some(purchases[i].amount), dateStr)
  {
    assert SamePurchase(purchases[i], purchases[i].name, purchases[i].amount, NormalizeDate(dateStr));
  }

  /** A purchase whose name matches no stored name is never a duplicate. */
  lemma NewNameIsNoDuplicate(purchases: seq<Purchase>, name: string, amount: Option<real>, dateStr: string)
    requires forall i :: 0 <= i < |purchases| ==> NameKey(purchases[i].name) != NameKey(name)
    ensures !IsDuplicatePurchase(purchases, name, amount, dateStr)
  {
  }

  /** `M/D/YYYY`: the month and day unpadded, the year in four digits. */
  function SlashDate(d: Date): string
    requires d.year >= 0 && d.month >= 0 && d.day >= 0
  {
    NatToString(d.month) + "/" + NatToString(d.day) + "/" + PadStart(NatToString(d.year), 4, '0')
  }

  lemma PaddedDigits(s: string, width: nat)
    requires AllDigits(s)
    ensures AllDigits(PadStart(s, width, '0'))
  {
    PadStartShape(s, width, '0');
    var r := PadStart(s, width, '0');
    forall i | 0 <= i < |r|
      ensures IsDigit(r[i])
    {
      if i >= |r| - |s| {
        assert r[i] == r[|r| - |s|..][i - (|r| - |s|)];
      }
    }
  }

  lemma DigitsAvoid(s: string, c: char)
    requires AllDigits(s) && !IsDigit(c)
    ensures c !in s
  {
  }

  /** The pieces of a stored date are digit strings. */
  lemma FormatDateParts(d: Date)
    requires d.year >= 0 && d.month >= 0 && d.day >= 0
    ensures var y := PadStart(NatToString(d.year), 4, '0');
      var m := PadStart(NatToString(d.month), 2, '0');
      var dd := PadStart(NatToString(d.day), 2, '0');
      FormatDate(d) == y + "-" + m + "-" + dd && AllDigits(y) && AllDigits(m) && AllDigits(dd)
  {
    PaddedDigits(NatToString(d.year), 4);
    PaddedDigits(NatToString(d.month), 2);
    PaddedDigits(NatToString(d.day), 2);
  }

  /** A stored `YYYY-MM-DD` date is compared as it is. */
  lemma NormalizeStoredDate(d: Date)
    requires d.year >= 0 && d.month >= 0 && d.day >= 0
    ensures NormalizeDate(FormatDate(d)) == FormatDate(d)
  {
    FormatDateParts(d);
    var y := PadStart(NatToString(d.year), 4, '0');
    var m := PadStart(NatToString(d.month), 2, '0');
    var dd := PadStart(NatToString(d.day), 2, '0');
    DigitsAvoid(y, 'T'); DigitsAvoid(m, 'T'); DigitsAvoid(dd, 'T');
    DigitsAvoid(y, '/'); DigitsAvoid(m, '/'); DigitsAvoid(dd, '/');
  }

  /** A bank's `M/D/YYYY` date normalises to the stored date of that day. */
  lemma NormalizeSlashDate(d: Date)
    requires d.year >= 0 && d.month >= 0 && d.day >= 0
    ensures NormalizeDate(SlashDate(d)) == FormatDate(d)
  {
    FormatDateParts(d);
    var m := NatToString(d.month);
    var dd := NatToString(d.day);
    var y := PadStart(NatToString(d.year), 4, '0');
    DigitsOfNatToString(d.month);
    DigitsOfNatToString(d.day);
    DigitsAvoid(y, 'T'); DigitsAvoid(m, 'T'); DigitsAvoid(dd, 'T');
    DigitsAvoid(y, '/'); DigitsAvoid(m, '/'); DigitsAvoid(dd, '/');
    NormalizeSlashParts(m, dd, y);
  }

  /** Three slash-free, `T`-free parts joined by slashes are rearranged
      year first. */
  lemma NormalizeSlashParts(m: string, dd: string, y: string)
    requires '/' !in m && '/' !in dd && '/' !in y && 'T' !in m && 'T' !in dd && 'T' !in y
    ensures NormalizeDate(m + "/" + dd + "/" + y) == y + "-" + PadStart(m, 2, '0') + "-" + PadStart(dd, 2, '0')
  {
    var s := m + "/" + dd + "/" + y;
    SplitThree(m, dd, y, '/');
    assert s[|m|] == '/';
  }

  /** An ISO time stamp normalises to the stored date of its day. */
  lemma NormalizeTimestamp(d: Date, time: string)
    requires d.year >= 0 && d.month >= 0 && d.day >= 0
    requires 'Z' in time
    ensures NormalizeDate(FormatDate(d) + "T" + time) == FormatDate(d)
  {
    FormatDateParts(d);
    var y := PadStart(NatToString(d.year), 4, '0');
    var m := PadStart(NatToString(d.month), 2, '0');
    var dd := PadStart(NatToString(d.day), 2, '0');
    DigitsAvoid(y, 'T'); DigitsAvoid(m, 'T'); DigitsAvoid(dd, 'T');
    var f := FormatDate(d);
    var s := f + "T" + time;
    assert s == f + ['T'] + time;
    assert s[|f|] == 'T';
    var z :| 0 <= z < |time| && time[z] == 'Z';
    assert s[|f| + 1 + z] == 'Z';
    SplitAtSeparator(f, time, 'T');
  }

  // ---------------------------------------------------------------------
  // Column detection

  datatype CsvFormat = Discover | Chase | Amazon

  /** Which CSV header holds each field; '' when none does. */
  datatype ColumnMapping = ColumnMapping(date: string, name: string, amount: string, category: string)

  /** The tests the detection applies to a lower-cased header. */
  datatype HeaderTest =
    | Named(word: string)
    | Has(part: string)
    | HasBoth(first: string, second: string)
    | HasAny(words: seq<string>)

  predicate Passes(t: HeaderTest, h: string)
  {
    match t
    case Named(w) => h == w
    case Has(w) => Contains(h, w)
    case HasBoth(a, b) => Contains(h, a) && Contains(h, b)
    case HasAny(ws) => exists k :: 0 <= k < |ws| && Contains(h, ws[k])
  }

  /** `headerLower.findIndex(test)`, looking from `from` on: the first header
      whose lower-cased text passes the test, or -1 when none does. */
  function FindHeader(headers: seq<string>, t: HeaderTest, from: nat): (r: int)
    requires from <= |headers|
    ensures r == -1 || (from <= r < |headers| && Passes(t, ToLower(headers[r])))
    ensures forall j :: from <= j < |headers| && (r == -1 || j < r) ==> !Passes(t, ToLower(headers[j]))
    decreases |headers| - from
  {
    if from == |headers| then -1
    else if Passes(t, ToLower(headers[from])) then from
    else FindHeader(headers, t, from + 1)
  }

  /** `headers[findIndex(test)] || ''`: the first header passing the test,
      or '' when none passes. */
  function Column(headers: seq<string>, t: HeaderTest): (c: string)
    ensures (forall j :: 0 <= j < |headers| ==> !Passes(t, ToLower(headers[j]))) ==> c == ""
    ensures (exists j :: 0 <= j < |headers| && Passes(t, ToLower(headers[j]))) ==>
      exists j :: 0 <= j < |headers| && c == headers[j] && Passes(t, ToLower(c))
        && forall i :: 0 <= i < j ==> !Passes(t, ToLower(headers[i]))
  {
    var i := FindHeader(headers, t, 0);
    if i >= 0 then headers[i] else ""
  }

  /** A detected column is '' or one of the headers; it is '' exactly when
      no header passes, for a test the empty header fails. */
  lemma ColumnFromHeaders(headers: seq<string>, t: HeaderTest)
    ensures FromHeaders(Column(headers, t), headers)
    ensures !Passes(t, "") ==>
      (Column(headers, t) == "" <==> forall j :: 0 <= j < |headers| ==> !Passes(t, ToLower(headers[j])))
  {
    var c := Column(headers, t);
    if c != "" && !Passes(t, "") {
      assert c == headers[FindHeader(headers, t, 0)];
    }
  }

  /** The empty header holds none of a list of non-empty words. */
  lemma EmptyHeaderFails(ws: seq<string>)
    requires forall k :: 0 <= k < |ws| ==> ws[k] != ""
    ensures !Passes(HasAny(ws), "")
  {
    forall k | 0 <= k < |ws|
      ensures !Contains("", ws[k])
    {
      assert !exists i :: OccursAt("", ws[k], i);
    }
  }

  const TransactionDate := HasBoth("transaction", "date")
  const TransDate := HasBoth("trans.", "date")
  const AnyDate := Has("date")

  /** `findDateColumn`: a transaction date first, then an abbreviated one,
      then any date column. */
  function DateColumn(headers: seq<string>): string
  {
    var i := FindHeader(headers, TransactionDate, 0);
    if i >= 0 then headers[i]
    else
      var i2 := FindHeader(headers, TransDate, 0);
      if i2 >= 0 then headers[i2] else Column(headers, AnyDate)
  }

  /** The date column is the first header naming a transaction date when
      there is one, otherwise the first abbreviated one. */
  lemma DateColumnPriority(headers: seq<string>)
    ensures (exists j :: 0 <= j < |headers| && Passes(TransactionDate, ToLower(headers[j])))
      ==> DateColumn(headers) == Column(headers, TransactionDate)
    ensures (forall j :: 0 <= j < |headers| ==> !Passes(TransactionDate, ToLower(headers[j])))
      && (exists j :: 0 <= j < |headers| && Passes(TransDate, ToLower(headers[j])))
      ==> DateColumn(headers) == Column(headers, TransDate)
  {
    var i := FindHeader(headers, TransactionDate, 0);
    var i2 := FindHeader(headers, TransDate, 0);
  }

  /** A date column is found exactly when some header mentions a date, and
      it is then a header that does. */
  lemma DateColumnFound(headers: seq<string>)
    ensures DateColumn(headers) == "" <==> forall j :: 0 <= j < |headers| ==> !Contains(ToLower(headers[j]), "date")
    ensures DateColumn(headers) != "" ==> Contains(ToLower(DateColumn(headers)), "date")
  {
    var c := DateColumn(headers);
    var i := FindHeader(headers, TransactionDate, 0);
    var i2 := FindHeader(headers, TransDate, 0);
    var i3 := FindHeader(headers, AnyDate, 0);
    if i >= 0 {
      assert Contains(ToLower(c), "date");
    } else if i2 >= 0 {
      assert Contains(ToLower(c), "date");
    } else if i3 >= 0 {
      assert Contains(ToLower(c), "date");
    }
    if c != "" {
      assert |ToLower(c)| >= 4;
    }
  }

  /** The column mapping detected for a header row. */
  function DetectColumns(headers: seq<string>, format: CsvFormat): ColumnMapping
  {
    var category := Column(headers, HasAny(["category", "type"]));
    if format == Amazon then
      ColumnMapping(Column(headers, Named("order date")), Column(headers, Named("product name")),
        Column(headers, Named("total owed")), category)
    else
      ColumnMapping(DateColumn(headers), Column(headers, HasAny(["description", "name", "merchant"])),
        Column(headers, HasAny(["amount", "debit", "charge"])), category)
  }

  /** Every detected column is '' or one of the headers. */
  predicate FromHeaders(c: string, headers: seq<string>)
  {
    c == "" || c in headers
  }

  lemma DetectedColumnsAreHeaders(headers: seq<string>, format: CsvFormat)
    ensures var m := DetectColumns(headers, format);
      FromHeaders(m.date, headers) && FromHeaders(m.name, headers)
      && FromHeaders(m.amount, headers) && FromHeaders(m.category, headers)
  {
    var i := FindHeader(headers, TransactionDate, 0);
    var i2 := FindHeader(headers, TransDate, 0);
  }

  /** For Amazon order exports a column is found exactly when some header is,
      ignoring case, the expected name. */
  lemma AmazonColumnsExact(headers: seq<string>)
    ensures var m := DetectColumns(headers, Amazon);
      (m.date != "" <==> exists j :: 0 <= j < |headers| && ToLower(headers[j]) == "order date")
      && (m.date != "" ==> ToLower(m.date) == "order date")
      && (m.name != "" <==> exists j :: 0 <= j < |headers| && ToLower(headers[j]) == "product name")
      && (m.name != "" ==> ToLower(m.name) == "product name")
      && (m.amount != "" <==> exists j :: 0 <= j < |headers| && ToLower(headers[j]) == "total owed")
      && (m.amount != "" ==> ToLower(m.amount) == "total owed")
  {
    var m := DetectColumns(headers, Amazon);
    if m.date != "" {
      assert Passes(Named("order date"), ToLower(m.date));
    }
    if m.name != "" {
      assert Passes(Named("product name"), ToLower(m.name));
    }
    if m.amount != "" {
      assert Passes(Named("total owed"), ToLower(m.amount));
    }
  }

  // ---------------------------------------------------------------------
  // Preview

  /** A preview row; an amount that is not a number is None. */
  datatype PreviewItem = PreviewItem(
    date: string,
    name: string,
    amount: Option<real>,
    categoryId: string,
    rowIndex: nat,
    selected: bool,
    isDuplicate: bool)

  /** `headers.indexOf(x)`: the first position of `x`, or -1. */
  function IndexOf(headers: seq<string>, x: string): (r: int)
    ensures r == -1 || (0 <= r < |headers| && headers[r] == x)
    ensures forall j :: 0 <= j < |headers| && (r == -1 || j < r) ==> headers[j] != x
  {
    if headers == [] then -1
    else if headers[0] == x then 0
    else var r := IndexOf(headers[1..], x); if r == -1 then -1 else r + 1
  }

  /** `row[idx]`, None when there is no such cell (including idx = -1). */
  function Cell(row: seq<string>, idx: int): Option<string>
  {
    if 0 <= idx < |row| then Some(row[idx]) else None
  }

  /** `row[idx] || ''`. */
  function CellOr(row: seq<string>, idx: int): string
  {
    if 0 <= idx < |row| then row[idx] else ""
  }

  /** `row[idx]?.replace(/[$,]/g, '') || '0'`: the amount text without
      currency signs and thousands separators, '0' when missing or empty. */
  function AmountText(row: seq<string>, idx: int): (t: string)
    ensures '$' !in t && ',' !in t && t != ""
  {
    match Cell(row, idx)
    case None => "0"
    case Some(c) =>
      var t := RemoveChars(c, {'$', ','});
      if t == "" then "0" else t
  }

  /** `Math.abs(parseFloat(...))`; `parseFloat` gives None for NaN. */
  function ParsedAmount(parseFloat: string -> Option<real>, row: seq<string>, idx: int): (a: Option<real>)
    ensures a.Some? ==> a.value >= 0.0
  {
    match parseFloat(AmountText(row, idx))
    case None => None
    case Some(x) => Some(Abs(x))
  }

  /** The descriptions the preview treats as credits rather than purchases. */
  const CreditWords: seq<string> :=
    ["payment", "internet payment", "refund", "cashback bonus", "rewards credit", "credit adjustment"]

  predicate IsCredit(name: string)
  {
    exists k :: 0 <= k < |CreditWords| && Contains(ToLower(name), CreditWords[k])
  }

  /** The column positions of the mapping in the header row. */
  datatype Positions = Positions(date: int, name: int, amount: int)

  function PositionsOf(headers: seq<string>, m: ColumnMapping): Positions
  {
    Positions(IndexOf(headers, m.date), IndexOf(headers, m.name), IndexOf(headers, m.amount))
  }

  /** Whether a row is kept in the preview: an amount that is not zero (NaN
      passes, since no comparison with NaN holds), a name, and not a credit. */
  predicate KeptRow(row: seq<string>, pos: Positions, parseFloat: string -> Option<real>)
  {
    var amount := ParsedAmount(parseFloat, row, pos.amount);
    !(amount.Some? && amount.value <= 0.0) && CellOr(row, pos.name) != "" && !IsCredit(CellOr(row, pos.name))
  }

  /** The preview item of the data row at `rowIndex`, or None when it is dropped. */
  function PreviewOf(row: seq<string>, rowIndex: nat, pos: Positions, firstCategory: string,
                     purchases: seq<Purchase>, parseFloat: string -> Option<real>): (r: Option<PreviewItem>)
    ensures r.Some? <==> KeptRow(row, pos, parseFloat)
    ensures r.Some? ==>
      (r.value.rowIndex == rowIndex && r.value.selected && r.value.categoryId == firstCategory
       && r.value.name == CellOr(row, pos.name) && r.value.amount == ParsedAmount(parseFloat, row, pos.amount))
  {
    if !KeptRow(row, pos, parseFloat) then None
    else
      var name := CellOr(row, pos.name);
      var date := CellOr(row, pos.date);
      var amount := ParsedAmount(parseFloat, row, pos.amount);
      Some(PreviewItem(date, name, amount, firstCategory, rowIndex, true,
        IsDuplicatePurchase(purchases, name, amount, date)))
  }

  /** `categories[0]?.id || ''`. */
  function FirstCategoryId(categories: seq<Category>): string
  {
    if categories == [] then "" else categories[0].id
  }

  /** The items of the data rows from `from` on, in row order. */
  function CollectPreview(data: seq<seq<string>>, from: nat, pos: Positions, firstCategory: string,
                          purchases: seq<Purchase>, parseFloat: string -> Option<real>): (r: seq<PreviewItem>)
    requires from <= |data|
    ensures forall k :: 0 <= k < |r| ==>
      (from <= r[k].rowIndex < |data|
       && PreviewOf(data[r[k].rowIndex], r[k].rowIndex, pos, firstCategory, purchases, parseFloat) == Some(r[k]))
    ensures forall a, b :: 0 <= a < b < |r| ==> r[a].rowIndex < r[b].rowIndex
    decreases |data| - from
  {
    if from == |data| then []
    else
      var rest := CollectPreview(data, from + 1, pos, firstCategory, purchases, parseFloat);
      match PreviewOf(data[from], from, pos, firstCategory, purchases, parseFloat)
      case None => rest
      case Some(item) => [item] + rest
  }

  /** Does some item of `r` come from row `i`? */
  predicate HasRow(r: seq<PreviewItem>, i: nat)
  {
    exists k :: 0 <= k < |r| && r[k].rowIndex == i
  }

  /** Every kept row from `from` on has its item. */
  lemma {:induction false} CollectComplete(data: seq<seq<string>>, from: nat, pos: Positions, firstCategory: string,
                                           purchases: seq<Purchase>, parseFloat: string -> Option<real>, i: nat)
    requires from <= i < |data| && KeptRow(data[i], pos, parseFloat)
    ensures HasRow(CollectPreview(data, from, pos, firstCategory, purchases, parseFloat), i)
    decreases i - from
  {
    var r := CollectPreview(data, from, pos, firstCategory, purchases, parseFloat);
    var rest := CollectPreview(data, from + 1, pos, firstCategory, purchases, parseFloat);
    var item := PreviewOf(data[from], from, pos, firstCategory, purchases, parseFloat);
    if i == from {
      assert item.Some? && r == [item.value] + rest;
      assert r[0].rowIndex == i;
    } else {
      CollectComplete(data, from + 1, pos, firstCategory, purchases, parseFloat, i);
      var k :| 0 <= k < |rest| && rest[k].rowIndex == i;
      if item.Some? {
        assert r[k + 1] == rest[k];
      } else {
        assert r == rest;
      }
    }
  }

  /** The preview of the data rows: empty until there is data and the date,
      name and amount columns are chosen. */
  function Preview(data: seq<seq<string>>, headers: seq<string>, m: ColumnMapping, categories: seq<Category>,
                   purchases: seq<Purchase>, parseFloat: string -> Option<real>): seq<PreviewItem>
  {
    if |data| > 0 && m.date != "" && m.name != "" && m.amount != "" then
      CollectPreview(data, 0, PositionsOf(headers, m), FirstCategoryId(categories), purchases, parseFloat)
    else []
  }

  /** With data and a complete mapping, the preview holds exactly one item
      per kept row, in row order; each starts selected in the first category,
      has a name, an amount that is positive or not a number, and does not
      describe a credit. Without them it is empty. */
  lemma PreviewRows(data: seq<seq<string>>, headers: seq<string>, m: ColumnMapping, categories: seq<Category>,
                    purchases: seq<Purchase>, parseFloat: string -> Option<real>)
    ensures var p := Preview(data, headers, m, categories, purchases, parseFloat);
      var pos := PositionsOf(headers, m);
      (data == [] || m.date == "" || m.name == "" || m.amount == "" ==> p == [])
      && (forall k :: 0 <= k < |p| ==>
            p[k].rowIndex < |data| && KeptRow(data[p[k].rowIndex], pos, parseFloat)
            && p[k].selected && p[k].categoryId == FirstCategoryId(categories)
            && p[k].name != "" && !IsCredit(p[k].name)
            && (p[k].amount.Some? ==> p[k].amount.value > 0.0))
      && (forall a, b :: 0 <= a < b < |p| ==> p[a].rowIndex < p[b].rowIndex)
      && (data != [] && m.date != "" && m.name != "" && m.amount != "" ==>
            forall i: nat :: i < |data| && KeptRow(data[i], pos, parseFloat) ==> HasRow(p, i))
  {
    var p := Preview(data, headers, m, categories, purchases, parseFloat);
    var pos := PositionsOf(headers, m);
    if data != [] && m.date != "" && m.name != "" && m.amount != "" {
      forall i: nat | i < |data| && KeptRow(data[i], pos, parseFloat)
        ensures HasRow(p, i)
      {
        CollectComplete(data, 0, pos, FirstCategoryId(categories), purchases, parseFloat, i);
      }
    }
  }

  // ---------------------------------------------------------------------
  // Selection toggles and counts

  /** `handleToggleItem`: flips the selection of the items of row `rowIndex`. */
  function ToggleItem(p: seq<PreviewItem>, rowIndex: nat): seq<PreviewItem>
  {
    Map(p, (item: PreviewItem) => if item.rowIndex == rowIndex then item.(selected := !item.selected) else item)
  }

  /** `handleCategoryChange`: moves the items of row `rowIndex` to category `cid`. */
  function ChangeCategory(p: seq<PreviewItem>, rowIndex: nat, cid: string): seq<PreviewItem>
  {
    Map(p, (item: PreviewItem) => if item.rowIndex == rowIndex then item.(categoryId := cid) else item)
  }

  predicate AllSelected(p: seq<PreviewItem>)
  {
    forall k :: 0 <= k < |p| ==> p[k].selected
  }

  /** `handleToggleAll`: deselects everything when everything is selected,
      otherwise selects everything. */
  function ToggleAll(p: seq<PreviewItem>): seq<PreviewItem>
  {
    var all := AllSelected(p);
    Map(p, (item: PreviewItem) => item.(selected := !all))
  }

  function IsSelected(item: PreviewItem): bool { item.selected }

  function IsSelectedDuplicate(item: PreviewItem): bool { item.selected && item.isDuplicate }

  function SelectedCount(p: seq<PreviewItem>): nat
  {
    Count(p, IsSelected)
  }

  function DuplicateCount(p: seq<PreviewItem>): nat
  {
    Count(p, IsSelectedDuplicate)
  }

  /** Toggling a row twice restores the preview. */
  lemma ToggleItemTwice(p: seq<PreviewItem>, rowIndex: nat)
    ensures ToggleItem(ToggleItem(p, rowIndex), rowIndex) == p
  {
    var q := ToggleItem(ToggleItem(p, rowIndex), rowIndex);
    assert forall k :: 0 <= k < |p| ==> q[k] == p[k];
  }

  /** Toggling a row flips exactly its items' selection and changes nothing else. */
  lemma ToggleItemEffect(p: seq<PreviewItem>, rowIndex: nat)
    ensures var q := ToggleItem(p, rowIndex);
      |q| == |p|
      && (forall k :: 0 <= k < |p| ==>
            q[k].(selected := p[k].selected) == p[k]
            && (q[k].selected <==> (p[k].selected != (p[k].rowIndex == rowIndex))))
  {
  }

  /** Changing a row's category changes nothing but that row's category, so
      neither count moves. */
  lemma {:induction false} ChangeCategoryKeepsCounts(p: seq<PreviewItem>, rowIndex: nat, cid: string)
    ensures var q := ChangeCategory(p, rowIndex, cid);
      (forall k :: 0 <= k < |p| ==>
         q[k].(categoryId := p[k].categoryId) == p[k]
         && q[k].categoryId == (if p[k].rowIndex == rowIndex then cid else p[k].categoryId))
      && SelectedCount(q) == SelectedCount(p) && DuplicateCount(q) == DuplicateCount(p)
  {
    if p != [] {
      ChangeCategoryKeepsCounts(p[1..], rowIndex, cid);
      var q := ChangeCategory(p, rowIndex, cid);
      assert q[1..] == ChangeCategory(p[1..], rowIndex, cid);
    }
  }

  /** After "toggle all" either nothing or everything is selected: nothing
      exactly when everything was selected before; only the selection changes. */
  lemma ToggleAllEffect(p: seq<PreviewItem>)
    ensures var q := ToggleAll(p);
      |q| == |p|
      && (forall k :: 0 <= k < |p| ==> q[k].(selected := p[k].selected) == p[k])
      && (AllSelected(p) ==> SelectedCount(q) == 0)
      && (!AllSelected(p) ==> SelectedCount(q) == |p|)
  {
    var q := ToggleAll(p);
    if AllSelected(p) {
      FilterNone(q, IsSelected);
    } else {
      FilterAll(q, IsSelected);
    }
  }

  /** Of a preview where not everything is selected, toggling all twice
      deselects everything. */
  lemma ToggleAllTwice(p: seq<PreviewItem>)
    requires !AllSelected(p)
    ensures SelectedCount(ToggleAll(ToggleAll(p))) == 0
  {
    var q := ToggleAll(p);
    assert AllSelected(q);
    ToggleAllEffect(q);
  }

  /** The duplicate count counts selected items only. */
  lemma {:induction false} DuplicatesAmongSelected(p: seq<PreviewItem>)
    ensures DuplicateCount(p) <= SelectedCount(p)
  {
    if p != [] {
      DuplicatesAmongSelected(p[1..]);
    }
  }

  // ---------------------------------------------------------------------
  // Dates of imported rows

  /** The day, month and year numbers a date pattern captured, as `parseInt`
      reads its digit groups. */
  datatype DateParts = DateParts(year: nat, month: nat, day: nat)

  /** The three patterns the import tries: `(\d{1,2})/(\d{1,2})/(\d{4})`,
      `(\d{4})-(\d{2})-(\d{2})` and `(\d{1,2})-(\d{1,2})-(\d{4})`. */
  datatype DatePattern = MonthDayYear(sep: char) | YearMonthDay

  /** Digits from `i` to `j` of `s`. */
  predicate DigitsIn(s: string, i: int, j: int)
  {
    0 <= i <= j <= |s| && AllDigits(s[i..j])
  }

  /** A month/day/year match at `i` whose month has `a` digits and whose day has `b`. */
  predicate MdyShape(s: string, i: int, sep: char, a: int, b: int)
  {
    var j := i + a + 1 + b + 1;
    DigitsIn(s, i, i + a) && i + a < |s| && s[i + a] == sep
    && DigitsIn(s, i + a + 1, i + a + 1 + b) && j - 1 < |s| && s[j - 1] == sep
    && DigitsIn(s, j, j + 4)
  }

  function MdyParts(s: string, i: int, sep: char, a: int, b: int): DateParts
    requires MdyShape(s, i, sep, a, b)
  {
    var j := i + a + 1 + b + 1;
    DateParts(DigitsValue(s[j..j + 4]), DigitsValue(s[i..i + a]), DigitsValue(s[i + a + 1..i + a + 1 + b]))
  }

  /** The month/day/year pattern anchored at `i`, trying the group widths in
      the order a backtracking matcher does: two digits before one. */
  function MdyAt(s: string, i: int, sep: char): (r: Option<DateParts>)
    ensures r.Some? <==> exists a, b :: 1 <= a <= 2 && 1 <= b <= 2 && MdyShape(s, i, sep, a, b)
  {
    if MdyShape(s, i, sep, 2, 2) then Some(MdyParts(s, i, sep, 2, 2))
    else if MdyShape(s, i, sep, 2, 1) then Some(MdyParts(s, i, sep, 2, 1))
    else if MdyShape(s, i, sep, 1, 2) then Some(MdyParts(s, i, sep, 1, 2))
    else if MdyShape(s, i, sep, 1, 1) then Some(MdyParts(s, i, sep, 1, 1))
    else None
  }

  /** With a separator that is not a digit at most one choice of widths
      matches at a position, so the order tried does not matter. */
  lemma MdyShapeUnique(s: string, i: int, sep: char, a: int, b: int, a': int, b': int)
    requires !IsDigit(sep)
    requires 1 <= a <= 2 && 1 <= b <= 2 && 1 <= a' <= 2 && 1 <= b' <= 2
    requires MdyShape(s, i, sep, a, b) && MdyShape(s, i, sep, a', b')
    ensures a == a' && b == b'
  {
  }

  /** A year-month-day match at `i`. */
  predicate YmdShape(s: string, i: int)
  {
    DigitsIn(s, i, i + 4) && i + 4 < |s| && s[i + 4] == '-' && DigitsIn(s, i + 5, i + 7)
    && i + 7 < |s| && s[i + 7] == '-' && DigitsIn(s, i + 8, i + 10)
  }

  /** The year-month-day pattern anchored at `i`. */
  function YmdAt(s: string, i: int): (r: Option<DateParts>)
    ensures r.Some? <==> YmdShape(s, i)
  {
    if YmdShape(s, i) then Some(DateParts(DigitsValue(s[i..i + 4]), DigitsValue(s[i + 5..i + 7]), DigitsValue(s[i + 8..i + 10])))
    else None
  }

  function MatchAt(s: string, i: int, pat: DatePattern): Option<DateParts>
  {
    match pat
    case MonthDayYear(sep) => MdyAt(s, i, sep)
    case YearMonthDay => YmdAt(s, i)
  }

  /** `s.match(pattern)`: the leftmost match at or after `from`. */
  function Search(s: string, pat: DatePattern, from: nat): (r: Option<DateParts>)
    ensures r.Some? ==> exists i :: from <= i < |s| && MatchAt(s, i, pat) == r
                                  && forall j :: from <= j < i ==> MatchAt(s, j, pat).None?
    ensures r.None? ==> forall j :: from <= j < |s| ==> MatchAt(s, j, pat).None?
    decreases |s| - from
  {
    if from >= |s| then None
    else
      match MatchAt(s, from, pat)
      case Some(parts) => Some(parts)
      case None => Search(s, pat, from + 1)
  }

  /** The calendar day `new Date(...)` builds from captured parts: the month
      is zero based and carries, the day overflows into the next months. */
  function PartsDate(p: DateParts): (d: Date)
    ensures Valid(d)
  {
    NewDate(p.year, p.month as int - 1, p.day)
  }

  /** The day an imported date cell stands for: month/day/year with slashes,
      then year-month-day, then month-day-year with dashes; None when none
      of them occurs in the cell. */
  function ImportDate(s: string): (r: Option<Date>)
    ensures r.Some? ==> Valid(r.value)
  {
    match Search(s, MonthDayYear('/'), 0)
    case Some(p) => Some(PartsDate(p))
    case None =>
      match Search(s, YearMonthDay, 0)
      case Some(p) => Some(PartsDate(p))
      case None =>
        match Search(s, MonthDayYear('-'), 0)
        case Some(p) => Some(PartsDate(p))
        case None => None
  }

  /** Digit groups of one or two, one or two and four digits joined by a
      separator form a month/day/year match at the start. */
  lemma MdyShapeOf(m: string, dd: string, y: string, sep: char)
    requires AllDigits(m) && AllDigits(dd) && AllDigits(y)
    requires 1 <= |m| <= 2 && 1 <= |dd| <= 2 && |y| == 4
    ensures var s := m + [sep] + dd + [sep] + y;
      var j := |m| + 1 + |dd| + 1;
      MdyShape(s, 0, sep, |m|, |dd|)
      && s[0..|m|] == m && s[|m| + 1..|m| + 1 + |dd|] == dd && s[j..j + 4] == y
  {
    var s := m + [sep] + dd + [sep] + y;
    var j := |m| + 1 + |dd| + 1;
    assert s[0..|m|] == m && s[|m|] == sep;
    assert s[|m| + 1..|m| + 1 + |dd|] == dd && s[j - 1] == sep;
    assert s[j..j + 4] == y;
  }

  /** A match captures the numbers its digit groups spell. */
  lemma MdyPartsOf(s: string, i: int, sep: char, a: int, b: int, m: string, dd: string, y: string)
    requires MdyShape(s, i, sep, a, b)
    requires var j := i + a + 1 + b + 1;
      s[i..i + a] == m && s[i + a + 1..i + a + 1 + b] == dd && s[j..j + 4] == y
    ensures AllDigits(m) && AllDigits(dd) && AllDigits(y)
    ensures MdyParts(s, i, sep, a, b) == DateParts(DigitsValue(y), DigitsValue(m), DigitsValue(dd))
  {
  }

  /** A bank's `M/D/YYYY` cell is one month/day/year match at its start,
      capturing the day's numbers. */
  lemma SlashDateMatch(d: Date)
    requires Valid(d) && 100 <= d.year <= 9999
    ensures var s := SlashDate(d);
      var a := |NatToString(d.month)|;
      var b := |NatToString(d.day)|;
      1 <= a <= 2 && 1 <= b <= 2 && MdyShape(s, 0, '/', a, b)
      && MdyParts(s, 0, '/', a, b) == DateParts(d.year, d.month, d.day)
  {
    var m := NatToString(d.month);
    var dd := NatToString(d.day);
    var y := PadStart(NatToString(d.year), 4, '0');
    NatToStringLength(d.month);
    NatToStringLength(d.day);
    NatToStringLength(d.year);
    PaddedValue(NatToString(d.year), 4);
    DigitsOfNatToString(d.month);
    DigitsOfNatToString(d.day);
    DigitsOfNatToString(d.year);
    assert SlashDate(d) == m + ['/'] + dd + ['/'] + y;
    MdyMatchOf(m, dd, y, '/');
  }

  /** Digit groups joined by a separator match at the start and capture the
      numbers they spell. */
  lemma MdyMatchOf(m: string, dd: string, y: string, sep: char)
    requires AllDigits(m) && AllDigits(dd) && AllDigits(y)
    requires 1 <= |m| <= 2 && 1 <= |dd| <= 2 && |y| == 4
    ensures var s := m + [sep] + dd + [sep] + y;
      MdyShape(s, 0, sep, |m|, |dd|)
      && MdyParts(s, 0, sep, |m|, |dd|) == DateParts(DigitsValue(y), DigitsValue(m), DigitsValue(dd))
  {
    MdyShapeOf(m, dd, y, sep);
    MdyPartsOf(m + [sep] + dd + [sep] + y, 0, sep, |m|, |dd|, m, dd, y);
  }

  /** A bank's `M/D/YYYY` cell imports as its day. */
  lemma ImportSlashDate(d: Date)
    requires Valid(d) && 100 <= d.year <= 9999
    ensures ImportDate(SlashDate(d)) == Some(d)
  {
    var s := SlashDate(d);
    SlashDateMatch(d);
    var r := MdyAt(s, 0, '/');
    var a, b :| 1 <= a <= 2 && 1 <= b <= 2 && MdyShape(s, 0, '/', a, b) && r == Some(MdyParts(s, 0, '/', a, b));
    MdyShapeUnique(s, 0, '/', a, b, |NatToString(d.month)|, |NatToString(d.day)|);
    assert Search(s, MonthDayYear('/'), 0) == Some(DateParts(d.year, d.month, d.day));
    NewDateOfValid(d);
  }

  /** Four, two and two digits joined by dashes have the year-month-day
      shape at their start, and no slash. */
  lemma YmdShapeOf(y: string, m: string, dd: string)
    requires |y| == 4 && |m| == 2 && |dd| == 2 && AllDigits(y) && AllDigits(m) && AllDigits(dd)
    ensures var s := y + "-" + m + "-" + dd;
      YmdShape(s, 0) && s[0..4] == y && s[5..7] == m && s[8..10] == dd && '/' !in s
  {
    var s := y + "-" + m + "-" + dd;
    DigitsAvoid(y, '/'); DigitsAvoid(m, '/'); DigitsAvoid(dd, '/');
    assert s[0..4] == y && s[4] == '-' && s[5..7] == m && s[7] == '-' && s[8..10] == dd;
  }

  lemma YmdPartsOf(s: string, y: string, m: string, dd: string)
    requires YmdShape(s, 0) && s[0..4] == y && s[5..7] == m && s[8..10] == dd
    ensures YmdAt(s, 0) == Some(DateParts(DigitsValue(y), DigitsValue(m), DigitsValue(dd)))
  {
  }

  /** A stored `YYYY-MM-DD` cell is one year-month-day match at its start,
      capturing the day's numbers, and holds no slash. */
  lemma StoredDateMatch(d: Date)
    requires Valid(d) && 100 <= d.year <= 9999
    ensures '/' !in FormatDate(d)
    ensures YmdAt(FormatDate(d), 0) == Some(DateParts(d.year, d.month, d.day))
  {
    FormatDateParts(d);
    var y := PadStart(NatToString(d.year), 4, '0');
    var m := PadStart(NatToString(d.month), 2, '0');
    var dd := PadStart(NatToString(d.day), 2, '0');
    NatToStringLength(d.month);
    NatToStringLength(d.day);
    NatToStringLength(d.year);
    PaddedValue(NatToString(d.year), 4);
    PaddedValue(NatToString(d.month), 2);
    PaddedValue(NatToString(d.day), 2);
    DigitsOfNatToString(d.month);
    DigitsOfNatToString(d.day);
    DigitsOfNatToString(d.year);
    YmdShapeOf(y, m, dd);
    YmdPartsOf(FormatDate(d), y, m, dd);
  }

  /** A stored `YYYY-MM-DD` cell, as the export writes it, imports as its day. */
  lemma ImportStoredDate(d: Date)
    requires Valid(d) && 100 <= d.year <= 9999
    ensures ImportDate(FormatDate(d)) == Some(d)
  {
    var s := FormatDate(d);
    StoredDateMatch(d);
    assert Search(s, MonthDayYear('/'), 0).None?;
    assert Search(s, YearMonthDay, 0) == Some(DateParts(d.year, d.month, d.day));
    NewDateOfValid(d);
  }

  // ---------------------------------------------------------------------
  // Import

  /** The purchase the import asks the service to create; its notes are
      always "Imported from CSV". */
  datatype Draft = Draft(name: string, amount: Option<real>, date: Date, categoryId: string)

  /** `{ success, failed }`. */
  datatype ImportResult = ImportResult(success: nat, failed: nat)

  /** The draft for one selected item, or None when building it throws or
      finds no date: no such data row, no date cell, no date in it, or no
      name cell. The name loses its double quotes and surrounding blanks. */
  function Attempt(item: PreviewItem, csvData: seq<seq<string>>, dateIdx: int, nameIdx: int): (r: Option<Draft>)
    ensures r.Some? ==> Valid(r.value.date) && '"' !in r.value.name && Trimmed(r.value.name)
                        && r.value.amount == item.amount && r.value.categoryId == item.categoryId
  {
    if item.rowIndex >= |csvData| then None
    else
      var row := csvData[item.rowIndex];
      match Cell(row, dateIdx)
      case None => None
      case Some(cell) =>
        match ImportDate(cell)
        case None => None
        case Some(date) =>
          match Cell(row, nameIdx)
          case None => None
          case Some(name) =>
            var clean := RemoveChars(name, {'"'});
            TrimShape(clean);
            TrimKeepsOut(clean, '"');
            Some(Draft(Trim(clean), item.amount, date, item.categoryId))
  }

  /** What the loop has done after the given items: the counts and the drafts
      sent to the service, in order. `create` says whether the service
      accepted a draft (false: it threw). */
  datatype Progress = Progress(success: nat, failed: nat, sent: seq<Draft>)

  function Run(items: seq<PreviewItem>, csvData: seq<seq<string>>, dateIdx: int, nameIdx: int,
               create: Draft -> bool): (r: Progress)
    ensures r.success + r.failed == |items|
    ensures r.success <= |r.sent| <= |items|
    ensures forall k :: 0 <= k < |r.sent| ==> Valid(r.sent[k].date) && '"' !in r.sent[k].name
    decreases |items|
  {
    if items == [] then Progress(0, 0, [])
    else
      var before := Run(items[..|items| - 1], csvData, dateIdx, nameIdx, create);
      match Attempt(items[|items| - 1], csvData, dateIdx, nameIdx)
      case None => before.(failed := before.failed + 1)
      case Some(draft) =>
        if create(draft) then Progress(before.success + 1, before.failed, before.sent + [draft])
        else Progress(before.success, before.failed + 1, before.sent + [draft])
  }

  /** When the service accepts everything, the successes are the drafts sent. */
  lemma {:induction false} RunAllAccepted(items: seq<PreviewItem>, csvData: seq<seq<string>>, dateIdx: int,
                                          nameIdx: int, create: Draft -> bool)
    requires forall d :: create(d)
    ensures Run(items, csvData, dateIdx, nameIdx, create).success == |Run(items, csvData, dateIdx, nameIdx, create).sent|
    decreases |items|
  {
    if items != [] {
      RunAllAccepted(items[..|items| - 1], csvData, dateIdx, nameIdx, create);
    }
  }

  function IsUncategorised(item: PreviewItem): bool { item.categoryId == "" }

  /** `handleImport`: None when it returns early (a column of the mapping
      missing, nothing selected, or a selected item without a category);
      otherwise the result of trying every selected item in order. */
  function Import(preview: seq<PreviewItem>, csvData: seq<seq<string>>, headers: seq<string>, m: ColumnMapping,
                  create: Draft -> bool): (Option<ImportResult>, seq<Draft>)
  {
    var selected := Filter(preview, IsSelected);
    if m.date == "" || m.name == "" || m.amount == "" || selected == [] || Exists(selected, IsUncategorised) then
      (None, [])
    else
      var run := Run(selected, csvData, IndexOf(headers, m.date), IndexOf(headers, m.name), create);
      (Some(ImportResult(run.success, run.failed)), run.sent)
  }

  /** The import goes ahead: the mapping names the date, name and amount
      columns, one item at least is selected and every selected item has a
      category. */
  predicate ImportReady(preview: seq<PreviewItem>, m: ColumnMapping)
  {
    var selected := Filter(preview, IsSelected);
    m.date != "" && m.name != "" && m.amount != "" && SelectedCount(preview) > 0
    && forall k :: 0 <= k < |selected| ==> selected[k].categoryId != ""
  }

  /** An import that runs accounts for every selected item exactly once, and
      sends only drafts with a real day and a quote-free name; it runs
      exactly when it is ready. */
  lemma ImportAccounts(preview: seq<PreviewItem>, csvData: seq<seq<string>>, headers: seq<string>, m: ColumnMapping,
                       create: Draft -> bool)
    ensures Import(preview, csvData, headers, m, create).0.Some? <==> ImportReady(preview, m)
    ensures Import(preview, csvData, headers, m, create).0.None? ==> Import(preview, csvData, headers, m, create).1 == []
    ensures var out := Import(preview, csvData, headers, m, create);
      out.0.Some? ==> out.0.value.success + out.0.value.failed == SelectedCount(preview)
                      && out.0.value.success <= |out.1| <= SelectedCount(preview)
    ensures var sent := Import(preview, csvData, headers, m, create).1;
      forall k :: 0 <= k < |sent| ==> Valid(sent[k].date) && '"' !in sent[k].name
  {
    var selected := Filter(preview, IsSelected);
    if Exists(selected, IsUncategorised) {
      var k :| 0 <= k < |selected| && IsUncategorised(selected[k]);
      assert selected[k].categoryId == "";
    } else {
      forall k | 0 <= k < |selected|
        ensures selected[k].categoryId != ""
      {
        assert !IsUncategorised(selected[k]);
      }
    }
  }

  /** The import loop, kept as the component writes it: the counts start at
      zero and every selected item adds one success or one failure. */
  method HandleImport(preview: seq<PreviewItem>, csvData: seq<seq<string>>, headers: seq<string>, m: ColumnMapping,
                      create: Draft -> bool) returns (result: Option<ImportResult>, sent: seq<Draft>)
    ensures (result, sent) == Import(preview, csvData, headers, m, create)
  {
    var selected := Filter(preview, IsSelected);
    if m.date == "" || m.name == "" || m.amount == "" || |selected| == 0 {
      return None, [];
    }
    if Exists(selected, IsUncategorised) {
      return None, [];
    }
    var dateIdx := IndexOf(headers, m.date);
    var nameIdx := IndexOf(headers, m.name);
    var success, failed := 0, 0;
    sent := [];
    for i := 0 to |selected|
      invariant Progress(success, failed, sent) == Run(selected[..i], csvData, dateIdx, nameIdx, create)
    {
      assert selected[..i + 1][..i] == selected[..i];
      var attempt := Attempt(selected[i], csvData, dateIdx, nameIdx);
      if attempt.None? {
        failed := failed + 1;
        continue;
      }
      var draft := attempt.value;
      sent := sent + [draft];
      if create(draft) {
        success := success + 1;
      } else {
        failed := failed + 1;
      }
    }
    assert selected[..|selected|] == selected;
    result := Some(ImportResult(success, failed));
  }
}
