/** The CSV import of the first client (frog-budget/src/App.tsx,
    `CSVImportModal`). It splits lines as the newer client does, but detects
    the date column more loosely, previews only the first five rows, and
    imports every data row into one default category, skipping the rows
    without a positive amount or a name. */
module LegacyImport {
  import opened Common
  import opened Text
  import opened Calendar
  import opened CsvImport

  // ---------------------------------------------------------------------
  // Column detection

  const DateOrPosted := HasAny(["date", "posted"])
  const NameWords := HasAny(["description", "name", "merchant"])
  const AmountWords := HasAny(["amount", "debit", "charge"])
  const CategoryWords := HasAny(["category", "type"])

  /** The mapping guessed from the header row: for each field the first
      header whose lower-cased text holds one of its words. */
  function DetectLegacy(headers: seq<string>): ColumnMapping
  {
    ColumnMapping(Column(headers, DateOrPosted), Column(headers, NameWords), Column(headers, AmountWords),
      Column(headers, CategoryWords))
  }

  /** Every detected column is '' or one of the headers. */
  lemma DetectLegacyColumns(headers: seq<string>)
    ensures var m := DetectLegacy(headers);
      FromHeaders(m.date, headers) && FromHeaders(m.name, headers)
      && FromHeaders(m.amount, headers) && FromHeaders(m.category, headers)
  {
    ColumnFromHeaders(headers, DateOrPosted);
    ColumnFromHeaders(headers, NameWords);
    ColumnFromHeaders(headers, AmountWords);
    ColumnFromHeaders(headers, CategoryWords);
  }

  /** The date column is '' exactly when no header mentions a date or a posting. */
  lemma LegacyDateColumn(headers: seq<string>)
    ensures DetectLegacy(headers).date == "" <==>
      forall j :: 0 <= j < |headers| ==> !Passes(DateOrPosted, ToLower(headers[j]))
  {
    EmptyHeaderLacksDate();
    ColumnFromHeaders(headers, DateOrPosted);
  }

  lemma EmptyHeaderLacksDate()
    ensures !Passes(DateOrPosted, "")
  {
    EmptyHeaderFails(["date", "posted"]);
  }

  /** The name, amount and category columns are the ones the newer client
      finds in a bank's export. */
  lemma DetectLegacyAgrees(headers: seq<string>, format: CsvFormat)
    requires format != Amazon
    ensures var m := DetectLegacy(headers);
      var n := DetectColumns(headers, format);
      m.name == n.name && m.amount == n.amount && m.category == n.category
  {
  }

  // ---------------------------------------------------------------------
  // Preview

  /** A preview row; an amount that is not a number is None. */
  datatype Sample = Sample(date: string, name: string, amount: Option<real>)

  function SampleOf(row: seq<string>, pos: Positions, parseFloat: string -> Option<real>): Sample
  {
    Sample(CellOr(row, pos.date), CellOr(row, pos.name), ParsedAmount(parseFloat, row, pos.amount))
  }

  /** A sample is shown when it has a name and a positive amount; NaN is not
      positive, so a row whose amount is not a number is dropped. */
  predicate Shown(p: Sample)
  {
    p.name != "" && p.amount.Some? && p.amount.value > 0.0
  }

  /** The samples of the first five data rows that are shown; empty until
      there is data and the date, name and amount columns are chosen. */
  function LegacyPreview(data: seq<seq<string>>, headers: seq<string>, m: ColumnMapping,
                         parseFloat: string -> Option<real>): seq<Sample>
  {
    if |data| > 0 && m.date != "" && m.name != "" && m.amount != "" then
      var first := if |data| <= 5 then data else data[..5];
      Filter(Map(first, (row: seq<string>) => SampleOf(row, PositionsOf(headers, m), parseFloat)), Shown)
    else []
  }

  /** The preview holds at most five samples, each shown and each the sample
      of one of the first five rows; every shown sample of those rows is in
      it. */
  lemma LegacyPreviewRows(data: seq<seq<string>>, headers: seq<string>, m: ColumnMapping,
                          parseFloat: string -> Option<real>)
    ensures var p := LegacyPreview(data, headers, m, parseFloat);
      var pos := PositionsOf(headers, m);
      |p| <= 5
      && (forall x :: x in p ==>
            Shown(x) && exists i :: 0 <= i < |data| && i < 5 && x == SampleOf(data[i], pos, parseFloat))
      && (|data| > 0 && m.date != "" && m.name != "" && m.amount != "" ==>
            forall i :: 0 <= i < |data| && i < 5 && Shown(SampleOf(data[i], pos, parseFloat))
              ==> SampleOf(data[i], pos, parseFloat) in p)
  {
    var p := LegacyPreview(data, headers, m, parseFloat);
    var pos := PositionsOf(headers, m);
    if |data| > 0 && m.date != "" && m.name != "" && m.amount != "" {
      var first := if |data| <= 5 then data else data[..5];
      var samples := Map(first, (row: seq<string>) => SampleOf(row, pos, parseFloat));
      forall x | x in p
        ensures exists i :: 0 <= i < |data| && i < 5 && x == SampleOf(data[i], pos, parseFloat)
      {
        var i :| 0 <= i < |samples| && samples[i] == x;
        assert first[i] == data[i];
      }
      forall i | 0 <= i < |data| && i < 5 && Shown(SampleOf(data[i], pos, parseFloat))
        ensures SampleOf(data[i], pos, parseFloat) in p
      {
        assert samples[i] == SampleOf(data[i], pos, parseFloat);
      }
    }
  }

  /** A row whose amount is not a number shows in the newer client's
      preview when it has a name that is not a credit, but never here. */
  lemma NotANumberOnlyInNewerPreview(row: seq<string>, pos: Positions, parseFloat: string -> Option<real>)
    requires ParsedAmount(parseFloat, row, pos.amount).None?
    ensures !Shown(SampleOf(row, pos, parseFloat))
    ensures KeptRow(row, pos, parseFloat) <==> CellOr(row, pos.name) != "" && !IsCredit(CellOr(row, pos.name))
  {
  }

  // ---------------------------------------------------------------------
  // Import

  /** What the loop does with one data row. */
  datatype Outcome = Skipped | Failed | Ready(draft: Draft)

  /** A row is skipped when its amount is zero or below (NaN is not) or it
      has no name. */
  predicate SkipsRow(row: seq<string>, pos: Positions, parseFloat: string -> Option<real>)
  {
    var amount := ParsedAmount(parseFloat, row, pos.amount);
    (amount.Some? && amount.value <= 0.0) || CellOr(row, pos.name) == ""
  }

  /** `SkipsRow` as the test a count takes. */
  function SkipTest(pos: Positions, parseFloat: string -> Option<real>): seq<string> -> bool
  {
    (row: seq<string>) => SkipsRow(row, pos, parseFloat)
  }

  /** One data row: skipped, failed (no date cell, which throws, or no date
      in it), or a draft in the default category. */
  function RowOutcome(row: seq<string>, pos: Positions, defaultCategory: string,
                      parseFloat: string -> Option<real>): (r: Outcome)
    ensures r.Skipped? <==> SkipsRow(row, pos, parseFloat)
    ensures r.Ready? ==>
      Valid(r.draft.date) && '"' !in r.draft.name && Trimmed(r.draft.name)
      && r.draft.categoryId == defaultCategory && r.draft.amount == ParsedAmount(parseFloat, row, pos.amount)
  {
    if SkipsRow(row, pos, parseFloat) then Skipped
    else
      match Cell(row, pos.date)
      case None => Failed
      case Some(cell) =>
        match ImportDate(cell)
        case None => Failed
        case Some(date) =>
          var clean := RemoveChars(row[pos.name], {'"'});
          TrimShape(clean);
          TrimKeepsOut(clean, '"');
          Ready(Draft(Trim(clean), ParsedAmount(parseFloat, row, pos.amount), date, defaultCategory))
  }

  /** The counts after the given rows, the skipped rows that the component
      does not count among them, and the drafts sent to the service. */
  datatype Tally = Tally(success: nat, failed: nat, skipped: nat, sent: seq<Draft>)

  function LegacyRun(rows: seq<seq<string>>, pos: Positions, defaultCategory: string,
                     parseFloat: string -> Option<real>, create: Draft -> bool): (r: Tally)
    ensures r.success + r.failed + r.skipped == |rows|
    ensures r.success <= |r.sent|
    ensures forall k :: 0 <= k < |r.sent| ==> Valid(r.sent[k].date) && r.sent[k].categoryId == defaultCategory
    decreases |rows|
  {
    if rows == [] then Tally(0, 0, 0, [])
    else
      var before := LegacyRun(rows[..|rows| - 1], pos, defaultCategory, parseFloat, create);
      match RowOutcome(rows[|rows| - 1], pos, defaultCategory, parseFloat)
      case Skipped => before.(skipped := before.skipped + 1)
      case Failed => before.(failed := before.failed + 1)
      case Ready(draft) =>
        if create(draft) then Tally(before.success + 1, before.failed, before.skipped, before.sent + [draft])
        else Tally(before.success, before.failed + 1, before.skipped, before.sent + [draft])
  }

  /** The last row adds one skipped row exactly when it is skipped. */
  lemma SkipStep(rows: seq<seq<string>>, pos: Positions, defaultCategory: string,
                 parseFloat: string -> Option<real>, create: Draft -> bool)
    requires rows != []
    ensures LegacyRun(rows, pos, defaultCategory, parseFloat, create).skipped
      == LegacyRun(rows[..|rows| - 1], pos, defaultCategory, parseFloat, create).skipped
         + (if SkipsRow(rows[|rows| - 1], pos, parseFloat) then 1 else 0)
  {
  }

  /** The skipped rows are exactly the rows without a positive amount or a name. */
  lemma {:induction false} SkippedRows(rows: seq<seq<string>>, pos: Positions, defaultCategory: string,
                                       parseFloat: string -> Option<real>, create: Draft -> bool)
    ensures LegacyRun(rows, pos, defaultCategory, parseFloat, create).skipped
      == Count(rows, SkipTest(pos, parseFloat))
    decreases |rows|
  {
    if rows != [] {
      var init := rows[..|rows| - 1];
      var last := rows[|rows| - 1];
      SkippedRows(init, pos, defaultCategory, parseFloat, create);
      SkipStep(rows, pos, defaultCategory, parseFloat, create);
      assert rows == init + [last];
      FilterAppend(init, [last], SkipTest(pos, parseFloat));
    }
  }

  /** `handleImport`: None when it returns early (a column of the mapping or
      the default category missing), otherwise the counts over every data row. */
  function Import(csvData: seq<seq<string>>, headers: seq<string>, m: ColumnMapping, defaultCategory: string,
                  parseFloat: string -> Option<real>, create: Draft -> bool): (Option<ImportResult>, seq<Draft>)
  {
    if m.date == "" || m.name == "" || m.amount == "" || defaultCategory == "" then (None, [])
    else
      var run := LegacyRun(csvData, PositionsOf(headers, m), defaultCategory, parseFloat, create);
      (Some(ImportResult(run.success, run.failed)), run.sent)
  }

  /** An import that runs counts every data row that is not skipped once, as
      a success or a failure, and files every draft it sends under the
      default category. */
  lemma ImportAccounts(csvData: seq<seq<string>>, headers: seq<string>, m: ColumnMapping, defaultCategory: string,
                       parseFloat: string -> Option<real>, create: Draft -> bool)
    ensures var out := Import(csvData, headers, m, defaultCategory, parseFloat, create);
      var result := out.0;
      var sent := out.1;
      var pos := PositionsOf(headers, m);
      (result.Some? <==> m.date != "" && m.name != "" && m.amount != "" && defaultCategory != "")
      && (result.Some? ==>
            result.value.success + result.value.failed
              + Count(csvData, SkipTest(pos, parseFloat)) == |csvData|)
      && (forall k :: 0 <= k < |sent| ==> Valid(sent[k].date) && sent[k].categoryId == defaultCategory)
  {
    SkippedRows(csvData, PositionsOf(headers, m), defaultCategory, parseFloat, create);
  }

  /** The import loop as the component writes it. */
  method HandleImport(csvData: seq<seq<string>>, headers: seq<string>, m: ColumnMapping, defaultCategory: string,
                      parseFloat: string -> Option<real>, create: Draft -> bool)
    returns (result: Option<ImportResult>, sent: seq<Draft>)
    ensures (result, sent) == Import(csvData, headers, m, defaultCategory, parseFloat, create)
  {
    if m.date == "" || m.name == "" || m.amount == "" || defaultCategory == "" {
      return None, [];
    }
    var pos := PositionsOf(headers, m);
    var success, failed := 0, 0;
    ghost var skipped := 0;
    sent := [];
    for i := 0 to |csvData|
      invariant Tally(success, failed, skipped, sent) == LegacyRun(csvData[..i], pos, defaultCategory, parseFloat, create)
    {
      assert csvData[..i + 1][..i] == csvData[..i];
      var outcome := RowOutcome(csvData[i], pos, defaultCategory, parseFloat);
      match outcome {
        case Skipped =>
          skipped := skipped + 1;
        case Failed =>
          failed := failed + 1;
        case Ready(draft) =>
          sent := sent + [draft];
          if create(draft) {
            success := success + 1;
          } else {
            failed := failed + 1;
          }
      }
    }
    assert csvData[..|csvData|] == csvData;
    result := Some(ImportResult(success, failed));
  }
}
