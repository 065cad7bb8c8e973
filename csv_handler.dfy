/**
 * Row extraction from an uploaded CSV (Assignment-1/app/csv_handler.py).
 * The input is the CSV already split into records of fields; the first
 * record is the header. The URL validation pydantic performs on each
 * element of `input_image_urls` is the parameter `isHttpUrl`.
 */
module CsvHandler {
  import opened Wrappers
  import opened PyStr
  import opened FilterMaps

  /**
   * The URLs keep the order they had in the field: the k-th URL is the
   * stripped piece at the k-th origin, the origins increase, and every
   * piece that is not blank after stripping gives a URL.
   */
  lemma SplitUrlsInOrder(field: string)
    ensures var pieces, urls := Split(field, ','), SplitUrls(field);
      var o := Origins(pieces, KeepStripped);
      && |o| == |urls|
      && (forall k :: 0 <= k < |o| ==> o[k] < |pieces| && urls[k] == Strip(pieces[o[k]]))
      && (forall k, l :: 0 <= k < l < |o| ==> o[k] < o[l])
      && (forall i :: 0 <= i < |pieces| && Strip(pieces[i]) != [] ==> i in o)
  {
    var pieces := Split(field, ',');
    StrippedNonEmptyIsFilterMap(pieces);
    FilterMapSubsequence(pieces, KeepStripped);
  }

  /** One product row handed to the pipeline (models.py `CSVRow`). */
  datatype CsvRow = CsvRow(serialNumber: string, productName: string, inputImageUrls: seq<string>)

  /** `next(reader)` raising on an input without even a header record. */
  datatype ParseError = MissingHeader

  /** The row a record of at least three fields yields before validation. */
  function CandidateRow(rec: seq<string>): CsvRow
    requires |rec| >= 3
  {
    CsvRow(Strip(rec[0]), Strip(rec[1]), SplitUrls(rec[2]))
  }

  /** `CSVRow(...)` constructs without raising: every URL is an HTTP URL (a list of any length). */
  predicate Validates(row: CsvRow, isHttpUrl: string -> bool) {
    forall k :: 0 <= k < |row.inputImageUrls| ==> isHttpUrl(row.inputImageUrls[k])
  }

  /** A data record that becomes a row: enough columns, and validation passes. */
  predicate Kept(rec: seq<string>, isHttpUrl: string -> bool) {
    |rec| >= 3 && Validates(CandidateRow(rec), isHttpUrl)
  }

  /** What one data record becomes: its row, or nothing. */
  function RecordRow(rec: seq<string>, isHttpUrl: string -> bool): (r: Option<CsvRow>)
    ensures |rec| < 3 ==> r.None?
    ensures r.Some? ==> WellFormedRow(r.value, isHttpUrl)
    ensures |rec| >= 3 && SplitUrls(rec[2]) == [] ==> r.Some?
    ensures |rec| >= 3 && r.None? ==>
      exists k :: 0 <= k < |SplitUrls(rec[2])| && !isHttpUrl(SplitUrls(rec[2])[k])
  {
    if |rec| < 3 then None
    else
      var row := CandidateRow(rec);
      SplitUrlsPieces(rec[2]);
      if Validates(row, isHttpUrl) then Some(row) else None
  }

  /** `RecordRow` for one validator, as a value to filter with. */
  function RowOf(isHttpUrl: string -> bool): seq<string> -> Option<CsvRow> {
    rec => RecordRow(rec, isHttpUrl)
  }

  /** The rows extracted from the data records (everything after the header), in order. */
  function ExtractRows(data: seq<seq<string>>, isHttpUrl: string -> bool): seq<CsvRow> {
    FilterMap(data, RowOf(isHttpUrl))
  }

  /**
   * `parse_csv`: skip the header, then keep each record with at least three
   * fields whose row validates, skipping the others.
   */
  method ParseCsv(records: seq<seq<string>>, isHttpUrl: string -> bool)
    returns (r: Result<seq<CsvRow>, ParseError>)
    ensures records == [] ==> r == Failure(MissingHeader)
    ensures records != [] ==> r == Success(ExtractRows(records[1..], isHttpUrl))
  {
    if records == [] {
      return Failure(MissingHeader);
    }
    var data := records[1..];
    var results: seq<CsvRow> := [];
    var i := 0;
    while i < |data|
      invariant 0 <= i <= |data|
      invariant results == ExtractRows(data[..i], isHttpUrl)
    {
      var row := data[i];
      if |row| < 3 {
        NextRecord(data, i, isHttpUrl);
        i := i + 1;
        continue;
      }
      var serialNumber := Strip(row[0]);
      var productName := Strip(row[1]);
      var imageUrls := SplitUrls(row[2]);
      var csvRow := CsvRow(serialNumber, productName, imageUrls);
      assert csvRow == CandidateRow(row);
      NextRecord(data, i, isHttpUrl);
      if Validates(csvRow, isHttpUrl) {
        results := results + [csvRow];
      }
      i := i + 1;
    }
    assert data[..|data|] == data;
    return Success(results);
  }

  lemma NextRecord(data: seq<seq<string>>, i: nat, isHttpUrl: string -> bool)
    requires i < |data|
    ensures ExtractRows(data[..i + 1], isHttpUrl)
         == ExtractRows(data[..i], isHttpUrl) + (if Kept(data[i], isHttpUrl) then [CandidateRow(data[i])] else [])
  {
    FilterMapSnoc(data, i, RowOf(isHttpUrl));
    assert RowOf(isHttpUrl)(data[i]) == RecordRow(data[i], isHttpUrl);
  }

  /** A record that is rejected, for too few columns or by validation, leaves the other records' rows as they are. */
  lemma RejectedRecordDropped(a: seq<seq<string>>, rec: seq<string>, b: seq<seq<string>>, isHttpUrl: string -> bool)
    requires !Kept(rec, isHttpUrl)
    ensures ExtractRows(a + [rec] + b, isHttpUrl) == ExtractRows(a, isHttpUrl) + ExtractRows(b, isHttpUrl)
  {
    assert RowOf(isHttpUrl)(rec) == RecordRow(rec, isHttpUrl);
    FilterMapSkip(a, rec, b, RowOf(isHttpUrl));
  }

  /** Extraction works record by record: the rows of a concatenation are the concatenated rows. */
  lemma ExtractRowsAppend(a: seq<seq<string>>, b: seq<seq<string>>, isHttpUrl: string -> bool)
    ensures ExtractRows(a + b, isHttpUrl) == ExtractRows(a, isHttpUrl) + ExtractRows(b, isHttpUrl)
  {
    FilterMapAppend(a, b, RowOf(isHttpUrl));
  }

  /** Only the first three fields of a record matter. */
  lemma ExtraFieldsIgnored(rec: seq<string>, extra: seq<string>, isHttpUrl: string -> bool)
    requires |rec| == 3
    ensures RecordRow(rec + extra, isHttpUrl) == RecordRow(rec, isHttpUrl)
  {
    var long := rec + extra;
    assert long[0] == rec[0] && long[1] == rec[1] && long[2] == rec[2];
    assert CandidateRow(long) == CandidateRow(rec);
  }

  /** A row as the pipeline receives it: stripped identity fields, stripped comma-free non-empty valid URLs. */
  predicate WellFormedRow(row: CsvRow, isHttpUrl: string -> bool) {
    && IsStripped(row.serialNumber) && IsStripped(row.productName)
    && (forall j :: 0 <= j < |row.inputImageUrls| ==>
          IsUrlPiece(row.inputImageUrls[j]) && isHttpUrl(row.inputImageUrls[j]))
  }

  lemma CandidateRowWellFormed(rec: seq<string>, isHttpUrl: string -> bool)
    requires Kept(rec, isHttpUrl)
    ensures WellFormedRow(CandidateRow(rec), isHttpUrl)
  {
    SplitUrlsPieces(rec[2]);
  }

  /** Every extracted row is well formed. */
  lemma ExtractedRowsWellFormed(data: seq<seq<string>>, isHttpUrl: string -> bool)
    ensures forall k :: 0 <= k < |ExtractRows(data, isHttpUrl)| ==> WellFormedRow(ExtractRows(data, isHttpUrl)[k], isHttpUrl)
  {
    var f := RowOf(isHttpUrl);
    var p := (row: CsvRow) => WellFormedRow(row, isHttpUrl);
    forall i | 0 <= i < |data| && f(data[i]).Some? ensures p(f(data[i]).value) {
      assert f(data[i]) == RecordRow(data[i], isHttpUrl);
      CandidateRowWellFormed(data[i], isHttpUrl);
    }
    FilterMapAll(data, f, p);
  }

  /**
   * The result is an order-preserving subsequence of the data records: the
   * k-th row comes from the kept record at the k-th origin, the origins
   * increase, and every record that passes both checks has an origin.
   */
  lemma ExtractRowsSubsequence(data: seq<seq<string>>, isHttpUrl: string -> bool)
    ensures var rows, o := ExtractRows(data, isHttpUrl), Origins(data, RowOf(isHttpUrl));
      && |o| == |rows|
      && (forall k :: 0 <= k < |o| ==>
            o[k] < |data| && Kept(data[o[k]], isHttpUrl) && rows[k] == CandidateRow(data[o[k]]))
      && (forall k, l :: 0 <= k < l < |o| ==> o[k] < o[l])
      && (forall i :: 0 <= i < |data| && Kept(data[i], isHttpUrl) ==> i in o)
  {
    var f := RowOf(isHttpUrl);
    FilterMapSubsequence(data, f);
    assert forall i :: 0 <= i < |data| ==> f(data[i]) == RecordRow(data[i], isHttpUrl);
  }

  /**
   * Whether a row whose URL column splits to nothing survives is decided
   * by validation alone, and validation of an empty list always passes:
   * such a row is kept, with an empty URL list.
   */
  lemma EmptyUrlListKept(rec: seq<string>, isHttpUrl: string -> bool)
    requires |rec| >= 3 && SplitUrls(rec[2]) == []
    ensures ExtractRows([rec], isHttpUrl) == [CsvRow(Strip(rec[0]), Strip(rec[1]), [])]
  {
    var row := CandidateRow(rec);
    assert row == CsvRow(Strip(rec[0]), Strip(rec[1]), []);
    assert Validates(row, isHttpUrl);
    assert RowOf(isHttpUrl)(rec) == Some(row);
    FilterMapSingle(rec, RowOf(isHttpUrl));
  }
}
