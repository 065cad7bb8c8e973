/**
 * The batch pipeline and the request table of the image service
 * (Assignment-1/app/api.py): object keys and public URLs, one run of
 * `process_images` as a specification function `Run` and as the methods of
 * `Service`, the intake of `upload_csv` and the lookup of `get_status`.
 * Every call into storage, the network or the image codec is an oracle
 * input: `ImageOutcome`, `PutOutcome`, the fresh ids and `delivered`.
 */
module Api {
  import opened Wrappers
  import opened PyStr
  import opened FilterMaps
  import opened CsvHandler

  /** The bucket used when `AWS_BUCKET` is not set. */
  const DefaultBucket: string := "compressimageurls"

  const ImageContentType: string := "image/jpeg"
  const CsvContentType: string := "text/csv"

  const UrlScheme: string := "https://"
  const UrlHostSuffix: string := ".s3.amazonaws.com/"
  const ImageKeyPrefix: string := "images/"
  const ImageKeySuffix: string := ".jpg"
  const ResultKeyPrefix: string := "csvfile/"
  const ResultKeySuffix: string := "_output.csv"

  /** The text before a public URL's key. */
  function UrlBase(bucket: string): string {
    UrlScheme + bucket + UrlHostSuffix
  }

  /** The public URL of an object: `https://{bucket}.s3.amazonaws.com/{key}`. */
  function PublicUrl(bucket: string, key: string): string {
    UrlBase(bucket) + key
  }

  /** The key of a compressed image: `images/{id}.jpg`. */
  function ImageKey(id: string): string {
    ImageKeyPrefix + id + ImageKeySuffix
  }

  /** The key of a request's result table: `csvfile/{request_id}_output.csv`. */
  function ResultKey(requestId: string): string {
    ResultKeyPrefix + requestId + ResultKeySuffix
  }

  /** The URL under which a request's result table is published. */
  function ResultUrl(bucket: string, requestId: string): string {
    PublicUrl(bucket, ResultKey(requestId))
  }

  /** Reads the middle of `s` back, if `s` has the given prefix and suffix. */
  function Between(s: string, prefix: string, suffix: string): (r: Option<string>)
    ensures r.Some? ==> s == prefix + r.value + suffix
  {
    if |prefix| + |suffix| <= |s| && s[..|prefix|] == prefix && s[|s| - |suffix|..] == suffix
    then
      var mid := s[|prefix|..|s| - |suffix|];
      assert s == s[..|prefix|] + mid + s[|s| - |suffix|..];
      Some(mid)
    else None
  }

  lemma BetweenOfFramed(prefix: string, mid: string, suffix: string)
    ensures Between(prefix + mid + suffix, prefix, suffix) == Some(mid)
  {
    var s := prefix + mid + suffix;
    assert s[..|prefix|] == prefix;
    assert s[|s| - |suffix|..] == suffix;
    assert s[|prefix|..|s| - |suffix|] == mid;
  }

  /** The image id a key names, if it is an image key. */
  function ImageIdOf(key: string): Option<string> {
    Between(key, ImageKeyPrefix, ImageKeySuffix)
  }

  /** The request id a key names, if it is a result key. */
  function ResultIdOf(key: string): Option<string> {
    Between(key, ResultKeyPrefix, ResultKeySuffix)
  }

  /** The key a URL of this bucket names, if it is one. */
  function KeyOf(bucket: string, url: string): Option<string> {
    Between(url, UrlBase(bucket), [])
  }

  lemma ImageKeyRoundTrip(id: string)
    ensures ImageIdOf(ImageKey(id)) == Some(id)
  {
    BetweenOfFramed(ImageKeyPrefix, id, ImageKeySuffix);
  }

  lemma ResultKeyRoundTrip(requestId: string)
    ensures ResultIdOf(ResultKey(requestId)) == Some(requestId)
  {
    BetweenOfFramed(ResultKeyPrefix, requestId, ResultKeySuffix);
  }

  lemma PublicUrlRoundTrip(bucket: string, key: string)
    ensures KeyOf(bucket, PublicUrl(bucket, key)) == Some(key)
  {
    BetweenOfFramed(UrlBase(bucket), key, []);
    assert UrlBase(bucket) + key + [] == PublicUrl(bucket, key);
  }

  /** An image key is never a result key, so an image upload never overwrites a result table. */
  lemma ImageKeyIsNotResultKey(id: string, requestId: string)
    ensures ImageKey(id) != ResultKey(requestId)
  {
    assert ImageKey(id)[0] == ImageKeyPrefix[0] == 'i';
    assert ResultKey(requestId)[0] == ResultKeyPrefix[0] == 'c';
  }

  /** Distinct ids give distinct image URLs, and distinct requests distinct result URLs. */
  lemma PublicUrlsInjective(bucket: string, id1: string, id2: string)
    ensures PublicUrl(bucket, ImageKey(id1)) == PublicUrl(bucket, ImageKey(id2)) ==> id1 == id2
    ensures ResultUrl(bucket, id1) == ResultUrl(bucket, id2) ==> id1 == id2
  {
    PublicUrlRoundTrip(bucket, ImageKey(id1));
    PublicUrlRoundTrip(bucket, ImageKey(id2));
    PublicUrlRoundTrip(bucket, ResultKey(id1));
    PublicUrlRoundTrip(bucket, ResultKey(id2));
    ImageKeyRoundTrip(id1);
    ImageKeyRoundTrip(id2);
    ResultKeyRoundTrip(id1);
    ResultKeyRoundTrip(id2);
  }

  /** An image URL is one clean piece of a `", "`-joined list when the bucket and the id hold no comma. */
  lemma ImageUrlIsPiece(bucket: string, id: string)
    requires ',' !in bucket && ',' !in id
    ensures IsUrlPiece(PublicUrl(bucket, ImageKey(id)))
  {
    var u := PublicUrl(bucket, ImageKey(id));
    assert ',' !in UrlScheme && ',' !in UrlHostSuffix;
    assert ',' !in ImageKeyPrefix && ',' !in ImageKeySuffix;
    assert ',' !in UrlBase(bucket) && ',' !in ImageKey(id);
    assert u[0] == UrlScheme[0] == 'h';
    assert u[|u| - 1] == ImageKeySuffix[3] == 'g';
  }

  // ---------------------------------------------------------------------
  // One row's images (api.py:86-102)

  /**
   * What happened to one input image. `CompressFailed`: the download or
   * the re-encoding raised. `Compressed(id, put)`: the image was
   * compressed, `id` is the fresh uuid drawn for its key and `put` is what
   * the upload of the compressed bytes did.
   */
  datatype ImageOutcome = CompressFailed | Compressed(id: string, put: PutOutcome)

  /** The outcome of one `put_object`: done, or raised with the given text. */
  datatype PutOutcome = PutOk | PutFailed(detail: string)

  /** The bytes an object holds. */
  datatype Body = CompressedImage(source: string) | CsvTable(records: seq<seq<string>>)

  datatype StoredObject = StoredObject(key: string, contentType: string, body: Body)

  /** One input URL, as a string, with what happened to its image. */
  datatype Attempt = Attempt(url: string, outcome: ImageOutcome)

  /** What the service does to the outside world, in order. */
  datatype Event =
    | Put(obj: StoredObject)
    | Wrote(write: StoreWrite)
    | Notified(url: string, payload: Payload, delivered: bool)

  /** The three statements that write `processing_requests`. */
  datatype StoreWrite =
    | InsertPending(requestId: string, webhookUrl: Option<string>)
    | MarkFailed(requestId: string, error: string)
    | MarkComplete(requestId: string, resultUrl: string)

  /** The JSON body posted to the webhook. */
  datatype Payload = Payload(requestId: string, status: string, outputCsv: string, message: string)

  /** Pairs each URL with its outcome. */
  function Attempts(urls: seq<string>, outcomes: seq<ImageOutcome>): (r: seq<Attempt>)
    requires |outcomes| == |urls|
    ensures |r| == |urls|
  {
    seq(|urls|, k requires 0 <= k < |urls| => Attempt(urls[k], outcomes[k]))
  }

  /** The object an attempt stores: its compressed image under `images/{id}.jpg`. */
  function ImageObject(a: Attempt): StoredObject
    requires a.outcome.Compressed?
  {
    StoredObject(ImageKey(a.outcome.id), ImageContentType, CompressedImage(a.url))
  }

  predicate Uploaded(a: Attempt) {
    a.outcome.Compressed? && a.outcome.put.PutOk?
  }

  /** The public URL an attempt contributes to `output_image_urls`, if it succeeded. */
  function UploadedUrl(bucket: string): Attempt -> Option<string> {
    (a: Attempt) => if Uploaded(a) then Some(PublicUrl(bucket, ImageKey(a.outcome.id))) else None
  }

  /** The object upload an attempt performs, if it succeeded. */
  function UploadedObject(a: Attempt): Option<Event> {
    if Uploaded(a) then Some(Put(ImageObject(a))) else None
  }

  /** `output_image_urls` for one row. */
  function OutputUrls(bucket: string, attempts: seq<Attempt>): seq<string> {
    FilterMap(attempts, UploadedUrl(bucket))
  }

  /** The image uploads of one row, in order. */
  function ImagePuts(attempts: seq<Attempt>): seq<Event> {
    FilterMap(attempts, UploadedObject)
  }

  /** `[f(x) for x in xs]`. */
  function Map<A, B>(xs: seq<A>, f: A -> B): seq<B>
  {
    seq(|xs|, k requires 0 <= k < |xs| => f(xs[k]))
  }

  /** The URL under which a put object is published. */
  function PublishedUrl(bucket: string): Event -> string {
    (e: Event) => if e.Put? then PublicUrl(bucket, e.obj.key) else []
  }

  /**
   * The row's output URLs are exactly the public URLs of the images it
   * uploaded, one for one and in the same order.
   */
  lemma OutputUrlsArePublished(bucket: string, attempts: seq<Attempt>)
    ensures OutputUrls(bucket, attempts) == Map(ImagePuts(attempts), PublishedUrl(bucket))
  {
    var f, g, h := UploadedUrl(bucket), UploadedObject, PublishedUrl(bucket);
    assert forall a: Attempt :: f(a).Some? <==> g(a).Some?;
    assert forall a: Attempt :: f(a).Some? ==> f(a).value == h(g(a).value);
    FilterMapThrough(attempts, f, g, h);
  }

  /** One image that fails leaves the other images' URLs as they are. */
  lemma FailedImageSkipped(bucket: string, before: seq<Attempt>, a: Attempt, after: seq<Attempt>)
    requires !Uploaded(a)
    ensures OutputUrls(bucket, before + [a] + after) == OutputUrls(bucket, before) + OutputUrls(bucket, after)
    ensures ImagePuts(before + [a] + after) == ImagePuts(before) + ImagePuts(after)
  {
    assert UploadedUrl(bucket)(a).None?;
    FilterMapSkip(before, a, after, UploadedUrl(bucket));
    FilterMapSkip(before, a, after, UploadedObject);
  }

  /**
   * A row's output URL list is an order-preserving subsequence of its
   * attempts: the k-th URL is that of the k-th successful image, and every
   * successful image has its URL in the list.
   */
  lemma OutputUrlsInOrder(bucket: string, attempts: seq<Attempt>)
    ensures var urls, o := OutputUrls(bucket, attempts), Origins(attempts, UploadedUrl(bucket));
      && |urls| == |o| <= |attempts|
      && (forall k :: 0 <= k < |o| ==>
            o[k] < |attempts| && Uploaded(attempts[o[k]])
            && urls[k] == PublicUrl(bucket, ImageKey(attempts[o[k]].outcome.id)))
      && (forall k, l :: 0 <= k < l < |o| ==> o[k] < o[l])
      && (forall i :: 0 <= i < |attempts| && Uploaded(attempts[i]) ==> i in o)
  {
    var f := UploadedUrl(bucket);
    FilterMapSubsequence(attempts, f);
    assert forall i :: 0 <= i < |attempts| ==> (f(attempts[i]).Some? <==> Uploaded(attempts[i]));
  }

  /** A row none of whose images uploads gets an empty output URL list. */
  lemma NoUploadsNoUrls(bucket: string, attempts: seq<Attempt>)
    requires forall i :: 0 <= i < |attempts| ==> !Uploaded(attempts[i])
    ensures OutputUrls(bucket, attempts) == []
    ensures ImagePuts(attempts) == []
  {
    FilterMapAllNone(attempts, UploadedUrl(bucket));
    FilterMapAllNone(attempts, UploadedObject);
  }

  // ---------------------------------------------------------------------
  // Output rows and the result table (api.py:85-119)

  /** One record of the result table, before CSV quoting. */
  datatype OutputRow = OutputRow(serialNumber: string, productName: string, inputImageUrls: string, outputImageUrls: string)

  /** Each row's outcome list has one outcome per input URL. */
  predicate Aligned(rows: seq<CsvRow>, outcomes: seq<seq<ImageOutcome>>) {
    |outcomes| == |rows| && forall k :: 0 <= k < |rows| ==> |outcomes[k]| == |rows[k].inputImageUrls|
  }

  /**
   * The attempts of one row: `input_image_urls` is the row's URLs through
   * `str`, here `render`, paired with their outcomes.
   */
  function RowAttempts(row: CsvRow, outcomes: seq<ImageOutcome>, render: string -> string): seq<Attempt>
    requires |outcomes| == |row.inputImageUrls|
  {
    Attempts(Map(row.inputImageUrls, render), outcomes)
  }

  /** The output row of one input row (api.py:105-110). */
  function OutputRowOf(bucket: string, row: CsvRow, outcomes: seq<ImageOutcome>, render: string -> string): OutputRow
    requires |outcomes| == |row.inputImageUrls|
  {
    OutputRow(row.serialNumber, row.productName,
              Join(Map(row.inputImageUrls, render), UrlListSeparator),
              Join(OutputUrls(bucket, RowAttempts(row, outcomes, render)), UrlListSeparator))
  }

  /** `output_rows`: one output row per input row, in order. */
  function OutputRows(bucket: string, rows: seq<CsvRow>, outcomes: seq<seq<ImageOutcome>>, render: string -> string): (r: seq<OutputRow>)
    requires Aligned(rows, outcomes)
    ensures |r| == |rows|
    ensures forall k :: 0 <= k < |rows| ==>
      r[k].serialNumber == rows[k].serialNumber && r[k].productName == rows[k].productName
  {
    seq(|rows|, k requires 0 <= k < |rows| => OutputRowOf(bucket, rows[k], outcomes[k], render))
  }

  /** The image uploads of the first `n` rows, row by row. */
  function PutsOfFirst(rows: seq<CsvRow>, outcomes: seq<seq<ImageOutcome>>, render: string -> string, n: nat): seq<Event>
    requires Aligned(rows, outcomes) && n <= |rows|
    decreases n
  {
    if n == 0 then []
    else PutsOfFirst(rows, outcomes, render, n - 1) + ImagePuts(RowAttempts(rows[n - 1], outcomes[n - 1], render))
  }

  /** All image uploads of a batch, row by row. */
  function BatchPuts(rows: seq<CsvRow>, outcomes: seq<seq<ImageOutcome>>, render: string -> string): seq<Event>
    requires Aligned(rows, outcomes)
  {
    PutsOfFirst(rows, outcomes, render, |rows|)
  }

  /** An image upload: a put of a JPEG under an image key. */
  predicate IsImagePut(e: Event) {
    e.Put? && e.obj.contentType == ImageContentType && ImageIdOf(e.obj.key).Some?
  }

  lemma ImagePutsAreImagePuts(attempts: seq<Attempt>)
    ensures forall k :: 0 <= k < |ImagePuts(attempts)| ==> IsImagePut(ImagePuts(attempts)[k])
  {
    forall i | 0 <= i < |attempts| && UploadedObject(attempts[i]).Some?
      ensures IsImagePut(UploadedObject(attempts[i]).value)
    {
      ImageKeyRoundTrip(attempts[i].outcome.id);
    }
    FilterMapAll(attempts, UploadedObject, IsImagePut);
  }

  lemma {:induction false} PutsOfFirstAreImagePuts(rows: seq<CsvRow>, outcomes: seq<seq<ImageOutcome>>, render: string -> string, n: nat)
    requires Aligned(rows, outcomes) && n <= |rows|
    ensures forall k :: 0 <= k < |PutsOfFirst(rows, outcomes, render, n)| ==> IsImagePut(PutsOfFirst(rows, outcomes, render, n)[k])
    decreases n
  {
    if n > 0 {
      PutsOfFirstAreImagePuts(rows, outcomes, render, n - 1);
      var front, last := PutsOfFirst(rows, outcomes, render, n - 1), ImagePuts(RowAttempts(rows[n - 1], outcomes[n - 1], render));
      ImagePutsAreImagePuts(RowAttempts(rows[n - 1], outcomes[n - 1], render));
      forall k | 0 <= k < |front + last| ensures IsImagePut((front + last)[k]) {
        if k >= |front| {
          assert (front + last)[k] == last[k - |front|];
        }
      }
    }
  }

  /** The loop step of the rows: a log holding the first `k` rows' uploads, extended by row `k`'s, holds the first `k + 1` rows'. */
  lemma PutsOfFirstStep(start: seq<Event>, before: seq<Event>, after: seq<Event>,
                        rows: seq<CsvRow>, outcomes: seq<seq<ImageOutcome>>, render: string -> string, k: nat)
    requires Aligned(rows, outcomes) && k < |rows|
    requires before == start + PutsOfFirst(rows, outcomes, render, k)
    requires after == before + ImagePuts(RowAttempts(rows[k], outcomes[k], render))
    ensures after == start + PutsOfFirst(rows, outcomes, render, k + 1)
  {
    var done, puts := PutsOfFirst(rows, outcomes, render, k), ImagePuts(RowAttempts(rows[k], outcomes[k], render));
    assert start + done + puts == start + (done + puts);
  }

  /** Before the result table, a run only uploads images: no store write and no webhook call. */
  lemma BatchPutsAreImagePuts(rows: seq<CsvRow>, outcomes: seq<seq<ImageOutcome>>, render: string -> string)
    requires Aligned(rows, outcomes)
    ensures forall k :: 0 <= k < |BatchPuts(rows, outcomes, render)| ==> IsImagePut(BatchPuts(rows, outcomes, render)[k])
  {
    PutsOfFirstAreImagePuts(rows, outcomes, render, |rows|);
  }

  /** The table's header record (api.py:114). */
  const ResultHeader: seq<string> := ["Serial Number", "Product Name", "Input Image Urls", "Output Image Urls"]

  /** The record `writerow` emits for an output row: its fields in header order. */
  function RecordOf(row: OutputRow): seq<string> {
    [row.serialNumber, row.productName, row.inputImageUrls, row.outputImageUrls]
  }

  /** The result table: the header, then one record per output row. */
  function ResultTable(rows: seq<OutputRow>): seq<seq<string>> {
    [ResultHeader] + Map(rows, RecordOf)
  }

  function RowOfRecord(rec: seq<string>): OutputRow
    requires |rec| == 4
  {
    OutputRow(rec[0], rec[1], rec[2], rec[3])
  }

  /** Every record after the first has four fields. */
  predicate FourFieldRecords(table: seq<seq<string>>) {
    forall k :: 1 <= k < |table| ==> |table[k]| == 4
  }

  /** The rows of a table, read back from the records after the first. */
  function TableRows(table: seq<seq<string>>): (r: seq<OutputRow>)
    requires |table| >= 1 && FourFieldRecords(table)
    ensures |r| + 1 == |table|
  {
    seq(|table| - 1, k requires 0 <= k < |table| - 1 => RowOfRecord(table[k + 1]))
  }

  /** Reads a result table back: the header must come first and every record must have four fields. */
  function ReadResultTable(table: seq<seq<string>>): (r: Option<seq<OutputRow>>)
    ensures r.Some? ==> |r.value| + 1 == |table|
  {
    if |table| >= 1 && table[0] == ResultHeader && FourFieldRecords(table) then Some(TableRows(table)) else None
  }

  lemma ResultTableRecords(rows: seq<OutputRow>)
    ensures |ResultTable(rows)| >= 1 && FourFieldRecords(ResultTable(rows))
    ensures TableRows(ResultTable(rows)) == rows
  {
    var t := ResultTable(rows);
    var records := Map(rows, RecordOf);
    assert t == [ResultHeader] + records;
    forall k | 1 <= k < |t| ensures |t[k]| == 4 {
      assert t[k] == records[k - 1] == RecordOf(rows[k - 1]);
    }
    var back := TableRows(t);
    forall k | 0 <= k < |rows| ensures back[k] == rows[k] {
      assert t[k + 1] == RecordOf(rows[k]);
    }
  }

  lemma ResultTableHeader(rows: seq<OutputRow>)
    ensures ResultTable(rows)[0] == ResultHeader
  {
    assert ResultTable(rows) == [ResultHeader] + Map(rows, RecordOf);
  }

  /** The table holds exactly the output rows, behind exactly the header. */
  lemma ResultTableRoundTrip(rows: seq<OutputRow>)
    ensures ReadResultTable(ResultTable(rows)) == Some(rows)
  {
    ResultTableRecords(rows);
    ResultTableHeader(rows);
  }

  /**
   * The "Input Image Urls" column reads back, through the split of
   * csv_handler.py:21, to the row's URLs as strings, provided each string
   * is one clean piece.
   */
  lemma InputColumnReadBack(bucket: string, row: CsvRow, outcomes: seq<ImageOutcome>, render: string -> string)
    requires |outcomes| == |row.inputImageUrls|
    requires forall k :: 0 <= k < |row.inputImageUrls| ==> IsUrlPiece(render(row.inputImageUrls[k]))
    ensures SplitUrls(OutputRowOf(bucket, row, outcomes, render).inputImageUrls) == Map(row.inputImageUrls, render)
  {
    var us := Map(row.inputImageUrls, render);
    assert OutputRowOf(bucket, row, outcomes, render).inputImageUrls == Join(us, UrlListSeparator);
    assert forall k :: 0 <= k < |us| ==> us[k] == render(row.inputImageUrls[k]);
    SplitUrlsOfJoin(us);
  }

  /**
   * The "Output Image Urls" column reads back, through the same split, to
   * the row's output URL list when neither the bucket nor an image id holds
   * a comma.
   */
  lemma OutputColumnReadBack(bucket: string, row: CsvRow, outcomes: seq<ImageOutcome>, render: string -> string)
    requires |outcomes| == |row.inputImageUrls|
    requires ',' !in bucket
    requires forall k :: 0 <= k < |outcomes| && outcomes[k].Compressed? ==> ',' !in outcomes[k].id
    ensures SplitUrls(OutputRowOf(bucket, row, outcomes, render).outputImageUrls)
         == OutputUrls(bucket, RowAttempts(row, outcomes, render))
  {
    var attempts := RowAttempts(row, outcomes, render);
    var f := UploadedUrl(bucket);
    forall i | 0 <= i < |attempts| && f(attempts[i]).Some? ensures IsUrlPiece(f(attempts[i]).value) {
      assert attempts[i].outcome == outcomes[i];
      ImageUrlIsPiece(bucket, outcomes[i].id);
    }
    FilterMapAll(attempts, f, IsUrlPiece);
    SplitUrlsOfJoin(OutputUrls(bucket, attempts));
  }

  lemma MapSnoc<A, B>(xs: seq<A>, j: nat, f: A -> B)
    requires j < |xs|
    ensures Map(xs[..j + 1], f) == Map(xs[..j], f) + [f(xs[j])]
  {
    assert forall k :: 0 <= k < j ==> xs[..j + 1][k] == xs[..j][k];
  }

  /** The loop step of the rows: one more row adds its output row. */
  lemma OutputRowsAll(bucket: string, rows: seq<CsvRow>, outcomes: seq<seq<ImageOutcome>>, render: string -> string,
                       done: seq<OutputRow>)
    requires Aligned(rows, outcomes)
    requires done == OutputRows(bucket, rows, outcomes, render)[..|rows|]
    ensures done == OutputRows(bucket, rows, outcomes, render)
  {
  }

  lemma OutputRowsStep(bucket: string, rows: seq<CsvRow>, outcomes: seq<seq<ImageOutcome>>, render: string -> string, k: nat,
                        done: seq<OutputRow>, row: OutputRow)
    requires Aligned(rows, outcomes) && k < |rows|
    requires done == OutputRows(bucket, rows, outcomes, render)[..k]
    requires row == OutputRowOf(bucket, rows[k], outcomes[k], render)
    ensures done + [row] == OutputRows(bucket, rows, outcomes, render)[..k + 1]
  {
    var all := OutputRows(bucket, rows, outcomes, render);
    assert all[k] == row;
    forall i | 0 <= i < k + 1
      ensures (done + [row])[i] == all[..k + 1][i]
    {
      if i == k {
        assert (done + [row])[i] == row;
      }
    }
  }

  // ---------------------------------------------------------------------
  // The request table (db.py:34-40)

  datatype Status = Pending | Complete | Failed

  /** The text stored in the `status` column. */
  function StatusText(s: Status): string {
    match s
    case Pending => "pending"
    case Complete => "complete"
    case Failed => "failed"
  }

  /** A row of `processing_requests`, keyed by `request_id`. */
  datatype Record = Record(status: Status, processedImages: Option<string>, error: Option<string>, webhookUrl: Option<string>)

  type Store = map<string, Record>

  /** `INSERT ... VALUES (request_id, 'pending', webhook_url)`; the other columns are NULL. */
  function InsertPendingIn(store: Store, requestId: string, webhookUrl: Option<string>): Store
    requires requestId !in store
  {
    store[requestId := Record(Pending, None, None, webhookUrl)]
  }

  /** `UPDATE ... SET status = 'failed', error = $2 WHERE request_id = $3`: no row matches an unknown id. */
  function MarkFailedIn(store: Store, requestId: string, error: string): Store {
    if requestId in store then store[requestId := store[requestId].(status := Failed, error := Some(error))] else store
  }

  /** `UPDATE ... SET status = 'complete', processed_images = $2 WHERE request_id = $3`. */
  function MarkCompleteIn(store: Store, requestId: string, resultUrl: string): Store {
    if requestId in store then store[requestId := store[requestId].(status := Complete, processedImages := Some(resultUrl))] else store
  }

  const CsvUploadErrorPrefix: string := "S3 CSV upload error: "

  /** `f"S3 CSV upload error: {e}"`, with `str(e)` as `detail`. */
  function FailureMessage(detail: string): string {
    CsvUploadErrorPrefix + detail
  }

  predicate IsFailureMessage(m: string) {
    |CsvUploadErrorPrefix| <= |m| && m[..|CsvUploadErrorPrefix|] == CsvUploadErrorPrefix
  }

  lemma FailureMessageShape(detail: string)
    ensures IsFailureMessage(FailureMessage(detail)) && FailureMessage(detail) != []
  {
    assert FailureMessage(detail)[..|CsvUploadErrorPrefix|] == CsvUploadErrorPrefix;
  }

  /**
   * What every stored record satisfies: a result URL and an error are the
   * ones a run writes, a pending record has neither, a complete one has its
   * result URL and a failed one an error.
   */
  predicate RecordInvariant(bucket: string, requestId: string, rec: Record) {
    && (rec.processedImages.Some? ==> rec.processedImages.value == ResultUrl(bucket, requestId))
    && (rec.error.Some? ==> IsFailureMessage(rec.error.value))
    && (rec.status == Pending ==> rec.processedImages.None? && rec.error.None?)
    && (rec.status == Complete ==> rec.processedImages == Some(ResultUrl(bucket, requestId)))
    && (rec.status == Failed ==> rec.error.Some?)
  }

  predicate StoreInvariant(bucket: string, store: Store) {
    forall id :: id in store ==> RecordInvariant(bucket, id, store[id])
  }

  // ---------------------------------------------------------------------
  // A run of process_images (api.py:81-158)

  const CompletionMessage: string := "Image processing completed successfully."

  /** The webhook payload of a completed request. */
  function CompletionPayload(requestId: string, resultUrl: string): Payload {
    Payload(requestId, StatusText(Complete), resultUrl, CompletionMessage)
  }

  /** The webhook URL read back from the store: absent when the row is missing or the URL is NULL or empty. */
  function NotifyTarget(store: Store, requestId: string): Option<string> {
    if requestId in store && store[requestId].webhookUrl.Some? && store[requestId].webhookUrl.value != []
    then store[requestId].webhookUrl
    else None
  }

  /** The webhook call made for a target, if there is one; whether it was delivered changes nothing else. */
  function Notification(target: Option<string>, payload: Payload, delivered: bool): seq<Event> {
    if target.Some? then [Notified(target.value, payload, delivered)] else []
  }

  /** The result table object: `csvfile/{request_id}_output.csv`, as `text/csv`. */
  function ResultObject(requestId: string, table: seq<seq<string>>): StoredObject {
    StoredObject(ResultKey(requestId), CsvContentType, CsvTable(table))
  }

  /** A new store, and the events that led to it, in order. */
  datatype Transition = Transition(store: Store, events: seq<Event>)

  /**
   * The effect of one run of `process_images`: the image uploads of every
   * row, then the result table upload. If that fails, the request is marked
   * failed and the run ends; otherwise it is marked complete and the stored
   * webhook, if any, is called once.
   */
  function Run(bucket: string, store: Store, requestId: string, rows: seq<CsvRow>, outcomes: seq<seq<ImageOutcome>>,
               render: string -> string, csvPut: PutOutcome, delivered: bool): Transition
    requires Aligned(rows, outcomes)
  {
    var puts := BatchPuts(rows, outcomes, render);
    match csvPut
    case PutFailed(detail) =>
      var msg := FailureMessage(detail);
      Transition(MarkFailedIn(store, requestId, msg), puts + [Wrote(MarkFailed(requestId, msg))])
    case PutOk =>
      var url := ResultUrl(bucket, requestId);
      var table := ResultTable(OutputRows(bucket, rows, outcomes, render));
      var after := MarkCompleteIn(store, requestId, url);
      Transition(after, puts + [Put(ResultObject(requestId, table)), Wrote(MarkComplete(requestId, url))]
                        + Notification(NotifyTarget(after, requestId), CompletionPayload(requestId, url), delivered))
  }

  /** The store writes among some events. */
  function WriteOf(e: Event): Option<StoreWrite> {
    if e.Wrote? then Some(e.write) else None
  }

  function Writes(events: seq<Event>): seq<StoreWrite> {
    FilterMap(events, WriteOf)
  }

  /** The webhook calls among some events. */
  function CallOf(e: Event): Option<Event> {
    if e.Notified? then Some(e) else None
  }

  function Calls(events: seq<Event>): seq<Event> {
    FilterMap(events, CallOf)
  }

  /** The loop step of a row's images: one more attempt adds its URL and its upload when it succeeded. */
  lemma AttemptStep(bucket: string, attempts: seq<Attempt>, i: nat)
    requires i < |attempts|
    ensures var a := attempts[i];
      && OutputUrls(bucket, attempts[..i + 1])
         == OutputUrls(bucket, attempts[..i]) + (if Uploaded(a) then [PublicUrl(bucket, ImageKey(a.outcome.id))] else [])
      && ImagePuts(attempts[..i + 1])
         == ImagePuts(attempts[..i]) + (if Uploaded(a) then [Put(ImageObject(a))] else [])
  {
    FilterMapSnoc(attempts, i, UploadedUrl(bucket));
    FilterMapSnoc(attempts, i, UploadedObject);
  }

  /** The uploads of result tables among some events. */
  function TableUploadOf(e: Event): Option<StoredObject> {
    if e.Put? && e.obj.contentType == CsvContentType then Some(e.obj) else None
  }

  function TableUploads(events: seq<Event>): seq<StoredObject> {
    FilterMap(events, TableUploadOf)
  }

  /** The image uploads of a batch hold no store write, no webhook call and no table upload. */
  lemma BatchPutsOnlyImages(rows: seq<CsvRow>, outcomes: seq<seq<ImageOutcome>>, render: string -> string)
    requires Aligned(rows, outcomes)
    ensures Writes(BatchPuts(rows, outcomes, render)) == []
    ensures Calls(BatchPuts(rows, outcomes, render)) == []
    ensures TableUploads(BatchPuts(rows, outcomes, render)) == []
  {
    var puts := BatchPuts(rows, outcomes, render);
    BatchPutsAreImagePuts(rows, outcomes, render);
    FilterMapAllNone(puts, WriteOf);
    FilterMapAllNone(puts, CallOf);
    FilterMapAllNone(puts, TableUploadOf);
  }

  /** The projections of a sequence of events, one `FilterMap` each. */
  lemma ProjectionsAppend(a: seq<Event>, b: seq<Event>)
    ensures Writes(a + b) == Writes(a) + Writes(b)
    ensures Calls(a + b) == Calls(a) + Calls(b)
    ensures TableUploads(a + b) == TableUploads(a) + TableUploads(b)
  {
    FilterMapAppend(a, b, WriteOf);
    FilterMapAppend(a, b, CallOf);
    FilterMapAppend(a, b, TableUploadOf);
  }

  lemma ProjectionsSingle(e: Event)
    ensures Writes([e]) == if e.Wrote? then [e.write] else []
    ensures Calls([e]) == if e.Notified? then [e] else []
    ensures TableUploads([e]) == if e.Put? && e.obj.contentType == CsvContentType then [e.obj] else []
  {
    FilterMapSingle(e, WriteOf);
    FilterMapSingle(e, CallOf);
    FilterMapSingle(e, TableUploadOf);
  }

  /** `MarkFailedIn` changes only the status and the error of the named request, and adds no row. */
  lemma MarkFailedInChanges(store: Store, requestId: string, msg: string)
    ensures var s := MarkFailedIn(store, requestId, msg);
      && s.Keys == store.Keys
      && (forall id :: id in store && id != requestId ==> s[id] == store[id])
      && (requestId in store ==>
            && s[requestId].status == Failed
            && s[requestId].error == Some(msg)
            && s[requestId].processedImages == store[requestId].processedImages
            && s[requestId].webhookUrl == store[requestId].webhookUrl)
  {
  }

  /** `MarkCompleteIn` changes only the status and the result URL of the named request, and adds no row. */
  lemma MarkCompleteInChanges(store: Store, requestId: string, url: string)
    ensures var s := MarkCompleteIn(store, requestId, url);
      && s.Keys == store.Keys
      && (forall id :: id in store && id != requestId ==> s[id] == store[id])
      && (requestId in store ==>
            && s[requestId].status == Complete
            && s[requestId].processedImages == Some(url)
            && s[requestId].error == store[requestId].error
            && s[requestId].webhookUrl == store[requestId].webhookUrl)
  {
  }

  /**
   * When the result table upload fails, the run writes the store exactly
   * once, as its last act, marking the request failed with an error that
   * starts with the fixed prefix; it stores no table and calls no webhook.
   */
  lemma RunFailedPath(bucket: string, store: Store, requestId: string, rows: seq<CsvRow>, outcomes: seq<seq<ImageOutcome>>,
                      render: string -> string, detail: string, delivered: bool)
    requires Aligned(rows, outcomes)
    ensures var t := Run(bucket, store, requestId, rows, outcomes, render, PutFailed(detail), delivered);
      var msg := FailureMessage(detail);
      && IsFailureMessage(msg) && msg != []
      && t.store == MarkFailedIn(store, requestId, msg)
      && Writes(t.events) == [MarkFailed(requestId, msg)]
      && Calls(t.events) == []
      && TableUploads(t.events) == []
      && |t.events| >= 1 && t.events[|t.events| - 1] == Wrote(MarkFailed(requestId, msg))
  {
    var msg := FailureMessage(detail);
    var puts := BatchPuts(rows, outcomes, render);
    var last := Wrote(MarkFailed(requestId, msg));
    FailureMessageShape(detail);
    BatchPutsOnlyImages(rows, outcomes, render);
    ProjectionsAppend(puts, [last]);
    ProjectionsSingle(last);
  }

  /** The events of a completed run, other than the image uploads. */
  function CompletionEvents(requestId: string, url: string, table: seq<seq<string>>, note: seq<Event>): seq<Event> {
    [Put(ResultObject(requestId, table)), Wrote(MarkComplete(requestId, url))] + note
  }

  lemma CompletionEventsWrites(requestId: string, url: string, table: seq<seq<string>>, note: seq<Event>)
    requires forall k :: 0 <= k < |note| ==> note[k].Notified?
    ensures Writes(CompletionEvents(requestId, url, table, note)) == [MarkComplete(requestId, url)]
  {
    var put, wrote := Put(ResultObject(requestId, table)), Wrote(MarkComplete(requestId, url));
    assert CompletionEvents(requestId, url, table, note) == [put] + [wrote] + note;
    FilterMapAppend([put] + [wrote], note, WriteOf);
    FilterMapAppend([put], [wrote], WriteOf);
    FilterMapSingle(put, WriteOf);
    FilterMapSingle(wrote, WriteOf);
    FilterMapAllNone(note, WriteOf);
  }

  lemma CompletionEventsTableUploads(requestId: string, url: string, table: seq<seq<string>>, note: seq<Event>)
    requires forall k :: 0 <= k < |note| ==> note[k].Notified?
    ensures TableUploads(CompletionEvents(requestId, url, table, note)) == [ResultObject(requestId, table)]
  {
    var put, wrote := Put(ResultObject(requestId, table)), Wrote(MarkComplete(requestId, url));
    assert CompletionEvents(requestId, url, table, note) == [put] + [wrote] + note;
    FilterMapAppend([put] + [wrote], note, TableUploadOf);
    FilterMapAppend([put], [wrote], TableUploadOf);
    FilterMapSingle(put, TableUploadOf);
    FilterMapSingle(wrote, TableUploadOf);
    FilterMapAllNone(note, TableUploadOf);
  }

  lemma CompletionEventsCalls(requestId: string, url: string, table: seq<seq<string>>, note: seq<Event>)
    requires forall k :: 0 <= k < |note| ==> note[k].Notified?
    ensures Calls(CompletionEvents(requestId, url, table, note)) == note
  {
    var put, wrote := Put(ResultObject(requestId, table)), Wrote(MarkComplete(requestId, url));
    assert CompletionEvents(requestId, url, table, note) == [put] + [wrote] + note;
    var head := [put] + [wrote];
    assert Calls(head) == [] by {
      FilterMapAllNone(head, CallOf);
    }
    FilterMapAppend(head, note, CallOf);
    assert Calls(note) == note by {
      FilterMapAllSome(note, CallOf);
    }
  }

  /**
   * When the result table upload succeeds, the run stores the table of the
   * output rows under the request's result key, writes the store exactly
   * once, marking the request complete with the result URL, and calls the
   * webhook once when the stored webhook URL is present and non-empty, never
   * otherwise, with the completion payload.
   */
  lemma RunCompletedPath(bucket: string, store: Store, requestId: string, rows: seq<CsvRow>, outcomes: seq<seq<ImageOutcome>>,
                         render: string -> string, delivered: bool)
    requires Aligned(rows, outcomes)
    ensures var t := Run(bucket, store, requestId, rows, outcomes, render, PutOk, delivered);
      var url := ResultUrl(bucket, requestId);
      && t.store == MarkCompleteIn(store, requestId, url)
      && Writes(t.events) == [MarkComplete(requestId, url)]
      && TableUploads(t.events) == [ResultObject(requestId, ResultTable(OutputRows(bucket, rows, outcomes, render)))]
      && Calls(t.events) == Notification(NotifyTarget(store, requestId), CompletionPayload(requestId, url), delivered)
  {
    var url := ResultUrl(bucket, requestId);
    var puts := BatchPuts(rows, outcomes, render);
    var table := ResultTable(OutputRows(bucket, rows, outcomes, render));
    var after := MarkCompleteIn(store, requestId, url);
    var note := Notification(NotifyTarget(after, requestId), CompletionPayload(requestId, url), delivered);
    assert NotifyTarget(after, requestId) == NotifyTarget(store, requestId);
    var tail := CompletionEvents(requestId, url, table, note);
    assert Run(bucket, store, requestId, rows, outcomes, render, PutOk, delivered).events == puts + tail;
    BatchPutsOnlyImages(rows, outcomes, render);
    ProjectionsAppend(puts, tail);
    CompletionEventsWrites(requestId, url, table, note);
    CompletionEventsTableUploads(requestId, url, table, note);
    CompletionEventsCalls(requestId, url, table, note);
  }

  /** The webhook is called only as the very last act of a run, right after the `complete` write. */
  lemma RunCallsWebhookLast(bucket: string, store: Store, requestId: string, rows: seq<CsvRow>, outcomes: seq<seq<ImageOutcome>>,
                            render: string -> string, csvPut: PutOutcome, delivered: bool)
    requires Aligned(rows, outcomes)
    ensures var e := Run(bucket, store, requestId, rows, outcomes, render, csvPut, delivered).events;
      forall i :: 0 <= i < |e| && e[i].Notified? ==>
        && csvPut.PutOk? && i == |e| - 1 && i >= 1
        && e[i - 1] == Wrote(MarkComplete(requestId, ResultUrl(bucket, requestId)))
  {
    var e := Run(bucket, store, requestId, rows, outcomes, render, csvPut, delivered).events;
    var puts := BatchPuts(rows, outcomes, render);
    BatchPutsAreImagePuts(rows, outcomes, render);
    forall i | 0 <= i < |e| && e[i].Notified?
      ensures csvPut.PutOk? && i == |e| - 1 && i >= 1
      ensures e[i - 1] == Wrote(MarkComplete(requestId, ResultUrl(bucket, requestId)))
    {
      if i < |puts| {
        assert false;
      }
      assert csvPut.PutOk?;
      var url := ResultUrl(bucket, requestId);
      var after := MarkCompleteIn(store, requestId, url);
      var note := Notification(NotifyTarget(after, requestId), CompletionPayload(requestId, url), delivered);
      var table := ResultTable(OutputRows(bucket, rows, outcomes, render));
      var mid := [Put(ResultObject(requestId, table)), Wrote(MarkComplete(requestId, url))];
      assert e == puts + mid + note;
      assert i >= |puts| + 2;
      assert |note| <= 1;
      assert e[i - 1] == (puts + mid + note)[i - 1];
    }
  }

  /** A run keeps every record satisfying the store invariant. */
  lemma RunPreservesInvariant(bucket: string, store: Store, requestId: string, rows: seq<CsvRow>, outcomes: seq<seq<ImageOutcome>>,
                              render: string -> string, csvPut: PutOutcome, delivered: bool)
    requires Aligned(rows, outcomes)
    requires StoreInvariant(bucket, store)
    ensures StoreInvariant(bucket, Run(bucket, store, requestId, rows, outcomes, render, csvPut, delivered).store)
  {
    if csvPut.PutFailed? {
      FailureMessageShape(csvPut.detail);
    }
  }

  /** Whether the webhook POST succeeded changes neither the record nor any other effect of the run. */
  lemma DeliveryChangesNothingElse(bucket: string, store: Store, requestId: string, rows: seq<CsvRow>,
                                   outcomes: seq<seq<ImageOutcome>>, render: string -> string, csvPut: PutOutcome)
    requires Aligned(rows, outcomes)
    ensures var ok, lost := Run(bucket, store, requestId, rows, outcomes, render, csvPut, true),
                            Run(bucket, store, requestId, rows, outcomes, render, csvPut, false);
      && ok.store == lost.store
      && |ok.events| == |lost.events|
      && (forall i :: 0 <= i < |ok.events| && !ok.events[i].Notified? ==> ok.events[i] == lost.events[i])
  {
  }

  // ---------------------------------------------------------------------
  // Intake (api.py:61-79) and status lookup (api.py:164-174)

  /**
   * Why an upload is refused. A wrong content type and an empty row list
   * are answered with status 400; a CSV without even a header record makes
   * `next(reader)` raise, and an id that is already taken makes the INSERT
   * raise, both answered with 500.
   */
  datatype UploadError = InvalidFileType | NoValidRows | HeaderMissing | DuplicateRequestId

  function HttpStatus(e: UploadError): int {
    match e
    case InvalidFileType => 400
    case NoValidRows => 400
    case HeaderMissing => 500
    case DuplicateRequestId => 500
  }

  /** An accepted upload: the id returned to the client and the rows handed to the background run. */
  datatype Accepted = Accepted(requestId: string, rows: seq<CsvRow>)

  datatype IntakeResult = IntakeResult(response: Result<Accepted, UploadError>, after: Transition)

  /**
   * The effect of `upload_csv`: the checks in source order, each refusal
   * leaving the store untouched, then the insert of the pending record
   * under the fresh id.
   */
  function Intake(store: Store, contentType: string, records: seq<seq<string>>, webhookUrl: Option<string>,
                  isHttpUrl: string -> bool, freshId: string): IntakeResult
  {
    var untouched := Transition(store, []);
    if contentType != CsvContentType then IntakeResult(Failure(InvalidFileType), untouched)
    else if records == [] then IntakeResult(Failure(HeaderMissing), untouched)
    else
      var rows := ExtractRows(records[1..], isHttpUrl);
      if rows == [] then IntakeResult(Failure(NoValidRows), untouched)
      else if freshId in store then IntakeResult(Failure(DuplicateRequestId), untouched)
      else IntakeResult(Success(Accepted(freshId, rows)),
                        Transition(InsertPendingIn(store, freshId, webhookUrl), [Wrote(InsertPending(freshId, webhookUrl))]))
  }

  /**
   * An upload is accepted exactly when it is a CSV with at least one valid
   * row and the fresh id is unused; a refusal changes nothing, an
   * acceptance adds exactly the pending record and hands over the parsed
   * rows.
   */
  lemma IntakeOutcomes(store: Store, contentType: string, records: seq<seq<string>>, webhookUrl: Option<string>,
                       isHttpUrl: string -> bool, freshId: string)
    ensures var i := Intake(store, contentType, records, webhookUrl, isHttpUrl, freshId);
      && (i.response.Success? <==>
            contentType == CsvContentType && records != [] && ExtractRows(records[1..], isHttpUrl) != [] && freshId !in store)
      && (i.response.Failure? ==> i.after == Transition(store, []))
      && (contentType != CsvContentType ==> i.response == Failure(InvalidFileType))
      && (contentType == CsvContentType && records == [] ==> i.response == Failure(HeaderMissing))
      && (contentType == CsvContentType && records != [] && ExtractRows(records[1..], isHttpUrl) == [] ==>
            i.response == Failure(NoValidRows))
      && (contentType == CsvContentType && records != [] && ExtractRows(records[1..], isHttpUrl) != [] && freshId in store ==>
            i.response == Failure(DuplicateRequestId))
      && (i.response.Success? ==>
            && i.response.value == Accepted(freshId, ExtractRows(records[1..], isHttpUrl))
            && i.response.value.rows != []
            && i.after.store.Keys == store.Keys + {freshId}
            && i.after.store[freshId] == Record(Pending, None, None, webhookUrl)
            && (forall id :: id in store ==> i.after.store[id] == store[id])
            && Writes(i.after.events) == [InsertPending(freshId, webhookUrl)]
            && Calls(i.after.events) == [])
  {
    var i := Intake(store, contentType, records, webhookUrl, isHttpUrl, freshId);
    if i.response.Success? {
      ProjectionsSingle(Wrote(InsertPending(freshId, webhookUrl)));
    }
  }

  /** Inserting a pending record keeps the store invariant. */
  lemma IntakePreservesInvariant(bucket: string, store: Store, contentType: string, records: seq<seq<string>>,
                                 webhookUrl: Option<string>, isHttpUrl: string -> bool, freshId: string)
    requires StoreInvariant(bucket, store)
    ensures StoreInvariant(bucket, Intake(store, contentType, records, webhookUrl, isHttpUrl, freshId).after.store)
  {
  }

  /** What `get_status` returns for a known id. */
  datatype StatusView = StatusView(requestId: string, status: string, outputCsv: Option<string>, error: Option<string>)

  /** `get_status`: the record's columns, or nothing for an unknown id (status 404). */
  function GetStatus(store: Store, requestId: string): (r: Option<StatusView>)
    ensures r.None? <==> requestId !in store
  {
    if requestId in store then
      var rec := store[requestId];
      Some(StatusView(requestId, StatusText(rec.status), rec.processedImages, rec.error))
    else None
  }

  /** A request seen by `get_status` is always in one of the three states, with the fields the invariant allows. */
  lemma StatusViews(bucket: string, store: Store, requestId: string)
    requires StoreInvariant(bucket, store)
    requires GetStatus(store, requestId).Some?
    ensures var v := GetStatus(store, requestId).value;
      && v.requestId == requestId
      && (v.status == "pending" ==> v.outputCsv.None? && v.error.None?)
      && (v.status == "complete" ==> v.outputCsv == Some(ResultUrl(bucket, requestId)))
      && (v.status == "failed" ==> v.error.Some? && IsFailureMessage(v.error.value))
      && (v.status == "pending" || v.status == "complete" || v.status == "failed")
  {
    var rec := store[requestId];
    assert RecordInvariant(bucket, requestId, rec);
    match rec.status
    case Pending =>
      assert StatusText(Pending) == "pending";
    case Complete =>
      assert StatusText(Complete) == "complete";
      assert "complete" != "pending";
    case Failed =>
      assert StatusText(Failed) == "failed";
      assert "failed" != "pending" && "failed" != "complete";
  }

  /** What an accepted upload leaves in the store for its id: the pending record with the given webhook. */
  lemma AcceptedIsPending(store: Store, contentType: string, records: seq<seq<string>>, webhookUrl: Option<string>,
                          isHttpUrl: string -> bool, freshId: string)
    requires Intake(store, contentType, records, webhookUrl, isHttpUrl, freshId).response.Success?
    ensures var i := Intake(store, contentType, records, webhookUrl, isHttpUrl, freshId);
      && i.response.value.requestId == freshId
      && i.response.value.rows == ExtractRows(records[1..], isHttpUrl)
      && freshId in i.after.store
      && i.after.store[freshId] == Record(Pending, None, None, webhookUrl)
      && GetStatus(i.after.store, freshId) == Some(StatusView(freshId, "pending", None, None))
  {
    IntakeOutcomes(store, contentType, records, webhookUrl, isHttpUrl, freshId);
  }

  /**
   * A pending request whose run uploads its table reads `complete` with the
   * result URL, and the webhook given at upload time is called exactly when
   * it is present and non-empty, at most once.
   */
  lemma PendingThenCompleted(bucket: string, store: Store, requestId: string, webhookUrl: Option<string>,
                             rows: seq<CsvRow>, outcomes: seq<seq<ImageOutcome>>, render: string -> string, delivered: bool)
    requires Aligned(rows, outcomes)
    requires requestId in store && store[requestId] == Record(Pending, None, None, webhookUrl)
    ensures var t := Run(bucket, store, requestId, rows, outcomes, render, PutOk, delivered);
      var url := ResultUrl(bucket, requestId);
      && GetStatus(t.store, requestId) == Some(StatusView(requestId, "complete", Some(url), None))
      && |Calls(t.events)| <= 1
      && (|Calls(t.events)| == 1 <==> webhookUrl.Some? && webhookUrl.value != [])
  {
    RunCompletedPath(bucket, store, requestId, rows, outcomes, render, delivered);
  }

  /** A pending request whose table upload fails reads `failed` with the upload error, and no webhook is called. */
  lemma PendingThenFailed(bucket: string, store: Store, requestId: string, webhookUrl: Option<string>,
                          rows: seq<CsvRow>, outcomes: seq<seq<ImageOutcome>>, render: string -> string,
                          detail: string, delivered: bool)
    requires Aligned(rows, outcomes)
    requires requestId in store && store[requestId] == Record(Pending, None, None, webhookUrl)
    ensures var t := Run(bucket, store, requestId, rows, outcomes, render, PutFailed(detail), delivered);
      && GetStatus(t.store, requestId) == Some(StatusView(requestId, "failed", None, Some(FailureMessage(detail))))
      && Calls(t.events) == []
  {
    RunFailedPath(bucket, store, requestId, rows, outcomes, render, detail, delivered);
  }

  /**
   * Neither UPDATE checks the current status: a second run for a request
   * that already reads `complete` and whose table upload fails turns it to
   * `failed`, keeping the old result URL beside the new error.
   */
  lemma TerminalStatusOverwritten(bucket: string, store: Store, requestId: string,
                                  rows: seq<CsvRow>, outcomes: seq<seq<ImageOutcome>>, render: string -> string,
                                  detail: string, delivered: bool)
    requires Aligned(rows, outcomes)
    requires requestId in store && store[requestId].status == Complete
    ensures var t := Run(bucket, store, requestId, rows, outcomes, render, PutFailed(detail), delivered);
      && GetStatus(t.store, requestId)
         == Some(StatusView(requestId, "failed", store[requestId].processedImages, Some(FailureMessage(detail))))
      && Writes(t.events) == [MarkFailed(requestId, FailureMessage(detail))]
  {
    RunFailedPath(bucket, store, requestId, rows, outcomes, render, detail, delivered);
  }

  /** The `DictWriter` loop (api.py:113-119): the header, then one record per output row. */
  method WriteTable(outputRows: seq<OutputRow>) returns (table: seq<seq<string>>)
    ensures table == ResultTable(outputRows)
  {
    table := [ResultHeader];
    var j := 0;
    while j < |outputRows|
      invariant 0 <= j <= |outputRows|
      invariant table == [ResultHeader] + Map(outputRows[..j], RecordOf)
    {
      MapSnoc(outputRows, j, RecordOf);
      table := table + [RecordOf(outputRows[j])];
      j := j + 1;
    }
    assert outputRows[..|outputRows|] == outputRows;
  }

  // ---------------------------------------------------------------------
  // The service: its request table and what it has done so far

  class Service {
    /** `AWS_BUCKET`. */
    const bucket: string
    /** The `processing_requests` table. */
    var store: Store
    /** Every object upload, store write and webhook call so far, in order. */
    var trace: seq<Event>

    ghost predicate Valid()
      reads this
    {
      StoreInvariant(bucket, store)
    }

    constructor (bucket: string)
      ensures this.bucket == bucket && store == map[] && trace == []
      ensures Valid()
    {
      this.bucket := bucket;
      store := map[];
      trace := [];
    }

    /** `upload_to_s3`: put a JPEG under `destination` and return its public URL, or pass the failure on. */
    method UploadToS3(body: Body, destination: string, put: PutOutcome) returns (r: Result<string, string>)
      modifies this
      ensures store == old(store)
      ensures put.PutOk? ==>
        r == Success(PublicUrl(bucket, destination)) && trace == old(trace) + [Put(StoredObject(destination, ImageContentType, body))]
      ensures put.PutFailed? ==> r == Failure(put.detail) && trace == old(trace)
    {
      match put
      case PutFailed(detail) =>
        return Failure(detail);
      case PutOk =>
        trace := trace + [Put(StoredObject(destination, ImageContentType, body))];
        return Success(PublicUrl(bucket, destination));
    }

    /** `trigger_webhook`: one POST of the payload; a failed delivery is swallowed and changes nothing else. */
    method TriggerWebhook(url: string, payload: Payload, delivered: bool)
      modifies this
      ensures store == old(store)
      ensures trace == old(trace) + [Notified(url, payload, delivered)]
    {
      trace := trace + [Notified(url, payload, delivered)];
    }

    /** The inner loop of `process_images` (api.py:91-102): compress and upload each image, skipping failures. */
    method ProcessRowImages(urls: seq<string>, outcomes: seq<ImageOutcome>) returns (uploaded: seq<string>)
      requires |outcomes| == |urls|
      modifies this
      ensures uploaded == OutputUrls(bucket, Attempts(urls, outcomes))
      ensures store == old(store)
      ensures trace == old(trace) + ImagePuts(Attempts(urls, outcomes))
    {
      var attempts := Attempts(urls, outcomes);
      uploaded := [];
      var i := 0;
      while i < |urls|
        invariant 0 <= i <= |urls|
        invariant uploaded == OutputUrls(bucket, attempts[..i])
        invariant store == old(store)
        invariant trace == old(trace) + ImagePuts(attempts[..i])
      {
        var url := urls[i];
        AttemptStep(bucket, attempts, i);
        assert attempts[i] == Attempt(url, outcomes[i]);
        match outcomes[i] {
          case CompressFailed =>
          case Compressed(id, put) =>
            var destination := ImageKey(id);
            var r := UploadToS3(CompressedImage(url), destination, put);
            if r.Success? {
              uploaded := uploaded + [r.value];
            }
        }
        i := i + 1;
      }
      assert attempts[..|urls|] == attempts;
    }

    /** One pass of the outer loop (api.py:86-110): the row's images, then its output row. */
    method ProcessRow(row: CsvRow, outcomes: seq<ImageOutcome>, render: string -> string) returns (outputRow: OutputRow)
      requires |outcomes| == |row.inputImageUrls|
      modifies this
      ensures outputRow == OutputRowOf(bucket, row, outcomes, render)
      ensures store == old(store)
      ensures trace == old(trace) + ImagePuts(RowAttempts(row, outcomes, render))
    {
      var inputImageUrls := Map(row.inputImageUrls, render);
      assert |inputImageUrls| == |row.inputImageUrls|;
      var outputImageUrls := ProcessRowImages(inputImageUrls, outcomes);
      outputRow := OutputRow(row.serialNumber, row.productName,
                             Join(inputImageUrls, UrlListSeparator),
                             Join(outputImageUrls, UrlListSeparator));
    }

    /** The outer loop of `process_images` (api.py:85-110): one output row per input row. */
    method ProcessRows(rows: seq<CsvRow>, outcomes: seq<seq<ImageOutcome>>, render: string -> string)
      returns (outputRows: seq<OutputRow>)
      requires Aligned(rows, outcomes)
      modifies this
      ensures outputRows == OutputRows(bucket, rows, outcomes, render)
      ensures store == old(store)
      ensures trace == old(trace) + BatchPuts(rows, outcomes, render)
    {
      outputRows := [];
      var k := 0;
      while k < |rows|
        invariant 0 <= k <= |rows|
        invariant outputRows == OutputRows(bucket, rows, outcomes, render)[..k]
        invariant store == old(store)
        invariant trace == old(trace) + PutsOfFirst(rows, outcomes, render, k)
      {
        ghost var before := trace;
        var outputRow := ProcessRow(rows[k], outcomes[k], render);
        PutsOfFirstStep(old(trace), before, trace, rows, outcomes, render, k);
        OutputRowsStep(bucket, rows, outcomes, render, k, outputRows, outputRow);
        outputRows := outputRows + [outputRow];
        k := k + 1;
      }
      OutputRowsAll(bucket, rows, outcomes, render, outputRows);
    }

    /** The end of `process_images` (api.py:121-158): upload the table, record the outcome, notify. */
    method FinishRun(requestId: string, table: seq<seq<string>>, csvPut: PutOutcome, delivered: bool)
      modifies this
      ensures csvPut.PutFailed? ==>
        var msg := FailureMessage(csvPut.detail);
        store == MarkFailedIn(old(store), requestId, msg) && trace == old(trace) + [Wrote(MarkFailed(requestId, msg))]
      ensures csvPut.PutOk? ==>
        var url := ResultUrl(bucket, requestId);
        && store == MarkCompleteIn(old(store), requestId, url)
        && trace == old(trace) + [Put(ResultObject(requestId, table)), Wrote(MarkComplete(requestId, url))]
                                + Notification(NotifyTarget(store, requestId), CompletionPayload(requestId, url), delivered)
    {
      var destinationCsv := ResultKey(requestId);
      match csvPut {
        case PutFailed(detail) =>
          var errorMessage := FailureMessage(detail);
          store := MarkFailedIn(store, requestId, errorMessage);
          trace := trace + [Wrote(MarkFailed(requestId, errorMessage))];
        case PutOk =>
          trace := trace + [Put(StoredObject(destinationCsv, CsvContentType, CsvTable(table)))];
          var csvUrl := PublicUrl(bucket, destinationCsv);
          store := MarkCompleteIn(store, requestId, csvUrl);
          trace := trace + [Wrote(MarkComplete(requestId, csvUrl))];
          var webhookUrl := NotifyTarget(store, requestId);
          var payload := CompletionPayload(requestId, csvUrl);
          if webhookUrl.Some? {
            TriggerWebhook(webhookUrl.value, payload, delivered);
          }
      }
    }

    /** `process_images`: the rows, the result table, then its upload and the outcome. */
    method ProcessImages(requestId: string, rows: seq<CsvRow>, outcomes: seq<seq<ImageOutcome>>,
                         render: string -> string, csvPut: PutOutcome, delivered: bool)
      requires Aligned(rows, outcomes)
      requires Valid()
      modifies this
      ensures Valid()
      ensures var t := Run(bucket, old(store), requestId, rows, outcomes, render, csvPut, delivered);
        store == t.store && trace == old(trace) + t.events
    {
      RunPreservesInvariant(bucket, store, requestId, rows, outcomes, render, csvPut, delivered);
      ghost var t := Run(bucket, store, requestId, rows, outcomes, render, csvPut, delivered);
      ghost var puts := BatchPuts(rows, outcomes, render);
      var outputRows := ProcessRows(rows, outcomes, render);
      var table := WriteTable(outputRows);
      ghost var mid := trace;
      FinishRun(requestId, table, csvPut, delivered);
      ghost var tail := trace[|mid|..];
      assert trace == mid + tail;
      if csvPut.PutOk? {
        assert table == ResultTable(OutputRows(bucket, rows, outcomes, render));
      }
      assert t.store == store && t.events == puts + tail;
      assert mid + tail == old(trace) + (puts + tail);
    }

    /** `upload_csv`: check the upload, parse it, and insert the pending record. */
    method UploadCsv(contentType: string, records: seq<seq<string>>, webhookUrl: Option<string>,
                     isHttpUrl: string -> bool, freshId: string)
      returns (r: Result<Accepted, UploadError>)
      requires Valid()
      modifies this
      ensures Valid()
      ensures var i := Intake(old(store), contentType, records, webhookUrl, isHttpUrl, freshId);
        r == i.response && store == i.after.store && trace == old(trace) + i.after.events
    {
      IntakePreservesInvariant(bucket, store, contentType, records, webhookUrl, isHttpUrl, freshId);
      if contentType != CsvContentType {
        return Failure(InvalidFileType);
      }
      var parsed := ParseCsv(records, isHttpUrl);
      if parsed.Failure? {
        return Failure(HeaderMissing);
      }
      var rows := parsed.value;
      if rows == [] {
        return Failure(NoValidRows);
      }
      var requestId := freshId;
      if requestId in store {
        return Failure(DuplicateRequestId);
      }
      store := InsertPendingIn(store, requestId, webhookUrl);
      trace := trace + [Wrote(InsertPending(requestId, webhookUrl))];
      return Success(Accepted(requestId, rows));
    }
  }
}
