# Image-compression batch service: a Dafny model

The service accepts a CSV of products and image URLs. It records a
`pending` request in the `processing_requests` table and then runs a
background batch. For each row, the batch compresses and re-uploads every
image. It keeps the public URLs of the images that succeeded, writes a
result table to object storage and marks the request `complete` or
`failed`. It calls the caller's webhook only on completion.

The model has five modules:

- `Wrappers`: `Option` and `Result`.
- `PyStr`: Python's `str.strip()`, `str.split(sep)` and `sep.join(...)`.
  It also holds the URL-list split of the third CSV column and its round
  trip with the `", "` join of the result table.
- `FilterMaps`: the "keep each element's value if it has one, in order"
  pattern shared by the URL split and the row loop of `parse_csv` and by
  the image loop of `process_images`. It comes with the proof that the result is an
  order-preserving subsequence.
- `CsvHandler`: `parse_csv`, over records that are already tokenised. It
  has the specification function `ExtractRows` and the loop method
  `ParseCsv` proved against it.
- `Api`:
  - object keys and public URLs;
  - the output rows and the result table;
  - the `processing_requests` table as a `map` from `request_id` to a
    `Record`, with the schema's four columns;
  - `Run`, the effect of one `process_images` run as a new table plus the
    ordered list of its outside effects (object puts, store writes,
    webhook calls);
  - `Intake` (`upload_csv`) and `GetStatus` (`get_status`);
  - the class `Service`, whose methods carry out the source's loops and
    statements over the mutable table and effect log. Each method is
    proved equal to the specification functions.

Every foreign call is an input to the model. The model has these oracle
inputs:

- `ImageOutcome` per image: the download or re-encode raised, or it worked
  with a fresh uuid, followed by the outcome of the image `put_object`.
- `PutOutcome` for the result-table upload, with the exception's text when
  it fails.
- `delivered` for the webhook POST. It is recorded in the log and has no
  other effect, since the source swallows the failure.
- `freshId` for the request uuid.
- `isHttpUrl`, the pydantic `HttpUrl` check on each URL.
- `render`, which stands for `str(url)`.

The bucket name is a parameter; `DefaultBucket` is its default.

Behaviours of the code that the model keeps as they are:

- A row whose URL column splits to nothing is kept, because validating an
  empty `List[HttpUrl]` succeeds. `CsvHandler.EmptyUrlListKept` shows it.
- Neither UPDATE checks the current status, so a second run can turn a
  `complete` request into `failed`. `Api.TerminalStatusOverwritten` shows
  it.
- Updating an unknown `request_id` matches no row and changes nothing.
- Inserting an id that is already taken raises, which becomes
  `DuplicateRequestId`.
- A CSV without a header record makes `next(reader)` raise, which becomes
  `HeaderMissing`.

## Model

| member | source | states |
|---|---|---|
| `PyStr.Strip` | Assignment-1/app/csv_handler.py:18-19 | the result has no whitespace at either end and is no longer than the input |
| `PyStr.TrimStartRemovesSpaces` | Assignment-1/app/csv_handler.py:18-19 | what the leading strip removes is whitespace only |
| `PyStr.TrimEndRemovesSpaces` | Assignment-1/app/csv_handler.py:18-19 | what the trailing strip removes is whitespace only |
| `PyStr.Split` | Assignment-1/app/csv_handler.py:21 | `split(",")` yields at least one piece and no piece holds the separator |
| `PyStr.SplitJoin` | Assignment-1/app/api.py:108-109 | splitting on a one-character separator undoes joining with it, when no part holds the separator |
| `PyStr.SplitUrlsPieces` | Assignment-1/app/csv_handler.py:21 | every extracted URL is non-empty, holds no comma and has no surrounding whitespace |
| `PyStr.SplitUrlsOfJoin` | Assignment-1/app/api.py:108-109 | the line-21 split of a `", "`-joined list of such URLs gives the list back, the empty list included |
| `PyStr.StrippedNonEmptyIsFilterMap` | Assignment-1/app/csv_handler.py:21 | the strip-and-drop comprehension keeps, in order, exactly the non-blank stripped pieces |
| `CsvHandler.SplitUrlsInOrder` | Assignment-1/app/csv_handler.py:21 | the URLs keep the order of their pieces in field 2, and every piece that is not blank after stripping gives a URL |
| `PyStr.SplitUrlsStable` | Assignment-1/app/csv_handler.py:21 | splitting the join of what the split produced reproduces it exactly |
| `FilterMaps.FilterMapSubsequence` | Assignment-1/app/csv_handler.py:15-31 | the kept values are an order-preserving subsequence: each comes from a distinct earlier-to-later element that yields it, and no yielding element is lost |
| `CsvHandler.RecordRow` | Assignment-1/app/csv_handler.py:16-31 | a record with fewer than three fields gives no row; a kept row is well formed (stripped identity fields, clean and valid URLs); a record of three or more fields is rejected only when some URL fails validation, so one whose URL column is empty is always kept |
| `CsvHandler.ParseCsv` | Assignment-1/app/csv_handler.py:7-32 | no header record is an error; otherwise the result is the extracted rows of the records after the header, in order |
| `CsvHandler.RejectedRecordDropped` | Assignment-1/app/csv_handler.py:16-31 | a record rejected for too few fields or by validation is dropped without changing any other record's row |
| `CsvHandler.ExtractRowsAppend` | Assignment-1/app/csv_handler.py:15-31 | extraction works record by record: the rows of a concatenation are the concatenated rows |
| `CsvHandler.ExtraFieldsIgnored` | Assignment-1/app/csv_handler.py:16-21 | fields after index 2 do not affect the row |
| `CsvHandler.ExtractedRowsWellFormed` | Assignment-1/app/csv_handler.py:18-28 | every extracted row has stripped identity fields and URLs that are non-empty, comma-free, stripped and valid |
| `CsvHandler.ExtractRowsSubsequence` | Assignment-1/app/csv_handler.py:15-28 | the rows are an order-preserving subsequence of the data records: each row comes from a kept record, in increasing order, and every kept record gives a row |
| `CsvHandler.EmptyUrlListKept` | Assignment-1/app/csv_handler.py:21-28 | a record whose URL column splits to nothing still gives a row, with an empty URL list |
| `Api.Between` | Assignment-1/app/api.py:38 | a middle read back from a framed string is exactly what lies between the prefix and the suffix |
| `Api.ImageKeyRoundTrip` | Assignment-1/app/api.py:96 | an image key `images/{id}.jpg` gives its id back |
| `Api.ResultKeyRoundTrip` | Assignment-1/app/api.py:122 | a result key `csvfile/{request_id}_output.csv` gives its request id back |
| `Api.PublicUrlRoundTrip` | Assignment-1/app/api.py:38 | a public URL `https://{bucket}.s3.amazonaws.com/{key}` gives its key back |
| `Api.ImageKeyIsNotResultKey` | Assignment-1/app/api.py:96-122 | no image key equals a result key |
| `Api.PublicUrlsInjective` | Assignment-1/app/api.py:38-130 | distinct ids give distinct image URLs, and distinct requests give distinct result URLs |
| `Api.ImageUrlIsPiece` | Assignment-1/app/api.py:98-109 | an image URL is a single clean piece of a `", "`-joined list when the bucket and the id hold no comma |
| `Api.OutputUrlsArePublished` | Assignment-1/app/api.py:94-99 | a row's output URLs are exactly the public URLs of the images it uploaded, one for one and in order |
| `Api.FailedImageSkipped` | Assignment-1/app/api.py:92-102 | a failed image is skipped without changing the other images' URLs or uploads |
| `Api.OutputUrlsInOrder` | Assignment-1/app/api.py:91-102 | the output URLs are the successful images' URLs in input order, none lost, at most one per input URL |
| `Api.NoUploadsNoUrls` | Assignment-1/app/api.py:86-102 | a row none of whose images uploads gets an empty output URL list and makes no upload |
| `Api.OutputRows` | Assignment-1/app/api.py:85-110 | one output row per input row, in order, with Serial Number and Product Name copied unchanged |
| `Api.BatchPutsAreImagePuts` | Assignment-1/app/api.py:85-102 | before the result table, a run only uploads JPEGs under image keys |
| `Api.ResultTableRecords` | Assignment-1/app/api.py:113-119 | every record after the header has four fields, and reading them back gives the output rows |
| `Api.ResultTableHeader` | Assignment-1/app/api.py:114-116 | the first record is the header, in the fixed column order |
| `Api.ResultTableRoundTrip` | Assignment-1/app/api.py:113-119 | reading the table back gives exactly the output rows behind exactly the header |
| `Api.InputColumnReadBack` | Assignment-1/app/api.py:88-108 | the Input Image Urls field splits back to the row's URLs as strings |
| `Api.OutputColumnReadBack` | Assignment-1/app/api.py:109 | the Output Image Urls field splits back to the row's output URL list |
| `Api.FailureMessageShape` | Assignment-1/app/api.py:133 | the stored error is non-empty and starts with `S3 CSV upload error: ` |
| `Api.MarkFailedInChanges` | Assignment-1/app/api.py:135-136 | the failed UPDATE changes only status and error of the named request, and adds no row |
| `Api.MarkCompleteInChanges` | Assignment-1/app/api.py:140-141 | the complete UPDATE changes only status and processed_images of the named request, and adds no row |
| `Api.RunFailedPath` | Assignment-1/app/api.py:121-137 | when the table upload fails: exactly one store write, last, marking the request failed with the prefixed error; no table stored, no webhook call |
| `Api.RunCompletedPath` | Assignment-1/app/api.py:121-158 | when it succeeds: the table of the output rows is stored under the result key, exactly one write marks the request complete with the result URL, and the webhook is called once if the stored URL is non-empty, never otherwise |
| `Api.RunCallsWebhookLast` | Assignment-1/app/api.py:139-158 | a webhook call only happens on the complete path, as the last effect, right after the complete write |
| `Api.RunPreservesInvariant` | Assignment-1/app/api.py:81-158 | a run keeps every record consistent: pending has no result or error, complete has its result URL, failed has a prefixed error |
| `Api.DeliveryChangesNothingElse` | Assignment-1/app/api.py:44-52 | whether the webhook POST succeeded changes neither the record nor any other effect |
| `Api.IntakeOutcomes` | Assignment-1/app/api.py:61-79 | an upload is accepted exactly when it is `text/csv`, has a header and at least one valid row, and the fresh id is unused; each refusal is named in source order (wrong type, no header, no valid row, taken id) and changes nothing; an acceptance adds only the pending record with the webhook URL |
| `Api.IntakePreservesInvariant` | Assignment-1/app/api.py:72-74 | inserting the pending record keeps the table consistent |
| `Api.GetStatus` | Assignment-1/app/api.py:164-174 | the lookup answers not-found exactly for an unknown id |
| `Api.StatusViews` | Assignment-1/app/api.py:164-174 | a found request reads pending, complete or failed, with the fields each state allows |
| `Api.AcceptedIsPending` | Assignment-1/app/api.py:61-79 | after an accepted upload the status lookup reads `pending` with no result and no error |
| `Api.PendingThenCompleted` | Assignment-1/app/api.py:139-158 | a pending request whose table upload succeeds reads complete with the result URL; its webhook is called once exactly when it was non-empty |
| `Api.PendingThenFailed` | Assignment-1/app/api.py:132-137 | a pending request whose table upload fails reads failed with the upload error, and no webhook is called |
| `Api.TerminalStatusOverwritten` | Assignment-1/app/api.py:135-140 | the UPDATEs have no status guard: a failing second run turns a complete request to failed |
| `Api.WriteTable` | Assignment-1/app/api.py:113-119 | the writer loop produces the header and then one record per output row |
| `Api.Service.UploadToS3` | Assignment-1/app/api.py:29-42 | a successful put logs the JPEG object and returns its public URL; a failure is passed on and logs nothing |
| `Api.Service.TriggerWebhook` | Assignment-1/app/api.py:44-52 | one POST is logged and the table is untouched, whether or not it was delivered |
| `Api.Service.ProcessRowImages` | Assignment-1/app/api.py:91-102 | the inner loop returns the row's output URLs and logs exactly its image uploads, without touching the table |
| `Api.Service.ProcessRow` | Assignment-1/app/api.py:86-110 | one pass of the outer loop returns the row's output row and logs exactly its image uploads, without touching the table |
| `Api.Service.ProcessRows` | Assignment-1/app/api.py:85-110 | the outer loop returns the output rows and logs every row's image uploads in order |
| `Api.Service.FinishRun` | Assignment-1/app/api.py:121-158 | the table upload, then the failed or complete write, then the webhook call if the re-read URL is non-empty |
| `Api.Service.ProcessImages` | Assignment-1/app/api.py:81-158 | one run leaves the table and the log exactly as `Run` says, and keeps the table consistent |
| `Api.Service.UploadCsv` | Assignment-1/app/api.py:61-79 | the upload leaves the response, table and log exactly as `Intake` says, and keeps the table consistent |

## Left out

- Network and storage I/O: `put_object`, the webhook POST over httpx, the
  image download and the PIL re-encoding. Each is an oracle outcome. The
  bytes of a compressed image are represented by the URL they came from.
- The asyncpg pool, the SQL text and the startup/shutdown hooks. The table
  is a `map`, and each statement is a function on it.
- `upload_compressed_image` in image_utils.py: it writes to the local
  filesystem, and nothing calls it.
- The FastAPI routes, background-task scheduling and async execution. A run
  is one sequential method call, made by the caller with the rows that
  `UploadCsv` returned.
- Reading and decoding the uploaded bytes, `csv.reader` tokenising, and
  `csv.DictWriter` quoting. The model takes records of fields as input and
  produces records of fields as output.
- Pydantic `HttpUrl` validation and `str(url)` normalisation. They are the
  parameters `isHttpUrl` and `render`. So `Api.InputColumnReadBack` holds
  only for URLs whose rendering is a single clean piece.
- Log lines (`print`) and the HTTP status codes beyond `Api.HttpStatus`.
- uuid generation: fresh ids are inputs. They are never assumed to differ
  from each other, except that `UploadCsv` refuses an id already in the
  table.
