# s3-multipart-upload, modelled in Dafny

This project models the core of s3-multipart-upload. The tool uploads a large
file, or a folder of pre-cut part files, to S3 as a multipart upload that can be
resumed after a crash.

Two uploaders are modelled:

- **The resumable file uploader** (`subcommands/upload/`):
  - It cuts the file into `split_size` byte ranges numbered 1, 2, 3, ...
  - A session descriptor binds the file to one remote upload id.
  - It keeps an append-only JSON-lines ledger of the parts already uploaded.
  - It sends only the parts the ledger lacks.
  - It then asks the store to complete the session with the ledger's parts followed by the new ones.
- **The older folder uploader** (`subcommands/upload.py`):
  - Every file of a folder whose name starts with a prefix is one part, numbered in name order.
  - A JSON session file records the upload id and the parts uploaded so far.

The store (boto3's S3 client) is a class `Remote.S3Client`. Its answers are
fixed by three constants: the next upload id, the listing per bucket, and the
answer to each part upload. It also keeps a log of every call made to it. Files
on disk are `Files.LineFile` (a JSON-lines file: present or not, plus its
lines) and `Files.DocumentFile` (one JSON document: absent, empty, or
written).

Each uploader run is specified by a function of its inputs:

- `ResumableUpload.Run` gives the result, the calls made, the ledger afterwards and the descriptor saved.
- `FolderUpload.FolderRun` gives the result, the calls and the session file afterwards.

The imperative methods are proved to do exactly what those functions say. The
lemmas then prove what the tool promises about the functions:

- The ranges tile the file.
- A resume never re-sends a part the ledger records.
- The guards stop a run before anything is uploaded.
- The session is completed only on success, and it is the last call.
- A resume whose ledger belongs to the session ends by completing exactly the parts 1..N.

Modules, one per source file:

| module | source file |
|---|---|
| `Dispatch` | `subcommands/upload/upload_multi_threading.py` |
| `Completion` | `subcommands/upload/s3_multipart_upload.py` |
| `ResumableUpload` | `subcommands/upload/upload_multipart.py` |
| `PartLedger` | `io/uploaded_part.py` |
| `LegacyPartLedger` | `subcommands/io/uploaded_part.py` |
| `UploadConfig` | `subcommands/config.py` |
| `FolderUpload` | `subcommands/upload.py` |

`subcommands/config.py` and `subcommands/io/uploaded_part.py` are not imported by either uploader: the folder uploader defines its own two-field part and session classes (`subcommands/upload.py`, lines 18-39).

Helper modules:

- `Outcomes`: `Result` and `Error`, where an exception is an `Err`.
- `Files`.
- `Remote`.
- `MultipartMeta`: the descriptor record.
- `SeqFacts`: sequence lemmas.

The older ledger writer (`subcommands/io/uploaded_part.py`, lines 20-22) checks
its mode exactly as the newer one does, so both use `PartLedger.ParseMode`.

### Properties of the code worth knowing

- **Finishing the session.**
  - The resumable uploader completes over the receipts it holds in memory: the ledger's parts followed by the new ones. It keeps duplicates and does not check that the numbers are 1..N.
  - Its only check is that the count equals `last - first + 1` after sorting.
  - So duplicate part numbers can hide a gap, and the first part need not be 1. `Completion.DuplicateMasksGap` and `Completion.FirstPartNeedNotBeOne` exhibit both.
- **Too many ledger parts.** A ledger with more part numbers than the file has ranges is not rejected.
- **Errors.** The completion check raises `ValueError`, and I/O raises its own exceptions. The model returns each as an `Err` value.
- **ETags in the folder uploader.** `upload.py` records the store's ETag after `.replace('""', '')`, which leaves a quoted ETag quoted. The folder run records and completes with exactly that value (see "## Findings").

## Model

Source paths are relative to the package directory's parent, e.g. `s3_multipart_upload/...`.

| member | source | states |
|---|---|---|
| PartLedger.NewUploadedPart | s3_multipart_upload/io/uploaded_part.py:16-18 | a receipt is built iff PartNumber >= 1 and then carries exactly the given fields; otherwise ValueError |
| PartLedger.ParseMode | s3_multipart_upload/io/uploaded_part.py:41-43 | exactly "w" (truncate) and "a" (append) are accepted; any other mode is a ValueError |
| PartLedger.ReplayMeaning | s3_multipart_upload/io/uploaded_part.py:73-78 | reading succeeds iff no line is undecodable and no record has PartNumber below 1; it then yields the records in file order, blank lines skipped |
| PartLedger.ReplayAppend | s3_multipart_upload/io/uploaded_part.py:73-78 | reading a ledger in two stretches equals reading it whole; the first failure wins |
| PartLedger.ReplayEncode | s3_multipart_upload/io/uploaded_part.py:56-78 | the lines written for a list of parts read back as exactly that list |
| PartLedger.WriteThenRead | s3_multipart_upload/io/uploaded_part.py:56-78 | parts appended to a ledger read back after its old records, in the order written |
| PartLedger.EncodeAppend | s3_multipart_upload/io/uploaded_part.py:56-60 | writing a then b appends the lines of a followed by those of b |
| PartLedger.UploadedPartFileWriter.constructor | s3_multipart_upload/io/uploaded_part.py:41-48 | a new writer holds its file, mode and flush flag and has no open handle |
| PartLedger.UploadedPartFileWriter.Open | s3_multipart_upload/io/uploaded_part.py:50-51 | the handle becomes open and the file exists; "w" empties it, "a" keeps its lines |
| PartLedger.UploadedPartFileWriter.Close | s3_multipart_upload/io/uploaded_part.py:53-54 | closing a writer that was never opened fails (no handle) and changes nothing; otherwise the handle is closed |
| PartLedger.UploadedPartFileWriter.Write | s3_multipart_upload/io/uploaded_part.py:56-60 | before open: IOError and no line written; after open: exactly one line for the part is appended and nothing else changes |
| PartLedger.UploadedPartFileWriter.Enter | s3_multipart_upload/io/uploaded_part.py:22-24 | entering opens the writer and returns the same object |
| PartLedger.UploadedPartFileWriter.Exit | s3_multipart_upload/io/uploaded_part.py:26-32 | leaving closes the writer |
| PartLedger.UploadedPartFileReader.constructor | s3_multipart_upload/io/uploaded_part.py:63-65 | a new reader holds its file and has no open handle |
| PartLedger.UploadedPartFileReader.Open | s3_multipart_upload/io/uploaded_part.py:67-68 | an existing file is opened; opening a missing one fails and changes nothing |
| PartLedger.UploadedPartFileReader.Close | s3_multipart_upload/io/uploaded_part.py:70-71 | closing a reader that was never opened fails; otherwise the handle is closed |
| PartLedger.UploadedPartFileReader.Read | s3_multipart_upload/io/uploaded_part.py:73-78 | before open: IOError; after open: the loop's result equals the replay of the file's lines |
| PartLedger.UploadedPartFileReader.Enter | s3_multipart_upload/io/uploaded_part.py:22-24 | entering opens the reader and returns the same object, or fails on a missing file |
| PartLedger.UploadedPartFileReader.Exit | s3_multipart_upload/io/uploaded_part.py:26-32 | leaving closes the reader |
| LegacyPartLedger.NewReceipt | s3_multipart_upload/subcommands/io/uploaded_part.py:15-17 | the two-field receipt is built iff PartNumber >= 1, carrying exactly the given fields; otherwise ValueError |
| LegacyPartLedger.ReplayMeaning | s3_multipart_upload/subcommands/io/uploaded_part.py:64-69 | reading succeeds iff every line is blank or a record with PartNumber >= 1, and then yields the records in file order |
| LegacyPartLedger.ReplayAppend | s3_multipart_upload/subcommands/io/uploaded_part.py:64-69 | reading two stretches equals reading them joined; the first failure wins |
| LegacyPartLedger.ReplayEncode | s3_multipart_upload/subcommands/io/uploaded_part.py:41-69 | receipts written read back unchanged |
| LegacyPartLedger.WriteThenRead | s3_multipart_upload/subcommands/io/uploaded_part.py:41-69 | receipts appended to a ledger read back after its old records, in order |
| LegacyPartLedger.EncodeAppend | s3_multipart_upload/subcommands/io/uploaded_part.py:41-45 | writing a then b appends a's lines then b's |
| LegacyPartLedger.ReceiptWriter.constructor | s3_multipart_upload/subcommands/io/uploaded_part.py:20-27 | a new writer holds its file, mode and flush flag and no handle |
| LegacyPartLedger.ReceiptWriter.Enter | s3_multipart_upload/subcommands/io/uploaded_part.py:29-31 | entering opens the file ("w" empties it, "a" keeps it) and returns the same object |
| LegacyPartLedger.ReceiptWriter.Exit | s3_multipart_upload/subcommands/io/uploaded_part.py:33-39 | leaving without a handle fails; otherwise the handle is closed |
| LegacyPartLedger.ReceiptWriter.Write | s3_multipart_upload/subcommands/io/uploaded_part.py:41-45 | before entering: IOError and nothing written; once entered: exactly one {ETag, PartNumber} line appended |
| LegacyPartLedger.ReceiptReader.constructor | s3_multipart_upload/subcommands/io/uploaded_part.py:48-50 | a new reader holds its file and no handle |
| LegacyPartLedger.ReceiptReader.Enter | s3_multipart_upload/subcommands/io/uploaded_part.py:52-54 | entering opens an existing file and returns the same object; a missing file fails |
| LegacyPartLedger.ReceiptReader.Exit | s3_multipart_upload/subcommands/io/uploaded_part.py:56-62 | leaving without a handle fails; otherwise the handle is closed |
| LegacyPartLedger.ReceiptReader.Read | s3_multipart_upload/subcommands/io/uploaded_part.py:64-69 | before entering: IOError; once entered: the parts equal the replay of the file's lines |
| Completion.SortByPartNumber | s3_multipart_upload/subcommands/upload/s3_multipart_upload.py:10 | the result is sorted by PartNumber and is a permutation of the input |
| Completion.MissingPartsMeaning | s3_multipart_upload/subcommands/upload/s3_multipart_upload.py:35-38 | for strictly increasing numbers the length test passes iff they are exactly first, first+1, ..., last |
| Completion.DuplicateMasksGap | s3_multipart_upload/subcommands/upload/s3_multipart_upload.py:35-38 | the sorted list 1, 1, 3 passes the test although part 2 is missing |
| Completion.FirstPartNeedNotBeOne | s3_multipart_upload/subcommands/upload/s3_multipart_upload.py:35-38 | the list 2, 3 passes the test although part 1 is missing |
| Completion.CompletionRequestMeaning | s3_multipart_upload/subcommands/upload/s3_multipart_upload.py:6-14 | an empty list is a ValueError; otherwise a list is sent iff it passes the gap check after sorting; every refusal is a ValueError; what is sent is a permutation of the parts' {ETag, PartNumber} pairs in ascending PartNumber order |
| Completion.CompletionOfFullRun | s3_multipart_upload/subcommands/upload/s3_multipart_upload.py:6-14 | parts numbered 1..n once each, in any order, pass the check, and the list sent is numbered 1, 2, ..., n in order |
| Completion.CompleteMultipartUpload | s3_multipart_upload/subcommands/upload/s3_multipart_upload.py:6-20 | on a refusal, the error of the request function and no remote call; otherwise exactly one complete call carrying the request's list |
| Completion.UploadListed | s3_multipart_upload/subcommands/upload/s3_multipart_upload.py:22-28 | false when the response has no Uploads; otherwise true iff the id is among those listed |
| Completion.IsMultipartInProgress | s3_multipart_upload/subcommands/upload/s3_multipart_upload.py:22-28 | one listing call, and the answer is whether the listing holds the upload id |
| Remote.S3Client.CreateMultipartUpload | s3_multipart_upload/subcommands/upload/s3_multipart_upload.py:30-33 | returns the upload id the store hands out and logs one create call |
| Dispatch.PlanFromTiles | s3_multipart_upload/subcommands/upload/upload_multi_threading.py:48-73 | from any start, the loop's ranges are contiguous, numbered up by one, full-size except the last, which ends at the file size |
| Dispatch.PlanFromCount | s3_multipart_upload/subcommands/upload/upload_multi_threading.py:48-73 | the loop makes the fewest ranges of at most split_size bytes covering the rest of the file |
| Dispatch.PlanTilesFile | s3_multipart_upload/subcommands/upload/upload_multi_threading.py:43-73 | the ranges tile [0, file_size); all but the last have split_size bytes; the last has 1..split_size bytes; there are ceil(file_size / split_size) of them |
| Dispatch.PlanNumbering | s3_multipart_upload/subcommands/upload/upload_multi_threading.py:44-73 | parts are numbered 1, 2, 3, ... whether or not skipped, and part p starts at byte (p - 1) * split_size |
| Dispatch.PlanWithinFile | s3_multipart_upload/subcommands/upload/upload_multi_threading.py:48-53 | every range lies within the file |
| Dispatch.SubmittedMeaning | s3_multipart_upload/subcommands/upload/upload_multi_threading.py:56-69 | a range is submitted iff it is planned and its number is not already uploaded |
| Dispatch.SubmittedAscending | s3_multipart_upload/subcommands/upload/upload_multi_threading.py:56-69 | submitted ranges keep strictly ascending part numbers |
| Dispatch.SubmittedNumbers | s3_multipart_upload/subcommands/upload/upload_multi_threading.py:56-69 | the submitted numbers are exactly those in 1..N not already uploaded, ascending |
| Dispatch.StripQuotes | s3_multipart_upload/subcommands/upload/upload_multi_threading.py:122 | the result has no quote and keeps every other character of the ETag; a quote-free ETag is unchanged |
| Dispatch.StripQuotesAppend | s3_multipart_upload/subcommands/upload/upload_multi_threading.py:122 | stripping distributes over concatenation, so the other characters keep their order and number |
| Dispatch.Attempt | s3_multipart_upload/subcommands/upload/upload_multi_threading.py:92-131 | a result echoes start, end and part number; exactly one of part and failure is set; a part exists iff the store accepted and the receipt was written; it carries the part number, the session's upload id and a quote-free ETag |
| Dispatch.SaveUploadedPartThreadSafe | s3_multipart_upload/subcommands/upload/upload_multi_threading.py:81-90 | with an open writer, exactly one line is appended, in one step; otherwise an error and nothing written |
| Dispatch.UploadPart | s3_multipart_upload/subcommands/upload/upload_multi_threading.py:92-131 | sends bytes [start, end) as one upload call; returns the attempt; appends a receipt only when the attempt succeeded |
| Dispatch.ReceiptsOfSuccesses | s3_multipart_upload/subcommands/upload/upload_multi_threading.py:79 | with no failure, there is one receipt per result, in result order |
| Dispatch.DispatchPairs | s3_multipart_upload/subcommands/upload/upload_multi_threading.py:28-79 | result i belongs to upload call i; a result carries a part iff it carries no failure, and that part has the result's number and the session's id |
| Dispatch.DispatchNumbers | s3_multipart_upload/subcommands/upload/upload_multi_threading.py:28-79 | a run tries exactly the numbers in 1..N not already uploaded, each once, ascending |
| Dispatch.DispatchAllAccepted | s3_multipart_upload/subcommands/upload/upload_multi_threading.py:92-131 | when the store accepts every part, no result carries a failure |
| Dispatch.DispatchCallNumbers | s3_multipart_upload/subcommands/upload/upload_multi_threading.py:56-69 | every upload call sends a part numbered in 1..N and not already uploaded |
| Dispatch.SubmitPart | s3_multipart_upload/subcommands/upload/upload_multi_threading.py:56-69 | one submission extends the results, the call log and the ledger by exactly that part's attempt, call and receipt |
| Dispatch.UploadUsingMultiThreading | s3_multipart_upload/subcommands/upload/upload_multi_threading.py:28-79 | fewer than one worker: ValueError and nothing happens; otherwise the results, calls and appended receipts are exactly those of the planning and submission functions |
| ResumableUpload.HaveUnrelatedParts | s3_multipart_upload/subcommands/upload/upload_multipart.py:121-131 | true iff some part's upload id differs from the session's; false for an empty list |
| ResumableUpload.LedgerPartsMeaning | s3_multipart_upload/subcommands/upload/upload_multipart.py:113-119 | a missing ledger has no parts; an existing one reads iff it is readable, yielding its records in order |
| ResumableUpload.GetUploadedParts | s3_multipart_upload/subcommands/upload/upload_multipart.py:113-119 | the parts read through the reader's with-block are those the ledger function gives |
| ResumableUpload.PartNumberSet | s3_multipart_upload/subcommands/upload/upload_multipart.py:80 | the skip set holds exactly the ledger's part numbers |
| ResumableUpload.FailedUploads | s3_multipart_upload/subcommands/upload/upload_multipart.py:91-93 | keeps exactly the results that carry a failure |
| ResumableUpload.NoFailedUploads | s3_multipart_upload/subcommands/upload/upload_multipart.py:91-95 | results with no failure leave nothing to report |
| ResumableUpload.AppendUploadedParts | s3_multipart_upload/subcommands/upload/upload_multipart.py:104-105 | the ledger's parts are followed by one receipt per new result, in order |
| ResumableUpload.OpenSessionMeaning | s3_multipart_upload/subcommands/upload/upload_multipart.py:45-65 | no descriptor: a new session (bucket, key, new id, split size) is created and saved; a stored one is resumed iff bucket, key and split size agree and the store lists its id; opening never uploads |
| ResumableUpload.DispatchRunsOnlyWhenReady | s3_multipart_upload/subcommands/upload/upload_multipart.py:34-89 | the dispatcher runs iff the source is non-empty, the session opens, the ledger reads and belongs to it, and a worker exists; otherwise no part is sent, nothing completes and the ledger is untouched; a missing or empty source returns False with no call and nothing saved; a bucket, key or split-size mismatch returns False with no call; an unlisted session or unrelated ledger returns False; an unreadable ledger or fewer than one worker raises |
| ResumableUpload.FinishMeaning | s3_multipart_upload/subcommands/upload/upload_multipart.py:91-108 | any failed result: False and no call; with no failure, True with exactly one complete call on the ledger's parts followed by the new ones when the completion check passes, and the check's own ValueError with no call when it does not |
| ResumableUpload.DispatchedRun | s3_multipart_upload/subcommands/upload/upload_multipart.py:67-108 | a run that dispatches makes the opening calls, then the dispatch calls, then the finishing calls |
| ResumableUpload.CompletesOnlyOnSuccess | s3_multipart_upload/subcommands/upload/upload_multipart.py:24-111 | a complete call is made iff the run returns True; it is the last call, the only one, and for the session's bucket, key and upload id |
| ResumableUpload.NeverResendsRecordedParts | s3_multipart_upload/subcommands/upload/upload_multipart.py:67-89 | no part whose number the ledger records is sent again; every part sent is numbered in 1..N |
| ResumableUpload.ReceiptsCover | s3_multipart_upload/subcommands/upload/upload_multipart.py:80-105 | new receipts for exactly the missing numbers, together with distinct ledger numbers in 1..n, cover 1..n once each |
| ResumableUpload.ReceiptsFillGaps | s3_multipart_upload/subcommands/upload/upload_multipart.py:80-105 | when the store accepts every part, the ledger's parts and the new receipts carry each number in 1..N exactly once |
| ResumableUpload.FinishFullRun | s3_multipart_upload/subcommands/upload/upload_multipart.py:91-108 | with no failure and parts 1..n once each, the run succeeds with one complete call listing 1..n in order |
| ResumableUpload.ResumeCompletesEveryPart | s3_multipart_upload/subcommands/upload/upload_multipart.py:24-111 | a resume whose ledger belongs to the session, with distinct numbers within 1..N, against a store that accepts every part, returns True and completes with parts 1..N in order |
| ResumableUpload.ResumeKeepsLedgerSound | s3_multipart_upload/subcommands/upload/upload_multipart.py:67-89 | a run that opens the ledger leaves it readable: the old parts first, then only parts of the session, with numbers still distinct and within 1..N, so every later resume meets the conditions of `ResumeCompletesEveryPart` |
| ResumableUpload.ResumedRun | s3_multipart_upload/subcommands/upload/upload_multipart.py:67-108 | a non-empty source whose session opens and whose ledger belongs to it dispatches the missing parts and finishes |
| ResumableUpload.FinishSession | s3_multipart_upload/subcommands/upload/upload_multipart.py:91-108 | the result and the calls are exactly those of the finishing function |
| ResumableUpload.ResumeSession | s3_multipart_upload/subcommands/upload/upload_multipart.py:67-111 | the result, calls and ledger are exactly those of the resume function |
| ResumableUpload.UploadMultipart | s3_multipart_upload/subcommands/upload/upload_multipart.py:24-111 | the result, calls, ledger and saved descriptor are exactly those of the run function |
| UploadConfig.ConvertAll | s3_multipart_upload/subcommands/config.py:25 | the comprehension succeeds iff every element converts, then element i is the conversion of element i |
| UploadConfig.ConvertAllFirstFailure | s3_multipart_upload/subcommands/config.py:25 | a failed comprehension raises the first failing element's error |
| UploadConfig.ConvertParts | s3_multipart_upload/subcommands/config.py:21-25 | an empty list, or one whose first element is an object, is kept; a dict-first list succeeds iff every element is a valid dict, and then each becomes a part with its fields |
| UploadConfig.LoadedPartsMeaning | s3_multipart_upload/subcommands/config.py:21-25 | a stored document loads iff every PartNumber is >= 1 (else ValueError), giving part objects whose fields are the stored ones |
| UploadConfig.SaveThenLoad | s3_multipart_upload/subcommands/config.py:27-44 | a config with valid rehydrated parts, saved as its dict and loaded again, has the same parts |
| UploadConfig.MultipartUploadConfig.constructor | s3_multipart_upload/subcommands/config.py:14-19 | the dataclass holds the fields as passed |
| UploadConfig.MultipartUploadConfig.PostInit | s3_multipart_upload/subcommands/config.py:21-25 | post-init succeeds iff the conversion does, and then Parts is the converted list; on an error Parts is left as it was |
| UploadConfig.LoadMultipartFile | s3_multipart_upload/subcommands/config.py:33-40 | an absent or empty file gives None; otherwise a new config whose dict is the stored document, or the conversion's error |
| UploadConfig.SaveMultipartFile | s3_multipart_upload/subcommands/config.py:42-44 | the file then holds the config's dict |
| FolderUpload.NameLeTotal | s3_multipart_upload/subcommands/upload.py:146-150 | any two names are ordered one way or the other |
| FolderUpload.NameLeAntisymmetric | s3_multipart_upload/subcommands/upload.py:146-150 | names ordered both ways are equal |
| FolderUpload.NameLeTransitive | s3_multipart_upload/subcommands/upload.py:146-150 | the name order is transitive |
| FolderUpload.SortNames | s3_multipart_upload/subcommands/upload.py:146-150 | the result is sorted and a permutation of the input |
| FolderUpload.SortedNamesUnique | s3_multipart_upload/subcommands/upload.py:146-150 | two sorted lists of the same names are equal, so the order does not depend on the listing order |
| FolderUpload.KeepPrefixed | s3_multipart_upload/subcommands/upload.py:148 | keeps exactly the names that start with the prefix, each no more often than it is listed |
| FolderUpload.GetUploadFilesMeaning | s3_multipart_upload/subcommands/upload.py:145-151 | the files are the prefixed names joined to the folder (the same multiset, no more files than names), in sorted path order, numbered 1..n |
| FolderUpload.StartAfterRecorded | s3_multipart_upload/subcommands/upload.py:153-156 | without an explicit start, for parts recorded in ascending order the start follows every recorded part; with no parts it is 1 |
| FolderUpload.FilterFilePaths | s3_multipart_upload/subcommands/upload.py:73 | the filtered list is never longer than the full one, so the skip count is never negative |
| FolderUpload.FilterFilePathsMeaning | s3_multipart_upload/subcommands/upload.py:158-159 | keeps exactly the files numbered start or later |
| FolderUpload.FilterNumberedIsSuffix | s3_multipart_upload/subcommands/upload.py:158-159 | on files numbered 1..n, the filter keeps the tail from part start, with order preserved |
| FolderUpload.RunFilesNumbering | s3_multipart_upload/subcommands/upload.py:69-71 | the files uploaded are the folder's files from position c on, numbered c+1, c+2, ..., each at least the start part |
| FolderUpload.FolderPostInitMeaning | s3_multipart_upload/subcommands/upload.py:28-33 | a document read back from JSON always rehydrates, each dict becoming a part with its fields; a dict-first list holding an object fails |
| FolderUpload.MultipartConfig.constructor | s3_multipart_upload/subcommands/upload.py:23-26 | the dataclass holds the fields as passed |
| FolderUpload.MultipartConfig.PostInit | s3_multipart_upload/subcommands/upload.py:28-33 | succeeds iff the conversion (with a part class that checks nothing) does, and then Parts is the converted list; on an error Parts is left as it was |
| FolderUpload.ReplaceEmptyQuotes | s3_multipart_upload/subcommands/upload.py:93 | the replacement as written never lengthens the ETag |
| FolderUpload.ReplaceWithoutPairs | s3_multipart_upload/subcommands/upload.py:93 | the replacement as written changes nothing in a string without two adjacent quotes |
| FolderUpload.QuotedETagKeepsQuotes | s3_multipart_upload/subcommands/upload.py:93 | for every non-empty quote-free ETag wrapped in quotes, the expression as written keeps both quotes, while stripping every quote gives the bare ETag |
| FolderUpload.AcceptedCount | s3_multipart_upload/subcommands/upload.py:78-95 | the loop stops at the first file the store refuses: all before it were accepted |
| FolderUpload.FileReceipts | s3_multipart_upload/subcommands/upload.py:78-95 | one receipt per accepted file, in file order, each holding the file's part number and the store's ETag after the replacement as written |
| FolderUpload.UploadFilesFacts | s3_multipart_upload/subcommands/upload.py:78-100 | call i uploads file i; the session file ends with the recorded parts plus one receipt per accepted file, with the ETag as the replacement leaves it; completion is made only if every file was accepted and there was at least one, as the last call, over exactly those parts |
| FolderUpload.FileReceiptsFacts | s3_multipart_upload/subcommands/upload.py:93-94 | each appended receipt has its file's part number; an ETag the store returns in quotes is recorded with its quotes |
| FolderUpload.FolderGuard | s3_multipart_upload/subcommands/upload.py:52-64 | a stored session the store no longer lists stops the run with no upload and the file untouched; a new session starts with the create call, a resumed one with the listing call, and keeps its upload id |
| FolderUpload.FolderCompletesOnlyAfterUploads | s3_multipart_upload/subcommands/upload.py:97-100 | completion is the last call, only after an upload in this run, and sends every recorded part in recorded order |
| FolderUpload.FolderNeverResendsRecordedParts | s3_multipart_upload/subcommands/upload.py:69-95 | without an explicit start, every part uploaded is numbered above all parts recorded (recorded ascending) |
| FolderUpload.FolderKeepsPartsAscending | s3_multipart_upload/subcommands/upload.py:78-95 | without an explicit start, the session file's parts stay strictly ascending |
| FolderUpload.LoadMultipartFile | s3_multipart_upload/subcommands/upload.py:132-139 | an absent or empty file gives None; otherwise a new config of part objects whose dict is the stored document |
| FolderUpload.SaveMultipartFile | s3_multipart_upload/subcommands/upload.py:141-143 | the file then holds the config's dict |
| FolderUpload.CompleteRecordedParts | s3_multipart_upload/subcommands/upload.py:121-130 | one complete call carrying every recorded part's {ETag, PartNumber}, in recorded order |
| FolderUpload.UploadOne | s3_multipart_upload/subcommands/upload.py:79-95 | one upload call; a refusal changes nothing else; an acceptance appends exactly its receipt (the ETag after `.replace('""', '')`) and rewrites the file |
| FolderUpload.UploadTurn | s3_multipart_upload/subcommands/upload.py:78-95 | turn i extends the calls by file i's upload and, when accepted, the parts by its receipt with the ETag as written; a refusal is the first one |
| FolderUpload.UploadEach | s3_multipart_upload/subcommands/upload.py:78-95 | earlier parts are kept and one receipt, with the ETag as the replacement leaves it, is appended per accepted file, in order; the first refusal stops the loop with an error |
| FolderUpload.UploadAndComplete | s3_multipart_upload/subcommands/upload.py:78-100 | the result, calls and session file are those of the loop-and-complete function, whose saved parts and completion list carry the ETags as the replacement leaves them |
| FolderUpload.BeginSession | s3_multipart_upload/subcommands/upload.py:52-64 | no file: a session with no parts is created and saved; a stored one goes on only while it is listed, else the file is untouched |
| FolderUpload.FilesToUpload | s3_multipart_upload/subcommands/upload.py:69-75 | the files are the numbered folder files from the start part on |
| FolderUpload.ContinueSession | s3_multipart_upload/subcommands/upload.py:69-100 | after opening, the result, calls and session file are those of the run function, which records the ETags as written |
| FolderUpload.UploadMultipart | s3_multipart_upload/subcommands/upload.py:41-100 | the result, calls and session file are exactly those of the run function, which records the ETags as written |

## Left out

- Thread pool and lock: the pool runs the submitted parts one after another, in submission order. The locked ledger append is one atomic step. Interleavings of workers are not modelled.
- Remote store: `create_multipart_upload`, `list_multipart_uploads`, `upload_part` and `complete_multipart_upload` are the constant answers of `Remote.S3Client`. Network errors and store-side validation are not modelled.
- MD5 and Content-MD5 (`_compute_md5`, `_get_md5`): hashing of the bytes sent. This is library code; the body sent is modelled, its digest is not.
- File system: existence, sizes, `listdir`, `seek`/`tell` and reads are parameters. A file is its bytes, a folder is its list of names, and a file's body is given by a function of its path. `seek(offset)` followed by `tell()` is taken to give `offset`.
- JSON, jsonlines and dataclass serialisation: ledger lines are records (`Files.Line`), and documents are records (`ConfigDict`, `FolderConfigDict`). Encoding and key renaming are not modelled. `to_json` is the identity on the dict.
- Logging and the CLI: messages, timing, and the skipped-file count of `upload.py` (only logged; its non-negativity is proved).
- Field-name mismatches: `upload_multipart.py` reads `part_number`/`upload_id` where the class defines `PartNumber`/`UploadId`. `upload_multi_threading.py` reads `Bucket`/`Key`/`UploadId` on a descriptor whose fields are lower case. `complete_multipart_upload` in `s3_multipart_upload.py` (lines 16-18) reads `meta.Bucket`/`meta.Key`/`meta.UploadId` on the same lower-case descriptor, so every completion that passes the empty-list and gap checks would raise there before the store is called; `Completion.CompleteMultipartUpload` instead makes its one complete call, and `CompletionRequestMeaning`, `FinishMeaning` and `ResumeCompletesEveryPart` describe that call. The model has one field per concept, so the AttributeError these would raise is not modelled.
- Dispatch.UploadUsingMultiThreading: requires `split_size >= 1`. With 0 the source loop never advances and never ends; with a negative size the first offset is negative and `seek` raises. `ResumableUpload.Run` and `ResumableUpload.UploadMultipart` carry the same requirement, although their missing-file and descriptor-mismatch guards return before the split size is used.
- Completion.SortByPartNumber: is a stable insertion sort. It is proved sorted and a permutation; its stability is not stated.
- Completion.CompleteMultipartUpload: the store's own refusal of a complete call is not modelled; the call always succeeds. The AttributeError that `meta.Bucket`, `meta.Key` and `meta.UploadId` (lines 16-18) would raise on the lower-case descriptor is not modelled either (one field per concept, as above).
- ResumableUpload.GetUploadedParts: the reader's close error cannot occur after a successful open; it is not modelled.
- UploadConfig.ConvertParts: only list values of `Parts` are modelled. A non-list value (which `__post_init__` leaves alone) is not.
- FolderUpload.UploadEach: a refused upload raises in the source (boto3 raises on an error response). The model returns it as an `Err` that stops the run.
- FolderUpload.ReplaceEmptyQuotes: its own contract only bounds the length. What the expression does to quoted ETags is stated by `FolderUpload.QuotedETagKeepsQuotes`.
- The abort subcommands and the single-threaded uploader are not part of this model.

## Findings

| source | as written | input that shows it | evidently intended | confidence | as-written member | corrected member |
|---|---|---|---|---|---|---|
| s3_multipart_upload/subcommands/upload.py:93 | `upload_response['ETag'].replace('""', '')` removes only pairs of adjacent quotes | the store's ETag `"abc"` (with its quotes) is kept as `"abc"` | remove every `"`, as `upload_multi_threading.py:122` does, so the recorded ETag is `abc` | not executed | FolderUpload.QuotedETagKeepsQuotes | Dispatch.StripQuotes |
