/** The resumable upload of one file: open or resume the session, read the
    ledger of parts already uploaded, send the rest, and finish the session. */
module ResumableUpload {
  import opened Outcomes
  import opened Files
  import opened PartLedger
  import opened Remote
  import opened MultipartMeta
  import opened SeqFacts
  import opened Completion
  import opened Dispatch

  /** Some ledger part belongs to another session than `meta`'s. */
  predicate Unrelated(meta: MultipartUploadMeta, parts: seq<UploadedPart>)
  {
    exists i :: 0 <= i < |parts| && parts[i].uploadId != meta.uploadId
  }

  /** `_have_unrelated_parts`: scans the parts and stops at the first whose
      upload id differs from the session's. */
  method HaveUnrelatedParts(meta: MultipartUploadMeta, parts: seq<UploadedPart>) returns (unrelated: bool)
    ensures unrelated <==> Unrelated(meta, parts)
  {
    if |parts| == 0 {
      return false;
    }
    var i := 0;
    while i < |parts|
      invariant 0 <= i <= |parts|
      invariant forall j :: 0 <= j < i ==> parts[j].uploadId == meta.uploadId
    {
      if parts[i].uploadId != meta.uploadId {
        return true;
      }
      i := i + 1;
    }
    return false;
  }

  /** What `_get_uploaded_parts` reads from a ledger: nothing when the file
      does not exist, else the ledger's parts or the error that stops the read. */
  function LedgerParts(present: bool, lines: seq<Line<PartFields>>): Result<seq<UploadedPart>>
  {
    if !present then Ok([]) else Replay(lines)
  }

  /** A missing ledger holds no parts; an existing one yields its parts exactly
      when every line is blank or a record with a positive part number, and
      then the parts are its records in file order. */
  lemma LedgerPartsMeaning(present: bool, lines: seq<Line<PartFields>>)
    ensures !present ==> LedgerParts(present, lines) == Ok([])
    ensures present ==> (LedgerParts(present, lines).Ok? <==> Readable(lines))
    ensures present && Readable(lines) ==> LedgerParts(present, lines).value == Records(lines)
  {
    ReplayMeaning(lines);
  }

  /** `_get_uploaded_parts`: reads the whole ledger through a reader opened
      and closed by a `with` block. */
  method GetUploadedParts(ledger: LineFile<PartFields>) returns (r: Result<seq<UploadedPart>>)
    ensures r == LedgerParts(ledger.present, ledger.lines)
  {
    if !ledger.present {
      return Ok([]);
    }
    var reader := new UploadedPartFileReader(ledger);
    var entered := reader.Enter();
    r := reader.Read();
    var _ := reader.Exit();
  }

  /** The set comprehension of the part numbers already in the ledger. */
  function PartNumberSet(parts: seq<UploadedPart>): (s: set<int>)
    ensures forall v :: v in s <==> v in PartNumbers(parts)
  {
    set i | 0 <= i < |parts| :: parts[i].partNumber
  }

  /** The results that carry a failure, in order. */
  function FailedUploads(results: seq<UploadResult>): (failed: seq<UploadResult>)
    ensures forall u :: u in failed <==> u in results && u.failure.Some?
    ensures |failed| <= |results|
  {
    if results == [] then []
    else
      var last := results[|results| - 1];
      FailedUploads(results[..|results| - 1]) + (if last.failure.Some? then [last] else [])
  }

  /** Results none of which failed leave nothing to report. */
  lemma {:induction false} NoFailedUploads(results: seq<UploadResult>)
    requires forall u :: u in results ==> u.failure.None?
    ensures FailedUploads(results) == []
  {
    if results != [] {
      var init := results[..|results| - 1];
      assert forall u :: u in init ==> u in results;
      NoFailedUploads(init);
      assert results[|results| - 1] in results;
    }
  }

  /** How the session is opened: the descriptor to go on with (None when the
      run stops here), the remote calls made and the descriptor saved, if any. */
  datatype Opening = Opening(meta: Option<MultipartUploadMeta>, calls: seq<Call>, saved: Option<MultipartUploadMeta>)

  /** A missing descriptor starts a new session under the store's next upload
      id; a stored one is resumed only if bucket, key and split size agree and
      the store still lists its upload id. */
  function OpenSession(bucket: string, key: string, splitSize: int, stored: Option<MultipartUploadMeta>,
                       nextUploadId: string, listing: string -> Option<seq<string>>): Opening
  {
    match stored
    case None =>
      var meta := MultipartUploadMeta(bucket, key, nextUploadId, splitSize);
      Opening(Some(meta), [CreateCall(bucket, key)], Some(meta))
    case Some(m) =>
      if bucket != m.bucket || key != m.key then Opening(None, [], None)
      else if splitSize != m.splitSize then Opening(None, [], None)
      else if !UploadListed(listing(m.bucket), m.uploadId) then Opening(None, [ListCall(m.bucket)], None)
      else Opening(Some(m), [ListCall(m.bucket)], None)
  }

  /** What one run does: its return value or exception, the remote calls it
      makes in order, the ledger's lines afterwards, the descriptor it saves
      (if any) and whether it opened the ledger for appending. */
  datatype RunOutcome = RunOutcome(result: Result<bool>, calls: seq<Call>, lines: seq<Line<PartFields>>,
                                   saved: Option<MultipartUploadMeta>, ledgerOpened: bool)

  /** The run from the point the session is open: read the ledger, check it
      belongs to the session, send the missing parts, and complete the session
      with the ledger's parts followed by the new ones. */
  function Resume(meta: MultipartUploadMeta, opening: Opening, content: seq<Byte>, ledgerPresent: bool,
                  ledger: seq<Line<PartFields>>, threadCount: int, splitSize: int,
                  respond: (int, seq<Byte>) -> PartResponse): RunOutcome
    requires splitSize >= 1
  {
    var read := LedgerParts(ledgerPresent, ledger);
    if read.Err? then RunOutcome(Err(read.error), opening.calls, ledger, opening.saved, false)
    else
      var parts := read.value;
      if Unrelated(meta, parts) then RunOutcome(Ok(false), opening.calls, ledger, opening.saved, false)
      else if threadCount < 1 then RunOutcome(Err(ThreadCountError), opening.calls, ledger, opening.saved, false)
      else
        var skip := PartNumberSet(parts);
        var results := DispatchSpec(meta, skip, splitSize, content, respond);
        var sent := opening.calls + DispatchCalls(meta, skip, splitSize, content);
        var lines := ledger + Encode(Receipts(results));
        var finished := Finish(meta, parts, results);
        RunOutcome(finished.result, sent + finished.calls, lines, opening.saved, true)
  }

  /** The end of a run after the dispatch: its result and the calls it adds. */
  datatype Finished = Finished(result: Result<bool>, calls: seq<Call>)

  /** A run with a failed upload reports failure; otherwise it completes the
      session with the ledger's parts followed by the new ones. */
  function Finish(meta: MultipartUploadMeta, parts: seq<UploadedPart>, results: seq<UploadResult>): Finished
  {
    if |FailedUploads(results)| > 0 then Finished(Ok(false), [])
    else
      var request := CompletionRequest(parts + Receipts(results));
      if request.Err? then Finished(Err(request.error), [])
      else Finished(Ok(true), [CompleteCall(meta.bucket, meta.key, meta.uploadId, request.value)])
  }

  /** `upload_multipart` for a source file `source` (None when it does not
      exist), a stored descriptor `stored` and a ledger, against a store that
      hands out `nextUploadId`, lists `listing` and answers `respond`. */
  function Run(bucket: string, key: string, source: Option<seq<Byte>>, stored: Option<MultipartUploadMeta>,
               ledgerPresent: bool, ledger: seq<Line<PartFields>>, threadCount: int, splitSize: int,
               nextUploadId: string, listing: string -> Option<seq<string>>,
               respond: (int, seq<Byte>) -> PartResponse): RunOutcome
    requires splitSize >= 1
  {
    if source.None? || |source.value| == 0 then RunOutcome(Ok(false), [], ledger, None, false)
    else
      var opening := OpenSession(bucket, key, splitSize, stored, nextUploadId, listing);
      if opening.meta.None? then RunOutcome(Ok(false), opening.calls, ledger, opening.saved, false)
      else Resume(opening.meta.value, opening, source.value, ledgerPresent, ledger, threadCount, splitSize, respond)
  }

  /** The loop that appends each new upload's part to the ledger's parts. It
      is reached only when no upload failed, so every result carries a part. */
  method AppendUploadedParts(parts: seq<UploadedPart>, results: seq<UploadResult>) returns (all: seq<UploadedPart>)
    requires forall u :: u in results ==> u.failure.None? && u.uploadedPart.Some?
    ensures all == parts + Receipts(results)
    ensures |all| == |parts| + |results|
  {
    all := parts;
    var i := 0;
    while i < |results|
      invariant 0 <= i <= |results|
      invariant all == parts + Receipts(results[..i])
    {
      assert results[..i + 1] == results[..i] + [results[i]];
      ReceiptsAppend(results[..i], [results[i]]);
      all := all + [results[i].uploadedPart.value];
      i := i + 1;
    }
    assert results[..i] == results;
    ReceiptsOfSuccesses(results);
  }

  /** The part of `upload_multipart` after the session is open. */
  method ResumeSession(client: S3Client, meta: MultipartUploadMeta, ghost opening: Opening, content: seq<Byte>,
                       partsFile: LineFile<PartFields>, threadCount: int, splitSize: int, ghost callsBase: seq<Call>)
    returns (r: Result<bool>)
    requires splitSize >= 1
    requires client.calls == callsBase + opening.calls
    modifies client, partsFile
    ensures var o := Resume(meta, opening, content, old(partsFile.present), old(partsFile.lines),
                            threadCount, splitSize, client.respond);
            && r == o.result
            && client.calls == callsBase + o.calls
            && partsFile.lines == o.lines
            && partsFile.present == (old(partsFile.present) || o.ledgerOpened)
  {
    var read := GetUploadedParts(partsFile);
    if read.Err? {
      return Err(read.error);
    }
    var uploadedParts := read.value;

    var unrelated := HaveUnrelatedParts(meta, uploadedParts);
    if unrelated {
      return Ok(false);
    }

    var partNumbers := PartNumberSet(uploadedParts);
    ghost var dispatchCalls := DispatchCalls(meta, partNumbers, splitSize, content);
    var dispatched := UploadUsingMultiThreading(client, meta, partNumbers, threadCount, splitSize, content, partsFile);
    if dispatched.Err? {
      return Err(dispatched.error);
    }
    var uploadResults := dispatched.value;
    assert threadCount >= 1;
    AppendAssoc(callsBase, opening.calls, dispatchCalls);
    ghost var sent := opening.calls + dispatchCalls;
    assert client.calls == callsBase + sent;

    DispatchPairs(meta, partNumbers, splitSize, content, client.respond);
    ghost var finished := Finish(meta, uploadedParts, uploadResults);
    r := FinishSession(client, meta, uploadedParts, uploadResults);
    AppendAssoc(callsBase, sent, finished.calls);
  }

  /** The end of `upload_multipart`: stop on a failed upload, else gather all
      parts and complete the session. */
  method FinishSession(client: S3Client, meta: MultipartUploadMeta, parts: seq<UploadedPart>, results: seq<UploadResult>)
    returns (r: Result<bool>)
    requires forall i :: 0 <= i < |results| ==> (results[i].uploadedPart.Some? <==> results[i].failure.None?)
    modifies client
    ensures r == Finish(meta, parts, results).result
    ensures client.calls == old(client.calls) + Finish(meta, parts, results).calls
  {
    var failedUploads := FailedUploads(results);
    if |failedUploads| > 0 {
      return Ok(false);
    }
    forall u | u in results ensures u.failure.None? && u.uploadedPart.Some? {
      assert u !in failedUploads;
    }
    var uploadedParts := AppendUploadedParts(parts, results);
    var completed := CompleteMultipartUpload(client, meta, uploadedParts);
    if completed.Err? {
      return Err(completed.error);
    }
    return Ok(true);
  }

  /** `upload_multipart`. */
  method UploadMultipart(client: S3Client, bucket: string, key: string, source: Option<seq<Byte>>,
                         metaFile: DocumentFile<MultipartUploadMeta>, partsFile: LineFile<PartFields>,
                         threadCount: int, splitSize: int)
    returns (r: Result<bool>)
    requires splitSize >= 1
    modifies client, metaFile, partsFile
    ensures var o := Run(bucket, key, source, old(metaFile.Load()), old(partsFile.present), old(partsFile.lines),
                         threadCount, splitSize, client.nextUploadId, client.listing, client.respond);
            && r == o.result
            && client.calls == old(client.calls) + o.calls
            && partsFile.lines == o.lines
            && partsFile.present == (old(partsFile.present) || o.ledgerOpened)
            && metaFile.stored == (if o.saved.Some? then Written(o.saved.value) else old(metaFile.stored))
  {
    if source.None? {
      return Ok(false);
    }
    var content := source.value;
    var fileSize := |content|;
    if fileSize == 0 {
      return Ok(false);
    }
    ghost var opening := OpenSession(bucket, key, splitSize, metaFile.Load(), client.nextUploadId, client.listing);
    var stored := metaFile.Load();
    var meta: MultipartUploadMeta;
    if stored.None? {
      var uploadId := client.CreateMultipartUpload(bucket, key);
      meta := MultipartUploadMeta(bucket, key, uploadId, splitSize);
      metaFile.Save(meta);
    } else {
      meta := stored.value;
      if bucket != meta.bucket || key != meta.key {
        return Ok(false);
      }
      if splitSize != meta.splitSize {
        return Ok(false);
      }
      var inProgress := IsMultipartInProgress(client, meta.bucket, meta.uploadId);
      if !inProgress {
        return Ok(false);
      }
    }
    assert opening.meta == Some(meta);
    r := ResumeSession(client, meta, opening, content, partsFile, threadCount, splitSize, old(client.calls));
  }

  /** A stored descriptor is resumed only when bucket, key and split size all
      agree and the store still lists its upload id; a missing one starts a new
      session whose descriptor is saved. Opening never sends a part. */
  lemma OpenSessionMeaning(bucket: string, key: string, splitSize: int, stored: Option<MultipartUploadMeta>,
                           nextUploadId: string, listing: string -> Option<seq<string>>)
    ensures var o := OpenSession(bucket, key, splitSize, stored, nextUploadId, listing);
            && (stored.None? ==>
                  && o.meta == Some(MultipartUploadMeta(bucket, key, nextUploadId, splitSize))
                  && o.saved == o.meta
                  && o.calls == [CreateCall(bucket, key)])
            && (stored.Some? ==>
                  && o.saved.None?
                  && (o.meta.Some? <==>
                        stored.value.bucket == bucket && stored.value.key == key
                        && stored.value.splitSize == splitSize
                        && (exists uploads :: listing(bucket) == Some(uploads) && stored.value.uploadId in uploads))
                  && (o.meta.Some? ==> o.meta == stored))
            && (forall c :: c in o.calls ==> !Uploads(c))
  {
    if stored.Some? {
      var m := stored.value;
      var uploads := listing(m.bucket);
      if uploads.Some? && m.uploadId in uploads.value {
        var k :| 0 <= k < |uploads.value| && uploads.value[k] == m.uploadId;
      }
    }
  }

  /** The dispatcher runs (and the ledger is opened) exactly when the source
      is a non-empty file, the session opens, the ledger reads without error,
      all its parts belong to the session and at least one worker is asked
      for. A run that stops before that sends no part, finishes nothing,
      leaves the ledger as it was and does not report success: a missing or
      empty source and a descriptor for another bucket, key or split size
      return False before any remote call, an unlisted session or a ledger
      with another session's parts returns False, and an unreadable ledger or
      too few workers raise. */
  lemma DispatchRunsOnlyWhenReady(bucket: string, key: string, source: Option<seq<Byte>>,
                                  stored: Option<MultipartUploadMeta>, ledgerPresent: bool,
                                  ledger: seq<Line<PartFields>>, threadCount: int, splitSize: int,
                                  nextUploadId: string, listing: string -> Option<seq<string>>,
                                  respond: (int, seq<Byte>) -> PartResponse)
    requires splitSize >= 1
    ensures var o := Run(bucket, key, source, stored, ledgerPresent, ledger, threadCount, splitSize,
                         nextUploadId, listing, respond);
            var opening := OpenSession(bucket, key, splitSize, stored, nextUploadId, listing);
            && (o.ledgerOpened <==>
                  && source.Some? && |source.value| >= 1
                  && opening.meta.Some?
                  && LedgerParts(ledgerPresent, ledger).Ok?
                  && !Unrelated(opening.meta.value, LedgerParts(ledgerPresent, ledger).value)
                  && threadCount >= 1)
            && (!o.ledgerOpened ==>
                  && o.lines == ledger
                  && o.result != Ok(true)
                  && forall c :: c in o.calls ==> !Uploads(c))
            && ((source.None? || |source.value| == 0) ==>
                  o.result == Ok(false) && o.calls == [] && o.saved.None?)
            && (source.Some? && |source.value| >= 1 && stored.Some?
                && (stored.value.bucket != bucket || stored.value.key != key || stored.value.splitSize != splitSize) ==>
                  o.result == Ok(false) && o.calls == [] && o.saved.None? && !o.ledgerOpened)
            && (source.Some? && |source.value| >= 1 && opening.meta.None? ==> o.result == Ok(false))
            && (source.Some? && |source.value| >= 1 && opening.meta.Some? ==>
                  && (LedgerParts(ledgerPresent, ledger).Err? ==>
                        o.result == Err(LedgerParts(ledgerPresent, ledger).error))
                  && (LedgerParts(ledgerPresent, ledger).Ok? && Unrelated(opening.meta.value, LedgerParts(ledgerPresent, ledger).value) ==>
                        o.result == Ok(false) && o.calls == opening.calls)
                  && (LedgerParts(ledgerPresent, ledger).Ok? && !Unrelated(opening.meta.value, LedgerParts(ledgerPresent, ledger).value)
                      && threadCount < 1 ==>
                        o.result == Err(ThreadCountError) && o.calls == opening.calls))
  {
    OpenSessionMeaning(bucket, key, splitSize, stored, nextUploadId, listing);
  }

  /** After the dispatch the run adds one complete call, for the session,
      exactly when it reports success, and no call otherwise. */
  lemma FinishMeaning(meta: MultipartUploadMeta, parts: seq<UploadedPart>, results: seq<UploadResult>)
    ensures var f := Finish(meta, parts, results);
            && (f.result == Ok(true) <==> |f.calls| == 1)
            && (f.result != Ok(true) ==> f.calls == [])
            && (f.result == Ok(true) ==>
                  && FailedUploads(results) == []
                  && f.calls[0] == CompleteCall(meta.bucket, meta.key, meta.uploadId,
                                                CompletionRequest(parts + Receipts(results)).value))
            && (f.result == Ok(false) <==> |FailedUploads(results)| > 0)
            && (|FailedUploads(results)| == 0 && CompletionRequest(parts + Receipts(results)).Ok? ==>
                  f.result == Ok(true))
            && (|FailedUploads(results)| == 0 && CompletionRequest(parts + Receipts(results)).Err? ==>
                  f.result == Err(CompletionRequest(parts + Receipts(results)).error) && f.calls == [])
            && (forall c :: c in f.calls ==> c.CompleteCall?)
  {
  }

  /** A run that reaches the dispatcher makes the opening calls, then the
      dispatch calls, then the finishing calls, and reports what finishing
      reports. */
  lemma DispatchedRun(bucket: string, key: string, source: Option<seq<Byte>>,
                      stored: Option<MultipartUploadMeta>, ledgerPresent: bool,
                      ledger: seq<Line<PartFields>>, threadCount: int, splitSize: int,
                      nextUploadId: string, listing: string -> Option<seq<string>>,
                      respond: (int, seq<Byte>) -> PartResponse)
    requires splitSize >= 1
    requires Run(bucket, key, source, stored, ledgerPresent, ledger, threadCount, splitSize,
                 nextUploadId, listing, respond).ledgerOpened
    ensures source.Some? && LedgerParts(ledgerPresent, ledger).Ok?
    ensures OpenSession(bucket, key, splitSize, stored, nextUploadId, listing).meta.Some?
    ensures var o := Run(bucket, key, source, stored, ledgerPresent, ledger, threadCount, splitSize,
                         nextUploadId, listing, respond);
            var opening := OpenSession(bucket, key, splitSize, stored, nextUploadId, listing);
            var meta := opening.meta.value;
            var parts := LedgerParts(ledgerPresent, ledger).value;
            var skip := PartNumberSet(parts);
            var f := Finish(meta, parts, DispatchSpec(meta, skip, splitSize, source.value, respond));
            && o.result == f.result
            && o.calls == opening.calls + DispatchCalls(meta, skip, splitSize, source.value) + f.calls
  {
  }

  /** Calls none of which finishes a session, followed by a single complete
      call when `success` and by nothing otherwise: there is a complete call
      exactly on success, and it is the last call and the only one. */
  lemma LastCallCompletes(calls: seq<Call>, before: seq<Call>, tail: seq<Call>, success: bool)
    requires calls == before + tail
    requires forall i :: 0 <= i < |before| ==> !before[i].CompleteCall?
    requires success ==> |tail| == 1 && tail[0].CompleteCall?
    requires !success ==> tail == []
    ensures success <==> exists i :: 0 <= i < |calls| && calls[i].CompleteCall?
    ensures success ==> calls[|calls| - 1] == tail[0] && forall i :: 0 <= i < |calls| - 1 ==> !calls[i].CompleteCall?
  {
    if success {
      assert calls[|calls| - 1] == tail[0];
    } else {
      assert calls == before;
    }
  }

  /** The opening calls followed by upload calls finish no session. */
  lemma NoCompleteBefore(before: seq<Call>, opening: seq<Call>, dispatched: seq<Call>)
    requires before == opening + dispatched
    requires forall c :: c in opening ==> !Uploads(c)
    requires forall i :: 0 <= i < |dispatched| ==> dispatched[i].UploadPartCall?
    ensures forall i :: 0 <= i < |before| ==> !before[i].CompleteCall?
  {
    forall i | 0 <= i < |before| ensures !before[i].CompleteCall? {
      if i < |opening| {
        assert before[i] == opening[i] && opening[i] in opening;
      } else {
        assert before[i] == dispatched[i - |opening|];
      }
    }
  }

  /** Calls none of which touches a part finish no session. */
  lemma NoCompleteAmong(calls: seq<Call>)
    requires forall c :: c in calls ==> !Uploads(c)
    ensures forall i :: 0 <= i < |calls| ==> !calls[i].CompleteCall?
  {
    forall i | 0 <= i < |calls| ensures !calls[i].CompleteCall? {
      assert calls[i] in calls;
    }
  }

  /** The session is finished (a complete call is made) exactly when the run
      reports success, and then that call is the run's last call, for the
      session's bucket, key and upload id. */
  lemma CompletesOnlyOnSuccess(bucket: string, key: string, source: Option<seq<Byte>>,
                               stored: Option<MultipartUploadMeta>, ledgerPresent: bool,
                               ledger: seq<Line<PartFields>>, threadCount: int, splitSize: int,
                               nextUploadId: string, listing: string -> Option<seq<string>>,
                               respond: (int, seq<Byte>) -> PartResponse)
    requires splitSize >= 1
    ensures var o := Run(bucket, key, source, stored, ledgerPresent, ledger, threadCount, splitSize,
                         nextUploadId, listing, respond);
            var opening := OpenSession(bucket, key, splitSize, stored, nextUploadId, listing);
            && (o.result == Ok(true) <==> exists i :: 0 <= i < |o.calls| && o.calls[i].CompleteCall?)
            && (o.result == Ok(true) ==>
                  && opening.meta.Some?
                  && var last := o.calls[|o.calls| - 1];
                  && last.CompleteCall?
                  && last.bucket == opening.meta.value.bucket
                  && last.key == opening.meta.value.key
                  && last.uploadId == opening.meta.value.uploadId
                  && forall i :: 0 <= i < |o.calls| - 1 ==> !o.calls[i].CompleteCall?)
  {
    var o := Run(bucket, key, source, stored, ledgerPresent, ledger, threadCount, splitSize,
                 nextUploadId, listing, respond);
    var opening := OpenSession(bucket, key, splitSize, stored, nextUploadId, listing);
    if o.ledgerOpened {
      assert source.Some? && LedgerParts(ledgerPresent, ledger).Ok? && opening.meta.Some? by {
        DispatchedRun(bucket, key, source, stored, ledgerPresent, ledger, threadCount, splitSize,
                      nextUploadId, listing, respond);
      }
      var content := source.value;
      var meta := opening.meta.value;
      var parts := LedgerParts(ledgerPresent, ledger).value;
      var skip := PartNumberSet(parts);
      var dispatched := DispatchCalls(meta, skip, splitSize, content);
      var results := DispatchSpec(meta, skip, splitSize, content, respond);
      var finished := Finish(meta, parts, results);
      var before := opening.calls + dispatched;
      assert o.result == finished.result && o.calls == before + finished.calls by {
        DispatchedRun(bucket, key, source, stored, ledgerPresent, ledger, threadCount, splitSize,
                      nextUploadId, listing, respond);
      }
      assert forall i :: 0 <= i < |before| ==> !before[i].CompleteCall? by {
        OpenSessionMeaning(bucket, key, splitSize, stored, nextUploadId, listing);
        DispatchPairs(meta, skip, splitSize, content, respond);
        NoCompleteBefore(before, opening.calls, dispatched);
      }
      FinishMeaning(meta, parts, results);
      LastCallCompletes(o.calls, before, finished.calls, o.result == Ok(true));
    } else {
      assert o.result != Ok(true) && forall c :: c in o.calls ==> !Uploads(c) by {
        DispatchRunsOnlyWhenReady(bucket, key, source, stored, ledgerPresent, ledger, threadCount, splitSize,
                                  nextUploadId, listing, respond);
      }
      NoCompleteAmong(o.calls);
    }
  }

  lemma ElementOfPrefix<T>(a: seq<T>, b: seq<T>, i: int)
    requires 0 <= i < |a|
    ensures (a + b)[i] in a
  {
    assert (a + b)[i] == a[i];
  }

  lemma ElementOfSuffix<T>(a: seq<T>, b: seq<T>, i: int)
    requires |a| <= i < |a| + |b|
    ensures (a + b)[i] in b
  {
    assert (a + b)[i] == b[i - |a|];
  }

  /** In calls made of a prefix that sends no part, a middle whose parts all
      avoid the ledger's numbers and lie in 1..n, and a suffix of complete
      calls, every part sent avoids the ledger's numbers and lies in 1..n. */
  lemma SentPartsBetween(calls: seq<Call>, before: seq<Call>, middle: seq<Call>, after: seq<Call>,
                          parts: seq<UploadedPart>, n: int)
    requires calls == before + middle + after
    requires forall c :: c in before ==> !Uploads(c)
    requires forall c :: c in after ==> c.CompleteCall?
    requires forall j :: 0 <= j < |middle| ==>
               middle[j].UploadPartCall? && middle[j].partNumber !in PartNumberSet(parts) && 1 <= middle[j].partNumber <= n
    ensures forall i :: 0 <= i < |calls| && calls[i].UploadPartCall? ==>
              calls[i].partNumber !in PartNumbers(parts) && 1 <= calls[i].partNumber <= n
  {
    var skip := PartNumberSet(parts);
    forall i | 0 <= i < |calls| && calls[i].UploadPartCall?
      ensures calls[i].partNumber !in skip && 1 <= calls[i].partNumber <= n
    {
      if i < |before| {
        ElementOfPrefix(before, middle + after, i);
        assert false;
      } else if i < |before| + |middle| {
        assert calls[i] == middle[i - |before|];
      } else {
        ElementOfSuffix(before + middle, after, i);
        assert false;
      }
    }
  }

  /** A part whose number the ledger already records is never sent again, and
      every part sent has a number between 1 and the number of parts of the
      file. */
  lemma NeverResendsRecordedParts(bucket: string, key: string, source: Option<seq<Byte>>,
                                  stored: Option<MultipartUploadMeta>, ledgerPresent: bool,
                                  ledger: seq<Line<PartFields>>, threadCount: int, splitSize: int,
                                  nextUploadId: string, listing: string -> Option<seq<string>>,
                                  respond: (int, seq<Byte>) -> PartResponse)
    requires splitSize >= 1
    requires LedgerParts(ledgerPresent, ledger).Ok?
    ensures var o := Run(bucket, key, source, stored, ledgerPresent, ledger, threadCount, splitSize,
                         nextUploadId, listing, respond);
            forall i :: 0 <= i < |o.calls| && o.calls[i].UploadPartCall? ==>
              && o.calls[i].partNumber !in PartNumbers(LedgerParts(ledgerPresent, ledger).value)
              && source.Some?
              && 1 <= o.calls[i].partNumber <= |Plan(|source.value|, splitSize)|
  {
    var o := Run(bucket, key, source, stored, ledgerPresent, ledger, threadCount, splitSize,
                 nextUploadId, listing, respond);
    var opening := OpenSession(bucket, key, splitSize, stored, nextUploadId, listing);
    var parts := LedgerParts(ledgerPresent, ledger).value;
    if o.ledgerOpened {
      assert source.Some? && opening.meta.Some? by {
        DispatchedRun(bucket, key, source, stored, ledgerPresent, ledger, threadCount, splitSize,
                      nextUploadId, listing, respond);
      }
      var content := source.value;
      var meta := opening.meta.value;
      var skip := PartNumberSet(parts);
      var results := DispatchSpec(meta, skip, splitSize, content, respond);
      var dispatched := DispatchCalls(meta, skip, splitSize, content);
      var finished := Finish(meta, parts, results);
      var n := |Plan(|content|, splitSize)|;
      assert o.calls == opening.calls + dispatched + finished.calls by {
        DispatchedRun(bucket, key, source, stored, ledgerPresent, ledger, threadCount, splitSize,
                      nextUploadId, listing, respond);
      }
      DispatchCallNumbers(meta, skip, splitSize, content);
      assert forall c :: c in opening.calls ==> !Uploads(c) by {
        OpenSessionMeaning(bucket, key, splitSize, stored, nextUploadId, listing);
      }
      assert forall c :: c in finished.calls ==> c.CompleteCall? by {
        FinishMeaning(meta, parts, results);
      }
      SentPartsBetween(o.calls, opening.calls, dispatched, finished.calls, parts, n);
    } else {
      assert forall c :: c in o.calls ==> !Uploads(c) by {
        DispatchRunsOnlyWhenReady(bucket, key, source, stored, ledgerPresent, ledger, threadCount, splitSize,
                                  nextUploadId, listing, respond);
      }
      forall i | 0 <= i < |o.calls| ensures !o.calls[i].UploadPartCall? {
        assert o.calls[i] in o.calls;
      }
    }
  }

  /** Receipts for exactly the numbers in 1..n the ledger lacks, each once,
      complete the ledger's distinct numbers to 1..n, each once. */
  lemma ReceiptsCover(parts: seq<UploadedPart>, results: seq<UploadResult>, n: int)
    requires forall i :: 0 <= i < |results| ==>
               && results[i].failure.None? && results[i].uploadedPart.Some?
               && results[i].uploadedPart.value.partNumber == results[i].partNumber
    requires StrictlyIncreasing(ResultNumbers(results))
    requires forall v :: v in ResultNumbers(results) <==> 1 <= v <= n && v !in PartNumberSet(parts)
    requires Distinct(PartNumbers(parts))
    requires forall i :: 0 <= i < |parts| ==> parts[i].partNumber <= n
    ensures |FailedUploads(results)| == 0
    ensures multiset(PartNumbers(parts + Receipts(results))) == multiset(Range(1, n + 1))
  {
    assert forall u :: u in results ==> u.failure.None? && u.uploadedPart.Some?;
    NoFailedUploads(results);
    ReceiptsOfSuccesses(results);
    var receipts := Receipts(results);
    assert PartNumbers(receipts) == ResultNumbers(results);
    StrictlyIncreasingIsDistinctSorted(ResultNumbers(results));
    forall v | v in PartNumbers(parts) ensures 1 <= v < n + 1 {
      var i :| 0 <= i < |PartNumbers(parts)| && PartNumbers(parts)[i] == v;
      assert parts[i].partNumber >= 1;
    }
    DisjointCover(PartNumbers(parts), ResultNumbers(results), 1, n + 1);
    MapAppend(PartNumberOf, parts, receipts);
  }

  /** When the store accepts every part, the ledger's parts and the new
      receipts together carry each number in 1..N exactly once, provided the
      ledger's numbers are distinct and within 1..N. */
  lemma ReceiptsFillGaps(meta: MultipartUploadMeta, parts: seq<UploadedPart>, splitSize: int, content: seq<Byte>,
                         respond: (int, seq<Byte>) -> PartResponse)
    requires splitSize >= 1
    requires Distinct(PartNumbers(parts))
    requires forall i :: 0 <= i < |parts| ==> parts[i].partNumber <= |Plan(|content|, splitSize)|
    requires forall pn, body :: respond(pn, body).Accepted?
    ensures var results := DispatchSpec(meta, PartNumberSet(parts), splitSize, content, respond);
            && |FailedUploads(results)| == 0
            && multiset(PartNumbers(parts + Receipts(results))) == multiset(Range(1, |Plan(|content|, splitSize)| + 1))
  {
    var skip := PartNumberSet(parts);
    DispatchAllAccepted(meta, skip, splitSize, content, respond);
    DispatchPairs(meta, skip, splitSize, content, respond);
    DispatchNumbers(meta, skip, splitSize, content, respond);
    ReceiptsCover(parts, DispatchSpec(meta, skip, splitSize, content, respond), |Plan(|content|, splitSize)|);
  }

  /** A run without failures whose parts carry 1..n once each (n >= 1)
      succeeds with one complete call listing parts 1, 2, ..., n in order. */
  lemma FinishFullRun(meta: MultipartUploadMeta, parts: seq<UploadedPart>, results: seq<UploadResult>, n: int)
    requires n >= 1
    requires |FailedUploads(results)| == 0
    requires multiset(PartNumbers(parts + Receipts(results))) == multiset(Range(1, n + 1))
    ensures var f := Finish(meta, parts, results);
            && f.result == Ok(true)
            && |f.calls| == 1 && f.calls[0].CompleteCall?
            && Map((c: CompletedPart) => c.partNumber, f.calls[0].parts) == Range(1, n + 1)
  {
    CompletionOfFullRun(parts + Receipts(results), n);
  }

  /** Resuming is complete: when the ledger's parts belong to the session and
      carry distinct numbers within 1..N (N the file's number of parts), and
      the store accepts every part, the run succeeds and finishes the session
      with exactly the parts 1, 2, ..., N in order, whatever parts were
      uploaded before. */
  lemma ResumeCompletesEveryPart(bucket: string, key: string, content: seq<Byte>,
                                 stored: Option<MultipartUploadMeta>, ledgerPresent: bool,
                                 ledger: seq<Line<PartFields>>, parts: seq<UploadedPart>,
                                 threadCount: int, splitSize: int,
                                 nextUploadId: string, listing: string -> Option<seq<string>>,
                                 respond: (int, seq<Byte>) -> PartResponse)
    requires splitSize >= 1 && threadCount >= 1 && |content| >= 1
    requires OpenSession(bucket, key, splitSize, stored, nextUploadId, listing).meta.Some?
    requires LedgerParts(ledgerPresent, ledger) == Ok(parts)
    requires !Unrelated(OpenSession(bucket, key, splitSize, stored, nextUploadId, listing).meta.value, parts)
    requires Distinct(PartNumbers(parts))
    requires forall i :: 0 <= i < |parts| ==> parts[i].partNumber <= |Plan(|content|, splitSize)|
    requires forall pn, body :: respond(pn, body).Accepted?
    ensures var o := Run(bucket, key, Some(content), stored, ledgerPresent, ledger, threadCount, splitSize,
                         nextUploadId, listing, respond);
            && o.result == Ok(true)
            && o.calls[|o.calls| - 1].CompleteCall?
            && Map((c: CompletedPart) => c.partNumber, o.calls[|o.calls| - 1].parts)
               == Range(1, |Plan(|content|, splitSize)| + 1)
  {
    var n := |Plan(|content|, splitSize)|;
    var opening := OpenSession(bucket, key, splitSize, stored, nextUploadId, listing);
    var meta := opening.meta.value;
    var skip := PartNumberSet(parts);
    var results := DispatchSpec(meta, skip, splitSize, content, respond);
    var finished := Finish(meta, parts, results);
    assert && finished.result == Ok(true)
           && |finished.calls| == 1 && finished.calls[0].CompleteCall?
           && Map((c: CompletedPart) => c.partNumber, finished.calls[0].parts) == Range(1, n + 1) by {
      PlanTilesFile(|content|, splitSize);
      ReceiptsFillGaps(meta, parts, splitSize, content, respond);
      FinishFullRun(meta, parts, results, n);
    }
    var o := Run(bucket, key, Some(content), stored, ledgerPresent, ledger, threadCount, splitSize,
                 nextUploadId, listing, respond);
    var before := opening.calls + DispatchCalls(meta, skip, splitSize, content);
    assert o.result == finished.result && o.calls == before + finished.calls by {
      ResumedRun(bucket, key, content, stored, ledgerPresent, ledger, parts, threadCount, splitSize,
                 nextUploadId, listing, respond);
    }
    assert o.calls[|o.calls| - 1] == finished.calls[0];
  }

  /** A run whose ledger reads, belongs to the session and has threads to
      work with dispatches the missing parts and finishes. */
  lemma ResumedRun(bucket: string, key: string, content: seq<Byte>,
                   stored: Option<MultipartUploadMeta>, ledgerPresent: bool,
                   ledger: seq<Line<PartFields>>, parts: seq<UploadedPart>,
                   threadCount: int, splitSize: int,
                   nextUploadId: string, listing: string -> Option<seq<string>>,
                   respond: (int, seq<Byte>) -> PartResponse)
    requires splitSize >= 1 && threadCount >= 1 && |content| >= 1
    requires OpenSession(bucket, key, splitSize, stored, nextUploadId, listing).meta.Some?
    requires LedgerParts(ledgerPresent, ledger) == Ok(parts)
    requires !Unrelated(OpenSession(bucket, key, splitSize, stored, nextUploadId, listing).meta.value, parts)
    ensures var o := Run(bucket, key, Some(content), stored, ledgerPresent, ledger, threadCount, splitSize,
                         nextUploadId, listing, respond);
            var opening := OpenSession(bucket, key, splitSize, stored, nextUploadId, listing);
            var meta := opening.meta.value;
            var skip := PartNumberSet(parts);
            var f := Finish(meta, parts, DispatchSpec(meta, skip, splitSize, content, respond));
            && o.result == f.result
            && o.calls == opening.calls + DispatchCalls(meta, skip, splitSize, content) + f.calls
  {
  }

  /** The receipts kept from results whose numbers strictly ascend ascend
      strictly too, and each is one of the results' numbers. */
  lemma {:induction false} ReceiptNumbersAscend(results: seq<UploadResult>)
    requires forall i :: 0 <= i < |results| && results[i].uploadedPart.Some? ==>
               results[i].uploadedPart.value.partNumber == results[i].partNumber
    requires StrictlyIncreasing(ResultNumbers(results))
    ensures StrictlyIncreasing(PartNumbers(Receipts(results)))
    ensures forall v :: v in PartNumbers(Receipts(results)) ==> v in ResultNumbers(results)
  {
    if results != [] {
      var init := results[..|results| - 1];
      var last := results[|results| - 1];
      assert ResultNumbers(init) == ResultNumbers(results)[..|results| - 1];
      ReceiptNumbersAscend(init);
      var front := PartNumbers(Receipts(init));
      var tail := if last.uploadedPart.Some? then [last.uploadedPart.value] else [];
      MapAppend(PartNumberOf, Receipts(init), tail);
      forall v | v in front ensures v < last.partNumber {
        var k :| 0 <= k < |init| && ResultNumbers(init)[k] == v;
        assert ResultNumbers(results)[k] == v;
      }
      var all := PartNumbers(Receipts(results));
      assert all == front + PartNumbers(tail);
      forall i, j | 0 <= i < j < |all| ensures all[i] < all[j] {
        if j >= |front| {
          assert all[j] == last.uploadedPart.value.partNumber == last.partNumber;
          assert all[i] == front[i] && front[i] in front;
        }
      }
      forall v | v in PartNumbers(Receipts(results)) ensures v in ResultNumbers(results) {
        if v in front {
          var k :| 0 <= k < |init| && ResultNumbers(init)[k] == v;
          assert ResultNumbers(results)[k] == v;
        } else {
          assert ResultNumbers(results)[|results| - 1] == v;
        }
      }
    }
  }

  /** A run keeps the ledger sound for the next resume: when the ledger's
      parts carry distinct numbers within 1..N, a run that opens the ledger
      leaves it readable, with the old parts first and then only parts of the
      session, still carrying distinct numbers within 1..N. Together with
      `ResumeCompletesEveryPart`, every resume after the tool's own runs
      completes the parts 1..N. */
  lemma ResumeKeepsLedgerSound(bucket: string, key: string, content: seq<Byte>,
                               stored: Option<MultipartUploadMeta>, ledgerPresent: bool,
                               ledger: seq<Line<PartFields>>, parts: seq<UploadedPart>,
                               threadCount: int, splitSize: int,
                               nextUploadId: string, listing: string -> Option<seq<string>>,
                               respond: (int, seq<Byte>) -> PartResponse)
    requires splitSize >= 1
    requires !ledgerPresent ==> ledger == []
    requires LedgerParts(ledgerPresent, ledger) == Ok(parts)
    requires Distinct(PartNumbers(parts))
    requires forall i :: 0 <= i < |parts| ==> parts[i].partNumber <= |Plan(|content|, splitSize)|
    ensures var o := Run(bucket, key, Some(content), stored, ledgerPresent, ledger, threadCount, splitSize,
                         nextUploadId, listing, respond);
            o.ledgerOpened ==>
              var after := Replay(o.lines);
              var meta := OpenSession(bucket, key, splitSize, stored, nextUploadId, listing).meta.value;
              && after.Ok?
              && |parts| <= |after.value| && after.value[..|parts|] == parts
              && Distinct(PartNumbers(after.value))
              && (forall i :: 0 <= i < |after.value| ==> after.value[i].partNumber <= |Plan(|content|, splitSize)|)
              && !Unrelated(meta, after.value)
  {
    var o := Run(bucket, key, Some(content), stored, ledgerPresent, ledger, threadCount, splitSize,
                 nextUploadId, listing, respond);
    if o.ledgerOpened {
      var n := |Plan(|content|, splitSize)|;
      var meta := OpenSession(bucket, key, splitSize, stored, nextUploadId, listing).meta.value;
      var skip := PartNumberSet(parts);
      var results := DispatchSpec(meta, skip, splitSize, content, respond);
      var receipts := Receipts(results);
      assert o.lines == ledger + Encode(receipts);
      assert Replay(ledger) == Ok(parts);
      WriteThenRead(ledger, receipts);
      var all := parts + receipts;
      assert Replay(o.lines) == Ok(all);
      DispatchPairs(meta, skip, splitSize, content, respond);
      DispatchNumbers(meta, skip, splitSize, content, respond);
      ReceiptNumbersAscend(results);
      ReceiptsCarrySession(meta, results);
      forall v | v in PartNumbers(receipts) ensures 1 <= v <= n && v !in skip {
        assert v in ResultNumbers(results);
      }
      AppendedLedgerSound(meta, parts, receipts, n);
      assert all[..|parts|] == parts;
    }
  }

  /** Appending receipts of the session whose numbers are new, ascending and
      within 1..n keeps a ledger's numbers distinct and within 1..n and its
      parts all of the session. */
  lemma AppendedLedgerSound(meta: MultipartUploadMeta, parts: seq<UploadedPart>, receipts: seq<UploadedPart>, n: int)
    requires Distinct(PartNumbers(parts)) && !Unrelated(meta, parts)
    requires forall i :: 0 <= i < |parts| ==> parts[i].partNumber <= n
    requires StrictlyIncreasing(PartNumbers(receipts))
    requires forall v :: v in PartNumbers(receipts) ==> 1 <= v <= n && v !in PartNumberSet(parts)
    requires forall i :: 0 <= i < |receipts| ==> receipts[i].uploadId == meta.uploadId
    ensures Distinct(PartNumbers(parts + receipts))
    ensures forall i :: 0 <= i < |parts + receipts| ==> (parts + receipts)[i].partNumber <= n
    ensures !Unrelated(meta, parts + receipts)
  {
    var all := parts + receipts;
    var pn := PartNumbers(parts);
    var rn := PartNumbers(receipts);
    MapAppend(PartNumberOf, parts, receipts);
    assert PartNumbers(all) == pn + rn;
    forall i, j | 0 <= i < j < |pn + rn| ensures (pn + rn)[i] != (pn + rn)[j] {
      if j >= |pn| && i < |pn| {
        assert (pn + rn)[j] == rn[j - |pn|] && rn[j - |pn|] in rn;
        assert (pn + rn)[i] == pn[i] && pn[i] in PartNumberSet(parts);
      }
    }
    forall i | 0 <= i < |all| ensures all[i].partNumber <= n {
      if i >= |parts| {
        assert all[i] == receipts[i - |parts|];
        assert rn[i - |parts|] == all[i].partNumber && rn[i - |parts|] in rn;
      }
    }
    forall i | 0 <= i < |all| ensures all[i].uploadId == meta.uploadId {
      if i >= |parts| {
        assert all[i] == receipts[i - |parts|];
      } else {
        assert all[i] == parts[i];
      }
    }
  }

  /** Every receipt of a dispatch run carries the session's upload id. */
  lemma {:induction false} ReceiptsCarrySession(meta: MultipartUploadMeta, results: seq<UploadResult>)
    requires forall i :: 0 <= i < |results| && results[i].uploadedPart.Some? ==>
               results[i].uploadedPart.value.uploadId == meta.uploadId
    ensures forall i :: 0 <= i < |Receipts(results)| ==> Receipts(results)[i].uploadId == meta.uploadId
  {
    if results != [] {
      ReceiptsCarrySession(meta, results[..|results| - 1]);
    }
  }
}
