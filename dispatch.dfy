/** The chunk planner and dispatcher: which byte ranges become which parts,
    which of them are sent, and what each attempt yields. */
module Dispatch {
  import opened Outcomes
  import opened Files
  import opened PartLedger
  import opened Remote
  import opened MultipartMeta
  import opened SeqFacts

  /** The byte range [start, end) of the file that becomes part `partNumber`. */
  datatype PartRange = PartRange(start: int, end: int, partNumber: int)

  /** `UploadResult`: the outcome of one part attempt. */
  datatype UploadResult = UploadResult(start: int, end: int, partNumber: int,
                                       uploadedPart: Option<UploadedPart>, failure: Option<Error>)

  /** The ranges the planning loop walks from `start` on, numbering from `partNumber`:
      each is `splitSize` long, except that the last stops at `fileSize`. */
  function PlanFrom(start: int, partNumber: int, fileSize: int, splitSize: int): seq<PartRange>
    requires splitSize >= 1
    decreases fileSize - start
  {
    if start < fileSize then
      var end := if start + splitSize > fileSize then fileSize else start + splitSize;
      [PartRange(start, end, partNumber)] + PlanFrom(end, partNumber + 1, fileSize, splitSize)
    else []
  }

  /** Every range of a file of `fileSize` bytes, from byte 0 and part 1. */
  function Plan(fileSize: int, splitSize: int): seq<PartRange>
    requires splitSize >= 1
  {
    PlanFrom(0, 1, fileSize, splitSize)
  }

  /** The planning loop from `start` on: no range when `start` has reached
      `fileSize`; otherwise the first range starts at `start`, each next one
      starts where the previous one ended, every range but the last is
      `splitSize` long, the last is 1 to `splitSize` bytes long and ends at
      `fileSize`, and the numbers go up by one from `partNumber`. */
  lemma {:induction false} PlanFromTiles(start: int, partNumber: int, fileSize: int, splitSize: int)
    requires splitSize >= 1
    ensures var rs := PlanFrom(start, partNumber, fileSize, splitSize);
            && (rs == [] <==> start >= fileSize)
            && (rs != [] ==> rs[0].start == start && rs[|rs| - 1].end == fileSize)
            && (rs != [] ==> 0 < rs[|rs| - 1].end - rs[|rs| - 1].start <= splitSize)
            && (forall i :: 0 <= i < |rs| - 1 ==> rs[i].end == rs[i + 1].start && rs[i].end - rs[i].start == splitSize)
            && (forall i :: 0 <= i < |rs| ==> rs[i].partNumber == partNumber + i)
    decreases fileSize - start
  {
    if start < fileSize {
      var end := if start + splitSize > fileSize then fileSize else start + splitSize;
      var rs := PlanFrom(start, partNumber, fileSize, splitSize);
      var rest := PlanFrom(end, partNumber + 1, fileSize, splitSize);
      PlanFromTiles(end, partNumber + 1, fileSize, splitSize);
      assert rs == [PartRange(start, end, partNumber)] + rest;
      forall i | 0 <= i < |rs| - 1
        ensures rs[i].end == rs[i + 1].start && rs[i].end - rs[i].start == splitSize
      {
        if i > 0 {
          assert rs[i] == rest[i - 1] && rs[i + 1] == rest[i];
        }
      }
      forall i | 0 <= i < |rs| ensures rs[i].partNumber == partNumber + i {
        if i > 0 {
          assert rs[i] == rest[i - 1];
        }
      }
    }
  }

  /** There are ceil((fileSize - start) / splitSize) ranges: the fewest whose
      total length reaches `fileSize - start`. */
  lemma {:induction false} PlanFromCount(start: int, partNumber: int, fileSize: int, splitSize: int)
    requires splitSize >= 1
    requires start < fileSize
    ensures var n := |PlanFrom(start, partNumber, fileSize, splitSize)|;
            (n - 1) * splitSize < fileSize - start <= n * splitSize
    decreases fileSize - start
  {
    var end := if start + splitSize > fileSize then fileSize else start + splitSize;
    if end < fileSize {
      PlanFromCount(end, partNumber + 1, fileSize, splitSize);
      var m := |PlanFrom(end, partNumber + 1, fileSize, splitSize)|;
      assert (m - 1) * splitSize + splitSize == m * splitSize;
      assert m * splitSize + splitSize == (m + 1) * splitSize;
    } else {
      assert PlanFrom(end, partNumber + 1, fileSize, splitSize) == [];
    }
  }

  /** Range i of the walk starts at start + i * splitSize. */
  lemma {:induction false} PlanFromStarts(start: int, partNumber: int, fileSize: int, splitSize: int)
    requires splitSize >= 1
    ensures var rs := PlanFrom(start, partNumber, fileSize, splitSize);
            forall i :: 0 <= i < |rs| ==> rs[i].start == start + i * splitSize
    decreases fileSize - start
  {
    if start < fileSize {
      var end := if start + splitSize > fileSize then fileSize else start + splitSize;
      var rs := PlanFrom(start, partNumber, fileSize, splitSize);
      var rest := PlanFrom(end, partNumber + 1, fileSize, splitSize);
      PlanFromStarts(end, partNumber + 1, fileSize, splitSize);
      PlanFromTiles(end, partNumber + 1, fileSize, splitSize);
      assert rs == [PartRange(start, end, partNumber)] + rest;
      forall i | 0 <= i < |rs| ensures rs[i].start == start + i * splitSize {
        if i > 0 {
          assert rs[i] == rest[i - 1];
          assert end == start + splitSize;
          assert (i - 1) * splitSize + splitSize == i * splitSize;
        }
      }
    }
  }

  /** The ranges tile the file: the first starts at 0, each starts where the
      previous one ended, and the last ends at `fileSize`. Every range but the
      last is `splitSize` long, the last is 1 to `splitSize` bytes long, and
      there are ceil(fileSize / splitSize) of them. */
  lemma PlanTilesFile(fileSize: int, splitSize: int)
    requires splitSize >= 1 && fileSize >= 1
    ensures var rs := Plan(fileSize, splitSize);
            && |rs| >= 1
            && rs[0].start == 0
            && rs[|rs| - 1].end == fileSize
            && (forall i :: 0 <= i < |rs| - 1 ==> rs[i].end == rs[i + 1].start)
            && (forall i :: 0 <= i < |rs| - 1 ==> rs[i].end - rs[i].start == splitSize)
            && 0 < rs[|rs| - 1].end - rs[|rs| - 1].start <= splitSize
            && (|rs| - 1) * splitSize < fileSize <= |rs| * splitSize
  {
    PlanFromTiles(0, 1, fileSize, splitSize);
    PlanFromCount(0, 1, fileSize, splitSize);
  }

  /** Parts are numbered 1, 2, 3, ... in range order, and part p starts at
      byte (p - 1) * splitSize. */
  lemma PlanNumbering(fileSize: int, splitSize: int)
    requires splitSize >= 1
    ensures var rs := Plan(fileSize, splitSize);
            forall i :: 0 <= i < |rs| ==> rs[i].partNumber == i + 1 && rs[i].start == (rs[i].partNumber - 1) * splitSize
  {
    PlanFromTiles(0, 1, fileSize, splitSize);
    PlanFromStarts(0, 1, fileSize, splitSize);
  }

  /** Every planned range lies inside the file. */
  lemma PlanWithinFile(fileSize: int, splitSize: int)
    requires splitSize >= 1
    ensures WithinFile(Plan(fileSize, splitSize), fileSize)
  {
    var rs := Plan(fileSize, splitSize);
    PlanFromTiles(0, 1, fileSize, splitSize);
    PlanStartsAhead(0, 1, fileSize, splitSize);
  }

  /** Every range of the walk from a non-negative `start` lies in [start, fileSize]. */
  lemma {:induction false} PlanStartsAhead(start: int, partNumber: int, fileSize: int, splitSize: int)
    requires splitSize >= 1 && start >= 0
    ensures forall r :: r in PlanFrom(start, partNumber, fileSize, splitSize) ==> start <= r.start <= r.end <= fileSize
    decreases fileSize - start
  {
    if start < fileSize {
      var end := if start + splitSize > fileSize then fileSize else start + splitSize;
      PlanStartsAhead(end, partNumber + 1, fileSize, splitSize);
    }
  }

  predicate WithinFile(ranges: seq<PartRange>, fileSize: int)
  {
    forall r :: r in ranges ==> 0 <= r.start <= r.end <= fileSize
  }

  /** The ranges the loop submits: those whose part number was not already uploaded. */
  function Submitted(plan: seq<PartRange>, uploaded: set<int>): seq<PartRange>
  {
    if plan == [] then []
    else
      var last := plan[|plan| - 1];
      Submitted(plan[..|plan| - 1], uploaded) + (if last.partNumber in uploaded then [] else [last])
  }

  /** A range is submitted iff it is planned and its part number is not in the
      uploaded set; submission keeps plan order. */
  lemma {:induction false} SubmittedMeaning(plan: seq<PartRange>, uploaded: set<int>)
    ensures forall r :: r in Submitted(plan, uploaded) <==> r in plan && r.partNumber !in uploaded
    ensures |Submitted(plan, uploaded)| <= |plan|
  {
    if plan != [] {
      var init := plan[..|plan| - 1];
      SubmittedMeaning(init, uploaded);
      assert plan == init + [plan[|plan| - 1]];
    }
  }

  /** Submission keeps the planned part numbers ascending. */
  lemma {:induction false} SubmittedAscending(plan: seq<PartRange>, uploaded: set<int>)
    requires forall i, j :: 0 <= i < j < |plan| ==> plan[i].partNumber < plan[j].partNumber
    ensures var s := Submitted(plan, uploaded);
            forall i, j :: 0 <= i < j < |s| ==> s[i].partNumber < s[j].partNumber
  {
    if plan != [] {
      var init := plan[..|plan| - 1];
      var last := plan[|plan| - 1];
      SubmittedAscending(init, uploaded);
      SubmittedMeaning(init, uploaded);
      var s := Submitted(plan, uploaded);
      var si := Submitted(init, uploaded);
      forall i, j | 0 <= i < j < |s| ensures s[i].partNumber < s[j].partNumber {
        if j >= |si| {
          assert s[j] == last;
          assert s[i] == si[i] && si[i] in init;
          var k :| 0 <= k < |init| && init[k] == si[i];
          assert plan[k] == init[k];
        } else {
          assert s[i] == si[i] && s[j] == si[j];
        }
      }
    }
  }

  /** Removes every `"` from an ETag, as `str.replace('"', '')` does. */
  function StripQuotes(s: string): (r: string)
    ensures '"' !in r
    ensures forall c :: c in r <==> c in s && c != '"'
    ensures '"' !in s ==> r == s
    ensures |r| <= |s|
  {
    if s == [] then []
    else
      assert s == [s[0]] + s[1..];
      (if s[0] == '"' then [] else [s[0]]) + StripQuotes(s[1..])
  }

  /** Stripping works character by character: it distributes over
      concatenation, so order and the count of every other character are
      kept. */
  lemma {:induction false} StripQuotesAppend(a: string, b: string)
    ensures StripQuotes(a + b) == StripQuotes(a) + StripQuotes(b)
  {
    if a != [] {
      var head := if a[0] == '"' then [] else [a[0]];
      assert (a + b)[0] == a[0] && (a + b)[1..] == a[1..] + b;
      assert StripQuotes(a + b) == head + StripQuotes(a[1..] + b);
      assert StripQuotes(a) == head + StripQuotes(a[1..]);
      StripQuotesAppend(a[1..], b);
    } else {
      assert a + b == b;
    }
  }

  /** What `_upload_part` returns for `range` given the store's answer and the
      state of the shared writer: exactly one of `uploaded_part` and `failure`
      is set, and a receipt exists only when the store accepted the part, the
      receipt could be built and it was written. */
  function Attempt(meta: MultipartUploadMeta, range: PartRange, response: PartResponse, writer: HandleState): (u: UploadResult)
    ensures u.start == range.start && u.end == range.end && u.partNumber == range.partNumber
    ensures u.uploadedPart.Some? <==> u.failure.None?
    ensures u.uploadedPart.Some? <==> response.Accepted? && range.partNumber >= 1 && writer == Opened
    ensures u.uploadedPart.Some? ==>
              && u.uploadedPart.value.partNumber == range.partNumber
              && u.uploadedPart.value.uploadId == meta.uploadId
              && u.uploadedPart.value.eTag == StripQuotes(response.eTag)
              && '"' !in u.uploadedPart.value.eTag
    ensures response.Rejected? ==> u.failure == Some(RemoteError(response.reason))
  {
    match response
    case Rejected(reason) => UploadResult(range.start, range.end, range.partNumber, None, Some(RemoteError(reason)))
    case Accepted(eTag) =>
      var made := NewUploadedPart(PartFields(StripQuotes(eTag), range.partNumber, meta.uploadId));
      if made.Err? then UploadResult(range.start, range.end, range.partNumber, None, Some(made.error))
      else if writer == NotOpened then UploadResult(range.start, range.end, range.partNumber, None, Some(IOError("Writer is not opened yet.")))
      else if writer == Closed then UploadResult(range.start, range.end, range.partNumber, None, Some(ClosedFile))
      else
        assert made.value.partNumber >= 1 && writer == Opened;
        UploadResult(range.start, range.end, range.partNumber, Some(made.value), None)
  }

  /** The receipts carried by successful results, in result order. */
  function Receipts(results: seq<UploadResult>): seq<UploadedPart>
  {
    if results == [] then []
    else
      var last := results[|results| - 1];
      Receipts(results[..|results| - 1]) + (if last.uploadedPart.Some? then [last.uploadedPart.value] else [])
  }

  lemma {:induction false} ReceiptsAppend(a: seq<UploadResult>, b: seq<UploadResult>)
    ensures Receipts(a + b) == Receipts(a) + Receipts(b)
    decreases |b|
  {
    if b == [] {
      assert a + b == a;
    } else {
      var init := b[..|b| - 1];
      assert a + b == (a + init) + [b[|b| - 1]];
      assert (a + b)[..|a + b| - 1] == a + init;
      ReceiptsAppend(a, init);
    }
  }

  /** With no failure among the results, there is one receipt per result, in order. */
  lemma {:induction false} ReceiptsOfSuccesses(results: seq<UploadResult>)
    requires forall u :: u in results ==> u.failure.None? && u.uploadedPart.Some?
    ensures |Receipts(results)| == |results|
    ensures forall i :: 0 <= i < |results| ==> Receipts(results)[i] == results[i].uploadedPart.value
  {
    if results != [] {
      var init := results[..|results| - 1];
      assert forall u :: u in init ==> u in results;
      ReceiptsOfSuccesses(init);
    }
  }

  /** One `_upload_part` result per submitted range, in submission order. */
  function Attempts(meta: MultipartUploadMeta, ranges: seq<PartRange>, content: seq<Byte>,
                    respond: (int, seq<Byte>) -> PartResponse): (us: seq<UploadResult>)
    requires WithinFile(ranges, |content|)
    ensures |us| == |ranges|
  {
    if ranges == [] then []
    else
      var r := ranges[|ranges| - 1];
      assert r in ranges;
      Attempts(meta, ranges[..|ranges| - 1], content, respond)
        + [Attempt(meta, r, respond(r.partNumber, content[r.start..r.end]), Opened)]
  }

  /** The i-th result is the attempt on the i-th submitted range. */
  lemma {:induction false} AttemptsAt(meta: MultipartUploadMeta, ranges: seq<PartRange>, content: seq<Byte>,
                                      respond: (int, seq<Byte>) -> PartResponse, i: int)
    requires WithinFile(ranges, |content|)
    requires 0 <= i < |ranges|
    ensures ranges[i] in ranges
    ensures Attempts(meta, ranges, content, respond)[i]
            == Attempt(meta, ranges[i], respond(ranges[i].partNumber, content[ranges[i].start..ranges[i].end]), Opened)
  {
    if i < |ranges| - 1 {
      AttemptsAt(meta, ranges[..|ranges| - 1], content, respond, i);
    }
  }

  /** The upload calls made for the submitted ranges, in submission order. */
  function UploadCalls(meta: MultipartUploadMeta, ranges: seq<PartRange>, content: seq<Byte>): (cs: seq<Call>)
    requires WithinFile(ranges, |content|)
    ensures |cs| == |ranges|
  {
    if ranges == [] then []
    else
      var r := ranges[|ranges| - 1];
      assert r in ranges;
      UploadCalls(meta, ranges[..|ranges| - 1], content)
        + [UploadPartCall(meta.bucket, meta.key, meta.uploadId, r.partNumber, content[r.start..r.end])]
  }

  /** The results `upload_using_multi_threading` returns for a file `content`. */
  function DispatchSpec(meta: MultipartUploadMeta, uploaded: set<int>, splitSize: int, content: seq<Byte>,
                        respond: (int, seq<Byte>) -> PartResponse): seq<UploadResult>
    requires splitSize >= 1
  {
    PlanWithinFile(|content|, splitSize);
    SubmittedWithinFile(Plan(|content|, splitSize), uploaded, |content|);
    Attempts(meta, Submitted(Plan(|content|, splitSize), uploaded), content, respond)
  }

  /** The upload calls `upload_using_multi_threading` makes for a file `content`. */
  function DispatchCalls(meta: MultipartUploadMeta, uploaded: set<int>, splitSize: int, content: seq<Byte>): seq<Call>
    requires splitSize >= 1
  {
    PlanWithinFile(|content|, splitSize);
    SubmittedWithinFile(Plan(|content|, splitSize), uploaded, |content|);
    UploadCalls(meta, Submitted(Plan(|content|, splitSize), uploaded), content)
  }

  lemma SubmittedStep(done: seq<PartRange>, range: PartRange, uploaded: set<int>)
    ensures range.partNumber in uploaded ==> Submitted(done + [range], uploaded) == Submitted(done, uploaded)
    ensures range.partNumber !in uploaded ==> Submitted(done + [range], uploaded) == Submitted(done, uploaded) + [range]
  {
    assert (done + [range])[..|done|] == done;
    assert Submitted(done, uploaded) + [] == Submitted(done, uploaded);
  }

  lemma PlanStep(done: seq<PartRange>, start: int, partNumber: int, fileSize: int, splitSize: int)
    requires splitSize >= 1 && start < fileSize
    ensures var end := if start + splitSize > fileSize then fileSize else start + splitSize;
            done + PlanFrom(start, partNumber, fileSize, splitSize)
            == (done + [PartRange(start, end, partNumber)]) + PlanFrom(end, partNumber + 1, fileSize, splitSize)
  {
  }

  lemma AttemptsStep(meta: MultipartUploadMeta, ranges: seq<PartRange>, r: PartRange, content: seq<Byte>,
                     respond: (int, seq<Byte>) -> PartResponse)
    requires WithinFile(ranges, |content|) && 0 <= r.start <= r.end <= |content|
    ensures WithinFile(ranges + [r], |content|)
    ensures Attempts(meta, ranges + [r], content, respond)
            == Attempts(meta, ranges, content, respond) + [Attempt(meta, r, respond(r.partNumber, content[r.start..r.end]), Opened)]
  {
    assert (ranges + [r])[..|ranges|] == ranges;
  }

  lemma UploadCallsStep(meta: MultipartUploadMeta, ranges: seq<PartRange>, r: PartRange, content: seq<Byte>)
    requires WithinFile(ranges, |content|) && 0 <= r.start <= r.end <= |content|
    ensures WithinFile(ranges + [r], |content|)
    ensures UploadCalls(meta, ranges + [r], content)
            == UploadCalls(meta, ranges, content) + [UploadPartCall(meta.bucket, meta.key, meta.uploadId, r.partNumber, content[r.start..r.end])]
  {
    assert (ranges + [r])[..|ranges|] == ranges;
  }

  /** `_save_uploaded_part_thread_safe`: one append to the ledger, done as a
      single step (the lock makes it atomic with respect to other workers). */
  method SaveUploadedPartThreadSafe(writer: UploadedPartFileWriter, part: UploadedPart) returns (r: Result<()>)
    modifies writer.file
    ensures writer.state == Opened ==> r == Ok(()) && writer.file.lines == old(writer.file.lines) + Encode([part])
    ensures writer.state == NotOpened ==> r == Err(IOError("Writer is not opened yet.")) && writer.file.lines == old(writer.file.lines)
    ensures writer.state == Closed ==> r == Err(ClosedFile) && writer.file.lines == old(writer.file.lines)
    ensures writer.file.present == old(writer.file.present)
  {
    r := writer.Write(part);
  }

  /** `_upload_part`: reads bytes [start, end), sends them as part `partNumber`
      and, only once the store has accepted them, appends the receipt. */
  method UploadPart(client: S3Client, writer: UploadedPartFileWriter, meta: MultipartUploadMeta,
                    content: seq<Byte>, partNumber: int, start: int, end: int) returns (result: UploadResult)
    requires 0 <= start <= end <= |content|
    modifies client, writer.file
    ensures result == Attempt(meta, PartRange(start, end, partNumber), client.respond(partNumber, content[start..end]), writer.state)
    ensures client.calls == old(client.calls) + [UploadPartCall(meta.bucket, meta.key, meta.uploadId, partNumber, content[start..end])]
    ensures writer.file.lines == old(writer.file.lines) + Encode(Receipts([result]))
    ensures writer.file.present == old(writer.file.present)
  {
    var sizeToRead := end - start;
    var body := content[start..start + sizeToRead];
    var response := client.UploadPart(meta.bucket, meta.key, meta.uploadId, partNumber, body);
    assert Receipts([]) == [];
    if response.Rejected? {
      return UploadResult(start, end, partNumber, None, Some(RemoteError(response.reason)));
    }
    var eTag := StripQuotes(response.eTag);
    var made := NewUploadedPart(PartFields(eTag, partNumber, meta.uploadId));
    if made.Err? {
      return UploadResult(start, end, partNumber, None, Some(made.error));
    }
    var saved := SaveUploadedPartThreadSafe(writer, made.value);
    if saved.Err? {
      return UploadResult(start, end, partNumber, None, Some(saved.error));
    }
    result := UploadResult(start, end, partNumber, Some(made.value), None);
  }

  /** Call i of the upload log sends range i's bytes under range i's part number. */
  lemma {:induction false} UploadCallsAt(meta: MultipartUploadMeta, ranges: seq<PartRange>, content: seq<Byte>, i: int)
    requires WithinFile(ranges, |content|)
    requires 0 <= i < |ranges|
    ensures ranges[i] in ranges
    ensures UploadCalls(meta, ranges, content)[i]
            == UploadPartCall(meta.bucket, meta.key, meta.uploadId, ranges[i].partNumber, content[ranges[i].start..ranges[i].end])
  {
    if i < |ranges| - 1 {
      UploadCallsAt(meta, ranges[..|ranges| - 1], content, i);
    }
  }

  /** Only planned ranges are sent, so they stay within the file. */
  lemma SubmittedWithinFile(plan: seq<PartRange>, uploaded: set<int>, fileSize: int)
    requires WithinFile(plan, fileSize)
    ensures WithinFile(Submitted(plan, uploaded), fileSize)
  {
    SubmittedMeaning(plan, uploaded);
  }

  /** The part numbers of a list of ranges. */
  function RangeNumbers(ranges: seq<PartRange>): (ns: seq<int>)
    ensures |ns| == |ranges|
    ensures forall i :: 0 <= i < |ranges| ==> ns[i] == ranges[i].partNumber
  {
    Map((r: PartRange) => r.partNumber, ranges)
  }

  /** The part numbers of a list of results. */
  function ResultNumbers(results: seq<UploadResult>): (ns: seq<int>)
    ensures |ns| == |results|
    ensures forall i :: 0 <= i < |results| ==> ns[i] == results[i].partNumber
  {
    Map((u: UploadResult) => u.partNumber, results)
  }

  /** The ranges sent for a file of N parts carry exactly the part numbers in
      1..N that are not already uploaded, in ascending order. */
  lemma SubmittedNumbers(fileSize: int, splitSize: int, uploaded: set<int>)
    requires splitSize >= 1
    ensures var ns := RangeNumbers(Submitted(Plan(fileSize, splitSize), uploaded));
            && StrictlyIncreasing(ns)
            && forall v :: v in ns <==> 1 <= v <= |Plan(fileSize, splitSize)| && v !in uploaded
  {
    var plan := Plan(fileSize, splitSize);
    var n := |plan|;
    SubmittedMeaning(plan, uploaded);
    PlanNumbering(fileSize, splitSize);
    SubmittedAscending(plan, uploaded);
    var sub := Submitted(plan, uploaded);
    var ns := RangeNumbers(sub);
    forall v ensures v in ns <==> 1 <= v <= n && v !in uploaded {
      if v in ns {
        var i :| 0 <= i < |ns| && ns[i] == v;
        assert sub[i] in plan;
        var k :| 0 <= k < |plan| && plan[k] == sub[i];
      }
      if 1 <= v <= n && v !in uploaded {
        assert plan[v - 1].partNumber == v;
        assert plan[v - 1] in sub;
        var i :| 0 <= i < |sub| && sub[i] == plan[v - 1];
        assert ns[i] == v;
      }
    }
  }

  /** Result i and call i both belong to range i; a result carries a part
      exactly when it carries no failure, and that part is range i's under
      the session's upload id. */
  lemma AttemptsFacts(meta: MultipartUploadMeta, ranges: seq<PartRange>, content: seq<Byte>,
                      respond: (int, seq<Byte>) -> PartResponse)
    requires WithinFile(ranges, |content|)
    ensures var results := Attempts(meta, ranges, content, respond);
            var calls := UploadCalls(meta, ranges, content);
            forall i :: 0 <= i < |ranges| ==>
              && results[i].partNumber == ranges[i].partNumber
              && (results[i].uploadedPart.Some? <==> results[i].failure.None?)
              && (results[i].uploadedPart.Some? ==>
                    results[i].uploadedPart.value.partNumber == ranges[i].partNumber
                    && results[i].uploadedPart.value.uploadId == meta.uploadId)
              && calls[i].UploadPartCall?
              && calls[i].partNumber == ranges[i].partNumber
  {
    forall i | 0 <= i < |ranges|
      ensures var results := Attempts(meta, ranges, content, respond);
              var calls := UploadCalls(meta, ranges, content);
              && results[i].partNumber == ranges[i].partNumber
              && (results[i].uploadedPart.Some? <==> results[i].failure.None?)
              && (results[i].uploadedPart.Some? ==>
                    results[i].uploadedPart.value.partNumber == ranges[i].partNumber
                    && results[i].uploadedPart.value.uploadId == meta.uploadId)
              && calls[i].UploadPartCall?
              && calls[i].partNumber == ranges[i].partNumber
    {
      AttemptsAt(meta, ranges, content, respond, i);
      UploadCallsAt(meta, ranges, content, i);
    }
  }

  /** In a dispatch run the i-th result belongs to the i-th upload call; a
      result carries a part exactly when it carries no failure, and that part
      has the result's part number and the session's upload id. */
  lemma DispatchPairs(meta: MultipartUploadMeta, uploaded: set<int>, splitSize: int, content: seq<Byte>,
                      respond: (int, seq<Byte>) -> PartResponse)
    requires splitSize >= 1
    ensures var results := DispatchSpec(meta, uploaded, splitSize, content, respond);
            var calls := DispatchCalls(meta, uploaded, splitSize, content);
            && |results| == |calls|
            && forall i :: 0 <= i < |results| ==>
                 && (results[i].uploadedPart.Some? <==> results[i].failure.None?)
                 && (results[i].uploadedPart.Some? ==>
                       results[i].uploadedPart.value.partNumber == results[i].partNumber
                       && results[i].uploadedPart.value.uploadId == meta.uploadId)
                 && calls[i].UploadPartCall?
                 && calls[i].partNumber == results[i].partNumber
  {
    var plan := Plan(|content|, splitSize);
    PlanWithinFile(|content|, splitSize);
    SubmittedWithinFile(plan, uploaded, |content|);
    var sub := Submitted(plan, uploaded);
    AttemptsFacts(meta, sub, content, respond);
    assert DispatchSpec(meta, uploaded, splitSize, content, respond) == Attempts(meta, sub, content, respond);
    assert DispatchCalls(meta, uploaded, splitSize, content) == UploadCalls(meta, sub, content);
  }

  /** A dispatch run over a file of N parts (N = |Plan|) tries exactly the part
      numbers in 1..N that are not already uploaded, each once and in
      ascending order. */
  lemma DispatchNumbers(meta: MultipartUploadMeta, uploaded: set<int>, splitSize: int, content: seq<Byte>,
                        respond: (int, seq<Byte>) -> PartResponse)
    requires splitSize >= 1
    ensures var ns := ResultNumbers(DispatchSpec(meta, uploaded, splitSize, content, respond));
            && StrictlyIncreasing(ns)
            && forall v :: v in ns <==> 1 <= v <= |Plan(|content|, splitSize)| && v !in uploaded
  {
    var plan := Plan(|content|, splitSize);
    PlanWithinFile(|content|, splitSize);
    SubmittedWithinFile(plan, uploaded, |content|);
    var sub := Submitted(plan, uploaded);
    SubmittedNumbers(|content|, splitSize, uploaded);
    AttemptsFacts(meta, sub, content, respond);
    var results := DispatchSpec(meta, uploaded, splitSize, content, respond);
    assert results == Attempts(meta, sub, content, respond);
    assert ResultNumbers(results) == RangeNumbers(sub);
  }

  /** When the store accepts every part, no attempt of a dispatch run fails. */
  lemma DispatchAllAccepted(meta: MultipartUploadMeta, uploaded: set<int>, splitSize: int, content: seq<Byte>,
                            respond: (int, seq<Byte>) -> PartResponse)
    requires splitSize >= 1
    requires forall pn, body :: respond(pn, body).Accepted?
    ensures var results := DispatchSpec(meta, uploaded, splitSize, content, respond);
            forall i :: 0 <= i < |results| ==> results[i].failure.None? && results[i].uploadedPart.Some?
  {
    var plan := Plan(|content|, splitSize);
    PlanWithinFile(|content|, splitSize);
    SubmittedWithinFile(plan, uploaded, |content|);
    var sub := Submitted(plan, uploaded);
    SubmittedNumbers(|content|, splitSize, uploaded);
    var results := DispatchSpec(meta, uploaded, splitSize, content, respond);
    assert results == Attempts(meta, sub, content, respond);
    forall i | 0 <= i < |results| ensures results[i].failure.None? && results[i].uploadedPart.Some? {
      AttemptsAt(meta, sub, content, respond, i);
      assert RangeNumbers(sub)[i] == sub[i].partNumber;
      assert sub[i].partNumber in RangeNumbers(sub);
    }
  }

  /** Every call of a dispatch run over a file of N parts sends a part whose
      number lies in 1..N and is not already uploaded. */
  lemma DispatchCallNumbers(meta: MultipartUploadMeta, uploaded: set<int>, splitSize: int, content: seq<Byte>)
    requires splitSize >= 1
    ensures var calls := DispatchCalls(meta, uploaded, splitSize, content);
            forall j :: 0 <= j < |calls| ==>
              && calls[j].UploadPartCall?
              && calls[j].partNumber !in uploaded
              && 1 <= calls[j].partNumber <= |Plan(|content|, splitSize)|
  {
    var plan := Plan(|content|, splitSize);
    PlanWithinFile(|content|, splitSize);
    SubmittedWithinFile(plan, uploaded, |content|);
    var sub := Submitted(plan, uploaded);
    SubmittedNumbers(|content|, splitSize, uploaded);
    var calls := DispatchCalls(meta, uploaded, splitSize, content);
    assert calls == UploadCalls(meta, sub, content);
    forall j | 0 <= j < |calls|
      ensures calls[j].UploadPartCall? && calls[j].partNumber !in uploaded
      ensures 1 <= calls[j].partNumber <= |plan|
    {
      UploadCallsAt(meta, sub, content, j);
      assert RangeNumbers(sub)[j] == sub[j].partNumber;
      assert sub[j].partNumber in RangeNumbers(sub);
    }
  }

  /** What `ThreadPool(processes)` raises for fewer than one process. */
  const ThreadCountError: Error := ValueError("Number of processes must be at least 1")

  /** One submission of the dispatch loop: the part is uploaded, its result
      joins the results of the earlier submissions, and the call log and the
      ledger grow by that part's call and receipt. */
  method SubmitPart(client: S3Client, writer: UploadedPartFileWriter, meta: MultipartUploadMeta,
                    content: seq<Byte>, ghost submitted: seq<PartRange>, results: seq<UploadResult>,
                    range: PartRange, ghost callsBase: seq<Call>, ghost linesBase: seq<Line<PartFields>>)
    returns (results': seq<UploadResult>)
    requires WithinFile(submitted, |content|) && 0 <= range.start <= range.end <= |content|
    requires writer.state == Opened
    requires results == Attempts(meta, submitted, content, client.respond)
    requires client.calls == callsBase + UploadCalls(meta, submitted, content)
    requires writer.file.lines == linesBase + Encode(Receipts(results))
    modifies client, writer.file
    ensures WithinFile(submitted + [range], |content|)
    ensures results' == Attempts(meta, submitted + [range], content, client.respond)
    ensures client.calls == callsBase + UploadCalls(meta, submitted + [range], content)
    ensures writer.file.lines == linesBase + Encode(Receipts(results'))
    ensures writer.file.present == old(writer.file.present)
  {
    var result := UploadPart(client, writer, meta, content, range.partNumber, range.start, range.end);
    AttemptsStep(meta, submitted, range, content, client.respond);
    UploadCallsStep(meta, submitted, range, content);
    ghost var call := UploadPartCall(meta.bucket, meta.key, meta.uploadId, range.partNumber, content[range.start..range.end]);
    assert client.calls == callsBase + (UploadCalls(meta, submitted, content) + [call]);
    ReceiptsAppend(results, [result]);
    EncodeAppend(Receipts(results), Receipts([result]));
    results' := results + [result];
  }

  /** `upload_using_multi_threading`: walks the file in `splitSize` steps and
      sends every part whose number is not in `uploadedPartNumbers`, appending a
      receipt to the parts file for each one the store accepts. A pool of fewer
      than one worker cannot be created. */
  method UploadUsingMultiThreading(client: S3Client, meta: MultipartUploadMeta, uploadedPartNumbers: set<int>,
                                   threadCount: int, splitSize: int, content: seq<Byte>,
                                   partsFile: LineFile<PartFields>)
    returns (r: Result<seq<UploadResult>>)
    requires splitSize >= 1
    modifies client, partsFile
    ensures threadCount < 1 ==> r == Err(ThreadCountError)
    ensures threadCount < 1 ==> client.calls == old(client.calls) && partsFile.lines == old(partsFile.lines)
                                && partsFile.present == old(partsFile.present)
    ensures threadCount >= 1 ==> r == Ok(DispatchSpec(meta, uploadedPartNumbers, splitSize, content, client.respond))
    ensures threadCount >= 1 ==> partsFile.present && partsFile.lines == old(partsFile.lines) + Encode(Receipts(r.value))
    ensures threadCount >= 1 ==> client.calls == old(client.calls) + DispatchCalls(meta, uploadedPartNumbers, splitSize, content)
  {
    if threadCount < 1 {
      return Err(ThreadCountError);
    }
    var fileSize := |content|;
    ghost var callsBase, linesBase := client.calls, partsFile.lines;
    var writer := new UploadedPartFileWriter(partsFile, Append, true);
    var _ := writer.Enter();
    var start, partNumber := 0, 1;
    var results: seq<UploadResult> := [];
    var newUploadCount := 0;
    ghost var done: seq<PartRange> := [];
    while start < fileSize
      invariant 0 <= start <= fileSize
      invariant writer.state == Opened && writer.file == partsFile && partsFile.present
      invariant Plan(fileSize, splitSize) == done + PlanFrom(start, partNumber, fileSize, splitSize)
      invariant WithinFile(Submitted(done, uploadedPartNumbers), fileSize)
      invariant results == Attempts(meta, Submitted(done, uploadedPartNumbers), content, client.respond)
      invariant newUploadCount == |results|
      invariant partsFile.lines == linesBase + Encode(Receipts(results))
      invariant client.calls == callsBase + UploadCalls(meta, Submitted(done, uploadedPartNumbers), content)
      decreases fileSize - start
    {
      // seek(offset) followed by tell() gives `offset` back
      var offset := if start + splitSize > fileSize then fileSize else start + splitSize;
      var end := offset;
      var range := PartRange(start, end, partNumber);
      ghost var submitted := Submitted(done, uploadedPartNumbers);
      SubmittedStep(done, range, uploadedPartNumbers);
      PlanStep(done, start, partNumber, fileSize, splitSize);
      if partNumber !in uploadedPartNumbers {
        results := SubmitPart(client, writer, meta, content, submitted, results, range, callsBase, linesBase);
        newUploadCount := newUploadCount + 1;
      }
      done := done + [range];
      start := end;
      partNumber := partNumber + 1;
    }
    var _ := writer.Exit();
    assert done == Plan(fileSize, splitSize);
    r := Ok(results);
  }
}
