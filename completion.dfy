/** Finishing a multipart session: sorting the receipts, the gap check and the
    list sent to the remote store; and the "is the session still open" query. */
module Completion {
  import opened Outcomes
  import opened PartLedger
  import opened Remote
  import opened MultipartMeta
  import opened SeqFacts

  function PartNumberOf(p: UploadedPart): int
  {
    p.partNumber
  }

  function PartNumbers(parts: seq<UploadedPart>): seq<int>
  {
    Map(PartNumberOf, parts)
  }

  predicate SortedByPartNumber(parts: seq<UploadedPart>)
  {
    forall i, j :: 0 <= i < j < |parts| ==> parts[i].partNumber <= parts[j].partNumber
  }

  /** Places `p` after every element of `sorted` whose PartNumber is not larger,
      which keeps equal keys in their original order. */
  function Insert(p: UploadedPart, sorted: seq<UploadedPart>): (r: seq<UploadedPart>)
    requires SortedByPartNumber(sorted)
    ensures SortedByPartNumber(r)
    ensures multiset(r) == multiset(sorted) + multiset{p}
  {
    if sorted == [] then [p]
    else if p.partNumber < sorted[0].partNumber then [p] + sorted
    else
      SortedTail(sorted);
      var rest := Insert(p, sorted[1..]);
      InsertStep(p, sorted, rest);
      [sorted[0]] + rest
  }

  lemma SortedTail(sorted: seq<UploadedPart>)
    requires SortedByPartNumber(sorted) && sorted != []
    ensures SortedByPartNumber(sorted[1..])
  {
    forall i, j | 0 <= i < j < |sorted[1..]| ensures sorted[1..][i].partNumber <= sorted[1..][j].partNumber {
      assert sorted[1..][i] == sorted[i + 1] && sorted[1..][j] == sorted[j + 1];
    }
  }

  /** The step of `Insert` that keeps the head in front. */
  lemma InsertStep(p: UploadedPart, sorted: seq<UploadedPart>, rest: seq<UploadedPart>)
    requires SortedByPartNumber(sorted) && sorted != []
    requires sorted[0].partNumber <= p.partNumber
    requires SortedByPartNumber(rest)
    requires multiset(rest) == multiset(sorted[1..]) + multiset{p}
    ensures SortedByPartNumber([sorted[0]] + rest)
    ensures multiset([sorted[0]] + rest) == multiset(sorted) + multiset{p}
  {
    assert sorted == [sorted[0]] + sorted[1..];
    forall k | 0 <= k < |rest| ensures sorted[0].partNumber <= rest[k].partNumber {
      assert rest[k] in multiset(rest);
      if rest[k] != p {
        assert rest[k] in multiset(sorted[1..]);
        var m :| 0 <= m < |sorted[1..]| && sorted[1..][m] == rest[k];
        assert sorted[1..][m] == sorted[m + 1];
      }
    }
    var r := [sorted[0]] + rest;
    forall i, j | 0 <= i < j < |r| ensures r[i].partNumber <= r[j].partNumber {
      if i > 0 {
        assert r[i] == rest[i - 1] && r[j] == rest[j - 1];
      } else {
        assert r[j] == rest[j - 1];
      }
    }
  }

  /** `sorted(parts, key=lambda p: p.PartNumber)`: a stable sort by part number. */
  function SortByPartNumber(parts: seq<UploadedPart>): (r: seq<UploadedPart>)
    ensures SortedByPartNumber(r)
    ensures multiset(r) == multiset(parts)
    ensures |r| == |parts|
  {
    if parts == [] then []
    else
      var last := |parts| - 1;
      assert parts == parts[..last] + [parts[last]];
      var r := Insert(parts[last], SortByPartNumber(parts[..last]));
      assert |r| == |multiset(r)|;
      r
  }

  /** `_have_missing_parts` on a non-empty list: its length differs from
      last PartNumber - first PartNumber + 1. */
  function HaveMissingParts(parts: seq<UploadedPart>): bool
    requires |parts| >= 1
  {
    |parts| != parts[|parts| - 1].partNumber - parts[0].partNumber + 1
  }

  /** For distinct part numbers in ascending order the length test is exact:
      it passes iff the numbers run first, first + 1, ..., last without a gap. */
  lemma MissingPartsMeaning(parts: seq<UploadedPart>)
    requires |parts| >= 1
    requires StrictlyIncreasing(PartNumbers(parts))
    ensures !HaveMissingParts(parts) <==>
            PartNumbers(parts) == Range(parts[0].partNumber, parts[|parts| - 1].partNumber + 1)
  {
    var ns := PartNumbers(parts);
    var first, last := parts[0].partNumber, parts[|parts| - 1].partNumber;
    if !HaveMissingParts(parts) {
      forall i | 0 <= i < |ns| ensures first <= ns[i] < first + |ns| {
        StrictGap(ns, 0, i);
        StrictGap(ns, i, |ns| - 1);
      }
      Packed(ns, first);
    }
  }

  /** The length test is fooled by a repeated part number: 1, 1, 3 passes
      although part 2 is missing. */
  lemma DuplicateMasksGap()
    ensures var parts: seq<UploadedPart> := [PartFields("a", 1, "u"), PartFields("b", 1, "u"), PartFields("c", 3, "u")];
            SortedByPartNumber(parts) && !HaveMissingParts(parts) && 2 !in PartNumbers(parts)
  {
    var parts: seq<UploadedPart> := [PartFields("a", 1, "u"), PartFields("b", 1, "u"), PartFields("c", 3, "u")];
    assert PartNumbers(parts) == [1, 1, 3];
  }

  /** The length test does not ask that the first part be number 1: parts 2, 3 pass. */
  lemma FirstPartNeedNotBeOne()
    ensures var parts: seq<UploadedPart> := [PartFields("a", 2, "u"), PartFields("b", 3, "u")];
            SortedByPartNumber(parts) && !HaveMissingParts(parts) && 1 !in PartNumbers(parts)
  {
    var parts: seq<UploadedPart> := [PartFields("a", 2, "u"), PartFields("b", 3, "u")];
    assert PartNumbers(parts) == [2, 3];
  }

  /** `{'ETag': ..., 'PartNumber': ...}`: the upload id is dropped. */
  function ToCompletedPart(p: UploadedPart): CompletedPart
  {
    CompletedPart(p.eTag, p.partNumber)
  }

  /** The `Parts` list `complete_multipart_upload` sends, or the ValueError it
      raises before calling the remote store. */
  function CompletionRequest(parts: seq<UploadedPart>): Result<seq<CompletedPart>>
  {
    if parts == [] then Err(ValueError("parts cannot be empty."))
    else
      var sorted := SortByPartNumber(parts);
      if HaveMissingParts(sorted) then Err(ValueError("parts list has missing parts."))
      else Ok(Map(ToCompletedPart, sorted))
  }

  /** An empty list and a list that fails the gap check are refused; otherwise
      the list sent holds exactly the given parts' ETag and PartNumber pairs,
      in ascending PartNumber order. */
  lemma CompletionRequestMeaning(parts: seq<UploadedPart>)
    ensures parts == [] ==> CompletionRequest(parts).Err? && CompletionRequest(parts).error.ValueError?
    ensures CompletionRequest(parts).Ok? <==> parts != [] && !HaveMissingParts(SortByPartNumber(parts))
    ensures CompletionRequest(parts).Err? ==> CompletionRequest(parts).error.ValueError?
    ensures CompletionRequest(parts).Ok? ==>
              var sent := CompletionRequest(parts).value;
              && multiset(sent) == multiset(Map(ToCompletedPart, parts))
              && (forall i, j :: 0 <= i < j < |sent| ==> sent[i].partNumber <= sent[j].partNumber)
  {
    if parts != [] {
      var sorted := SortByPartNumber(parts);
      MapPermutation(ToCompletedPart, sorted, parts);
    }
  }

  /** A list whose part numbers are 1..n, each once, in any order, passes the
      gap check, and the list sent holds the part numbers 1, 2, ..., n in order. */
  lemma CompletionOfFullRun(parts: seq<UploadedPart>, n: int)
    requires n >= 1
    requires multiset(PartNumbers(parts)) == multiset(Range(1, n + 1))
    ensures CompletionRequest(parts).Ok?
    ensures Map((c: CompletedPart) => c.partNumber, CompletionRequest(parts).value) == Range(1, n + 1)
  {
    var sorted := SortByPartNumber(parts);
    MapPermutation(PartNumberOf, sorted, parts);
    assert Sorted(PartNumbers(sorted));
    SortedUnique(PartNumbers(sorted), Range(1, n + 1));
    assert |sorted| == n;
    assert PartNumbers(sorted)[0] == 1 && PartNumbers(sorted)[n - 1] == n;
    assert !HaveMissingParts(sorted);
    var sent := CompletionRequest(parts).value;
    assert sent == Map(ToCompletedPart, sorted);
  }

  /** `complete_multipart_upload`: checks the parts, then makes the one remote call. */
  method CompleteMultipartUpload(client: S3Client, meta: MultipartUploadMeta, parts: seq<UploadedPart>)
    returns (r: Result<()>)
    modifies client
    ensures r.Ok? <==> CompletionRequest(parts).Ok?
    ensures r.Err? ==> r.error == CompletionRequest(parts).error && client.calls == old(client.calls)
    ensures r.Ok? ==> client.calls == old(client.calls) + [CompleteCall(meta.bucket, meta.key, meta.uploadId, CompletionRequest(parts).value)]
  {
    if parts == [] {
      return Err(ValueError("parts cannot be empty."));
    }
    var sortedParts := SortByPartNumber(parts);
    if HaveMissingParts(sortedParts) {
      return Err(ValueError("parts list has missing parts."));
    }
    var partsDict := Map(ToCompletedPart, sortedParts);
    client.CompleteMultipartUpload(meta.bucket, meta.key, meta.uploadId, partsDict);
    r := Ok(());
  }

  /** Whether a `list_multipart_uploads` response lists `uploadId`; a response
      without `Uploads` lists nothing. */
  function UploadListed(uploads: Option<seq<string>>, uploadId: string): (listed: bool)
    ensures uploads.None? ==> !listed
    ensures uploads.Some? ==> (listed <==> exists i :: 0 <= i < |uploads.value| && uploads.value[i] == uploadId)
  {
    match uploads
    case None => false
    case Some(ids) => uploadId in (set id | id in ids)
  }

  /** `is_multipart_in_progress`: one listing call, then the membership test. */
  method IsMultipartInProgress(client: S3Client, bucket: string, uploadId: string) returns (inProgress: bool)
    modifies client
    ensures inProgress == UploadListed(client.listing(bucket), uploadId)
    ensures client.calls == old(client.calls) + [ListCall(bucket)]
  {
    var uploads := client.ListMultipartUploads(bucket);
    inProgress := UploadListed(uploads, uploadId);
  }
}
