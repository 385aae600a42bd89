/** The folder uploader: every file of a folder whose name starts with a
    prefix is one part, numbered in name order; a JSON session file records
    the upload id and the parts uploaded so far, so a later run can go on
    from the part after the last one recorded. */
module FolderUpload {
  import opened Outcomes
  import opened Files
  import opened Remote
  import opened SeqFacts
  import opened LegacyPartLedger
  import opened UploadConfig
  import opened Dispatch
  import opened Completion

  /** `UploadFile`: a file of the folder and the part number it is sent as. */
  datatype UploadFile = UploadFile(filePath: string, partNumber: int)

  /** `asdict` of a `MultipartConfig`: the session file's JSON document. */
  datatype FolderConfigDict = FolderConfigDict(uploadId: string, parts: seq<ReceiptFields>)

  /** Python's `a <= b` on strings: code point by code point, a proper prefix first. */
  predicate NameLe(a: string, b: string)
  {
    if a == [] then true
    else if b == [] then false
    else a[0] < b[0] || (a[0] == b[0] && NameLe(a[1..], b[1..]))
  }

  lemma {:induction false} NameLeTotal(a: string, b: string)
    ensures NameLe(a, b) || NameLe(b, a)
  {
    if a != [] && b != [] && a[0] == b[0] {
      NameLeTotal(a[1..], b[1..]);
    }
  }

  lemma {:induction false} NameLeAntisymmetric(a: string, b: string)
    requires NameLe(a, b) && NameLe(b, a)
    ensures a == b
  {
    if a != [] && b != [] {
      NameLeAntisymmetric(a[1..], b[1..]);
      assert a == [a[0]] + a[1..] && b == [b[0]] + b[1..];
    }
  }

  lemma {:induction false} NameLeTransitive(a: string, b: string, c: string)
    requires NameLe(a, b) && NameLe(b, c)
    ensures NameLe(a, c)
  {
    if a != [] && b != [] && c != [] && a[0] == b[0] && b[0] == c[0] {
      NameLeTransitive(a[1..], b[1..], c[1..]);
    }
  }

  predicate SortedNames(s: seq<string>)
  {
    forall i, j :: 0 <= i < j < |s| ==> NameLe(s[i], s[j])
  }

  /** Places `x` after every name of `sorted` that is not larger. */
  function InsertName(x: string, sorted: seq<string>): (r: seq<string>)
    requires SortedNames(sorted)
    ensures SortedNames(r)
    ensures multiset(r) == multiset(sorted) + multiset{x}
  {
    if sorted == [] then [x]
    else if !NameLe(sorted[0], x) then
      NameLeTotal(sorted[0], x);
      forall j | 0 <= j < |sorted| ensures NameLe(x, sorted[j]) {
        if j > 0 { NameLeTransitive(x, sorted[0], sorted[j]); }
      }
      assert forall i, j :: 0 < i < j < |[x] + sorted| ==> ([x] + sorted)[i] == sorted[i - 1] && ([x] + sorted)[j] == sorted[j - 1];
      [x] + sorted
    else
      SortedNamesTail(sorted);
      var rest := InsertName(x, sorted[1..]);
      InsertNameStep(x, sorted, rest);
      [sorted[0]] + rest
  }

  lemma InsertNameStep(x: string, sorted: seq<string>, rest: seq<string>)
    requires SortedNames(sorted) && sorted != []
    requires NameLe(sorted[0], x)
    requires SortedNames(rest)
    requires multiset(rest) == multiset(sorted[1..]) + multiset{x}
    ensures SortedNames([sorted[0]] + rest)
    ensures multiset([sorted[0]] + rest) == multiset(sorted) + multiset{x}
  {
    assert sorted == [sorted[0]] + sorted[1..];
    forall k | 0 <= k < |rest| ensures NameLe(sorted[0], rest[k]) {
      assert rest[k] in multiset(rest);
      if rest[k] != x {
        assert rest[k] in multiset(sorted[1..]);
        var m :| 0 <= m < |sorted[1..]| && sorted[1..][m] == rest[k];
        assert sorted[1..][m] == sorted[m + 1];
      }
    }
    var r := [sorted[0]] + rest;
    forall i, j | 0 <= i < j < |r| ensures NameLe(r[i], r[j]) {
      if i > 0 {
        assert r[i] == rest[i - 1] && r[j] == rest[j - 1];
      } else {
        assert r[j] == rest[j - 1];
      }
    }
  }

  /** `sorted(names)`. */
  function SortNames(names: seq<string>): (r: seq<string>)
    ensures SortedNames(r)
    ensures multiset(r) == multiset(names)
    ensures |r| == |names|
  {
    if names == [] then []
    else
      var last := |names| - 1;
      assert names == names[..last] + [names[last]];
      var r := InsertName(names[last], SortNames(names[..last]));
      assert |r| == |multiset(r)|;
      r
  }

  lemma SortedNamesTail(s: seq<string>)
    requires SortedNames(s) && s != []
    ensures SortedNames(s[1..])
  {
    forall a, b | 0 <= a < b < |s[1..]| ensures NameLe(s[1..][a], s[1..][b]) {
      assert s[1..][a] == s[a + 1] && s[1..][b] == s[b + 1];
    }
  }

  /** Two sorted non-empty lists holding the same names start with the same name. */
  lemma SortedNamesSameHead(s: seq<string>, t: seq<string>)
    requires SortedNames(s) && SortedNames(t) && s != [] && t != []
    requires multiset(s) == multiset(t)
    ensures s[0] == t[0]
  {
    assert s[0] in multiset(t) && t[0] in multiset(s);
    var i :| 0 <= i < |t| && t[i] == s[0];
    var j :| 0 <= j < |s| && s[j] == t[0];
    if i != 0 && j != 0 {
      assert NameLe(s[0], s[j]) && NameLe(t[0], t[i]);
      NameLeAntisymmetric(s[0], t[0]);
    }
  }

  /** Two sorted lists holding the same names are the same list: the order
      of the files does not depend on the order the folder lists them in. */
  lemma {:induction false} SortedNamesUnique(s: seq<string>, t: seq<string>)
    requires SortedNames(s) && SortedNames(t)
    requires multiset(s) == multiset(t)
    ensures s == t
  {
    if s != [] {
      assert |s| == |t| by { assert |multiset(s)| == |multiset(t)|; }
      SortedNamesSameHead(s, t);
      SortedNamesTail(s);
      SortedNamesTail(t);
      TailPermutation(s, t);
      SortedNamesUnique(s[1..], t[1..]);
      assert s == [s[0]] + s[1..] && t == [t[0]] + t[1..];
    }
  }

  /** `os.path.join(folder, name)` for a relative `name`. */
  function JoinPath(folder: string, name: string): string
  {
    if folder == [] then name
    else if folder[|folder| - 1] == '/' then folder + name
    else folder + "/" + name
  }

  /** The names that start with `prefix`, in listing order. */
  function KeepPrefixed(names: seq<string>, prefix: string): (r: seq<string>)
    ensures forall n :: n in r <==> n in names && prefix <= n
    ensures multiset(r) <= multiset(names)
    ensures |r| <= |names|
  {
    if names == [] then []
    else
      var last := names[|names| - 1];
      var front := names[..|names| - 1];
      assert names == front + [last];
      KeepPrefixed(front, prefix) + if prefix <= last then [last] else []
  }

  /** The part number of each file is its position in the list plus one. */
  predicate NumberedFromOne(files: seq<UploadFile>)
  {
    forall i :: 0 <= i < |files| ==> files[i].partNumber == i + 1
  }

  function FilePath(f: UploadFile): string
  {
    f.filePath
  }

  /** `_get_upload_files`: the joined paths of the names with the prefix, in
      sorted order, numbered 1, 2, ..., n. */
  function GetUploadFiles(folder: string, prefix: string, names: seq<string>): seq<UploadFile>
  {
    var paths := SortNames(Map((n: string) => JoinPath(folder, n), KeepPrefixed(names, prefix)));
    seq(|paths|, i requires 0 <= i < |paths| => UploadFile(paths[i], i + 1))
  }

  /** The files are numbered 1..n in path order, and they are exactly the
      folder's names that start with the prefix, each once, joined to the folder. */
  lemma GetUploadFilesMeaning(folder: string, prefix: string, names: seq<string>)
    ensures var files := GetUploadFiles(folder, prefix, names);
            && NumberedFromOne(files)
            && SortedNames(Map(FilePath, files))
            && multiset(Map(FilePath, files)) == multiset(Map((n: string) => JoinPath(folder, n), KeepPrefixed(names, prefix)))
            && |files| <= |names|
  {
    var paths := SortNames(Map((n: string) => JoinPath(folder, n), KeepPrefixed(names, prefix)));
    assert Map(FilePath, GetUploadFiles(folder, prefix, names)) == paths;
  }

  /** `_get_start_part_number`: the number given, else the part after the
      last one recorded, else 1. */
  function GetStartPartNumber(parts: seq<ReceiptFields>, startingPartNumber: Option<int>): int
  {
    match startingPartNumber
    case Some(n) => n
    case None => if parts != [] then parts[|parts| - 1].partNumber + 1 else 1
  }

  /** Without an explicit start, a resume starts after every recorded part,
      provided the parts were recorded in ascending order (as the upload loop
      records them); a session with no parts starts at 1. */
  lemma StartAfterRecorded(parts: seq<ReceiptFields>)
    requires forall i, j :: 0 <= i < j < |parts| ==> parts[i].partNumber < parts[j].partNumber
    ensures forall p :: p in parts ==> p.partNumber < GetStartPartNumber(parts, None)
    ensures parts == [] ==> GetStartPartNumber(parts, None) == 1
  {
    forall p | p in parts ensures p.partNumber < GetStartPartNumber(parts, None) {
      var i :| 0 <= i < |parts| && parts[i] == p;
      if i < |parts| - 1 {
        assert parts[i].partNumber < parts[|parts| - 1].partNumber;
      }
    }
  }

  /** `_filter_file_paths`: the files numbered `start` or later, in order. */
  function FilterFilePaths(files: seq<UploadFile>, start: int): (r: seq<UploadFile>)
    ensures |r| <= |files|
  {
    if files == [] then []
    else
      var last := files[|files| - 1];
      var front := files[..|files| - 1];
      FilterFilePaths(front, start) + if last.partNumber >= start then [last] else []
  }

  /** The filter keeps exactly the files numbered `start` or later. */
  lemma {:induction false} FilterFilePathsMeaning(files: seq<UploadFile>, start: int)
    ensures forall f :: f in FilterFilePaths(files, start) <==> f in files && f.partNumber >= start
  {
    if files != [] {
      var last := files[|files| - 1];
      var front := files[..|files| - 1];
      FilterFilePathsMeaning(front, start);
      assert files == front + [last];
    }
  }

  /** On files numbered 1..n the filter keeps exactly the tail that starts at
      part `start` (all of them when `start <= 1`, none when `start > n`). */
  lemma {:induction false} FilterNumberedIsSuffix(files: seq<UploadFile>, start: int)
    requires NumberedFromOne(files)
    ensures FilterFilePaths(files, start) == files[Clamp(start - 1, |files|)..]
  {
    if files != [] {
      var front := files[..|files| - 1];
      var last := files[|files| - 1];
      NumberedFront(files);
      FilterNumberedIsSuffix(front, start);
      var tail := if last.partNumber >= start then [last] else [];
      assert FilterFilePaths(files, start) == FilterFilePaths(front, start) + tail;
      SuffixExtend(files, front, last, start);
      SameTail(FilterFilePaths(files, start), FilterFilePaths(front, start), front[Clamp(start - 1, |front|)..], tail,
               files[Clamp(start - 1, |files|)..]);
    }
  }

  lemma NumberedFront(files: seq<UploadFile>)
    requires NumberedFromOne(files) && files != []
    ensures NumberedFromOne(files[..|files| - 1])
    ensures files[|files| - 1].partNumber == |files|
  {
    var front := files[..|files| - 1];
    forall i | 0 <= i < |front| ensures front[i].partNumber == i + 1 {
      assert front[i] == files[i];
    }
  }

  /** Extending files numbered 1..n by file n + 1 extends the tail from part
      `start` on by that file, when its number is `start` or more. */
  lemma SuffixExtend(files: seq<UploadFile>, front: seq<UploadFile>, last: UploadFile, start: int)
    requires files == front + [last]
    requires last.partNumber == |files|
    ensures files[Clamp(start - 1, |files|)..]
         == front[Clamp(start - 1, |front|)..] + if last.partNumber >= start then [last] else []
  {
    var c := Clamp(start - 1, |front|);
    if last.partNumber >= start {
      assert Clamp(start - 1, |files|) == c;
      assert files[c..] == front[c..] + [last];
    } else {
      assert c == |front| && Clamp(start - 1, |files|) == |files|;
    }
  }

  /** `lo` limited to the range 0..hi. */
  function Clamp(lo: int, hi: nat): (r: nat)
    ensures r <= hi
  {
    if lo < 0 then 0 else if lo > hi then hi else lo
  }

  /** `UploadedPart(**part)` of this file's own part class, which checks nothing. */
  const Unchecked: ReceiptFields -> Result<ReceiptFields> := f => Ok(f)

  /** `MultipartConfig.__post_init__` never fails on a document read back
      from JSON: every element is a dictionary, and each becomes a part with
      exactly its fields. A dictionary-first list that also holds an object
      raises TypeError. */
  lemma FolderPostInitMeaning(fields: seq<ReceiptFields>, parts: seq<PartsElement>)
    ensures ConvertParts(AsDicts(fields), Unchecked) == Ok(Map((f: ReceiptFields) => PartElem(f), fields))
    ensures parts != [] && parts[0].DictElem? ==>
              (ConvertParts(parts, Unchecked).Ok? <==> forall i :: 0 <= i < |parts| ==> parts[i].DictElem?)
  {
    var dicts := AsDicts(fields);
    assert forall i :: 0 <= i < |dicts| ==> dicts[i] == DictElem(fields[i]);
    if fields != [] {
      assert dicts[0].DictElem?;
      var r := ConvertParts(dicts, Unchecked);
      assert forall i :: 0 <= i < |dicts| ==> Unchecked(dicts[i].fields) == Ok(fields[i]);
      assert r.Ok?;
      assert r.value == Map((f: ReceiptFields) => PartElem(f), fields);
    }
  }

  /** `upload_response['ETag'].replace('""', '')` as written: only pairs of
      adjacent quotes are removed, scanning left to right. */
  function ReplaceEmptyQuotes(s: string): (r: string)
    ensures |r| <= |s|
  {
    if |s| >= 2 && s[0] == '"' && s[1] == '"' then ReplaceEmptyQuotes(s[2..])
    else if s == [] then []
    else [s[0]] + ReplaceEmptyQuotes(s[1..])
  }

  /** No two quotes next to each other. */
  predicate NoQuotePair(s: string)
  {
    forall i :: 0 <= i < |s| - 1 ==> !(s[i] == '"' && s[i + 1] == '"')
  }

  /** The replacement changes nothing in a string without a pair of quotes. */
  lemma {:induction false} ReplaceWithoutPairs(s: string)
    requires NoQuotePair(s)
    ensures ReplaceEmptyQuotes(s) == s
  {
    if s != [] {
      assert NoQuotePair(s[1..]) by {
        forall i | 0 <= i < |s[1..]| - 1 ensures !(s[1..][i] == '"' && s[1..][i + 1] == '"') {
          assert s[1..][i] == s[i + 1] && s[1..][i + 1] == s[i + 2];
        }
      }
      ReplaceWithoutPairs(s[1..]);
      assert s == [s[0]] + s[1..];
    }
  }

  /** The store returns ETags wrapped in quotes. For every non-empty ETag the
      expression as written leaves the quotes in, whereas stripping every
      quote (as the resumable uploader does) gives back the bare ETag. */
  lemma QuotedETagKeepsQuotes(e: string)
    requires e != [] && '"' !in e
    ensures ReplaceEmptyQuotes(['"'] + e + ['"']) == ['"'] + e + ['"']
    ensures '"' in ReplaceEmptyQuotes(['"'] + e + ['"'])
    ensures StripQuotes(['"'] + e + ['"']) == e
  {
    QuotedHasNoPair(e);
    ReplaceWithoutPairs(['"'] + e + ['"']);
    StripQuotedETag(e);
  }

  /** A non-empty quote-free ETag in quotes has no two quotes side by side. */
  lemma QuotedHasNoPair(e: string)
    requires e != [] && '"' !in e
    ensures NoQuotePair(['"'] + e + ['"'])
  {
    var q := ['"'] + e + ['"'];
    forall i | 0 <= i < |q| - 1 ensures !(q[i] == '"' && q[i + 1] == '"') {
      assert q[i + 1] == if i + 1 <= |e| then e[i] else '"';
      if i >= 1 {
        assert q[i] == e[i - 1];
      }
    }
  }

  lemma StripQuotedETag(e: string)
    requires '"' !in e
    ensures StripQuotes(['"'] + e + ['"']) == e
  {
    StripQuotesAppend(['"'], e + ['"']);
    StripQuotesAppend(e, ['"']);
    assert ['"'] + e + ['"'] == ['"'] + (e + ['"']);
    assert StripQuotes(['"']) == [] && StripQuotes(e) == e;
  }

  /** The store's answer to uploading file `f` as its part. */
  function Response(f: UploadFile, body: string -> seq<Byte>, respond: (int, seq<Byte>) -> PartResponse): PartResponse
  {
    respond(f.partNumber, body(f.filePath))
  }

  /** How many files, from the first, the store accepts before it first
      refuses one: the loop stops at the first refusal. */
  function AcceptedCount(files: seq<UploadFile>, body: string -> seq<Byte>, respond: (int, seq<Byte>) -> PartResponse): (k: nat)
    ensures k <= |files|
    ensures forall i :: 0 <= i < k ==> Response(files[i], body, respond).Accepted?
    ensures k < |files| ==> Response(files[k], body, respond).Rejected?
  {
    if files == [] || Response(files[0], body, respond).Rejected? then 0
    else
      var k := AcceptedCount(files[1..], body, respond);
      assert forall i :: 1 <= i < |files| ==> files[i] == files[1..][i - 1];
      1 + k
  }

  /** The receipt recorded for an accepted file: its part number and the
      returned ETag after `.replace('""', '')`, which keeps the quotes of a
      quoted ETag. */
  function FileReceipt(f: UploadFile, response: PartResponse): ReceiptFields
    requires response.Accepted?
  {
    ReceiptFields(ReplaceEmptyQuotes(response.eTag), f.partNumber)
  }

  /** The receipts of files the store accepted, in upload order. */
  function FileReceipts(files: seq<UploadFile>, body: string -> seq<Byte>, respond: (int, seq<Byte>) -> PartResponse): (ps: seq<ReceiptFields>)
    requires forall i :: 0 <= i < |files| ==> Response(files[i], body, respond).Accepted?
    ensures |ps| == |files|
    ensures forall i :: 0 <= i < |files| ==> ps[i] == FileReceipt(files[i], Response(files[i], body, respond))
  {
    if files == [] then []
    else FileReceipts(files[..|files| - 1], body, respond) + [FileReceipt(files[|files| - 1], Response(files[|files| - 1], body, respond))]
  }

  /** The `upload_part` calls for `files`, in order. */
  function FileCalls(bucket: string, key: string, uploadId: string, files: seq<UploadFile>, body: string -> seq<Byte>): seq<Call>
  {
    Map((f: UploadFile) => UploadPartCall(bucket, key, uploadId, f.partNumber, body(f.filePath)), files)
  }

  /** One entry of the `Parts` list `_complete_multipart_upload` sends. */
  function CompletedOf(p: ReceiptFields): CompletedPart
  {
    CompletedPart(p.eTag, p.partNumber)
  }

  /** What one run of `upload_multipart` does: its result (an error stands
      for the exception a refused upload raises), the calls it makes to the
      store, and what the session file holds afterwards. */
  datatype FolderOutcome = FolderOutcome(result: Result<()>, calls: seq<Call>, stored: StoredFile<FolderConfigDict>)

  /** The upload loop and the completion, from the recorded parts on. */
  function UploadFiles(bucket: string, key: string, uploadId: string, recorded: seq<ReceiptFields>,
                       files: seq<UploadFile>, body: string -> seq<Byte>, respond: (int, seq<Byte>) -> PartResponse): FolderOutcome
  {
    var k := AcceptedCount(files, body, respond);
    var parts := recorded + FileReceipts(files[..k], body, respond);
    var saved := Written(FolderConfigDict(uploadId, parts));
    if k < |files| then
      FolderOutcome(Err(RemoteError(Response(files[k], body, respond).reason)),
                    FileCalls(bucket, key, uploadId, files[..k + 1], body), saved)
    else
      FolderOutcome(Ok(()),
                    FileCalls(bucket, key, uploadId, files, body)
                    + (if |files| > 0 then [CompleteCall(bucket, key, uploadId, Map(CompletedOf, parts))] else []),
                    saved)
  }

  /** The files a run uploads: those of the folder from the start part on. */
  function RunFiles(folder: string, prefix: string, names: seq<string>, recorded: seq<ReceiptFields>,
                    startingPartNumber: Option<int>): seq<UploadFile>
  {
    FilterFilePaths(GetUploadFiles(folder, prefix, names), GetStartPartNumber(recorded, startingPartNumber))
  }

  /** How a run opens its session: the session to go on with (None when the
      stored one is no longer in progress) and the calls made to find out. */
  datatype FolderOpening = FolderOpening(session: Option<FolderConfigDict>, calls: seq<Call>)

  /** A missing or empty session file starts a new session with no parts; a
      stored one is resumed only while the store still lists its upload id. */
  function OpenFolderSession(bucket: string, key: string, stored: StoredFile<FolderConfigDict>,
                             nextUploadId: string, listing: string -> Option<seq<string>>): FolderOpening
  {
    if !stored.Written? then FolderOpening(Some(FolderConfigDict(nextUploadId, [])), [CreateCall(bucket, key)])
    else if UploadListed(listing(bucket), stored.content.uploadId) then FolderOpening(Some(stored.content), [ListCall(bucket)])
    else FolderOpening(None, [ListCall(bucket)])
  }

  /** `upload_multipart` of the folder uploader, from the session file it
      finds and the store's answers. */
  function FolderRun(bucket: string, key: string, folder: string, prefix: string, names: seq<string>,
                     body: string -> seq<Byte>, startingPartNumber: Option<int>, stored: StoredFile<FolderConfigDict>,
                     nextUploadId: string, listing: string -> Option<seq<string>>,
                     respond: (int, seq<Byte>) -> PartResponse): FolderOutcome
  {
    var opening := OpenFolderSession(bucket, key, stored, nextUploadId, listing);
    if opening.session.None? then FolderOutcome(Ok(()), opening.calls, stored)
    else
      var d := opening.session.value;
      var o := UploadFiles(bucket, key, d.uploadId, d.parts, RunFiles(folder, prefix, names, d.parts, startingPartNumber), body, respond);
      FolderOutcome(o.result, opening.calls + o.calls, o.stored)
  }

  lemma FolderRunResumes(bucket: string, key: string, folder: string, prefix: string, names: seq<string>,
                          body: string -> seq<Byte>, startingPartNumber: Option<int>, stored: StoredFile<FolderConfigDict>,
                          nextUploadId: string, listing: string -> Option<seq<string>>,
                          respond: (int, seq<Byte>) -> PartResponse)
    requires OpenFolderSession(bucket, key, stored, nextUploadId, listing).session.Some?
    ensures var opening := OpenFolderSession(bucket, key, stored, nextUploadId, listing);
            var d := opening.session.value;
            var o := UploadFiles(bucket, key, d.uploadId, d.parts, RunFiles(folder, prefix, names, d.parts, startingPartNumber), body, respond);
            FolderRun(bucket, key, folder, prefix, names, body, startingPartNumber, stored, nextUploadId, listing, respond)
              == FolderOutcome(o.result, opening.calls + o.calls, o.stored)
  {
  }

  /** A resumed run in terms of what its loop and completion did. */
  lemma ResumedFolderRun(bucket: string, key: string, folder: string, prefix: string, names: seq<string>,
                         body: string -> seq<Byte>, startingPartNumber: Option<int>, stored: StoredFile<FolderConfigDict>,
                         nextUploadId: string, listing: string -> Option<seq<string>>,
                         respond: (int, seq<Byte>) -> PartResponse, d: FolderConfigDict, files: seq<UploadFile>,
                         o: FolderOutcome)
    requires OpenFolderSession(bucket, key, stored, nextUploadId, listing).session == Some(d)
    requires files == RunFiles(folder, prefix, names, d.parts, startingPartNumber)
    requires o == UploadFiles(bucket, key, d.uploadId, d.parts, files, body, respond)
    ensures FolderRun(bucket, key, folder, prefix, names, body, startingPartNumber, stored, nextUploadId, listing, respond)
         == FolderOutcome(o.result, OpenFolderSession(bucket, key, stored, nextUploadId, listing).calls + o.calls, o.stored)
  {
    FolderRunResumes(bucket, key, folder, prefix, names, body, startingPartNumber, stored, nextUploadId, listing, respond);
  }

  /** The same, for the effects a run's methods report. */
  lemma ResumedFolderRunEffects(bucket: string, key: string, folder: string, prefix: string, names: seq<string>,
                                body: string -> seq<Byte>, startingPartNumber: Option<int>, stored: StoredFile<FolderConfigDict>,
                                nextUploadId: string, listing: string -> Option<seq<string>>,
                                respond: (int, seq<Byte>) -> PartResponse, d: FolderConfigDict, files: seq<UploadFile>,
                                r: Result<()>, callsBase: seq<Call>, callsOpened: seq<Call>, calls: seq<Call>,
                                after: StoredFile<FolderConfigDict>)
    requires OpenFolderSession(bucket, key, stored, nextUploadId, listing).session == Some(d)
    requires callsOpened == callsBase + OpenFolderSession(bucket, key, stored, nextUploadId, listing).calls
    requires files == RunFiles(folder, prefix, names, d.parts, startingPartNumber)
    requires r == UploadFiles(bucket, key, d.uploadId, d.parts, files, body, respond).result
    requires calls == callsOpened + UploadFiles(bucket, key, d.uploadId, d.parts, files, body, respond).calls
    requires after == UploadFiles(bucket, key, d.uploadId, d.parts, files, body, respond).stored
    ensures var o := FolderRun(bucket, key, folder, prefix, names, body, startingPartNumber, stored, nextUploadId, listing, respond);
            && r == o.result
            && calls == callsBase + o.calls
            && after == o.stored
  {
    var o := UploadFiles(bucket, key, d.uploadId, d.parts, files, body, respond);
    ResumedFolderRun(bucket, key, folder, prefix, names, body, startingPartNumber, stored, nextUploadId, listing, respond, d, files, o);
    AppendAssoc(callsBase, OpenFolderSession(bucket, key, stored, nextUploadId, listing).calls, o.calls);
  }

  /** The loop and completion, call by call: the i-th call uploads the i-th
      file; the session file ends with the recorded parts followed by one
      receipt per accepted file; completion is the last call, made only when
      every file was accepted and there was at least one. */
  lemma UploadFilesFacts(bucket: string, key: string, uploadId: string, recorded: seq<ReceiptFields>,
                         files: seq<UploadFile>, body: string -> seq<Byte>, respond: (int, seq<Byte>) -> PartResponse)
    ensures var o := UploadFiles(bucket, key, uploadId, recorded, files, body, respond);
            var k := AcceptedCount(files, body, respond);
            var parts := recorded + FileReceipts(files[..k], body, respond);
            && o.stored == Written(FolderConfigDict(uploadId, parts))
            && (o.result.Ok? <==> k == |files|)
            && |o.calls| == (if k < |files| then k + 1 else if |files| > 0 then |files| + 1 else 0)
            && (forall i :: 0 <= i < |o.calls| && i < |files| ==>
                  o.calls[i] == UploadPartCall(bucket, key, uploadId, files[i].partNumber, body(files[i].filePath)))
            && (forall i :: 0 <= i < |o.calls| ==> (o.calls[i].CompleteCall? <==> i == |files|))
            && (o.result.Ok? && |files| > 0 ==> o.calls[|files|] == CompleteCall(bucket, key, uploadId, Map(CompletedOf, parts)))
  {
  }

  /** The receipts a run appends: one per accepted file, in file order, each
      with that file's part number; an ETag the store returns in quotes is
      recorded with its quotes, as the replacement leaves them in. */
  lemma FileReceiptsFacts(files: seq<UploadFile>, k: int, body: string -> seq<Byte>, respond: (int, seq<Byte>) -> PartResponse)
    requires k == AcceptedCount(files, body, respond)
    ensures var ps := FileReceipts(files[..k], body, respond);
            && |ps| == k
            && (forall i :: 0 <= i < k ==> ps[i].partNumber == files[i].partNumber)
            && (forall i, e ::
                  0 <= i < k && e != [] && '"' !in e && Response(files[i], body, respond) == Accepted(['"'] + e + ['"'])
                  ==> ps[i].eTag == ['"'] + e + ['"'])
  {
    var ps := FileReceipts(files[..k], body, respond);
    forall i, e | 0 <= i < k && e != [] && '"' !in e && Response(files[i], body, respond) == Accepted(['"'] + e + ['"'])
      ensures ps[i].eTag == ['"'] + e + ['"']
    {
      QuotedETagKeepsQuotes(e);
    }
  }

  /** A stored session the store no longer lists stops the run: nothing is
      uploaded or completed and the session file is left as it was.
      Otherwise the run's first call creates the session (no session file) or
      lists the bucket (a session file), and the session file ends up holding
      the same upload id, or the new one. */
  lemma FolderGuard(bucket: string, key: string, folder: string, prefix: string, names: seq<string>,
                    body: string -> seq<Byte>, startingPartNumber: Option<int>, stored: StoredFile<FolderConfigDict>,
                    nextUploadId: string, listing: string -> Option<seq<string>>,
                    respond: (int, seq<Byte>) -> PartResponse)
    ensures var o := FolderRun(bucket, key, folder, prefix, names, body, startingPartNumber, stored, nextUploadId, listing, respond);
            && (stored.Written? && !UploadListed(listing(bucket), stored.content.uploadId) ==>
                  && o.result == Ok(()) && o.stored == stored
                  && forall i :: 0 <= i < |o.calls| ==> !Uploads(o.calls[i]))
            && (!stored.Written? ==>
                  && o.calls[0] == CreateCall(bucket, key)
                  && o.stored.Written? && o.stored.content.uploadId == nextUploadId)
            && (stored.Written? && UploadListed(listing(bucket), stored.content.uploadId) ==>
                  && o.calls[0] == ListCall(bucket)
                  && o.stored.Written? && o.stored.content.uploadId == stored.content.uploadId)
  {
    var opening := OpenFolderSession(bucket, key, stored, nextUploadId, listing);
    if opening.session.Some? {
      var d := opening.session.value;
      UploadFilesFacts(bucket, key, d.uploadId, d.parts, RunFiles(folder, prefix, names, d.parts, startingPartNumber), body, respond);
    }
  }

  /** Part numbers strictly ascending, as the upload loop records them. */
  predicate Ascending(parts: seq<ReceiptFields>)
  {
    forall i, j :: 0 <= i < j < |parts| ==> parts[i].partNumber < parts[j].partNumber
  }

  /** The files a run uploads are the folder's files from position
      `c = Clamp(start - 1, n)` on, numbered c + 1, c + 2, ...; each is
      numbered at least the start part. */
  lemma RunFilesNumbering(folder: string, prefix: string, names: seq<string>, recorded: seq<ReceiptFields>,
                          startingPartNumber: Option<int>)
    ensures var all := GetUploadFiles(folder, prefix, names);
            var start := GetStartPartNumber(recorded, startingPartNumber);
            var c := Clamp(start - 1, |all|);
            var files := RunFiles(folder, prefix, names, recorded, startingPartNumber);
            && files == all[c..]
            && forall i :: 0 <= i < |files| ==> files[i].partNumber == c + i + 1 && files[i].partNumber >= start
  {
    var all := GetUploadFiles(folder, prefix, names);
    GetUploadFilesMeaning(folder, prefix, names);
    FilterNumberedIsSuffix(all, GetStartPartNumber(recorded, startingPartNumber));
  }

  /** Completion, if it is among `calls`, is the last one, follows an
      upload, comes with a successful result, and sends every part the
      session file ends with, in recorded order. */
  predicate CompletesLast(bucket: string, key: string, o: FolderOutcome)
  {
    forall i :: 0 <= i < |o.calls| && o.calls[i].CompleteCall? ==>
      && i == |o.calls| - 1 && i >= 1
      && o.result.Ok?
      && o.calls[i - 1].UploadPartCall?
      && o.stored.Written?
      && o.calls[i] == CompleteCall(bucket, key, o.stored.content.uploadId, Map(CompletedOf, o.stored.content.parts))
  }

  lemma UploadFilesCompletesLast(bucket: string, key: string, uploadId: string, recorded: seq<ReceiptFields>,
                                 files: seq<UploadFile>, body: string -> seq<Byte>, respond: (int, seq<Byte>) -> PartResponse)
    ensures CompletesLast(bucket, key, UploadFiles(bucket, key, uploadId, recorded, files, body, respond))
  {
    UploadFilesFacts(bucket, key, uploadId, recorded, files, body, respond);
  }

  lemma OpeningKeepsCompletesLast(bucket: string, key: string, first: Call, o: FolderOutcome)
    requires !first.CompleteCall?
    requires CompletesLast(bucket, key, o)
    ensures CompletesLast(bucket, key, FolderOutcome(o.result, [first] + o.calls, o.stored))
  {
    var calls := [first] + o.calls;
    forall i | 0 <= i < |calls| && calls[i].CompleteCall?
      ensures i == |calls| - 1 && i >= 1 && calls[i - 1].UploadPartCall?
    {
      assert calls[i] == o.calls[i - 1];
      if i >= 2 {
        assert calls[i - 1] == o.calls[i - 2];
      }
    }
  }

  /** Completion is the last call of a run, it is made only when every file
      of the run was uploaded and there was at least one, and it sends every
      part the session file records, in recorded order. */
  lemma FolderCompletesOnlyAfterUploads(bucket: string, key: string, folder: string, prefix: string, names: seq<string>,
                                        body: string -> seq<Byte>, startingPartNumber: Option<int>,
                                        stored: StoredFile<FolderConfigDict>, nextUploadId: string,
                                        listing: string -> Option<seq<string>>, respond: (int, seq<Byte>) -> PartResponse)
    ensures CompletesLast(bucket, key, FolderRun(bucket, key, folder, prefix, names, body, startingPartNumber, stored,
                                                 nextUploadId, listing, respond))
  {
    var opening := OpenFolderSession(bucket, key, stored, nextUploadId, listing);
    if opening.session.Some? {
      var d := opening.session.value;
      var files := RunFiles(folder, prefix, names, d.parts, startingPartNumber);
      var o := UploadFiles(bucket, key, d.uploadId, d.parts, files, body, respond);
      UploadFilesCompletesLast(bucket, key, d.uploadId, d.parts, files, body, respond);
      OpeningKeepsCompletesLast(bucket, key, opening.calls[0], o);
      FolderRunResumes(bucket, key, folder, prefix, names, body, startingPartNumber, stored, nextUploadId, listing, respond);
      assert opening.calls == [opening.calls[0]];
    }
  }

  /** Every part sent by `calls` is numbered above every part of `recorded`. */
  predicate SendsAbove(calls: seq<Call>, recorded: seq<ReceiptFields>)
  {
    forall i, p :: 0 <= i < |calls| && calls[i].UploadPartCall? && p in recorded ==> p.partNumber < calls[i].partNumber
  }

  /** The loop sends only the run's files, so if they are all numbered above
      the recorded parts, so is every part sent. */
  lemma UploadFilesSendsAbove(bucket: string, key: string, uploadId: string, recorded: seq<ReceiptFields>,
                              files: seq<UploadFile>, body: string -> seq<Byte>, respond: (int, seq<Byte>) -> PartResponse)
    requires forall i, p :: 0 <= i < |files| && p in recorded ==> p.partNumber < files[i].partNumber
    ensures SendsAbove(UploadFiles(bucket, key, uploadId, recorded, files, body, respond).calls, recorded)
  {
    UploadFilesFacts(bucket, key, uploadId, recorded, files, body, respond);
  }

  lemma OpeningKeepsSendsAbove(first: Call, calls: seq<Call>, recorded: seq<ReceiptFields>)
    requires !first.UploadPartCall?
    requires SendsAbove(calls, recorded)
    ensures SendsAbove([first] + calls, recorded)
  {
    assert forall i :: 1 <= i < |[first] + calls| ==> ([first] + calls)[i] == calls[i - 1];
  }

  /** Resuming without an explicit start part never sends again a part the
      session file records (given that it records them in ascending order, as
      the loop does): every part uploaded is numbered above all recorded ones. */
  lemma FolderNeverResendsRecordedParts(bucket: string, key: string, folder: string, prefix: string, names: seq<string>,
                                        body: string -> seq<Byte>, stored: StoredFile<FolderConfigDict>, nextUploadId: string,
                                        listing: string -> Option<seq<string>>, respond: (int, seq<Byte>) -> PartResponse)
    requires stored.Written? ==> Ascending(stored.content.parts)
    ensures var o := FolderRun(bucket, key, folder, prefix, names, body, None, stored, nextUploadId, listing, respond);
            stored.Written? ==> SendsAbove(o.calls, stored.content.parts)
  {
    var opening := OpenFolderSession(bucket, key, stored, nextUploadId, listing);
    if opening.session.Some? && stored.Written? {
      var d := opening.session.value;
      var files := RunFiles(folder, prefix, names, d.parts, None);
      assert forall i, p :: 0 <= i < |files| && p in d.parts ==> p.partNumber < files[i].partNumber by {
        RunFilesNumbering(folder, prefix, names, d.parts, None);
        StartAfterRecorded(d.parts);
      }
      var o := UploadFiles(bucket, key, d.uploadId, d.parts, files, body, respond);
      UploadFilesSendsAbove(bucket, key, d.uploadId, d.parts, files, body, respond);
      OpeningKeepsSendsAbove(opening.calls[0], o.calls, d.parts);
      assert opening.calls == [opening.calls[0]];
      FolderRunResumes(bucket, key, folder, prefix, names, body, None, stored, nextUploadId, listing, respond);
    }
  }

  /** Appending receipts numbered consecutively from above every recorded
      part keeps an ascending list ascending. */
  lemma AppendAscending(recorded: seq<ReceiptFields>, added: seq<ReceiptFields>, base: int)
    requires Ascending(recorded)
    requires forall p :: p in recorded ==> p.partNumber <= base
    requires forall i :: 0 <= i < |added| ==> added[i].partNumber == base + i + 1
    ensures Ascending(recorded + added)
  {
    var parts := recorded + added;
    forall i, j | 0 <= i < j < |parts| ensures parts[i].partNumber < parts[j].partNumber {
      if j >= |recorded| {
        assert parts[j] == added[j - |recorded|];
        if i < |recorded| {
          assert parts[i] in recorded;
        } else {
          assert parts[i] == added[i - |recorded|];
        }
      }
    }
  }

  /** The loop keeps the recorded parts ascending when the files it is given
      are numbered consecutively from above every recorded part. */
  lemma UploadFilesKeepsAscending(bucket: string, key: string, uploadId: string, recorded: seq<ReceiptFields>,
                                  files: seq<UploadFile>, body: string -> seq<Byte>,
                                  respond: (int, seq<Byte>) -> PartResponse, base: int)
    requires Ascending(recorded)
    requires files != [] ==> forall p :: p in recorded ==> p.partNumber <= base
    requires forall i :: 0 <= i < |files| ==> files[i].partNumber == base + i + 1
    ensures UploadFiles(bucket, key, uploadId, recorded, files, body, respond).stored.Written?
    ensures Ascending(UploadFiles(bucket, key, uploadId, recorded, files, body, respond).stored.content.parts)
  {
    var k := AcceptedCount(files, body, respond);
    var added := FileReceipts(files[..k], body, respond);
    FileReceiptsFacts(files, k, body, respond);
    if added == [] {
      assert recorded + added == recorded;
    } else {
      AppendAscending(recorded, added, base);
    }
  }

  /** Runs without an explicit start part keep the session file's parts in
      strictly ascending order: the receipts appended are numbered
      consecutively, above every part recorded before. */
  lemma FolderKeepsPartsAscending(bucket: string, key: string, folder: string, prefix: string, names: seq<string>,
                                  body: string -> seq<Byte>, stored: StoredFile<FolderConfigDict>, nextUploadId: string,
                                  listing: string -> Option<seq<string>>, respond: (int, seq<Byte>) -> PartResponse)
    requires stored.Written? ==> Ascending(stored.content.parts)
    ensures var o := FolderRun(bucket, key, folder, prefix, names, body, None, stored, nextUploadId, listing, respond);
            o.stored.Written? ==> Ascending(o.stored.content.parts)
  {
    var opening := OpenFolderSession(bucket, key, stored, nextUploadId, listing);
    if opening.session.Some? {
      var d := opening.session.value;
      assert Ascending(d.parts);
      var files := RunFiles(folder, prefix, names, d.parts, None);
      var c := Clamp(GetStartPartNumber(d.parts, None) - 1, |GetUploadFiles(folder, prefix, names)|);
      RunFilesNumbering(folder, prefix, names, d.parts, None);
      assert files != [] ==> forall p :: p in d.parts ==> p.partNumber <= c by {
        StartAfterRecorded(d.parts);
      }
      UploadFilesKeepsAscending(bucket, key, d.uploadId, d.parts, files, body, respond, c);
      FolderRunResumes(bucket, key, folder, prefix, names, body, None, stored, nextUploadId, listing, respond);
    }
  }

  /** `MultipartConfig`: the upload id and the parts uploaded so far. */
  class MultipartConfig {
    const uploadId: string
    var parts: seq<PartsElement>

    /** The dataclass fields as passed, before `__post_init__` runs. */
    constructor (uploadId: string, parts: seq<PartsElement>)
      ensures this.uploadId == uploadId && this.parts == parts
    {
      this.uploadId := uploadId;
      this.parts := parts;
    }

    /** `__post_init__`: rehydrates `Parts` as `UploadConfig.ConvertParts`
        describes, with a part class that checks nothing; a failing
        conversion raises before `Parts` is assigned. */
    method PostInit() returns (r: Result<()>)
      modifies this
      ensures r.Ok? <==> ConvertParts(old(parts), Unchecked).Ok?
      ensures r.Err? ==> r.error == ConvertParts(old(parts), Unchecked).error && parts == old(parts)
      ensures r.Ok? ==> parts == ConvertParts(old(parts), Unchecked).value
    {
      if parts != [] && parts[0].DictElem? {
        var converted := ConvertAll(parts, Unchecked);
        if converted.Err? {
          return Err(converted.error);
        }
        parts := Map((p: ReceiptFields) => PartElem(p), converted.value);
      }
      r := Ok(());
    }

    /** `to_dict`. */
    function ToDict(): FolderConfigDict
      reads this
    {
      FolderConfigDict(uploadId, PartsToDict(parts))
    }
  }

  /** `_load_multipart_file`: nothing for a missing or empty file; otherwise a
      config whose parts are objects carrying exactly the stored fields. */
  method LoadMultipartFile(file: DocumentFile<FolderConfigDict>) returns (config: Option<MultipartConfig>)
    ensures config.None? <==> !file.stored.Written?
    ensures config.Some? ==>
              && fresh(config.value)
              && Rehydrated(config.value.parts)
              && config.value.ToDict() == file.stored.content
  {
    var d := file.Load();
    if d.None? {
      return None;
    }
    var c := new MultipartConfig(d.value.uploadId, AsDicts(d.value.parts));
    FolderPostInitMeaning(d.value.parts, c.parts);
    var init := c.PostInit();
    assert init.Ok?;
    assert PartsToDict(c.parts) == d.value.parts;
    config := Some(c);
  }

  /** `_save_multipart_file`: the file is rewritten with the config's dictionary. */
  method SaveMultipartFile(file: DocumentFile<FolderConfigDict>, config: MultipartConfig)
    modifies file
    ensures file.stored == Written(config.ToDict())
  {
    file.Save(config.ToDict());
  }

  /** `_complete_multipart_upload`: every recorded part, in recorded order. */
  method CompleteRecordedParts(client: S3Client, bucket: string, key: string, config: MultipartConfig, uploadId: string)
    modifies client
    ensures client.calls == old(client.calls) + [CompleteCall(bucket, key, uploadId, Map(CompletedOf, PartsToDict(config.parts)))]
  {
    var configDict := config.ToDict();
    client.CompleteMultipartUpload(bucket, key, uploadId, Map(CompletedOf, configDict.parts));
  }

  /** One turn of the upload loop: the file is sent; if the store accepts
      it, its receipt is appended to `Parts` and the session file rewritten. */
  method UploadOne(client: S3Client, configFile: DocumentFile<FolderConfigDict>, config: MultipartConfig,
                   bucket: string, key: string, file: UploadFile, body: string -> seq<Byte>)
    returns (response: PartResponse)
    requires configFile.stored == Written(config.ToDict())
    requires Rehydrated(config.parts)
    modifies client, configFile, config
    ensures response == Response(file, body, client.respond)
    ensures client.calls == old(client.calls) + [UploadPartCall(bucket, key, config.uploadId, file.partNumber, body(file.filePath))]
    ensures response.Rejected? ==> config.parts == old(config.parts)
    ensures response.Accepted? ==> PartsToDict(config.parts) == old(PartsToDict(config.parts)) + [FileReceipt(file, response)]
    ensures Rehydrated(config.parts)
    ensures configFile.stored == Written(config.ToDict())
  {
    response := client.UploadPart(bucket, key, config.uploadId, file.partNumber, body(file.filePath));
    if response.Rejected? {
      return;
    }
    var eTag := ReplaceEmptyQuotes(response.eTag);
    ghost var before := config.parts;
    config.parts := config.parts + [PartElem(ReceiptFields(eTag, file.partNumber))];
    MapAppend(ElementFields, before, [PartElem(ReceiptFields(eTag, file.partNumber))]);
    SaveMultipartFile(configFile, config);
  }

  lemma FileCallsStep(bucket: string, key: string, uploadId: string, files: seq<UploadFile>, i: int, body: string -> seq<Byte>)
    requires 0 <= i < |files|
    ensures FileCalls(bucket, key, uploadId, files[..i + 1], body)
         == FileCalls(bucket, key, uploadId, files[..i], body) + [UploadPartCall(bucket, key, uploadId, files[i].partNumber, body(files[i].filePath))]
  {
    assert files[..i + 1] == files[..i] + [files[i]];
    MapAppend((f: UploadFile) => UploadPartCall(bucket, key, uploadId, f.partNumber, body(f.filePath)), files[..i], [files[i]]);
  }

  lemma FileReceiptsStep(files: seq<UploadFile>, i: int, body: string -> seq<Byte>, respond: (int, seq<Byte>) -> PartResponse)
    requires 0 <= i < |files|
    requires forall j :: 0 <= j <= i ==> Response(files[j], body, respond).Accepted?
    ensures FileReceipts(files[..i + 1], body, respond)
         == FileReceipts(files[..i], body, respond) + [FileReceipt(files[i], Response(files[i], body, respond))]
  {
    assert files[..i + 1][..i] == files[..i];
  }

  /** Turn `i` of the loop, in terms of the files before it: the calls grow
      by this file's upload; an accepted file adds its receipt, a refused one
      is the first the store refuses. */
  method UploadTurn(client: S3Client, configFile: DocumentFile<FolderConfigDict>, config: MultipartConfig,
                    bucket: string, key: string, files: seq<UploadFile>, i: int, body: string -> seq<Byte>,
                    ghost parts0: seq<ReceiptFields>, ghost calls0: seq<Call>)
    returns (response: PartResponse)
    requires 0 <= i < |files| && i <= AcceptedCount(files, body, client.respond)
    requires Rehydrated(config.parts)
    requires PartsToDict(config.parts) == parts0 + FileReceipts(files[..i], body, client.respond)
    requires configFile.stored == Written(config.ToDict())
    requires client.calls == calls0 + FileCalls(bucket, key, config.uploadId, files[..i], body)
    modifies client, configFile, config
    ensures response == Response(files[i], body, client.respond)
    ensures Rehydrated(config.parts)
    ensures configFile.stored == Written(config.ToDict())
    ensures client.calls == calls0 + FileCalls(bucket, key, config.uploadId, files[..i + 1], body)
    ensures response.Rejected? ==> i == AcceptedCount(files, body, client.respond)
    ensures response.Rejected? ==> PartsToDict(config.parts) == parts0 + FileReceipts(files[..i], body, client.respond)
    ensures response.Accepted? ==> i < AcceptedCount(files, body, client.respond)
    ensures response.Accepted? ==> PartsToDict(config.parts) == parts0 + FileReceipts(files[..i + 1], body, client.respond)
  {
    ghost var receipts := FileReceipts(files[..i], body, client.respond);
    response := UploadOne(client, configFile, config, bucket, key, files[i], body);
    FileCallsStep(bucket, key, config.uploadId, files, i, body);
    if response.Accepted? {
      FileReceiptsStep(files, i, body, client.respond);
      assert PartsToDict(config.parts) == parts0 + (receipts + [FileReceipt(files[i], response)]);
    }
  }

  /** The loop of `upload_multipart`: each file is uploaded, its receipt
      appended to `Parts` and the session file rewritten, until the store
      refuses one. */
  method UploadEach(client: S3Client, configFile: DocumentFile<FolderConfigDict>, config: MultipartConfig,
                    bucket: string, key: string, files: seq<UploadFile>, body: string -> seq<Byte>)
    returns (r: Result<()>)
    requires configFile.stored == Written(config.ToDict())
    requires Rehydrated(config.parts)
    modifies client, configFile, config
    ensures var k := AcceptedCount(files, body, client.respond);
            && r == (if k < |files| then Err(RemoteError(Response(files[k], body, client.respond).reason)) else Ok(()))
            && Rehydrated(config.parts)
            && PartsToDict(config.parts) == old(PartsToDict(config.parts)) + FileReceipts(files[..k], body, client.respond)
            && configFile.stored == Written(config.ToDict())
            && client.calls == old(client.calls) + FileCalls(bucket, key, config.uploadId, files[..if k < |files| then k + 1 else k], body)
  {
    ghost var k := AcceptedCount(files, body, client.respond);
    ghost var parts0 := PartsToDict(config.parts);
    ghost var calls0 := client.calls;
    var i := 0;
    while i < |files|
      invariant 0 <= i <= k
      invariant Rehydrated(config.parts)
      invariant PartsToDict(config.parts) == parts0 + FileReceipts(files[..i], body, client.respond)
      invariant configFile.stored == Written(config.ToDict())
      invariant client.calls == calls0 + FileCalls(bucket, key, config.uploadId, files[..i], body)
    {
      var response := UploadTurn(client, configFile, config, bucket, key, files, i, body, parts0, calls0);
      if response.Rejected? {
        return Err(RemoteError(response.reason));
      }
      i := i + 1;
    }
    assert files[..i] == files;
    r := Ok(());
  }

  /** The part of `upload_multipart` after the session is open: the loop,
      then the completion if at least one file was uploaded. */
  method UploadAndComplete(client: S3Client, configFile: DocumentFile<FolderConfigDict>, config: MultipartConfig,
                           bucket: string, key: string, files: seq<UploadFile>, body: string -> seq<Byte>)
    returns (r: Result<()>)
    requires configFile.stored == Written(config.ToDict())
    requires Rehydrated(config.parts)
    modifies client, configFile, config
    ensures var o := UploadFiles(bucket, key, config.uploadId, old(PartsToDict(config.parts)), files, body, client.respond);
            && r == o.result
            && client.calls == old(client.calls) + o.calls
            && configFile.stored == o.stored
  {
    ghost var recorded := PartsToDict(config.parts);
    ghost var k := AcceptedCount(files, body, client.respond);
    ghost var parts := recorded + FileReceipts(files[..k], body, client.respond);
    r := UploadEach(client, configFile, config, bucket, key, files, body);
    if r.Err? {
      return;
    }
    assert k == |files| && files[..k] == files;
    if |files| > 0 {
      CompleteRecordedParts(client, bucket, key, config, config.uploadId);
    }
  }

  /** The opening of `upload_multipart`: load the session file, then either
      create a session and save it, or check that the stored one is still in progress. */
  method BeginSession(client: S3Client, configFile: DocumentFile<FolderConfigDict>, bucket: string, key: string)
    returns (config: Option<MultipartConfig>)
    modifies client, configFile
    ensures var opening := OpenFolderSession(bucket, key, old(configFile.stored), client.nextUploadId, client.listing);
            && client.calls == old(client.calls) + opening.calls
            && (config.None? <==> opening.session.None?)
            && (config.None? ==> configFile.stored == old(configFile.stored))
            && (config.Some? ==> && fresh(config.value) && Rehydrated(config.value.parts)
                                 && config.value.ToDict() == opening.session.value
                                 && configFile.stored == Written(opening.session.value))
  {
    var loaded := LoadMultipartFile(configFile);
    if loaded.None? {
      var uploadId := client.CreateMultipartUpload(bucket, key);
      var created := new MultipartConfig(uploadId, []);
      var _ := created.PostInit();
      SaveMultipartFile(configFile, created);
      return Some(created);
    }
    var inProgress := IsMultipartInProgress(client, bucket, loaded.value.uploadId);
    if !inProgress {
      return None;
    }
    config := loaded;
  }

  /** The files a run uploads: numbered in name order, from the start part on.
      The number of files skipped, `len(upload_files) - len(filtered)`, is
      only logged. */
  method FilesToUpload(config: MultipartConfig, folder: string, prefix: string, names: seq<string>,
                       startingPartNumber: Option<int>) returns (filtered: seq<UploadFile>)
    ensures filtered == RunFiles(folder, prefix, names, PartsToDict(config.parts), startingPartNumber)
  {
    var start := GetStartPartNumber(PartsToDict(config.parts), startingPartNumber);
    var uploadFiles := GetUploadFiles(folder, prefix, names);
    filtered := FilterFilePaths(uploadFiles, start);
  }

  /** `upload_multipart` once its session is open. */
  method ContinueSession(client: S3Client, configFile: DocumentFile<FolderConfigDict>, config: MultipartConfig,
                         bucket: string, key: string, folder: string, prefix: string, names: seq<string>,
                         body: string -> seq<Byte>, startingPartNumber: Option<int>,
                         ghost stored: StoredFile<FolderConfigDict>, ghost callsBase: seq<Call>)
    returns (r: Result<()>)
    requires OpenFolderSession(bucket, key, stored, client.nextUploadId, client.listing).session == Some(config.ToDict())
    requires client.calls == callsBase + OpenFolderSession(bucket, key, stored, client.nextUploadId, client.listing).calls
    requires configFile.stored == Written(config.ToDict())
    requires Rehydrated(config.parts)
    modifies client, configFile, config
    ensures var o := FolderRun(bucket, key, folder, prefix, names, body, startingPartNumber, stored,
                               client.nextUploadId, client.listing, client.respond);
            && r == o.result
            && client.calls == callsBase + o.calls
            && configFile.stored == o.stored
  {
    ghost var d := config.ToDict();
    var filtered := FilesToUpload(config, folder, prefix, names, startingPartNumber);
    ghost var callsOpened := client.calls;
    r := UploadAndComplete(client, configFile, config, bucket, key, filtered, body);
    ResumedFolderRunEffects(bucket, key, folder, prefix, names, body, startingPartNumber, stored, client.nextUploadId,
                            client.listing, client.respond, d, filtered, r, callsBase, callsOpened, client.calls,
                            configFile.stored);
  }

  /** `upload_multipart`: opens or resumes the session, uploads the folder's
      files from the start part on, and completes when at least one file was
      uploaded in this run. */
  method UploadMultipart(client: S3Client, configFile: DocumentFile<FolderConfigDict>, bucket: string, key: string,
                         folder: string, prefix: string, names: seq<string>, body: string -> seq<Byte>,
                         startingPartNumber: Option<int>)
    returns (r: Result<()>)
    modifies client, configFile
    ensures var o := FolderRun(bucket, key, folder, prefix, names, body, startingPartNumber, old(configFile.stored),
                               client.nextUploadId, client.listing, client.respond);
            && r == o.result
            && client.calls == old(client.calls) + o.calls
            && configFile.stored == o.stored
  {
    var session := BeginSession(client, configFile, bucket, key);
    if session.None? {
      return Ok(());
    }
    r := ContinueSession(client, configFile, session.value, bucket, key, folder, prefix, names, body, startingPartNumber,
                         old(configFile.stored), old(client.calls));
  }
}
