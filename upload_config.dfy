/** The session file of `subcommands/config.py`: `MultipartUploadConfig`, its
    `__post_init__` rehydration of `Parts` through the file's own checked
    two-field `UploadedPart`, `to_dict`, and the load/save pair. */
module UploadConfig {
  import opened Outcomes
  import opened Files
  import opened SeqFacts
  import opened LegacyPartLedger

  /** One element of `Parts`: still a dictionary (as decoded from JSON), or
      already an `UploadedPart` object. */
  datatype PartsElement = DictElem(fields: ReceiptFields) | PartElem(part: ReceiptFields)

  /** `asdict` of a config: the JSON document a session file holds. */
  datatype ConfigDict = ConfigDict(bucket: string, key: string, uploadId: string, parts: seq<ReceiptFields>)

  /** `UploadedPart(**element)`: a dictionary is handed to `make`, the part
      class's constructor; an object is not a mapping and raises TypeError. */
  function ConvertElement(e: PartsElement, make: ReceiptFields -> Result<ReceiptFields>): Result<ReceiptFields>
  {
    match e
    case DictElem(fields) => make(fields)
    case PartElem(_) => Err(TypeError("argument after ** must be a mapping"))
  }

  /** `[UploadedPart(**part) for part in Parts]`: the first element that cannot
      be built fails the whole list. */
  function ConvertAll(parts: seq<PartsElement>, make: ReceiptFields -> Result<ReceiptFields>): (r: Result<seq<ReceiptFields>>)
    ensures r.Ok? <==> forall i :: 0 <= i < |parts| ==> ConvertElement(parts[i], make).Ok?
    ensures r.Ok? ==> |r.value| == |parts| && forall i :: 0 <= i < |parts| ==> r.value[i] == ConvertElement(parts[i], make).value
  {
    if parts == [] then Ok([])
    else match ConvertElement(parts[0], make)
      case Err(e) => Err(e)
      case Ok(p) =>
        match ConvertAll(parts[1..], make)
        case Err(e) => Err(e)
        case Ok(rest) =>
          assert forall i :: 1 <= i < |parts| ==> parts[i] == parts[1..][i - 1];
          Ok([p] + rest)
  }

  /** The error of a failed conversion is the one raised by the first element
      that could not be built. */
  lemma {:induction false} ConvertAllFirstFailure(parts: seq<PartsElement>, make: ReceiptFields -> Result<ReceiptFields>, k: int)
    requires 0 <= k < |parts|
    requires forall j :: 0 <= j < k ==> ConvertElement(parts[j], make).Ok?
    requires ConvertElement(parts[k], make).Err?
    ensures ConvertAll(parts, make) == Err(ConvertElement(parts[k], make).error)
  {
    if k > 0 {
      assert ConvertElement(parts[0], make).Ok?;
      assert forall j :: 0 <= j < k - 1 ==> parts[1..][j] == parts[j + 1];
      ConvertAllFirstFailure(parts[1..], make, k - 1);
    }
  }

  /** `__post_init__`'s effect on `Parts`: a non-empty list whose first
      element is a dictionary is rebuilt element by element; any other list is
      kept as it is. */
  function ConvertParts(parts: seq<PartsElement>, make: ReceiptFields -> Result<ReceiptFields>): (r: Result<seq<PartsElement>>)
    ensures (parts == [] || parts[0].PartElem?) ==> r == Ok(parts)
    ensures parts != [] && parts[0].DictElem? ==>
              && (r.Ok? <==> forall i :: 0 <= i < |parts| ==> parts[i].DictElem? && make(parts[i].fields).Ok?)
              && (r.Ok? ==> |r.value| == |parts|)
              && (r.Ok? ==> forall i :: 0 <= i < |parts| ==> r.value[i] == PartElem(make(parts[i].fields).value))
  {
    if parts != [] && parts[0].DictElem? then
      match ConvertAll(parts, make)
      case Err(e) => Err(e)
      case Ok(ps) => Ok(Map((p: ReceiptFields) => PartElem(p), ps))
    else Ok(parts)
  }

  /** Every element is an `UploadedPart` object. */
  predicate Rehydrated(parts: seq<PartsElement>)
  {
    forall i :: 0 <= i < |parts| ==> parts[i].PartElem?
  }

  /** `asdict` on one element: an object becomes its dictionary, a dictionary is copied. */
  function ElementFields(e: PartsElement): ReceiptFields
  {
    match e
    case DictElem(fields) => fields
    case PartElem(part) => part
  }

  function PartsToDict(parts: seq<PartsElement>): seq<ReceiptFields>
  {
    Map(ElementFields, parts)
  }

  /** The `Parts` list as JSON decoding hands it to the constructor: dictionaries. */
  function AsDicts(fields: seq<ReceiptFields>): seq<PartsElement>
  {
    Map((f: ReceiptFields) => DictElem(f), fields)
  }

  /** This file's `UploadedPart(ETag, PartNumber)` constructor: it refuses a
      PartNumber below 1 as the ledger's receipt does. */
  const BuildPart: ReceiptFields -> Result<ReceiptFields> := f => NewReceipt(f)

  /** The parts a config built from `d` ends with, or the error its
      `__post_init__` raises. */
  function LoadedParts(d: ConfigDict): Result<seq<PartsElement>>
  {
    ConvertParts(AsDicts(d.parts), BuildPart)
  }

  /** Loading a document succeeds exactly when every stored part number is at
      least 1 (otherwise ValueError), and then yields `UploadedPart` objects
      carrying exactly the stored fields. */
  lemma LoadedPartsMeaning(d: ConfigDict)
    ensures LoadedParts(d).Ok? <==> forall i :: 0 <= i < |d.parts| ==> d.parts[i].partNumber >= 1
    ensures LoadedParts(d).Err? ==> LoadedParts(d).error.ValueError?
    ensures LoadedParts(d).Ok? ==> Rehydrated(LoadedParts(d).value) && PartsToDict(LoadedParts(d).value) == d.parts
  {
    var dicts := AsDicts(d.parts);
    assert forall i :: 0 <= i < |dicts| ==> dicts[i] == DictElem(d.parts[i]);
    if d.parts != [] {
      assert dicts[0].DictElem?;
      if !(forall i :: 0 <= i < |d.parts| ==> d.parts[i].partNumber >= 1) {
        var k :| 0 <= k < |d.parts| && d.parts[k].partNumber < 1 && forall j :: 0 <= j < k ==> d.parts[j].partNumber >= 1
          by { FirstBelowOne(d.parts); }
        ConvertAllFirstFailure(dicts, BuildPart, k);
      } else {
        var r := LoadedParts(d).value;
        assert |r| == |d.parts|;
        assert forall i :: 0 <= i < |r| ==> r[i] == PartElem(d.parts[i]);
        assert PartsToDict(r) == d.parts;
      }
    }
  }

  /** A list with a part number below 1 has a first such element. */
  lemma FirstBelowOne(fields: seq<ReceiptFields>)
    requires exists i :: 0 <= i < |fields| && fields[i].partNumber < 1
    ensures exists k :: 0 <= k < |fields| && fields[k].partNumber < 1 && forall j :: 0 <= j < k ==> fields[j].partNumber >= 1
  {
    var i :| 0 <= i < |fields| && fields[i].partNumber < 1;
    var k := 0;
    while fields[k].partNumber >= 1
      invariant 0 <= k <= i
      invariant forall j :: 0 <= j < k ==> fields[j].partNumber >= 1
      decreases i - k
    {
      k := k + 1;
    }
  }

  /** Saving a loaded config and loading it again gives the same parts: a
      rehydrated list of valid parts survives the dictionary round trip. */
  lemma SaveThenLoad(bucket: string, key: string, uploadId: string, parts: seq<PartsElement>)
    requires Rehydrated(parts)
    requires forall i :: 0 <= i < |parts| ==> parts[i].part.partNumber >= 1
    ensures LoadedParts(ConfigDict(bucket, key, uploadId, PartsToDict(parts))) == Ok(parts)
  {
    var d := ConfigDict(bucket, key, uploadId, PartsToDict(parts));
    assert forall i :: 0 <= i < |parts| ==> d.parts[i] == parts[i].part;
    LoadedPartsMeaning(d);
    var r := LoadedParts(d).value;
    assert PartsToDict(r) == d.parts;
    forall i | 0 <= i < |parts| ensures r[i] == parts[i] {
      assert ElementFields(r[i]) == d.parts[i];
    }
    assert r == parts;
  }

  /** `MultipartUploadConfig`: a mutable record whose `__post_init__` rewrites `Parts`. */
  class MultipartUploadConfig {
    const bucket: string
    const key: string
    const uploadId: string
    var parts: seq<PartsElement>

    /** The dataclass fields as passed, before `__post_init__` runs. */
    constructor (bucket: string, key: string, uploadId: string, parts: seq<PartsElement>)
      ensures this.bucket == bucket && this.key == key && this.uploadId == uploadId && this.parts == parts
    {
      this.bucket := bucket;
      this.key := key;
      this.uploadId := uploadId;
      this.parts := parts;
    }

    /** `__post_init__`: rehydrates `Parts` or raises before assigning it. */
    method PostInit() returns (r: Result<()>)
      modifies this
      ensures r.Ok? <==> ConvertParts(old(parts), BuildPart).Ok?
      ensures r.Err? ==> r.error == ConvertParts(old(parts), BuildPart).error && parts == old(parts)
      ensures r.Ok? ==> parts == ConvertParts(old(parts), BuildPart).value
    {
      if parts != [] && parts[0].DictElem? {
        var converted := ConvertAll(parts, BuildPart);
        if converted.Err? {
          return Err(converted.error);
        }
        parts := Map((p: ReceiptFields) => PartElem(p), converted.value);
      }
      r := Ok(());
    }

    /** `to_dict`: `asdict` of the config. */
    function ToDict(): ConfigDict
      reads this
    {
      ConfigDict(bucket, key, uploadId, PartsToDict(parts))
    }
  }

  /** `load_multipart_file`: nothing for a missing or empty file, otherwise
      the config built from the stored document. */
  method LoadMultipartFile(file: DocumentFile<ConfigDict>) returns (r: Result<Option<MultipartUploadConfig>>)
    ensures !file.stored.Written? ==> r == Ok(None)
    ensures file.stored.Written? ==>
              var d := file.stored.content;
              && (r.Ok? <==> LoadedParts(d).Ok?)
              && (r.Err? ==> r.error == LoadedParts(d).error)
              && (r.Ok? ==> && r.value.Some? && fresh(r.value.value)
                            && r.value.value.bucket == d.bucket && r.value.value.key == d.key
                            && r.value.value.uploadId == d.uploadId
                            && r.value.value.parts == LoadedParts(d).value
                            && r.value.value.ToDict() == d)
  {
    var d := file.Load();
    if d.None? {
      return Ok(None);
    }
    var config := new MultipartUploadConfig(d.value.bucket, d.value.key, d.value.uploadId, AsDicts(d.value.parts));
    var init := config.PostInit();
    if init.Err? {
      return Err(init.error);
    }
    LoadedPartsMeaning(d.value);
    r := Ok(Some(config));
  }

  /** `save_multipart_file`: the file is rewritten with the config's dictionary. */
  method SaveMultipartFile(file: DocumentFile<ConfigDict>, config: MultipartUploadConfig)
    modifies file
    ensures file.stored == Written(config.ToDict())
  {
    file.Save(config.ToDict());
  }
}
