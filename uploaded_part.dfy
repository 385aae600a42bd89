/** The parts ledger: `UploadedPart` receipts and the JSON-lines writer and
    reader that append them to, and replay them from, the parts file. */
module PartLedger {
  import opened Outcomes
  import opened Files

  /** An uploaded part in dictionary form (`to_dict`): what one ledger line holds. */
  datatype PartFields = PartFields(eTag: string, partNumber: int, uploadId: string)

  /** `UploadedPart`: the receipt of one part. Construction refuses a
      PartNumber below 1, so every value of this type has one of at least 1. */
  type UploadedPart = p: PartFields | p.partNumber >= 1 witness PartFields("", 1, "")

  /** `UploadedPart(**fields)`: the checked constructor. */
  function NewUploadedPart(fields: PartFields): (r: Result<UploadedPart>)
    ensures r.Ok? <==> fields.partNumber >= 1
    ensures r.Ok? ==> r.value == fields
    ensures r.Err? ==> r.error.ValueError?
  {
    if fields.partNumber <= 0 then Err(ValueError("PartNumber must be at least 1.")) else Ok(fields)
  }

  /** The mode check of the writer's constructor: only 'w' and 'a' are accepted. */
  function ParseMode(mode: string): (r: Result<Mode>)
    ensures r.Ok? <==> mode == "w" || mode == "a"
    ensures r.Ok? ==> (r.value == Truncate <==> mode == "w")
    ensures r.Err? ==> r.error.ValueError?
  {
    if mode == "w" then Ok(Truncate)
    else if mode == "a" then Ok(Append)
    else Err(ValueError("mode must be \"w\" or \"a\"."))
  }

  /** The ledger lines that writing `parts` one after another appends. */
  function Encode(parts: seq<UploadedPart>): (lines: seq<Line<PartFields>>)
  {
    if parts == [] then [] else [Entry(parts[0])] + Encode(parts[1..])
  }

  /** Replaying a ledger as the reader does: blank lines are skipped, the first
      undecodable line or PartNumber below 1 fails the whole read, and every
      other line yields one part, in file order. */
  function Replay(lines: seq<Line<PartFields>>): Result<seq<UploadedPart>>
  {
    if lines == [] then Ok([])
    else match lines[0]
      case Blank => Replay(lines[1..])
      case Invalid => Err(InvalidLine)
      case Entry(fields) =>
        match NewUploadedPart(fields)
        case Err(e) => Err(e)
        case Ok(part) => Chain(Ok([part]), Replay(lines[1..]))
  }

  /** Reading one stretch of lines after another: the first failure wins. */
  function Chain(a: Result<seq<UploadedPart>>, b: Result<seq<UploadedPart>>): Result<seq<UploadedPart>>
  {
    if a.Err? then a else if b.Err? then b else Ok(a.value + b.value)
  }

  /** A ledger the reader accepts: no undecodable line, no PartNumber below 1. */
  predicate Readable(lines: seq<Line<PartFields>>)
  {
    forall i :: 0 <= i < |lines| ==> lines[i] != Invalid && (lines[i].Entry? ==> lines[i].fields.partNumber >= 1)
  }

  /** The records of a ledger in file order, blank and undecodable lines dropped. */
  function Records(lines: seq<Line<PartFields>>): seq<PartFields>
  {
    if lines == [] then []
    else if lines[0].Entry? then [lines[0].fields] + Records(lines[1..])
    else Records(lines[1..])
  }

  /** The reader succeeds exactly on readable ledgers, and then yields their
      records in file order. */
  lemma {:induction false} ReplayMeaning(lines: seq<Line<PartFields>>)
    ensures Replay(lines).Ok? <==> Readable(lines)
    ensures Replay(lines).Ok? ==> Replay(lines).value == Records(lines)
  {
    if lines != [] {
      ReplayMeaning(lines[1..]);
      assert Readable(lines) ==> Readable(lines[1..]) by {
        if Readable(lines) {
          forall i | 0 <= i < |lines[1..]|
            ensures lines[1..][i] != Invalid && (lines[1..][i].Entry? ==> lines[1..][i].fields.partNumber >= 1)
          {
            assert lines[1..][i] == lines[i + 1];
          }
        }
      }
      if Readable(lines[1..]) && lines[0] != Invalid && (lines[0].Entry? ==> lines[0].fields.partNumber >= 1) {
        forall i | 0 <= i < |lines|
          ensures lines[i] != Invalid && (lines[i].Entry? ==> lines[i].fields.partNumber >= 1)
        {
          if i > 0 { assert lines[i] == lines[1..][i - 1]; }
        }
      }
    }
  }

  /** Reading a ledger in two stretches is reading it whole. */
  lemma {:induction false} ReplayAppend(a: seq<Line<PartFields>>, b: seq<Line<PartFields>>)
    ensures Replay(a + b) == Chain(Replay(a), Replay(b))
  {
    if a == [] {
      assert a + b == b;
      if Replay(b).Ok? {
        assert [] + Replay(b).value == Replay(b).value;
      }
    } else {
      assert (a + b)[0] == a[0];
      assert (a + b)[1..] == a[1..] + b;
      ReplayAppend(a[1..], b);
      match a[0]
      case Blank =>
      case Invalid =>
      case Entry(fields) =>
        if fields.partNumber >= 1 {
          var part: UploadedPart := fields;
          var r1, r2 := Replay(a[1..]), Replay(b);
          if r1.Ok? && r2.Ok? {
            assert [part] + (r1.value + r2.value) == ([part] + r1.value) + r2.value;
          }
        }
    }
  }

  /** What is written is what is read back: the lines appended for `parts` replay as `parts`. */
  lemma {:induction false} ReplayEncode(parts: seq<UploadedPart>)
    ensures Replay(Encode(parts)) == Ok(parts)
  {
    if parts != [] {
      ReplayEncode(parts[1..]);
      assert Encode(parts) == [Entry(parts[0])] + Encode(parts[1..]);
      assert [parts[0]] + parts[1..] == parts;
    }
  }

  /** Appending receipts to a ledger and reading it back yields the old
      records followed by the new parts, in the order they were written. */
  lemma WriteThenRead(ledger: seq<Line<PartFields>>, parts: seq<UploadedPart>)
    ensures Replay(ledger + Encode(parts)) == Chain(Replay(ledger), Ok(parts))
  {
    ReplayAppend(ledger, Encode(parts));
    ReplayEncode(parts);
  }

  lemma {:induction false} EncodeAppend(a: seq<UploadedPart>, b: seq<UploadedPart>)
    ensures Encode(a + b) == Encode(a) + Encode(b)
  {
    if a == [] {
      assert a + b == b;
    } else {
      assert (a + b)[0] == a[0] && (a + b)[1..] == a[1..] + b;
      EncodeAppend(a[1..], b);
    }
  }

  /** `UploadedPartFileWriter`: appends one JSON line per written part. */
  class UploadedPartFileWriter {
    const file: LineFile<PartFields>
    const mode: Mode
    const flush: bool
    var state: HandleState

    constructor (file: LineFile<PartFields>, mode: Mode, flush: bool)
      ensures this.file == file && this.mode == mode && this.flush == flush
      ensures state == NotOpened
    {
      this.file := file;
      this.mode := mode;
      this.flush := flush;
      state := NotOpened;
    }

    /** Opens the file: 'w' truncates it, 'a' keeps its lines; either creates it. */
    method Open()
      modifies this, file
      ensures state == Opened && file.present
      ensures file.lines == if mode == Truncate then [] else old(file.lines)
    {
      file.present := true;
      if mode == Truncate {
        file.lines := [];
      }
      state := Opened;
    }

    /** Closes the handle; closing a writer that was never opened raises. */
    method Close() returns (r: Result<()>)
      modifies this
      ensures old(state) == NotOpened ==> r.Err? && r.error.AttributeError? && state == NotOpened
      ensures old(state) != NotOpened ==> r == Ok(()) && state == Closed
    {
      if state == NotOpened {
        r := Err(AttributeError("'NoneType' object has no attribute 'close'"));
      } else {
        state := Closed;
        r := Ok(());
      }
    }

    /** Writes one part as one line. Before `open` it raises IOError and writes nothing. */
    method Write(part: UploadedPart) returns (r: Result<()>)
      modifies file
      ensures state == NotOpened ==> r == Err(IOError("Writer is not opened yet.")) && file.lines == old(file.lines)
      ensures state == Closed ==> r == Err(ClosedFile) && file.lines == old(file.lines)
      ensures state == Opened ==> r == Ok(()) && file.lines == old(file.lines) + Encode([part])
      ensures file.present == old(file.present)
    {
      if state == NotOpened {
        r := Err(IOError("Writer is not opened yet."));
      } else if state == Closed {
        r := Err(ClosedFile);
      } else {
        file.lines := file.lines + [Entry(part)];
        r := Ok(());
      }
    }

    /** `__enter__`: opens the writer and hands back the same object. */
    method Enter() returns (self: UploadedPartFileWriter)
      modifies this, file
      ensures self == this
      ensures state == Opened && file.present
      ensures file.lines == if mode == Truncate then [] else old(file.lines)
    {
      Open();
      self := this;
    }

    /** `__exit__`: closes the writer. */
    method Exit() returns (r: Result<()>)
      modifies this
      ensures old(state) == NotOpened ==> r.Err? && state == NotOpened
      ensures old(state) != NotOpened ==> r == Ok(()) && state == Closed
    {
      r := Close();
    }
  }

  /** `UploadedPartFileReader`: replays the parts file. */
  class UploadedPartFileReader {
    const file: LineFile<PartFields>
    var state: HandleState

    constructor (file: LineFile<PartFields>)
      ensures this.file == file && state == NotOpened
    {
      this.file := file;
      state := NotOpened;
    }

    /** Opens the file for reading; a missing file raises. */
    method Open() returns (r: Result<()>)
      modifies this
      ensures file.present ==> r == Ok(()) && state == Opened
      ensures !file.present ==> r == Err(FileNotFound) && state == old(state)
    {
      if file.present {
        state := Opened;
        r := Ok(());
      } else {
        r := Err(FileNotFound);
      }
    }

    /** Closes the handle; closing a reader that was never opened raises. */
    method Close() returns (r: Result<()>)
      modifies this
      ensures old(state) == NotOpened ==> r.Err? && r.error.AttributeError? && state == NotOpened
      ensures old(state) != NotOpened ==> r == Ok(()) && state == Closed
    {
      if state == NotOpened {
        r := Err(AttributeError("'NoneType' object has no attribute 'close'"));
      } else {
        state := Closed;
        r := Ok(());
      }
    }

    /** Reads every part, in file order, as `list(reader.read())` does.
        Before `open` it raises IOError. */
    method Read() returns (r: Result<seq<UploadedPart>>)
      ensures state == NotOpened ==> r == Err(IOError("Reader is not opened yet."))
      ensures state == Closed ==> r == Err(ClosedFile)
      ensures state == Opened ==> r == Replay(file.lines)
    {
      if state == NotOpened {
        return Err(IOError("Reader is not opened yet."));
      }
      if state == Closed {
        return Err(ClosedFile);
      }
      var lines := file.lines;
      var parts: seq<UploadedPart> := [];
      var i := 0;
      while i < |lines|
        invariant 0 <= i <= |lines|
        invariant Replay(lines[..i]) == Ok(parts)
      {
        ReplayAppend(lines[..i], [lines[i]]);
        assert lines[..i + 1] == lines[..i] + [lines[i]];
        assert [lines[i]][1..] == [];
        if lines[i].Invalid? {
          ReplayAppend(lines[..i + 1], lines[i + 1..]);
          assert lines == lines[..i + 1] + lines[i + 1..];
          return Err(InvalidLine);
        } else if lines[i].Entry? {
          var made := NewUploadedPart(lines[i].fields);
          if made.Err? {
            ReplayAppend(lines[..i + 1], lines[i + 1..]);
            assert lines == lines[..i + 1] + lines[i + 1..];
            return Err(made.error);
          }
          assert [made.value] + [] == [made.value];
          assert Replay([lines[i]]) == Ok([made.value]);
          parts := parts + [made.value];
        } else {
          assert Replay([lines[i]]) == Ok([]);
          assert parts + [] == parts;
        }
        i := i + 1;
      }
      assert lines[..i] == lines;
      r := Ok(parts);
    }

    /** `__enter__`: opens the reader and hands back the same object. */
    method Enter() returns (r: Result<UploadedPartFileReader>)
      modifies this
      ensures file.present ==> r == Ok(this) && state == Opened
      ensures !file.present ==> r == Err(FileNotFound) && state == old(state)
    {
      var openResult := Open();
      if openResult.Err? {
        return Err(openResult.error);
      }
      r := Ok(this);
    }

    /** `__exit__`: closes the reader. */
    method Exit() returns (r: Result<()>)
      modifies this
      ensures old(state) == NotOpened ==> r.Err? && state == NotOpened
      ensures old(state) != NotOpened ==> r == Ok(()) && state == Closed
    {
      r := Close();
    }
  }
}
