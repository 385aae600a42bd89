/** The earlier parts ledger of `subcommands/io/uploaded_part.py`: the two-field `UploadedPart`
    and the JSON-lines writer and reader that are opened only through the
    context-manager protocol (`__enter__` / `__exit__`). */
module LegacyPartLedger {
  import opened Outcomes
  import opened Files

  /** A receipt in dictionary form: what one line of this ledger holds. */
  datatype ReceiptFields = ReceiptFields(eTag: string, partNumber: int)

  /** The two-field `UploadedPart`; construction refuses a PartNumber below 1. */
  type Receipt = p: ReceiptFields | p.partNumber >= 1 witness ReceiptFields("", 1)

  /** `UploadedPart(**fields)`: the checked constructor. */
  function NewReceipt(fields: ReceiptFields): (r: Result<Receipt>)
    ensures r.Ok? <==> fields.partNumber >= 1
    ensures r.Ok? ==> r.value == fields
    ensures r.Err? ==> r.error.ValueError?
  {
    if fields.partNumber <= 0 then Err(ValueError("PartNumber must be at least 1.")) else Ok(fields)
  }

  /** The lines that writing `parts` one after another appends: one
      `{ETag, PartNumber}` object per part. */
  function Encode(parts: seq<Receipt>): seq<Line<ReceiptFields>>
  {
    if parts == [] then [] else [Entry(parts[0])] + Encode(parts[1..])
  }

  /** `read` drained to the end: blank lines are skipped, an undecodable line
      or a PartNumber below 1 fails the read, every other line yields a part. */
  function Replay(lines: seq<Line<ReceiptFields>>): Result<seq<Receipt>>
  {
    if lines == [] then Ok([])
    else match lines[0]
      case Blank => Replay(lines[1..])
      case Invalid => Err(InvalidLine)
      case Entry(fields) =>
        match NewReceipt(fields)
        case Err(e) => Err(e)
        case Ok(part) => Chain(Ok([part]), Replay(lines[1..]))
  }

  /** Reading one stretch of lines after another: the first failure wins. */
  function Chain(a: Result<seq<Receipt>>, b: Result<seq<Receipt>>): Result<seq<Receipt>>
  {
    if a.Err? then a else if b.Err? then b else Ok(a.value + b.value)
  }

  /** A ledger every line of which the reader accepts. */
  predicate Readable(lines: seq<Line<ReceiptFields>>)
  {
    forall i :: 0 <= i < |lines| ==> lines[i] != Invalid && (lines[i].Entry? ==> lines[i].fields.partNumber >= 1)
  }

  /** The records of a ledger in file order, other lines dropped. */
  function Records(lines: seq<Line<ReceiptFields>>): seq<ReceiptFields>
  {
    if lines == [] then []
    else if lines[0].Entry? then [lines[0].fields] + Records(lines[1..])
    else Records(lines[1..])
  }

  /** The reader succeeds exactly on readable ledgers and then yields their
      records in file order. */
  lemma {:induction false} ReplayMeaning(lines: seq<Line<ReceiptFields>>)
    ensures Replay(lines).Ok? <==> Readable(lines)
    ensures Replay(lines).Ok? ==> Replay(lines).value == Records(lines)
  {
    if lines != [] {
      ReplayMeaning(lines[1..]);
      assert Readable(lines) ==> Readable(lines[1..]) by {
        if Readable(lines) {
          forall i | 0 <= i < |lines[1..]|
            ensures lines[1..][i] != Invalid && (lines[1..][i].Entry? ==> lines[1..][i].fields.partNumber >= 1)
          {
            assert lines[1..][i] == lines[i + 1];
          }
        }
      }
      if Readable(lines[1..]) && lines[0] != Invalid && (lines[0].Entry? ==> lines[0].fields.partNumber >= 1) {
        forall i | 0 <= i < |lines|
          ensures lines[i] != Invalid && (lines[i].Entry? ==> lines[i].fields.partNumber >= 1)
        {
          if i > 0 { assert lines[i] == lines[1..][i - 1]; }
        }
      }
    }
  }

  /** Reading a ledger in two stretches is reading it whole. */
  lemma {:induction false} ReplayAppend(a: seq<Line<ReceiptFields>>, b: seq<Line<ReceiptFields>>)
    ensures Replay(a + b) == Chain(Replay(a), Replay(b))
  {
    if a == [] {
      assert a + b == b;
      if Replay(b).Ok? {
        assert [] + Replay(b).value == Replay(b).value;
      }
    } else {
      assert (a + b)[0] == a[0];
      assert (a + b)[1..] == a[1..] + b;
      ReplayAppend(a[1..], b);
      match a[0]
      case Blank =>
      case Invalid =>
      case Entry(fields) =>
        if fields.partNumber >= 1 {
          var part: Receipt := fields;
          var r1, r2 := Replay(a[1..]), Replay(b);
          if r1.Ok? && r2.Ok? {
            assert [part] + (r1.value + r2.value) == ([part] + r1.value) + r2.value;
          }
        }
    }
  }

  /** What is written is what is read back. */
  lemma {:induction false} ReplayEncode(parts: seq<Receipt>)
    ensures Replay(Encode(parts)) == Ok(parts)
  {
    if parts != [] {
      ReplayEncode(parts[1..]);
      assert Encode(parts) == [Entry(parts[0])] + Encode(parts[1..]);
      assert [parts[0]] + parts[1..] == parts;
    }
  }

  /** Receipts appended to a ledger are read back after its old records, in
      the order they were written. */
  lemma WriteThenRead(ledger: seq<Line<ReceiptFields>>, parts: seq<Receipt>)
    ensures Replay(ledger + Encode(parts)) == Chain(Replay(ledger), Ok(parts))
  {
    ReplayAppend(ledger, Encode(parts));
    ReplayEncode(parts);
  }

  /** `UploadedPartFileWriter`: the handle exists only between `__enter__`
      and `__exit__`. The mode string is checked by `PartLedger.ParseMode`'s
      test, so the constructor takes the parsed mode. */
  class ReceiptWriter {
    const file: LineFile<ReceiptFields>
    const mode: Mode
    const flush: bool
    var state: HandleState

    constructor (file: LineFile<ReceiptFields>, mode: Mode, flush: bool)
      ensures this.file == file && this.mode == mode && this.flush == flush
      ensures state == NotOpened
    {
      this.file := file;
      this.mode := mode;
      this.flush := flush;
      state := NotOpened;
    }

    /** `__enter__`: opens the file ('w' truncates, 'a' keeps its lines,
        either creates it) and hands back the same object. */
    method Enter() returns (self: ReceiptWriter)
      modifies this, file
      ensures self == this
      ensures state == Opened && file.present
      ensures file.lines == if mode == Truncate then [] else old(file.lines)
    {
      file.present := true;
      if mode == Truncate {
        file.lines := [];
      }
      state := Opened;
      self := this;
    }

    /** `__exit__`: closes the handle; without a handle the call raises. */
    method Exit() returns (r: Result<()>)
      modifies this
      ensures old(state) == NotOpened ==> r.Err? && r.error.AttributeError? && state == NotOpened
      ensures old(state) != NotOpened ==> r == Ok(()) && state == Closed
    {
      if state == NotOpened {
        r := Err(AttributeError("'NoneType' object has no attribute 'close'"));
      } else {
        state := Closed;
        r := Ok(());
      }
    }

    /** `write`: one `{ETag, PartNumber}` line; before `__enter__` it raises
        IOError and writes nothing. */
    method Write(part: Receipt) returns (r: Result<()>)
      modifies file
      ensures state == NotOpened ==> r == Err(IOError("Writer is not opened yet.")) && file.lines == old(file.lines)
      ensures state == Closed ==> r == Err(ClosedFile) && file.lines == old(file.lines)
      ensures state == Opened ==> r == Ok(()) && file.lines == old(file.lines) + Encode([part])
      ensures file.present == old(file.present)
    {
      if state == NotOpened {
        r := Err(IOError("Writer is not opened yet."));
      } else if state == Closed {
        r := Err(ClosedFile);
      } else {
        file.lines := file.lines + [Entry(part)];
        r := Ok(());
      }
    }
  }

  /** `UploadedPartFileReader`: the handle exists only between `__enter__`
      and `__exit__`. */
  class ReceiptReader {
    const file: LineFile<ReceiptFields>
    var state: HandleState

    constructor (file: LineFile<ReceiptFields>)
      ensures this.file == file && state == NotOpened
    {
      this.file := file;
      state := NotOpened;
    }

    /** `__enter__`: opens the file for reading; a missing file raises. */
    method Enter() returns (r: Result<ReceiptReader>)
      modifies this
      ensures file.present ==> r == Ok(this) && state == Opened
      ensures !file.present ==> r == Err(FileNotFound) && state == old(state)
    {
      if !file.present {
        return Err(FileNotFound);
      }
      state := Opened;
      r := Ok(this);
    }

    /** `__exit__`: closes the handle; without a handle the call raises. */
    method Exit() returns (r: Result<()>)
      modifies this
      ensures old(state) == NotOpened ==> r.Err? && r.error.AttributeError? && state == NotOpened
      ensures old(state) != NotOpened ==> r == Ok(()) && state == Closed
    {
      if state == NotOpened {
        r := Err(AttributeError("'NoneType' object has no attribute 'close'"));
      } else {
        state := Closed;
        r := Ok(());
      }
    }

    /** `read`, drained: the parts in file order; before `__enter__` it raises IOError. */
    method Read() returns (r: Result<seq<Receipt>>)
      ensures state == NotOpened ==> r == Err(IOError("Reader is not opened yet."))
      ensures state == Closed ==> r == Err(ClosedFile)
      ensures state == Opened ==> r == Replay(file.lines)
    {
      if state == NotOpened {
        return Err(IOError("Reader is not opened yet."));
      }
      if state == Closed {
        return Err(ClosedFile);
      }
      var lines := file.lines;
      var parts: seq<Receipt> := [];
      var i := 0;
      while i < |lines|
        invariant 0 <= i <= |lines|
        invariant Replay(lines[..i]) == Ok(parts)
      {
        ReplayAppend(lines[..i], [lines[i]]);
        assert lines[..i + 1] == lines[..i] + [lines[i]];
        assert [lines[i]][1..] == [];
        if lines[i].Invalid? {
          ReplayAppend(lines[..i + 1], lines[i + 1..]);
          assert lines == lines[..i + 1] + lines[i + 1..];
          return Err(InvalidLine);
        } else if lines[i].Entry? {
          var made := NewReceipt(lines[i].fields);
          if made.Err? {
            ReplayAppend(lines[..i + 1], lines[i + 1..]);
            assert lines == lines[..i + 1] + lines[i + 1..];
            return Err(made.error);
          }
          assert [made.value] + [] == [made.value];
          assert Replay([lines[i]]) == Ok([made.value]);
          parts := parts + [made.value];
        } else {
          assert Replay([lines[i]]) == Ok([]);
          assert parts + [] == parts;
        }
        i := i + 1;
      }
      assert lines[..i] == lines;
      r := Ok(parts);
    }
  }

  /** Writing parts one after another appends their lines in that order. */
  lemma {:induction false} EncodeAppend(a: seq<Receipt>, b: seq<Receipt>)
    ensures Encode(a + b) == Encode(a) + Encode(b)
  {
    if a == [] {
      assert a + b == b;
    } else {
      assert (a + b)[0] == a[0] && (a + b)[1..] == a[1..] + b;
      EncodeAppend(a[1..], b);
    }
  }
}
