/** Files on disk, as the core sees them once JSON encoding is abstracted. */
module Files {
  import opened Outcomes

  /** One line of a JSON-lines file, as the jsonlines decoder classifies it:
      an empty line, a line that does not decode to an object, or an object
      whose fields are `fields`. */
  datatype Line<R> = Blank | Invalid | Entry(fields: R)

  /** A file that holds one JSON document: missing, present with size 0, or holding `content`. */
  datatype StoredFile<D> = Absent | EmptyFile | Written(content: D)

  /** The open mode of a writer, 'w' (truncate) or 'a' (append). */
  datatype Mode = Truncate | Append

  /** The life cycle of a jsonlines handle held by a reader or writer object. */
  datatype HandleState = NotOpened | Opened | Closed

  /** A JSON-lines file on disk: whether it is present and its lines in order. */
  class LineFile<R> {
    var present: bool
    var lines: seq<Line<R>>

    constructor (present: bool, lines: seq<Line<R>>)
      requires !present ==> lines == []
      ensures this.present == present && this.lines == lines
    {
      this.present := present;
      this.lines := lines;
    }
  }

  /** A file holding a single JSON document, rewritten whole on every save. */
  class DocumentFile<D> {
    var stored: StoredFile<D>

    constructor (stored: StoredFile<D>)
      ensures this.stored == stored
    {
      this.stored := stored;
    }

    /** Loads the document: nothing when the file is absent or empty. */
    function Load(): (d: Option<D>)
      reads this
      ensures d.None? <==> !stored.Written?
      ensures stored.Written? ==> d == Some(stored.content)
    {
      if stored.Written? then Some(stored.content) else None
    }

    /** Saves `d`, replacing whatever the file held ('w' mode). */
    method Save(d: D)
      modifies this
      ensures stored == Written(d)
      ensures Load() == Some(d)
    {
      stored := Written(d);
    }
  }

}
