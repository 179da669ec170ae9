/**
 Measuring an upload: s3's fixedLengthBody and minio's uploadSize. A reader may report a
 length, may seek, or neither; any pattern of seeks may fail, and a failed seek to the end
 or to an offset may leave the position anywhere.
 */
module Uploads {
  import opened Wrappers
  import opened FileTree

  datatype UploadError = RestoreFailed | CopyFailed | TemporaryFailed

  /**
   Which seeks of a seekable reader succeed: asking for the position, to the end, to an
   offset. strays is where a failed question for the position leaves the reader, if it moves.
   */
  datatype Seeking = Seeking(tells: bool, strays: Option<nat>, toEnd: bool, toOffset: bool)

  class Body {
    const data: Bytes
    const hasLen: bool
    /** What Len() adds to the truth; 0 for an honest reader. */
    const lenError: int
    const seeking: Option<Seeking>
    /** Whether a read may fail. */
    const breaks: bool
    var position: nat

    constructor (data: Bytes, hasLen: bool, lenError: int, seeking: Option<Seeking>, breaks: bool, position: nat)
      ensures this.data == data && this.hasLen == hasLen && this.lenError == lenError
      ensures this.seeking == seeking && this.breaks == breaks && this.position == position
    {
      this.data := data;
      this.hasLen := hasLen;
      this.lenError := lenError;
      this.seeking := seeking;
      this.breaks := breaks;
      this.position := position;
    }

    /** The bytes a consumer would still read. */
    function Unread(): Bytes
      reads this
    {
      UnreadFrom(data, position)
    }

    function Len(): int
      reads this
    {
      |Unread()| + lenError
    }

    /** Seek(0, io.SeekCurrent): asks for the position, and moves only if it fails. */
    method Tell() returns (at: Option<nat>)
      requires seeking.Some?
      modifies `position
      ensures at == if seeking.value.tells then Some(position) else None
      ensures position == if Strays(this) then seeking.value.strays.value else old(position)
    {
      if seeking.value.tells {
        return Some(position);
      }
      if seeking.value.strays.Some? {
        position := seeking.value.strays.value;
      }
      return None;
    }

    /** When it fails, the position may be anywhere. */
    method SeekEnd() returns (at: Option<nat>)
      requires seeking.Some?
      modifies `position
      ensures at == if seeking.value.toEnd then Some(|data|) else None
      ensures at.Some? ==> position == |data|
    {
      if seeking.value.toEnd {
        position := |data|;
        return Some(position);
      }
      position := *;
      return None;
    }

    method SeekStart(offset: nat) returns (ok: bool)
      requires seeking.Some?
      modifies `position
      ensures ok <==> seeking.value.toOffset
      ensures ok ==> position == offset
    {
      ok := seeking.value.toOffset;
      if ok {
        position := offset;
      } else {
        position := *;
      }
    }

    /** Some bytes, nothing at the end, or an error. */
    method Read() returns (r: Option<Bytes>)
      modifies `position
      ensures r.None? ==> breaks
      ensures r.Some? ==> r.value + Unread() == old(Unread())
      ensures r.Some? ==> (r.value == [] <==> old(Unread()) == [])
    {
      var fails: bool := *;
      if breaks && fails {
        return None;
      }
      if |data| <= position {
        return Some([]);
      }
      var count: nat :| 0 < count <= |data| - position;
      var chunk := data[position..position + count];
      position := position + count;
      return Some(chunk);
    }
  }

  /** Which of the calls on a temporary file succeed, and how many such files are left behind. */
  class TemporaryFiles {
    const creates: bool
    const stores: bool
    const rewinds: bool
    var left: nat

    constructor (creates: bool, stores: bool, rewinds: bool)
      ensures this.creates == creates && this.stores == stores && this.rewinds == rewinds && left == 0
    {
      this.creates := creates;
      this.stores := stores;
      this.rewinds := rewinds;
      left := 0;
    }

    method Create() returns (ok: bool)
      modifies `left
      ensures ok <==> creates
      ensures left == if ok then old(left) + 1 else old(left)
    {
      ok := creates;
      if ok {
        left := left + 1;
      }
    }

    method Remove()
      requires 0 < left
      modifies `left
      ensures left == old(left) - 1
    {
      left := left - 1;
    }
  }

  /** A question for the position fails and moves the reader. */
  predicate Strays(reader: Body) {
    reader.seeking.Some? && !reader.seeking.value.tells && reader.seeking.value.strays.Some?
  }

  function UnreadFrom(data: Bytes, position: nat): Bytes {
    if position <= |data| then data[position..] else []
  }

  /** Where a reader at this position is once it has been asked for its position, if it is asked. */
  function Settled(reader: Body, position: nat): nat {
    if !reader.hasLen && Strays(reader) then reader.seeking.value.strays.value else position
  }

  function Min(a: nat, b: nat): nat {
    if a < b then a else b
  }

  /** The reader ends up at another place of its data; all places past the end are alike. */
  predicate LosesPlace(reader: Body, position: nat) {
    Min(Settled(reader, position), |reader.data|) != Min(position, |reader.data|)
  }

  lemma PlaceDecidesBytes(reader: Body, position: nat)
    ensures UnreadFrom(reader.data, Settled(reader, position)) == UnreadFrom(reader.data, position)
      <==> !LosesPlace(reader, position)
  {
    var p, q := Settled(reader, position), position;
    assert |UnreadFrom(reader.data, p)| == |reader.data| - Min(p, |reader.data|);
    assert |UnreadFrom(reader.data, q)| == |reader.data| - Min(q, |reader.data|);
  }

  /** How a size was found. */
  datatype Method = ByLen | BySeek | ByCopy | Unknown

  /** The size each method reports for a reader at this position. */
  function Measured(how: Method, data: Bytes, position: nat, lenError: int): int {
    var unread := if position <= |data| then |data| - position else 0;
    match how
    case ByLen => unread + lenError
    case BySeek => |data| - position
    case ByCopy => unread
    case Unknown => -1
  }

  /** When a reported size is the number of unread bytes: honest lengths, and positions not past the end. */
  predicate Trustworthy(how: Method, data: Bytes, position: nat, lenError: int) {
    match how
    case ByLen => lenError == 0
    case BySeek => position <= |data|
    case ByCopy => true
    case Unknown => false
  }

  lemma SizeIsRightExactly(how: Method, data: Bytes, position: nat, lenError: int)
    ensures
      var unread := if position <= |data| then |data| - position else 0;
      Measured(how, data, position, lenError) == unread <==> Trustworthy(how, data, position, lenError)
  {
  }

  /** The seek measure is negative exactly for a reader past its end, where nothing is left to read. */
  lemma PastTheEndIsNegative(data: Bytes, position: nat, lenError: int)
    ensures Measured(BySeek, data, position, lenError) < 0 <==> |data| < position
    ensures |data| < position ==> Measured(ByCopy, data, position, lenError) == 0
  {
  }

  /** contextReader.Read: a done context ends the copy before the reader is asked. */
  method ContextRead(mayCancel: bool, reader: Body) returns (r: Option<Bytes>)
    modifies reader`position
    ensures r.None? ==> mayCancel || reader.breaks
    ensures r.Some? ==> r.value + reader.Unread() == old(reader.Unread())
    ensures r.Some? ==> (r.value == [] <==> old(reader.Unread()) == [])
  {
    var done: bool := *;
    if mayCancel && done {
      return None;
    }
    r := reader.Read();
  }

  lemma Regroup(a: Bytes, b: Bytes, c: Bytes)
    ensures (a + b) + c == a + (b + c)
  {
  }

  /** io.Copy of the reader into a temporary file. */
  method CopyToTemporary(mayCancel: bool, reader: Body, files: TemporaryFiles) returns (r: Option<Bytes>)
    modifies reader`position
    ensures r.None? ==> mayCancel || reader.breaks || !files.stores
    ensures r.Some? ==> r.value == old(reader.Unread())
  {
    var written: Bytes := [];
    while true
      invariant written + reader.Unread() == old(reader.Unread())
      decreases |reader.Unread()|
    {
      var chunk := ContextRead(mayCancel, reader);
      if chunk.None? {
        return None;
      }
      if chunk.value == [] {
        return Some(written);
      }
      var survives: bool := *;
      if !files.stores && !survives {
        return None;
      }
      Regroup(written, chunk.value, reader.Unread());
      written := written + chunk.value;
    }
  }

  /** Every seek of the measuring attempt succeeds. */
  predicate SeeksMeasure(reader: Body) {
    reader.seeking.Some? && reader.seeking.value.tells && reader.seeking.value.toEnd && reader.seeking.value.toOffset
  }

  /** The attempt moves the reader and cannot put it back. */
  predicate SeeksLose(reader: Body) {
    reader.seeking.Some? && reader.seeking.value.tells && !reader.seeking.value.toOffset
  }

  /** The seek attempt both measuring functions make: the reader is put back or the upload fails. */
  method MeasureBySeeking(reader: Body) returns (size: Option<int>, restored: bool)
    requires reader.seeking.Some?
    modifies reader`position
    ensures restored <==> !SeeksLose(reader)
    ensures restored ==>
      reader.position == if Strays(reader) then reader.seeking.value.strays.value else old(reader.position)
    ensures size ==
      if SeeksMeasure(reader) then Some(Measured(BySeek, reader.data, old(reader.position), reader.lenError)) else None
  {
    var current := reader.Tell();
    if current.None? {
      return None, true;
    }
    var end := reader.SeekEnd();
    restored := reader.SeekStart(current.value);
    if end.Some? && restored {
      var length: int := end.value;
      return Some(length - current.value), true;
    }
    size := None;
  }

  /** The method by which fixedLengthBody arrives at a size. */
  function S3Method(reader: Body): Method {
    if reader.hasLen then ByLen else if SeeksMeasure(reader) then BySeek else ByCopy
  }

  /** The method by which uploadSize does. */
  function MinioMethod(reader: Body): Method {
    if reader.hasLen then ByLen else if SeeksMeasure(reader) then BySeek else Unknown
  }

  /** The way out when nothing else gives a size: a temporary file holds what was unread. */
  method CopyBody(mayCancel: bool, reader: Body, files: TemporaryFiles)
    returns (r: Result<Body, UploadError>, size: int)
    modifies reader`position, files`left
    ensures r.Ok? ==>
      fresh(r.value) && r.value.Unread() == old(reader.Unread()) && size == |old(reader.Unread())|
    ensures files.left == old(files.left) + if r.Ok? then 1 else 0
    ensures !(files.creates && files.rewinds) ==> r.Err?
    ensures r.Err? ==>
      && r.error != RestoreFailed
      && (mayCancel || reader.breaks || !files.creates || !files.stores || !files.rewinds)
  {
    var created := files.Create();
    if !created {
      return Err(TemporaryFailed), 0;
    }
    var copied := CopyToTemporary(mayCancel, reader, files);
    if copied.None? {
      files.Remove();
      return Err(CopyFailed), 0;
    }
    if !files.rewinds {
      files.Remove();
      return Err(TemporaryFailed), 0;
    }
    var file := new Body(copied.value, false, 0, Some(Seeking(true, None, true, true)), false, 0);
    return Ok(file), |copied.value|;
  }

  /**
   For every kind of reader and every pattern of failures, a successful result has exactly
   the caller's unread bytes still to read, unless the failed question for its position lost
   the reader's place; its size is the method's measure of them. Only a copied upload leaves
   a temporary file for its cleanup.
   */
  method FixedLengthBody(mayCancel: bool, reader: Body, files: TemporaryFiles)
    returns (r: Result<Body, UploadError>, size: int)
    modifies reader`position, files`left
    ensures r.Ok? ==> (r.value.Unread() == old(reader.Unread()) <==> !LosesPlace(reader, old(reader.position)))
    ensures
      var position := Settled(reader, old(reader.position));
      r.Ok? ==>
        && r.value.Unread() == UnreadFrom(reader.data, position)
        && size == Measured(S3Method(reader), reader.data, position, reader.lenError)
        && (size == |r.value.Unread()| <==> Trustworthy(S3Method(reader), reader.data, position, reader.lenError))
    ensures r.Ok? && S3Method(reader) != ByCopy ==> r.value == reader && reader.position == old(reader.position)
    ensures reader.hasLen ==> r == Ok(reader) && size == old(reader.Len())
    ensures
      !reader.hasLen && reader.seeking.Some? && reader.seeking.value.tells && reader.seeking.value.toOffset
        && reader.seeking.value.toEnd ==>
        r == Ok(reader) && size == |reader.data| - old(reader.position)
    ensures
      !reader.hasLen && r.Ok?
        && (reader.seeking.None? || !reader.seeking.value.tells || !reader.seeking.value.toEnd) ==>
        fresh(r.value) && size == |r.value.Unread()|
    ensures
      r.Ok? && (reader.hasLen || reader.seeking.None? || reader.seeking.value.tells) ==>
        r.value.Unread() == old(reader.Unread())
    ensures
      r == Err(RestoreFailed) <==>
        !reader.hasLen && reader.seeking.Some? && reader.seeking.value.tells && !reader.seeking.value.toOffset
    ensures files.left == old(files.left) + if r.Ok? && S3Method(reader) == ByCopy then 1 else 0
    ensures r == Err(RestoreFailed) <==> !reader.hasLen && SeeksLose(reader)
    ensures r.Err? && r.error != RestoreFailed ==>
      S3Method(reader) == ByCopy && (mayCancel || reader.breaks || !files.creates || !files.stores || !files.rewinds)
    ensures S3Method(reader) == ByCopy && !(files.creates && files.rewinds) ==> r.Err?
  {
    PlaceDecidesBytes(reader, reader.position);
    if reader.hasLen {
      return Ok(reader), reader.Len();
    }
    if reader.seeking.Some? {
      var sought, restored := MeasureBySeeking(reader);
      if sought.Some? {
        return Ok(reader), sought.value;
      }
      if !restored {
        return Err(RestoreFailed), 0;
      }
    }
    r, size := CopyBody(mayCancel, reader, files);
  }

  /** uploadSize measures without copying: the same bytes stay unread unless the place is lost, and -1 means unknown. */
  method UploadSize(reader: Body) returns (r: Result<int, UploadError>)
    modifies reader`position
    ensures r ==
      if !reader.hasLen && SeeksLose(reader) then Err(RestoreFailed)
      else Ok(Measured(MinioMethod(reader), reader.data, old(reader.position), reader.lenError))
    ensures reader.hasLen ==> r == Ok(old(reader.Len())) && reader.position == old(reader.position)
    ensures !reader.hasLen && reader.seeking.None? ==> r == Ok(-1) && reader.position == old(reader.position)
    ensures
      !reader.hasLen && reader.seeking.Some? ==>
        var seeking := reader.seeking.value;
        r ==
          if !seeking.tells then Ok(-1)
          else if !seeking.toOffset then Err(RestoreFailed)
          else if seeking.toEnd then Ok(|reader.data| - old(reader.position))
          else Ok(-1)
    ensures
      !reader.hasLen && reader.seeking.Some? && reader.seeking.value.tells && r.Ok? ==>
        reader.position == old(reader.position)
    ensures r.Ok? ==> reader.position == Settled(reader, old(reader.position))
    ensures r.Ok? ==> (reader.Unread() == old(reader.Unread()) <==> !LosesPlace(reader, old(reader.position)))
  {
    PlaceDecidesBytes(reader, reader.position);
    if reader.hasLen {
      return Ok(reader.Len());
    }
    if reader.seeking.Some? {
      var sought, restored := MeasureBySeeking(reader);
      if !restored {
        return Err(RestoreFailed);
      }
      if sought.Some? {
        return Ok(sought.value);
      }
    }
    return Ok(-1);
  }

  /**
   For an honest length, or a position not past the end, the two providers report one
   size, and it is the number of unread bytes; uploadSize may instead say that it does not
   know, exactly where fixedLengthBody has to copy.
   */
  lemma ProvidersAgree(reader: Body, position: nat)
    requires if reader.hasLen then reader.lenError == 0 else position <= |reader.data|
    ensures
      var unread := if position <= |reader.data| then |reader.data| - position else 0;
      var s3 := Measured(S3Method(reader), reader.data, position, reader.lenError);
      var minio := Measured(MinioMethod(reader), reader.data, position, reader.lenError);
      && s3 == unread
      && minio == (if S3Method(reader) == ByCopy then -1 else unread)
  {
    SizeIsRightExactly(S3Method(reader), reader.data, position, reader.lenError);
  }
}
