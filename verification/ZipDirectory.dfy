/**
 The ZIP directory reader of maubot/lib/zipimport.py: finding the end of
 central directory record, walking the central directory, and slicing out the
 data behind a local header.

 A file is the sequence of its bytes.  Two foreign calls are parameters: the
 decoder of member names (`None` is a UnicodeDecodeError) and `inflate`
 (`None` is zlib missing or refusing the data).
 */
module ZipDirectory {
  import opened ByteCodec
  import opened Wrappers

  const END_SIZE: nat := 22
  const MAX_COMMENT: nat := 0xFFFF
  const CENTRAL_SIZE: nat := 46
  const LOCAL_SIZE: nat := 30

  const END_SIGNATURE: Bytes := [0x50, 0x4B, 5, 6]
  const CENTRAL_SIGNATURE: Bytes := [0x50, 0x4B, 1, 2]
  const LOCAL_SIGNATURE: Bytes := [0x50, 0x4B, 3, 4]

  type Name = seq<char>

  /** Decodes a member name; the flag says whether the UTF-8 bit is set. */
  type Decoder = (bool, Bytes) -> Option<Name>

  type Inflater = Bytes -> Option<Bytes>

  datatype ZipError =
    | CannotOpen
    | CannotRead
    | NotAZipFile
    | CorruptEndRecord
    | BadDirectorySize
    | BadDirectoryOffset
    | BadSizeOrOffset
    | BadLocalHeaderOffset
    | BadLocalHeader
    | CannotInflate
    | UnexpectedEof       // EOFError
    | UndecodableName     // UnicodeDecodeError
    | ShortData           // OSError
  {
    /** The errors raised as ZipImportError; the others are not import errors. */
    predicate IsZipImportError() {
      !UnexpectedEof? && !UndecodableName? && !ShortData?
    }
  }

  datatype TocEntry = TocEntry(
    compress: nat, dataSize: nat, fileSize: nat, fileOffset: nat, time: nat, date: nat, crc: nat)

  type Directory = map<Name, TocEntry>

  // ---------------------------------------------------------------------
  // Finding the end record
  // ---------------------------------------------------------------------

  predicate SignatureAt(b: Bytes, i: int, signature: Bytes) {
    0 <= i <= |b| - |signature| && b[i..i + |signature|] == signature
  }

  /** `data.rfind(signature)`, looking no further right than `hi`. */
  function RFindUpTo(data: Bytes, signature: Bytes, hi: int): (r: int)
    requires -1 <= hi
    ensures -1 <= r <= hi
    ensures r >= 0 ==> SignatureAt(data, r, signature)
    ensures forall i | r < i <= hi :: !SignatureAt(data, i, signature)
    decreases hi
  {
    if hi < 0 then -1
    else if SignatureAt(data, hi, signature) then hi
    else RFindUpTo(data, signature, hi - 1)
  }

  function RFind(data: Bytes, signature: Bytes): (r: int)
    ensures r >= -1
    ensures r >= 0 ==> SignatureAt(data, r, signature)
    ensures forall i | r < i :: !SignatureAt(data, i, signature)
  {
    RFindUpTo(data, signature, |data|)
  }

  function WindowStart(b: Bytes): (start: nat)
    ensures start <= |b|
  {
    if |b| < MAX_COMMENT + END_SIZE then 0 else |b| - MAX_COMMENT - END_SIZE
  }

  /** The position of the end of central directory record. */
  function FindEndRecord(b: Bytes): (r: Result<nat, ZipError>)
    ensures r.Ok? ==> r.value + END_SIZE <= |b| && SignatureAt(b, r.value, END_SIGNATURE)
  {
    if |b| < END_SIZE then Err(CannotRead)
    else if b[|b| - END_SIZE..][..4] == END_SIGNATURE then
      assert b[|b| - END_SIZE..][..4] == b[|b| - END_SIZE..|b| - END_SIZE + 4];
      Ok(|b| - END_SIZE)
    else
      var data := b[WindowStart(b)..];
      var pos := RFind(data, END_SIGNATURE);
      if pos < 0 then Err(NotAZipFile)
      else if |Read(data, pos, END_SIZE)| != END_SIZE then Err(CorruptEndRecord)
      else
        assert data[pos..pos + 4] == b[WindowStart(b) + pos..WindowStart(b) + pos + 4];
        Ok(|b| - |data| + pos)
  }

  /**
   The bounded tail search against a search of the whole file: in the comment
   branch the reader sees the last signature of the file if it lies in the
   window (a comment of at most 65535 bytes behind a record of 22) and nothing
   otherwise, and the position it reports is absolute.
   */
  lemma {:induction false} TailSearchRefinesFullSearch(b: Bytes)
    requires |b| >= END_SIZE && !SignatureAt(b, |b| - END_SIZE, END_SIGNATURE)
    ensures var last := RFind(b, END_SIGNATURE);
            FindEndRecord(b) ==
            if last < 0 || last < |b| - 65557 then Err(NotAZipFile)
            else if last + END_SIZE > |b| then Err(CorruptEndRecord)
            else Ok(last)
  {
    assert b[|b| - END_SIZE..][..4] == b[|b| - END_SIZE..|b| - END_SIZE + 4];
    WindowSearch(b, WindowStart(b));
  }

  /** Searching a tail of the file finds what searching the file finds there. */
  lemma {:induction false} WindowSearch(b: Bytes, start: nat)
    requires start <= |b|
    ensures var last := RFind(b, END_SIGNATURE);
            RFind(b[start..], END_SIGNATURE) == if last < start then -1 else last - start
  {
    forall i: int | i >= 0
      ensures SignatureAt(b[start..], i, END_SIGNATURE) == SignatureAt(b, start + i, END_SIGNATURE)
    {
      if i + 4 <= |b| - start {
        assert b[start..][i..i + 4] == b[start + i..start + i + 4];
      }
    }
    var last := RFind(b, END_SIGNATURE);
    var found := RFind(b[start..], END_SIGNATURE);
    if last >= start {
      assert SignatureAt(b[start..], last - start, END_SIGNATURE);
    }
    if found >= 0 {
      assert SignatureAt(b, start + found, END_SIGNATURE);
    }
  }

  // ---------------------------------------------------------------------
  // Locating the central directory
  // ---------------------------------------------------------------------

  /** `arcOffset` is the number of bytes in front of the archive proper. */
  datatype Location = Location(endRecord: nat, dirStart: nat, dirOffset: nat, arcOffset: nat)

  function Locate(b: Bytes): (r: Result<Location, ZipError>)
    ensures r.Ok? ==>
              && r.value.dirStart <= r.value.endRecord <= |b| - END_SIZE
              && r.value.arcOffset + r.value.dirOffset == r.value.dirStart
              && FindEndRecord(b) == Ok(r.value.endRecord)
              && r.value.dirStart + FromLittle(b[r.value.endRecord + 12..r.value.endRecord + 16]) == r.value.endRecord
  {
    var end :- FindEndRecord(b);
    var size := FromLittle(b[end + 12..end + 16]);
    var offset := FromLittle(b[end + 16..end + 20]);
    if end < size then Err(BadDirectorySize)
    else if end < offset then Err(BadDirectoryOffset)
    else if end - size - offset < 0 then Err(BadSizeOrOffset)
    else Ok(Location(end, end - size, offset, end - size - offset))
  }

  // ---------------------------------------------------------------------
  // Walking the central directory
  // ---------------------------------------------------------------------

  /** One central directory record; `toc.fileOffset` is still archive-relative. */
  datatype Record = Record(name: Name, toc: TocEntry, size: nat)

  predicate Utf8Names(flags: nat) {
    flags / 0x800 % 2 == 1
  }

  /** Parses the record under the cursor; `None` ends the directory. */
  function ParseRecord(rest: Bytes, dirOffset: nat, decode: Decoder): (r: Result<Option<Record>, ZipError>)
    ensures r.Ok? && r.value.Some? ==> CENTRAL_SIZE <= r.value.value.size <= |rest|
    ensures r.Ok? && r.value.Some? ==> r.value.value.toc.fileOffset <= dirOffset
    ensures r.Ok? ==> |rest| >= 4 && (r.value.Some? <==> rest[..4] == CENTRAL_SIGNATURE)
  {
    var head := Read(rest, 0, CENTRAL_SIZE);
    if |head| < 4 then Err(UnexpectedEof)
    else if head[..4] != CENTRAL_SIGNATURE then assert head[..4] == rest[..4]; Ok(None)
    else if |head| != CENTRAL_SIZE then Err(UnexpectedEof)
    else
      assert head[..4] == rest[..4];
      var nameSize := FromLittle(head[28..30]);
      var extraSize := FromLittle(head[30..32]);
      var commentSize := FromLittle(head[32..34]);
      var toc := TocEntry(
        FromLittle(head[10..12]), FromLittle(head[20..24]), FromLittle(head[24..28]),
        FromLittle(head[42..46]), FromLittle(head[12..14]), FromLittle(head[14..16]),
        FromLittle(head[16..20]));
      if toc.fileOffset > dirOffset then Err(BadLocalHeaderOffset)
      else
        var name := Read(rest, CENTRAL_SIZE, nameSize);
        if |name| != nameSize then Err(CannotRead)
        else if |Read(rest, CENTRAL_SIZE + nameSize, extraSize + commentSize)| != extraSize + commentSize then
          Err(CannotRead)
        else
          match decode(Utf8Names(FromLittle(head[8..10])), name)
          case None => Err(UndecodableName)
          case Some(decoded) =>
            Ok(Some(Record(decoded, toc, CENTRAL_SIZE + nameSize + extraSize + commentSize)))
  }

  /** Bit 11 of the flags. */
  lemma {:induction false} Utf8Bit(high: nat, bit: nat, low: nat)
    requires bit < 2 && low < 2048
    ensures Utf8Names(4096 * high + 2048 * bit + low) <==> bit == 1
  {
    assert (4096 * high + 2048 * bit + low) / 2048 == 2 * high + bit;
  }

  /**
   Exactly what the bytes under the cursor come to.  The lengths of name, extra
   field and comment are at 28, 30 and 32, the local header offset is at 42.
   */
  lemma {:induction false} ParsesExactly(rest: Bytes, dirOffset: nat, decode: Decoder)
    ensures var r := ParseRecord(rest, dirOffset, decode);
            && (|rest| < 4 ==> r == Err(UnexpectedEof))
            && (|rest| >= 4 && rest[..4] != [0x50, 0x4B, 1, 2] ==> r == Ok(None))
            && (4 <= |rest| < 46 && rest[..4] == [0x50, 0x4B, 1, 2] ==> r == Err(UnexpectedEof))
            && (|rest| >= 46 && rest[..4] == [0x50, 0x4B, 1, 2] ==>
                  var n := FromLittle(rest[28..30]);
                  var size := 46 + n + FromLittle(rest[30..32]) + FromLittle(rest[32..34]);
                  if FromLittle(rest[42..46]) > dirOffset then r == Err(BadLocalHeaderOffset)
                  else if size > |rest| then r == Err(CannotRead)
                  else
                    var name := decode(Utf8Names(FromLittle(rest[8..10])), rest[46..46 + n]);
                    if name.None? then r == Err(UndecodableName)
                    else r.Ok? && r.value.Some? && r.value.value.size == size && r.value.value.name == name.value)
  {
    hide FromLittle;
    if |rest| >= 46 {
      var head := Read(rest, 0, 46);
      assert head[28..30] == rest[28..30] && head[30..32] == rest[30..32] && head[32..34] == rest[32..34];
      assert head[42..46] == rest[42..46] && head[8..10] == rest[8..10] && head[..4] == rest[..4];
      var n := FromLittle(rest[28..30]);
      if 46 + n <= |rest| {
        assert Read(rest, 46, n) == rest[46..46 + n];
      }
    } else if |rest| >= 4 {
      assert Read(rest, 0, 46)[..4] == rest[..4];
    }
  }

  /** The table entry stored for a record: its offset counts from the start of the file. */
  function Stored(rec: Record, arcOffset: nat): TocEntry {
    rec.toc.(fileOffset := rec.toc.fileOffset + arcOffset)
  }

  /** The directory loop, by recursion on the bytes after the cursor. */
  function Walk(rest: Bytes, dirOffset: nat, arcOffset: nat, decode: Decoder, files: Directory)
    : Result<Directory, ZipError>
    decreases |rest|
  {
    var next :- ParseRecord(rest, dirOffset, decode);
    match next
    case None => Ok(files)
    case Some(rec) =>
      Walk(rest[rec.size..], dirOffset, arcOffset, decode, files[rec.name := Stored(rec, arcOffset)])
  }

  function DirectoryOf(b: Bytes, decode: Decoder): Result<Directory, ZipError> {
    var at :- Locate(b);
    Walk(b[at.dirStart..], at.dirOffset, at.arcOffset, decode, map[])
  }

  /** `_read_directory` on an open file: a cursor and a dictionary that grows. */
  method ReadDirectory(b: Bytes, decode: Decoder) returns (r: Result<Directory, ZipError>)
    ensures r == DirectoryOf(b, decode)
  {
    hide ParseRecord, FindEndRecord, FromLittle;
    var located := Locate(b);
    if located.Err? {
      return Err(located.error);
    }
    var at := located.value;
    var cursor := at.dirStart;
    var files: Directory := map[];
    while true
      invariant at.dirStart <= cursor <= |b|
      invariant DirectoryOf(b, decode) == Walk(b[cursor..], at.dirOffset, at.arcOffset, decode, files)
      decreases |b| - cursor
    {
      var next := ParseRecord(b[cursor..], at.dirOffset, decode);
      if next.Err? {
        return Err(next.error);
      }
      if next.value.None? {
        return Ok(files);
      }
      var rec := next.value.value;
      files := files[rec.name := Stored(rec, at.arcOffset)];
      assert b[cursor..][rec.size..] == b[cursor + rec.size..];
      cursor := cursor + rec.size;
    }
  }

  // ---------------------------------------------------------------------
  // What a successful walk has seen
  // ---------------------------------------------------------------------

  /** `records` are laid out back to back at the front of `rest`, up to something else. */
  ghost predicate LaidOut(rest: Bytes, dirOffset: nat, decode: Decoder, records: seq<Record>)
    decreases |records|
  {
    if records == [] then ParseRecord(rest, dirOffset, decode) == Ok(None)
    else
      && ParseRecord(rest, dirOffset, decode) == Ok(Some(records[0]))
      && LaidOut(rest[records[0].size..], dirOffset, decode, records[1..])
  }

  /** The index of the last record of that name, or -1. */
  ghost function LastNamed(records: seq<Record>, name: Name): (k: int)
    ensures -1 <= k < |records|
    ensures k >= 0 ==> records[k].name == name
    ensures forall j | k < j < |records| :: records[j].name != name
  {
    if records == [] then -1
    else if records[|records| - 1].name == name then |records| - 1
    else LastNamed(records[..|records| - 1], name)
  }

  /** The table holds exactly the last record of each name that occurs. */
  ghost predicate Tabulates(files: Directory, records: seq<Record>, arcOffset: nat) {
    && (forall name | name in files :: LastNamed(records, name) >= 0)
    && (forall k | 0 <= k < |records| ::
          var last := LastNamed(records, records[k].name);
          records[k].name in files && last >= 0 && files[records[k].name] == Stored(records[last], arcOffset))
  }

  /** The walk succeeds exactly on a contiguous run of records ... */
  lemma {:induction false} WalkFindsRecords(rest: Bytes, dirOffset: nat, arcOffset: nat, decode: Decoder, files: Directory)
    returns (records: seq<Record>)
    requires Walk(rest, dirOffset, arcOffset, decode, files).Ok?
    ensures LaidOut(rest, dirOffset, decode, records)
    decreases |rest|
  {
    var next := ParseRecord(rest, dirOffset, decode).value;
    if next.None? {
      records := [];
    } else {
      var rec := next.value;
      var more := WalkFindsRecords(rest[rec.size..], dirOffset, arcOffset, decode,
                                   files[rec.name := Stored(rec, arcOffset)]);
      records := [rec] + more;
      assert records[1..] == more;
    }
  }

  ghost function Tabulate(files: Directory, records: seq<Record>, arcOffset: nat): Directory
    decreases |records|
  {
    if records == [] then files
    else Tabulate(files[records[0].name := Stored(records[0], arcOffset)], records[1..], arcOffset)
  }

  /** ... and then returns the table of those records. */
  lemma {:induction false} WalkTabulates(
    rest: Bytes, dirOffset: nat, arcOffset: nat, decode: Decoder, files: Directory, records: seq<Record>)
    requires LaidOut(rest, dirOffset, decode, records)
    ensures Walk(rest, dirOffset, arcOffset, decode, files) == Ok(Tabulate(files, records, arcOffset))
    decreases |records|
  {
    if records != [] {
      WalkTabulates(rest[records[0].size..], dirOffset, arcOffset, decode,
                    files[records[0].name := Stored(records[0], arcOffset)], records[1..]);
    }
  }

  lemma {:induction false} TabulateSnoc(files: Directory, records: seq<Record>, rec: Record, arcOffset: nat)
    ensures Tabulate(files, records + [rec], arcOffset)
         == Tabulate(files, records, arcOffset)[rec.name := Stored(rec, arcOffset)]
    decreases |records|
  {
    if records == [] {
      assert (records + [rec])[1..] == [];
    } else {
      TabulateSnoc(files[records[0].name := Stored(records[0], arcOffset)], records[1..], rec, arcOffset);
      assert (records + [rec])[1..] == records[1..] + [rec];
    }
  }

  lemma {:induction false} TabulatesSnoc(files: Directory, records: seq<Record>, rec: Record, arcOffset: nat)
    requires Tabulates(files, records, arcOffset)
    ensures Tabulates(files[rec.name := Stored(rec, arcOffset)], records + [rec], arcOffset)
  {
    var more := records + [rec];
    assert more[..|more| - 1] == records && more[|more| - 1] == rec;
    forall name: Name
      ensures LastNamed(more, name) == if rec.name == name then |records| else LastNamed(records, name)
    {
    }
  }

  lemma {:induction false} TabulateKeepsLast(records: seq<Record>, arcOffset: nat)
    ensures Tabulates(Tabulate(map[], records, arcOffset), records, arcOffset)
  {
    hide Tabulate;
    if records == [] {
      EmptyTable(arcOffset);
    } else {
      hide Tabulates;
      var init, rec := records[..|records| - 1], records[|records| - 1];
      assert records == init + [rec];
      TabulateKeepsLast(init, arcOffset);
      TabulateSnoc(map[], init, rec, arcOffset);
      TabulatesSnoc(Tabulate(map[], init, arcOffset), init, rec, arcOffset);
    }
  }

  lemma {:induction false} EmptyTable(arcOffset: nat)
    ensures Tabulate(map[], [], arcOffset) == map[]
  {
  }

  /** Where record `k` starts, relative to the first one. */
  ghost function StartOf(records: seq<Record>, k: nat): nat
    requires k <= |records|
  {
    if k == 0 then 0 else StartOf(records, k - 1) + records[k - 1].size
  }

  lemma {:induction false} StartOfTail(records: seq<Record>, k: nat)
    requires 0 < k <= |records|
    ensures StartOf(records, k) == records[0].size + StartOf(records[1..], k - 1)
  {
    if k > 1 {
      StartOfTail(records, k - 1);
    }
  }

  /** Cursor positions: inside the file, on a signature, at least one header apart. */
  lemma {:induction false} LaidOutPositions(rest: Bytes, dirOffset: nat, decode: Decoder, records: seq<Record>, k: nat)
    requires LaidOut(rest, dirOffset, decode, records) && k <= |records|
    ensures StartOf(records, k) + 4 <= |rest|
    ensures SignatureAt(rest, StartOf(records, k), CENTRAL_SIGNATURE) <==> k < |records|
    ensures k < |records| ==>
              && CENTRAL_SIZE <= records[k].size <= |rest| - StartOf(records, k)
              && records[k].toc.fileOffset <= dirOffset
    decreases |records|
  {
    hide ParseRecord, SignatureAt;
    if k > 0 {
      var size := records[0].size;
      var tail := rest[size..];
      LaidOutPositions(tail, dirOffset, decode, records[1..], k - 1);
      StartOfTail(records, k);
      SignatureInTail(rest, size, StartOf(records[1..], k - 1));
    } else {
      FirstSignature(rest);
    }
  }

  lemma {:induction false} FirstSignature(rest: Bytes)
    requires |rest| >= 4
    ensures SignatureAt(rest, 0, CENTRAL_SIGNATURE) <==> rest[..4] == CENTRAL_SIGNATURE
  {
  }

  lemma {:induction false} SignatureInTail(rest: Bytes, size: nat, i: nat)
    requires size <= |rest|
    ensures SignatureAt(rest[size..], i, CENTRAL_SIGNATURE) == SignatureAt(rest, size + i, CENTRAL_SIGNATURE)
  {
    if i + 4 <= |rest| - size {
      assert rest[size..][i..i + 4] == rest[size + i..size + i + 4];
    }
  }

  /** Every cursor position of a walk over `records` laid out in `rest`. */
  ghost predicate CursorsInside(rest: Bytes, records: seq<Record>) {
    && (forall k | 0 <= k <= |records| :: StartOf(records, k) + 4 <= |rest|)
    && (forall k | 0 <= k <= |records| ::
          SignatureAt(rest, StartOf(records, k), CENTRAL_SIGNATURE) <==> k < |records|)
    && (forall k | 0 <= k < |records| :: records[k].size >= CENTRAL_SIZE)
  }

  lemma {:induction false} WalkStaysInside(rest: Bytes, dirOffset: nat, decode: Decoder, records: seq<Record>)
    requires LaidOut(rest, dirOffset, decode, records)
    ensures CursorsInside(rest, records)
    ensures forall k | 0 <= k < |records| :: records[k].toc.fileOffset <= dirOffset
  {
    hide ParseRecord, LaidOut, SignatureAt;
    forall k | 0 <= k <= |records|
      ensures StartOf(records, k) + 4 <= |rest|
      ensures SignatureAt(rest, StartOf(records, k), CENTRAL_SIGNATURE) <==> k < |records|
      ensures k < |records| ==> CENTRAL_SIZE <= records[k].size && records[k].toc.fileOffset <= dirOffset
    {
      LaidOutPositions(rest, dirOffset, decode, records, k);
    }
  }

  lemma {:induction false} OffsetsInside(files: Directory, records: seq<Record>, dirOffset: nat, arcOffset: nat)
    requires Tabulates(files, records, arcOffset)
    requires forall k | 0 <= k < |records| :: records[k].toc.fileOffset <= dirOffset
    ensures forall name | name in files :: arcOffset <= files[name].fileOffset <= arcOffset + dirOffset
  {
    forall name | name in files
      ensures arcOffset <= files[name].fileOffset <= arcOffset + dirOffset
    {
      var last := LastNamed(records, name);
      assert records[last].name == name;
    }
  }

  /**
   The directory walk on any bytes.  When it succeeds, the records it read are
   contiguous from "end record minus directory size", every cursor position is
   in the file, consecutive positions are at least 46 bytes apart, the table
   keeps the last record of each name, and every offset it holds lies between
   the archive offset and the start of the directory.
   */
  lemma {:induction false} DirectoryWalkBounded(b: Bytes, decode: Decoder) returns (records: seq<Record>)
    requires DirectoryOf(b, decode).Ok?
    ensures var at, files := Locate(b).value, DirectoryOf(b, decode).value;
            && LaidOut(b[at.dirStart..], at.dirOffset, decode, records)
            && CursorsInside(b[at.dirStart..], records)
            && Tabulates(files, records, at.arcOffset)
            && (forall name | name in files :: at.arcOffset <= files[name].fileOffset <= at.dirStart)
  {
    hide ParseRecord, LaidOut, Locate, CursorsInside, Tabulates, Tabulate, StartOf;
    var at := Locate(b).value;
    var rest := b[at.dirStart..];
    records := WalkFindsRecords(rest, at.dirOffset, at.arcOffset, decode, map[]);
    WalkTabulates(rest, at.dirOffset, at.arcOffset, decode, map[], records);
    TabulateKeepsLast(records, at.arcOffset);
    WalkStaysInside(rest, at.dirOffset, decode, records);
    OffsetsInside(DirectoryOf(b, decode).value, records, at.dirOffset, at.arcOffset);
  }

  // ---------------------------------------------------------------------
  // Member data
  // ---------------------------------------------------------------------

  /** `_get_data`: re-reads the local header and slices out the member's bytes. */
  function GetData(b: Bytes, toc: TocEntry, inflate: Inflater): Result<Bytes, ZipError> {
    var head := Read(b, toc.fileOffset, LOCAL_SIZE);
    if |head| != LOCAL_SIZE then Err(UnexpectedEof)
    else if head[..4] != LOCAL_SIGNATURE then Err(BadLocalHeader)
    else
      var start := toc.fileOffset + LOCAL_SIZE + FromLittle(head[26..28]) + FromLittle(head[28..30]);
      var raw := Read(b, start, toc.dataSize);
      if |raw| != toc.dataSize then Err(ShortData)
      else if toc.compress == 0 then Ok(raw)
      else
        match inflate(raw)
        case None => Err(CannotInflate)
        case Some(data) => Ok(data)
  }

  /** Exactly when a member's data can be read, and what it is. */
  lemma {:induction false} ReadsExactly(b: Bytes, toc: TocEntry, inflate: Inflater)
    ensures var r, at := GetData(b, toc, inflate), toc.fileOffset;
            if at + 30 > |b| then r == Err(UnexpectedEof)
            else if b[at..at + 4] != [0x50, 0x4B, 3, 4] then r == Err(BadLocalHeader)
            else
              var start := at + 30 + FromLittle(b[at + 26..at + 28]) + FromLittle(b[at + 28..at + 30]);
              if toc.dataSize > 0 && start + toc.dataSize > |b| then r == Err(ShortData)
              else
                var raw := if toc.dataSize == 0 then [] else b[start..start + toc.dataSize];
                if toc.compress == 0 then r == Ok(raw)
                else if inflate(raw).None? then r == Err(CannotInflate)
                else r == Ok(inflate(raw).value)
  {
    hide FromLittle;
    var at := toc.fileOffset;
    if at + 30 <= |b| {
      var head := Read(b, at, 30);
      assert head[..4] == b[at..at + 4] && head[26..28] == b[at + 26..at + 28] && head[28..30] == b[at + 28..at + 30];
    }
  }

  // ---------------------------------------------------------------------
  // Bytes in front of an archive
  // ---------------------------------------------------------------------

  function Moved(toc: TocEntry, d: nat): TocEntry {
    toc.(fileOffset := toc.fileOffset + d)
  }

  function Shifted(files: Directory, d: nat): Directory {
    map name | name in files :: Moved(files[name], d)
  }

  lemma {:induction false} FindEndRecordCases(b: Bytes)
    ensures |b| < END_SIZE ==> FindEndRecord(b) == Err(CannotRead)
    ensures SignatureAt(b, |b| - END_SIZE, END_SIGNATURE) ==> FindEndRecord(b) == Ok(|b| - END_SIZE)
  {
    if |b| >= END_SIZE {
      assert b[|b| - END_SIZE..][..4] == b[|b| - END_SIZE..|b| - END_SIZE + 4];
    }
  }

  lemma {:induction false} SignatureMoves(p: Bytes, b: Bytes, i: nat)
    ensures SignatureAt(p + b, |p| + i, END_SIGNATURE) == SignatureAt(b, i, END_SIGNATURE)
  {
    if i + 4 <= |b| {
      assert (p + b)[|p| + i..|p| + i + 4] == b[i..i + 4];
    }
  }

  /** Bytes in front of the file never push a window position out of the window. */
  lemma {:induction false} WindowMoves(p: Bytes, b: Bytes)
    ensures WindowStart(p + b) <= |p| + WindowStart(b)
  {
  }

  lemma {:induction false} FindEndRecordShift(p: Bytes, b: Bytes)
    requires FindEndRecord(b).Ok?
    ensures FindEndRecord(p + b) == Ok(|p| + FindEndRecord(b).value)
  {
    hide RFind, FindEndRecord, WindowStart, SignatureAt;
    var w := p + b;
    FindEndRecordCases(b);
    FindEndRecordCases(w);
    SignatureMoves(p, b, |b| - END_SIZE);
    if !SignatureAt(b, |b| - END_SIZE, END_SIGNATURE) {
      TailSearchRefinesFullSearch(b);
      TailSearchRefinesFullSearch(w);
      assert w[|p|..] == b;
      WindowSearch(w, |p|);
      WindowMoves(p, b);
    }
  }

  lemma {:induction false} LocateShift(p: Bytes, b: Bytes)
    requires Locate(b).Ok?
    ensures var at := Locate(b).value;
            Locate(p + b) == Ok(Location(|p| + at.endRecord, |p| + at.dirStart, at.dirOffset, |p| + at.arcOffset))
  {
    hide FindEndRecord, FromLittle;
    FindEndRecordShift(p, b);
    var end := FindEndRecord(b).value;
    assert (p + b)[|p| + end + 12..|p| + end + 16] == b[end + 12..end + 16];
    assert (p + b)[|p| + end + 16..|p| + end + 20] == b[end + 16..end + 20];
  }

  lemma {:induction false} WalkShift(rest: Bytes, dirOffset: nat, arcOffset: nat, d: nat, decode: Decoder, files: Directory)
    ensures Walk(rest, dirOffset, arcOffset + d, decode, Shifted(files, d)) ==
            match Walk(rest, dirOffset, arcOffset, decode, files)
            case Ok(found) => Ok(Shifted(found, d))
            case Err(e) => Err(e)
    decreases |rest|
  {
    hide ParseRecord;
    var next := ParseRecord(rest, dirOffset, decode);
    if next.Ok? && next.value.Some? {
      var rec := next.value.value;
      var more := files[rec.name := Stored(rec, arcOffset)];
      assert Shifted(more, d) == Shifted(files, d)[rec.name := Stored(rec, arcOffset + d)];
      WalkShift(rest[rec.size..], dirOffset, arcOffset, d, decode, more);
    }
  }

  lemma {:induction false} GetDataShift(p: Bytes, b: Bytes, toc: TocEntry, inflate: Inflater)
    ensures GetData(p + b, Moved(toc, |p|), inflate) == GetData(b, toc, inflate)
  {
    hide FromLittle, Read;
    ReadShift(p, b, toc.fileOffset, LOCAL_SIZE);
    var head := Read(b, toc.fileOffset, LOCAL_SIZE);
    if |head| == LOCAL_SIZE {
      ReadShift(p, b, toc.fileOffset + LOCAL_SIZE + FromLittle(head[26..28]) + FromLittle(head[28..30]), toc.dataSize);
    }
  }

  lemma {:induction false} ReadShift(p: Bytes, b: Bytes, pos: nat, n: nat)
    ensures Read(p + b, |p| + pos, n) == Read(b, pos, n)
  {
    if pos < |b| && pos + n <= |b| {
      assert (p + b)[|p| + pos..|p| + pos + n] == b[pos..pos + n];
    } else if pos < |b| {
      assert (p + b)[|p| + pos..] == b[pos..];
    }
  }

  /**
   Offset shift: prepending any bytes to a readable archive leaves the names
   and fields as they were, moves every offset by exactly the length of the
   prefix, and leaves every member's data (or read error) as it was.
   */
  lemma {:induction false} OffsetShift(p: Bytes, b: Bytes, decode: Decoder, inflate: Inflater)
    requires DirectoryOf(b, decode).Ok?
    ensures DirectoryOf(p + b, decode) == Ok(Shifted(DirectoryOf(b, decode).value, |p|))
    ensures forall name | name in DirectoryOf(b, decode).value ::
              (GetData(p + b, DirectoryOf(p + b, decode).value[name], inflate)
               == GetData(b, DirectoryOf(b, decode).value[name], inflate))
  {
    hide FindEndRecord, ParseRecord, GetData, Locate;
    LocateShift(p, b);
    var at := Locate(b).value;
    assert (p + b)[|p| + at.dirStart..] == b[at.dirStart..];
    assert Shifted(map[], |p|) == map[];
    WalkShift(b[at.dirStart..], at.dirOffset, at.arcOffset, |p|, decode, map[]);
    forall name | name in DirectoryOf(b, decode).value
      ensures GetData(p + b, DirectoryOf(p + b, decode).value[name], inflate)
           == GetData(b, DirectoryOf(b, decode).value[name], inflate)
    {
      GetDataShift(p, b, DirectoryOf(b, decode).value[name], inflate);
    }
  }
}
