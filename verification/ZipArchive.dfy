/**
 Archives as laid out by APPNOTE.TXT (sections 4.3.7, 4.3.12 and 4.3.16), and
 the proof that the reader of maubot/lib/zipimport.py recovers what was laid out.
 */
module ZipArchive {
  import opened ByteCodec
  import opened Wrappers
  import opened ZipDirectory

  /** One archive member.  `raw` is the data as stored; `descriptor` is whatever follows it. */
  datatype Member = Member(
    name: Bytes, flags: nat, compress: nat, time: nat, date: nat, crc: nat, fileSize: nat, raw: Bytes,
    madeBy: nat, needed: nat, internalAttributes: nat, externalAttributes: nat,
    localExtra: Bytes, extra: Bytes, comment: Bytes, descriptor: Bytes)
  {
    /** Every field fits its 16- or 32-bit width. */
    predicate Fits() {
      && |name| < LIMIT16 && |localExtra| < LIMIT16 && |extra| < LIMIT16 && |comment| < LIMIT16
      && flags < LIMIT16 && compress < LIMIT16 && time < LIMIT16 && date < LIMIT16
      && madeBy < LIMIT16 && needed < LIMIT16 && internalAttributes < LIMIT16
      && externalAttributes < LIMIT32 && crc < LIMIT32 && fileSize < LIMIT32 && |raw| < LIMIT32
    }

    function Decoded(decode: Decoder): Option<Name> {
      decode(Utf8Names(flags), name)
    }

    function Toc(offset: nat): TocEntry {
      TocEntry(compress, |raw|, fileSize, offset, time, date, crc)
    }

    /** What reading the member must give: the stored bytes, inflated if compressed. */
    function Payload(inflate: Inflater): Result<Bytes, ZipError> {
      if compress == 0 then Ok(raw)
      else match inflate(raw)
        case None => Err(CannotInflate)
        case Some(data) => Ok(data)
    }
  }

  function U16(n: nat): Bytes { ToLittle(n, 2) }

  function U32(n: nat): Bytes { ToLittle(n, 4) }

  // Section 4.3.7
  function LocalHeader(m: Member): (h: Bytes)
    ensures |h| == 30 && h[..4] == [0x50, 0x4B, 3, 4]
  {
    [0x50, 0x4B, 3, 4] + U16(m.needed) + U16(m.flags) + U16(m.compress) + U16(m.time) + U16(m.date)
    + U32(m.crc) + U32(|m.raw|) + U32(m.fileSize) + U16(|m.name|) + U16(|m.localExtra|)
  }

  function LocalRecord(m: Member): Bytes {
    LocalHeader(m) + m.name + m.localExtra + m.raw + m.descriptor
  }

  // Section 4.3.12
  function CentralHeader(m: Member, offset: nat): (h: Bytes)
    ensures |h| == 46 && h[..4] == [0x50, 0x4B, 1, 2]
  {
    [0x50, 0x4B, 1, 2] + U16(m.madeBy) + U16(m.needed) + U16(m.flags) + U16(m.compress) + U16(m.time)
    + U16(m.date) + U32(m.crc) + U32(|m.raw|) + U32(m.fileSize) + U16(|m.name|) + U16(|m.extra|)
    + U16(|m.comment|) + U16(0) + U16(m.internalAttributes) + U32(m.externalAttributes) + U32(offset)
  }

  function CentralRecord(m: Member, offset: nat): Bytes {
    CentralHeader(m, offset) + m.name + m.extra + m.comment
  }

  // Section 4.3.16
  function EndRecord(count: nat, size: nat, offset: nat, comment: Bytes): (e: Bytes)
    ensures |e| == 22 + |comment| && e[..4] == [0x50, 0x4B, 5, 6]
  {
    [0x50, 0x4B, 5, 6] + U16(0) + U16(0) + U16(count) + U16(count) + U32(size) + U32(offset) + U16(|comment|) + comment
  }

  function Locals(ms: seq<Member>): Bytes {
    if ms == [] then [] else Locals(ms[..|ms| - 1]) + LocalRecord(ms[|ms| - 1])
  }

  function OffsetOf(ms: seq<Member>, k: nat): nat
    requires k <= |ms|
  {
    |Locals(ms[..k])|
  }

  /** Where the local record of each member starts. */
  function Offsets(ms: seq<Member>): (offsets: seq<nat>)
    ensures |offsets| == |ms|
    ensures forall k | 0 <= k < |ms| :: offsets[k] == OffsetOf(ms, k)
  {
    seq(|ms|, k requires 0 <= k < |ms| => OffsetOf(ms, k))
  }

  /** The directory records of the last `n` members. */
  function CentralOfLast(ms: seq<Member>, offsets: seq<nat>, n: nat): Bytes
    requires n <= |ms| == |offsets|
  {
    if n == 0 then []
    else CentralRecord(ms[|ms| - n], offsets[|ms| - n]) + CentralOfLast(ms, offsets, n - 1)
  }

  function Central(ms: seq<Member>): Bytes {
    CentralOfLast(ms, Offsets(ms), |ms|)
  }

  function Archive(ms: seq<Member>, comment: Bytes): Bytes {
    Locals(ms) + Central(ms) + EndRecord(|ms|, |Central(ms)|, |Locals(ms)|, comment)
  }

  function EndPosition(ms: seq<Member>): nat {
    |Locals(ms)| + |Central(ms)|
  }

  predicate ArchiveFits(ms: seq<Member>, comment: Bytes) {
    && (forall m | m in ms :: m.Fits())
    && |ms| < LIMIT16 && |comment| < LIMIT16 && |Locals(ms)| < LIMIT32 && |Central(ms)| < LIMIT32
  }

  // ---------------------------------------------------------------------
  // The end record
  // ---------------------------------------------------------------------

  ghost predicate NoSignatureAfter(b: Bytes, end: nat) {
    forall i | end < i :: !SignatureAt(b, i, END_SIGNATURE)
  }

  /**
   The reader finds the end record that was written exactly when the comment is
   empty or no end signature occurs after the start of the record.
   */
  lemma {:induction false} FindsItsEndRecord(body: Bytes, count: nat, size: nat, offset: nat, comment: Bytes)
    requires |comment| <= 65535
    ensures var b := body + EndRecord(count, size, offset, comment);
            FindEndRecord(b) == Ok(|body|) <==> comment == [] || NoSignatureAfter(b, |body|)
  {
    hide ToLittle, RFind, FindEndRecord;
    var b := body + EndRecord(count, size, offset, comment);
    FindEndRecordCases(b);
    assert b[|body|..|body| + 4] == END_SIGNATURE;
    var tail := |b| - END_SIZE;
    if comment != [] {
      assert tail > |body|;
      if !SignatureAt(b, tail, END_SIGNATURE) {
        TailSearchRefinesFullSearch(b);
        assert SignatureAt(b, |body|, END_SIGNATURE);
      }
    }
  }

  /** An archive whose comment is the signature itself, whatever it holds, is refused as corrupt. */
  lemma {:induction false} SignatureAsComment(ms: seq<Member>, decode: Decoder)
    ensures DirectoryOf(Archive(ms, END_SIGNATURE), decode) == Err(CorruptEndRecord)
  {
    hide RFind, Locals, Central;
    var body := Locals(ms) + Central(ms);
    var e := EndRecord(|ms|, |Central(ms)|, |Locals(ms)|, END_SIGNATURE);
    var b := body + e;
    assert Archive(ms, END_SIGNATURE) == b;
    assert e[END_SIZE..] == END_SIGNATURE && e[4] == 0;
    assert b[|body| + 4] == e[4];
    assert b[|b| - 4..|b|] == e[END_SIZE..];
    assert SignatureAt(b, |b| - 4, END_SIGNATURE);
    TailSearchRefinesFullSearch(b);
  }

  lemma {:induction false} Assoc(a: Bytes, m: Bytes, z: Bytes)
    ensures a + m + z == a + (m + z)
  {
  }

  /** The concatenation of three pieces, seen from the middle one. */
  lemma {:induction false} Middle(a: Bytes, m: Bytes, z: Bytes)
    ensures (a + m + z)[|a|..|a| + |m|] == m
  {
  }

  lemma {:induction false} EndFields(count: nat, size: nat, offset: nat, comment: Bytes)
    requires size < LIMIT32 && offset < LIMIT32
    ensures var e := EndRecord(count, size, offset, comment);
            FromLittle(e[12..16]) == size && FromLittle(e[16..20]) == offset
  {
    var e := EndRecord(count, size, offset, comment);
    assert e[12..16] == U32(size) && e[16..20] == U32(offset);
    FieldLimits();
    FromToLittle(size, 4);
    FromToLittle(offset, 4);
  }

  lemma {:induction false} EndBegins(count: nat, size: nat, offset: nat, comment: Bytes)
    ensures EndRecord(count, size, offset, comment)[..4] == END_SIGNATURE
  {
  }

  /** Fields of a record found behind other bytes. */
  lemma {:induction false} FieldBehind(body: Bytes, e: Bytes, lo: nat, hi: nat)
    requires lo <= hi <= |e|
    ensures (body + e)[|body| + lo..|body| + hi] == e[lo..hi]
  {
  }

  lemma {:induction false} LocatesBehind(body: Bytes, count: nat, size: nat, offset: nat, comment: Bytes)
    requires size < LIMIT32 && offset < LIMIT32 && size + offset == |body| && |comment| < LIMIT16
    requires comment == [] || NoSignatureAfter(body + EndRecord(count, size, offset, comment), |body|)
    ensures Locate(body + EndRecord(count, size, offset, comment)) == Ok(Location(|body|, offset, offset, 0))
  {
    hide FromLittle, FindEndRecord, EndRecord, NoSignatureAfter;
    var e := EndRecord(count, size, offset, comment);
    FindsItsEndRecord(body, count, size, offset, comment);
    EndFields(count, size, offset, comment);
    FieldBehind(body, e, 12, 16);
    FieldBehind(body, e, 16, 20);
  }

  // ---------------------------------------------------------------------
  // The directory records
  // ---------------------------------------------------------------------

  lemma {:induction false} CentralFields(m: Member, offset: nat)
    requires m.Fits() && offset < LIMIT32
    ensures var h := CentralHeader(m, offset);
            && h[..4] == CENTRAL_SIGNATURE
            && FromLittle(h[8..10]) == m.flags && FromLittle(h[10..12]) == m.compress
            && FromLittle(h[12..14]) == m.time && FromLittle(h[14..16]) == m.date
            && FromLittle(h[16..20]) == m.crc && FromLittle(h[20..24]) == |m.raw|
            && FromLittle(h[24..28]) == m.fileSize && FromLittle(h[28..30]) == |m.name|
            && FromLittle(h[30..32]) == |m.extra| && FromLittle(h[32..34]) == |m.comment|
            && FromLittle(h[42..46]) == offset
  {
    hide FromLittle, ToLittle;
    var h := CentralHeader(m, offset);
    assert h[8..10] == U16(m.flags) && h[10..12] == U16(m.compress);
    assert h[12..14] == U16(m.time) && h[14..16] == U16(m.date);
    assert h[16..20] == U32(m.crc) && h[20..24] == U32(|m.raw|) && h[24..28] == U32(m.fileSize);
    assert h[28..30] == U16(|m.name|) && h[30..32] == U16(|m.extra|) && h[32..34] == U16(|m.comment|);
    assert h[42..46] == U32(offset);
    FieldLimits();
    FromToLittle(m.flags, 2); FromToLittle(m.compress, 2); FromToLittle(m.time, 2); FromToLittle(m.date, 2);
    FromToLittle(m.crc, 4); FromToLittle(|m.raw|, 4); FromToLittle(m.fileSize, 4);
    FromToLittle(|m.name|, 2); FromToLittle(|m.extra|, 2); FromToLittle(|m.comment|, 2);
    FromToLittle(offset, 4);
  }

  /** The record the reader makes of a member's directory entry. */
  function RecordOf(m: Member, offset: nat, decode: Decoder): Record
    requires m.Decoded(decode).Some?
  {
    Record(m.Decoded(decode).value, m.Toc(offset), CENTRAL_SIZE + |m.name| + |m.extra| + |m.comment|)
  }

  lemma {:induction false} ParsesItsRecord(m: Member, offset: nat, tail: Bytes, dirOffset: nat, decode: Decoder)
    requires m.Fits() && offset < LIMIT32 && offset <= dirOffset && m.Decoded(decode).Some?
    ensures ParseRecord(CentralRecord(m, offset) + tail, dirOffset, decode)
         == Ok(Some(RecordOf(m, offset, decode)))
    ensures |CentralRecord(m, offset)| == RecordOf(m, offset, decode).size
  {
    hide FromLittle, ToLittle, CentralHeader;
    var h := CentralHeader(m, offset);
    var rest := CentralRecord(m, offset) + tail;
    assert rest == h + m.name + (m.extra + m.comment + tail);
    Middle(h, m.name, m.extra + m.comment + tail);
    assert rest[..CENTRAL_SIZE] == h;
    CentralFields(m, offset);
    assert Read(rest, 0, CENTRAL_SIZE) == h;
    assert Read(rest, CENTRAL_SIZE, |m.name|) == m.name;
  }

  predicate Decodable(ms: seq<Member>, decode: Decoder) {
    forall m | m in ms :: m.Decoded(decode).Some?
  }

  function RecordsOf(ms: seq<Member>, offsets: seq<nat>, decode: Decoder): (rs: seq<Record>)
    requires Decodable(ms, decode) && |offsets| == |ms|
    ensures |rs| == |ms|
    ensures forall k | 0 <= k < |rs| :: rs[k] == RecordOf(ms[k], offsets[k], decode)
  {
    seq(|ms|, k requires 0 <= k < |ms| => RecordOf(ms[k], offsets[k], decode))
  }

  lemma {:induction false} LocalsGrow(ms: seq<Member>, k: nat)
    requires k < |ms|
    ensures exists after: Bytes :: Locals(ms) == Locals(ms[..k]) + LocalRecord(ms[k]) + after
    decreases |ms|
  {
    hide LocalRecord;
    var init := ms[..|ms| - 1];
    if k == |init| {
      assert Locals(ms) == Locals(ms[..k]) + LocalRecord(ms[k]) + [];
    } else {
      LocalsGrow(init, k);
      assert init[..k] == ms[..k];
      var after: Bytes :| Locals(init) == Locals(init[..k]) + LocalRecord(init[k]) + after;
      assert Locals(ms) == Locals(ms[..k]) + LocalRecord(ms[k]) + (after + LocalRecord(ms[|ms| - 1]));
    }
  }

  lemma {:induction false} OffsetInside(ms: seq<Member>, k: nat)
    requires k < |ms|
    ensures OffsetOf(ms, k) <= |Locals(ms)|
  {
    LocalsGrow(ms, k);
  }

  lemma {:induction false} LaysOutItsRecords(
    ms: seq<Member>, offsets: seq<nat>, n: nat, tail: Bytes, dirOffset: nat, decode: Decoder)
    requires n <= |ms| == |offsets| && Decodable(ms, decode) && (forall m | m in ms :: m.Fits())
    requires dirOffset < LIMIT32 && forall k | 0 <= k < |offsets| :: offsets[k] <= dirOffset
    requires |tail| >= 4 && tail[..4] == END_SIGNATURE
    ensures LaidOut(CentralOfLast(ms, offsets, n) + tail, dirOffset, decode,
                    RecordsOf(ms, offsets, decode)[|ms| - n..])
    decreases n
  {
    hide CentralRecord, LaidOut, END_SIGNATURE;
    var records := RecordsOf(ms, offsets, decode);
    if n == 0 {
      assert [] + tail == tail && records[|ms|..] == [];
      StopsBefore(tail, dirOffset, decode);
    } else {
      var k := |ms| - n;
      LaysOutItsRecords(ms, offsets, n - 1, tail, dirOffset, decode);
      StepLaidOut(ms[k], offsets[k], CentralOfLast(ms, offsets, n - 1), tail, dirOffset, decode, records[k + 1..]);
      assert records[k..] == [records[k]] + records[k + 1..];
    }
  }

  lemma {:induction false} StepLaidOut(
    m: Member, offset: nat, others: Bytes, tail: Bytes, dirOffset: nat, decode: Decoder, records: seq<Record>)
    requires m.Fits() && offset <= dirOffset < LIMIT32 && m.Decoded(decode).Some?
    requires LaidOut(others + tail, dirOffset, decode, records)
    ensures LaidOut(CentralRecord(m, offset) + others + tail, dirOffset, decode,
                    [RecordOf(m, offset, decode)] + records)
  {
    hide CentralRecord, LaidOut, ParseRecord;
    var first, all := CentralRecord(m, offset), [RecordOf(m, offset, decode)] + records;
    ParsesItsRecord(m, offset, others + tail, dirOffset, decode);
    assert all[1..] == records;
    ConsLaidOut(first, others + tail, dirOffset, decode, all);
    Assoc(first, others, tail);
  }

  /** The end record ends the directory. */
  lemma {:induction false} StopsBefore(tail: Bytes, dirOffset: nat, decode: Decoder)
    requires |tail| >= 4 && tail[..4] == END_SIGNATURE
    ensures LaidOut(tail, dirOffset, decode, [])
  {
    assert Read(tail, 0, CENTRAL_SIZE)[..4] == tail[..4];
  }

  lemma {:induction false} ConsLaidOut(first: Bytes, more: Bytes, dirOffset: nat, decode: Decoder, records: seq<Record>)
    requires records != [] && |first| == records[0].size
    requires ParseRecord(first + more, dirOffset, decode) == Ok(Some(records[0]))
    requires LaidOut(more, dirOffset, decode, records[1..])
    ensures LaidOut(first + more, dirOffset, decode, records)
  {
    hide ParseRecord;
    assert (first + more)[|first|..] == more;
  }

  // ---------------------------------------------------------------------
  // Member data
  // ---------------------------------------------------------------------

  lemma {:induction false} ReadsItsData(m: Member, after: Bytes, inflate: Inflater)
    requires m.Fits()
    ensures GetData(LocalRecord(m) + after, m.Toc(0), inflate) == m.Payload(inflate)
  {
    hide FromLittle, ToLittle;
    var h := LocalHeader(m);
    var b := LocalRecord(m) + after;
    var front := h + m.name + m.localExtra;
    assert b == front + m.raw + (m.descriptor + after);
    Middle(front, m.raw, m.descriptor + after);
    assert b[..LOCAL_SIZE] == h;
    assert h[..4] == LOCAL_SIGNATURE;
    assert h[26..28] == U16(|m.name|) && h[28..30] == U16(|m.localExtra|);
    FieldLimits();
    FromToLittle(|m.name|, 2);
    FromToLittle(|m.localExtra|, 2);
    assert Read(b, 0, LOCAL_SIZE) == h;
    assert Read(b, |front|, |m.raw|) == m.raw;
  }

  lemma {:induction false} Regroup(a: Bytes, b: Bytes, c: Bytes, d: Bytes, e: Bytes)
    ensures a + b + c + d + e == a + (b + (c + d + e))
  {
  }

  lemma {:induction false} ReadsMemberData(ms: seq<Member>, comment: Bytes, k: nat, inflate: Inflater)
    requires k < |ms| && ms[k].Fits()
    ensures GetData(Archive(ms, comment), ms[k].Toc(OffsetOf(ms, k)), inflate) == ms[k].Payload(inflate)
  {
    hide GetData, LocalRecord, Central;
    LocalsGrow(ms, k);
    var before, m := Locals(ms[..k]), LocalRecord(ms[k]);
    var after: Bytes :| Locals(ms) == before + m + after;
    var end := EndRecord(|ms|, |Central(ms)|, |Locals(ms)|, comment);
    Regroup(before, m, after, Central(ms), end);
    var rest := after + Central(ms) + end;
    ReadsItsData(ms[k], rest, inflate);
    GetDataShift(before, m + rest, ms[k].Toc(0), inflate);
  }

  // ---------------------------------------------------------------------
  // Round trip
  // ---------------------------------------------------------------------

  /** No later member has the same decoded name. */
  predicate IsLast(ms: seq<Member>, k: nat, decode: Decoder)
    requires k < |ms|
  {
    forall j | k < j < |ms| :: ms[j].Decoded(decode) != ms[k].Decoded(decode)
  }

  /** Finding the directory and walking it, for any bytes in the place of the end record. */
  lemma {:induction false} ReadsDirectoryBefore(
    b: Bytes, locals: Bytes, rest: Bytes, end: nat, decode: Decoder, records: seq<Record>)
    requires b == locals + rest && Locate(b) == Ok(Location(end, |locals|, |locals|, 0))
    requires LaidOut(rest, |locals|, decode, records)
    ensures DirectoryOf(b, decode) == Ok(Tabulate(map[], records, 0))
  {
    assert b[|locals|..] == rest;
    WalkTabulates(rest, |locals|, 0, decode, map[], records);
  }

  lemma {:induction false} ReadsItsDirectory(ms: seq<Member>, comment: Bytes, decode: Decoder)
    requires ArchiveFits(ms, comment) && Decodable(ms, decode)
    requires comment == [] || NoSignatureAfter(Archive(ms, comment), EndPosition(ms))
    ensures DirectoryOf(Archive(ms, comment), decode)
         == Ok(Tabulate(map[], RecordsOf(ms, Offsets(ms), decode), 0))
  {
    hide Locate, DirectoryOf, CentralOfLast, LaidOut, Locals, OffsetOf, Tabulate;
    var locals, central, offsets := Locals(ms), Central(ms), Offsets(ms);
    var end := EndRecord(|ms|, |central|, |locals|, comment);
    LocatesBehind(locals + central, |ms|, |central|, |locals|, comment);
    EndBegins(|ms|, |central|, |locals|, comment);
    forall k | 0 <= k < |ms|
      ensures offsets[k] <= |locals|
    {
      OffsetInside(ms, k);
    }
    LaysOutItsRecords(ms, offsets, |ms|, end, |locals|, decode);
    var records := RecordsOf(ms, offsets, decode);
    assert records[0..] == records;
    Assoc(locals, central, end);
    ReadsDirectoryBefore(locals + central + end, locals, central + end, |locals| + |central|, decode, records);
  }

  /** The table `files` of an archive is what its members say. */
  ghost predicate Describes(files: Directory, ms: seq<Member>, offsets: seq<nat>, decode: Decoder)
    requires Decodable(ms, decode) && |offsets| == |ms|
  {
    && (forall name :: name in files <==> exists k :: 0 <= k < |ms| && ms[k].Decoded(decode) == Some(name))
    && (forall k | 0 <= k < |ms| && IsLast(ms, k, decode) ::
          var name := ms[k].Decoded(decode).value;
          name in files && files[name] == ms[k].Toc(offsets[k]))
  }

  lemma {:induction false} TableDescribes(files: Directory, ms: seq<Member>, offsets: seq<nat>, decode: Decoder)
    requires Decodable(ms, decode) && |offsets| == |ms|
    requires Tabulates(files, RecordsOf(ms, offsets, decode), 0)
    ensures Describes(files, ms, offsets, decode)
  {
    var records := RecordsOf(ms, offsets, decode);
    forall name | name in files
      ensures exists k :: 0 <= k < |ms| && ms[k].Decoded(decode) == Some(name)
    {
      var k := LastNamed(records, name);
      assert records[k].name == name && ms[k].Decoded(decode) == Some(name);
    }
    forall k | 0 <= k < |ms|
      ensures ms[k].Decoded(decode).value in files
      ensures IsLast(ms, k, decode) ==> files[ms[k].Decoded(decode).value] == ms[k].Toc(offsets[k])
    {
      assert records[k].name == ms[k].Decoded(decode).value;
      var last := LastNamed(records, records[k].name);
      assert ms[last].Decoded(decode) == ms[k].Decoded(decode);
    }
  }

  /**
   Round trip: reading a laid-out archive succeeds, knows exactly the names of
   its members, maps each name to its last member, and returns that member's
   bytes.
   */
  lemma {:induction false} RoundTrip(ms: seq<Member>, comment: Bytes, decode: Decoder, inflate: Inflater)
    requires ArchiveFits(ms, comment) && Decodable(ms, decode)
    requires comment == [] || NoSignatureAfter(Archive(ms, comment), EndPosition(ms))
    ensures var b := Archive(ms, comment);
            && DirectoryOf(b, decode).Ok?
            && Describes(DirectoryOf(b, decode).value, ms, Offsets(ms), decode)
            && (forall k | 0 <= k < |ms| && IsLast(ms, k, decode) ::
                  GetData(b, DirectoryOf(b, decode).value[ms[k].Decoded(decode).value], inflate)
                  == ms[k].Payload(inflate))
  {
    ReadsItsDirectory(ms, comment, decode);
    TabulateKeepsLast(RecordsOf(ms, Offsets(ms), decode), 0);
    var b := Archive(ms, comment);
    var files := DirectoryOf(b, decode).value;
    TableDescribes(files, ms, Offsets(ms), decode);
    forall k | 0 <= k < |ms| && IsLast(ms, k, decode)
      ensures GetData(b, files[ms[k].Decoded(decode).value], inflate) == ms[k].Payload(inflate)
    {
      ReadsMemberData(ms, comment, k, inflate);
    }
  }
}
