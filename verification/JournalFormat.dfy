/** The bytes of a journal file: a header whose last field says where the records
    end, then the records, each between two copies of its size. */
module JournalFormat {
  import opened Bytes
  import opened Options

  datatype Record = Record(command: seq<byte>, idx: nat, term: nat)

  const NAME_SIZE := 24
  const VERSION_SIZE := 8
  const LAST_OFFSET_AT := 36
  const FIRST_RECORD := 40
  const JOURNAL_FORMAT := 1

  /** The name PYSYNCOBJ and the version 0.3.3, in ASCII. */
  const APP_NAME: seq<byte> := [80, 89, 83, 89, 78, 67, 79, 66, 74]
  const APP_VERSION: seq<byte> := [48, 46, 51, 46, 51]

  function DefaultHeader(): (r: seq<byte>)
    ensures |r| == FIRST_RECORD && r[LAST_OFFSET_AT..FIRST_RECORD] == Pack(FIRST_RECORD, 4)
  {
    APP_NAME + Zeros(NAME_SIZE - |APP_NAME|) + APP_VERSION + Zeros(VERSION_SIZE - |APP_VERSION|)
    + Pack(JOURNAL_FORMAT, 4) + Pack(FIRST_RECORD, 4)
  }

  function Body(r: Record): (b: seq<byte>)
    ensures |b| == 16 + |r.command|
  {
    Pack(r.idx, 8) + Pack(r.term, 8) + r.command
  }

  function Encoded(r: Record): (b: seq<byte>)
    ensures |b| == 24 + |r.command|
  {
    Pack(|Body(r)|, 4) + Body(r) + Pack(|Body(r)|, 4)
  }

  /** The fields fit their widths; struct.pack raises otherwise. */
  predicate Fits(r: Record) {
    r.idx < Range(8) && r.term < Range(8) && |Body(r)| < Range(4)
  }

  /** Where the fields of a record lie: its size, index, term and command, and the size
      again. */
  lemma RecordLayout(r: Record)
    ensures var e, n := Encoded(r), |r.command|;
            && e[..4] == Pack(16 + n, 4) && e[4..12] == Pack(r.idx, 8) && e[12..20] == Pack(r.term, 8)
            && e[20..20 + n] == r.command && e[20 + n..] == Pack(16 + n, 4)
  {
    var e, b := Encoded(r), Body(r);
    assert e[4..4 + |b|] == b && e[4 + |b|..] == Pack(|b|, 4);
    assert b[..8] == Pack(r.idx, 8) && b[8..16] == Pack(r.term, 8) && b[16..] == r.command;
  }

  function Image(records: seq<Record>): seq<byte>
    decreases |records|
  {
    if records == [] then [] else Image(records[..|records| - 1]) + Encoded(records[|records| - 1])
  }

  function End(records: seq<Record>): nat {
    FIRST_RECORD + |Image(records)|
  }

  /** The file says, and holds, exactly these records. */
  ghost predicate Holds(file: seq<byte>, records: seq<Record>) {
    && End(records) <= |file| && End(records) < Range(4)
    && file[LAST_OFFSET_AT..FIRST_RECORD] == Pack(End(records), 4)
    && file[FIRST_RECORD..End(records)] == Image(records)
    && forall i :: 0 <= i < |records| ==> Fits(records[i])
  }

  // ------------------------------------------------------------------- scanning

  function LastOffset(file: seq<byte>): nat
    requires |file| >= FIRST_RECORD
  {
    Unpack(file[LAST_OFFSET_AT..FIRST_RECORD])
  }

  /** Slicing a file stops at its end. */
  function Slice(file: seq<byte>, offset: nat, size: nat): seq<byte> {
    if offset >= |file| then [] else if offset + size > |file| then file[offset..] else file[offset..offset + size]
  }

  /** One record at an offset, and the offset behind it; too few bytes for a size
      or for the two numbers raise. */
  function ReadRecord(file: seq<byte>, offset: nat): (r: Option<(Record, nat)>)
    ensures r.Some? ==> r.value.1 > offset
  {
    if |Slice(file, offset, 4)| < 4 then None
    else
      var size := Unpack(Slice(file, offset, 4));
      var data := Slice(file, offset + 4, size);
      if |data| < 16 then None
      else Some((Record(data[16..], Unpack(data[..8]), Unpack(data[8..16])), offset + size + 8))
  }

  /** The records from an offset up to the end the header names. */
  function Scan(file: seq<byte>, offset: nat, end: nat): Option<(seq<Record>, nat)>
    decreases end - offset
  {
    if offset >= end then Some(([], offset))
    else
      match ReadRecord(file, offset)
      case None => None
      case Some((r, next)) =>
        match Scan(file, next, end)
        case None => None
        case Some((rest, stop)) => Some(([r] + rest, stop))
  }

  function Parse(file: seq<byte>): Option<(seq<Record>, nat)>
    requires |file| >= FIRST_RECORD
  {
    Scan(file, FIRST_RECORD, LastOffset(file))
  }

  /** Reopening the file rebuilds this list. */
  predicate Recovers(file: seq<byte>, records: seq<Record>) {
    |file| >= FIRST_RECORD && Parse(file).Some? && Parse(file).value.0 == records
  }

  lemma Widths()
    ensures Range(4) == 0x1_0000_0000 && Range(8) == 0x1_0000_0000_0000_0000
  {
    assert Range(1) == 256 && Range(2) == 0x1_0000 && Range(3) == 0x100_0000 && Range(4) == 0x1_0000_0000;
    assert Range(5) == 0x100_0000_0000 && Range(6) == 0x1_0000_0000_0000 && Range(7) == 0x100_0000_0000_0000;
  }

  lemma ReadEncoded(file: seq<byte>, offset: nat, r: Record)
    requires Fits(r) && offset + |Encoded(r)| <= |file| && file[offset..offset + |Encoded(r)|] == Encoded(r)
    ensures ReadRecord(file, offset) == Some((r, offset + |Encoded(r)|))
  {
    EncodedSlices(file, offset, r);
    UnpackPack(|Body(r)|, 4);
    BodyParts(r);
  }

  lemma EncodedSlices(file: seq<byte>, offset: nat, r: Record)
    requires offset + |Encoded(r)| <= |file| && file[offset..offset + |Encoded(r)|] == Encoded(r)
    ensures Slice(file, offset, 4) == Pack(|Body(r)|, 4) && Slice(file, offset + 4, |Body(r)|) == Body(r)
  {
    var e, b := Encoded(r), Body(r);
    SubSlice(file, offset, e, 0, 4);
    SubSlice(file, offset, e, 4, 4 + |b|);
    assert e[0..4] == Pack(|b|, 4) && e[4..4 + |b|] == b;
  }

  lemma BodyParts(r: Record)
    requires Fits(r)
    ensures var b := Body(r);
            Unpack(b[..8]) == r.idx && Unpack(b[8..16]) == r.term && b[16..] == r.command
  {
    var b := Body(r);
    UnpackPack(r.idx, 8);
    UnpackPack(r.term, 8);
    assert b[..8] == Pack(r.idx, 8) && b[8..16] == Pack(r.term, 8) && b[16..] == r.command;
  }

  /** The size that ends a record leads back to where it starts. */
  lemma ReadBackwards(file: seq<byte>, end: nat, r: Record)
    requires Fits(r) && |Encoded(r)| <= end <= |file| && file[end - |Encoded(r)|..end] == Encoded(r)
    ensures Unpack(file[end - 4..end]) + 8 == |Encoded(r)|
  {
    var e := Encoded(r);
    assert file[end - 4..end] == e[|e| - 4..] == Pack(|Body(r)|, 4);
    UnpackPack(|Body(r)|, 4);
  }

  lemma {:induction false} ImageSplit(a: seq<Record>, b: seq<Record>)
    ensures Image(a + b) == Image(a) + Image(b)
    decreases |b|
  {
    if b == [] {
      assert a + b == a;
    } else {
      var n := |b| - 1;
      ImageSplit(a, b[..n]);
      assert (a + b)[..|a| + n] == a + b[..n];
      Regroup(Image(a), Image(b[..n]), Encoded(b[n]));
    }
  }

  lemma Regroup(a: seq<byte>, b: seq<byte>, c: seq<byte>)
    ensures a + (b + c) == (a + b) + c
  {
  }

  lemma ThreeImages(a: seq<Record>, b: seq<Record>, c: seq<Record>)
    ensures Image(a + b) == Image(a) + Image(b)
    ensures Image(a + b + c) == Image(a) + Image(b) + Image(c)
  {
    ImageSplit(a, b);
    ImageSplit(a + b, c);
  }

  /** What lies between two ends is the image of the records between them. */
  lemma HeldPiece(file: seq<byte>, records: seq<Record>, i: nat, j: nat)
    requires Holds(file, records) && i <= j <= |records|
    ensures End(records[..i]) <= End(records[..j]) <= End(records)
    ensures file[End(records[..i])..End(records[..j])] == Image(records[i..j])
  {
    assert records[..j] == records[..i] + records[i..j] && records == records[..i] + records[i..j] + records[j..];
    ThreeImages(records[..i], records[i..j], records[j..]);
    MiddlePiece(file, Image(records[..i]), Image(records[i..j]), Image(records[j..]));
  }

  lemma MiddlePiece(file: seq<byte>, a: seq<byte>, b: seq<byte>, c: seq<byte>)
    requires FIRST_RECORD + |a + b + c| <= |file| && file[FIRST_RECORD..FIRST_RECORD + |a + b + c|] == a + b + c
    ensures file[FIRST_RECORD + |a|..FIRST_RECORD + |a + b|] == b
  {
    SubSlice(file, FIRST_RECORD, a + b + c, |a|, |a + b|);
  }

  lemma ImageOne(r: Record)
    ensures Image([r]) == Encoded(r)
  {
    assert [r][..0] == [];
    assert Image([r]) == Image([r][..0]) + Encoded(r);
  }

  lemma HeldRecord(file: seq<byte>, records: seq<Record>, i: nat)
    requires Holds(file, records) && i < |records|
    ensures End(records[..i + 1]) == End(records[..i]) + |Encoded(records[i])| <= End(records) <= |file|
    ensures file[End(records[..i])..End(records[..i + 1])] == Encoded(records[i]) && Fits(records[i])
  {
    HeldPiece(file, records, i, i + 1);
    assert records[i..i + 1] == [records[i]];
    ImageOne(records[i]);
  }

  lemma {:induction false} ScanHeld(file: seq<byte>, records: seq<Record>, i: nat)
    requires Holds(file, records) && i <= |records|
    ensures Scan(file, End(records[..i]), End(records)) == Some((records[i..], End(records)))
    decreases |records| - i
  {
    if i == |records| {
      assert records[..i] == records && records[i..] == [];
    } else {
      ScanHeld(file, records, i + 1);
      ScanBefore(file, records, i);
    }
  }

  lemma ScanBefore(file: seq<byte>, records: seq<Record>, i: nat)
    requires Holds(file, records) && i < |records|
    requires Scan(file, End(records[..i + 1]), End(records)) == Some((records[i + 1..], End(records)))
    ensures Scan(file, End(records[..i]), End(records)) == Some((records[i..], End(records)))
  {
    ReadHeld(file, records, i);
    ScanStep(file, End(records[..i]), End(records), records[i], End(records[..i + 1]), records[i + 1..], End(records));
    assert records[i..] == [records[i]] + records[i + 1..];
  }

  lemma ReadHeld(file: seq<byte>, records: seq<Record>, i: nat)
    requires Holds(file, records) && i < |records|
    ensures ReadRecord(file, End(records[..i])) == Some((records[i], End(records[..i + 1])))
    ensures End(records[..i]) < End(records)
  {
    HeldRecord(file, records, i);
    ReadEncoded(file, End(records[..i]), records[i]);
  }

  lemma ScanStep(file: seq<byte>, offset: nat, end: nat, r: Record, next: nat, rest: seq<Record>, stop: nat)
    requires offset < end && ReadRecord(file, offset) == Some((r, next)) && Scan(file, next, end) == Some((rest, stop))
    ensures Scan(file, offset, end) == Some(([r] + rest, stop))
  {
  }

  /** Reopening a file that holds a list rebuilds the list and the offset. */
  lemma ReopenHeld(file: seq<byte>, records: seq<Record>)
    requires Holds(file, records)
    ensures |file| >= FIRST_RECORD && Parse(file) == Some((records, End(records))) && Recovers(file, records)
  {
    UnpackPack(End(records), 4);
    assert records[..0] == [] && records[0..] == records;
    ScanHeld(file, records, 0);
  }

  /** A file holds at most one list. */
  lemma HeldOnce(file: seq<byte>, a: seq<Record>, b: seq<Record>)
    requires Holds(file, a) && Holds(file, b)
    ensures a == b
  {
    ReopenHeld(file, a);
    ReopenHeld(file, b);
  }

  /** A new file holds the empty list. */
  lemma FreshHolds(more: seq<byte>)
    ensures Holds(DefaultHeader() + more, [])
  {
    Widths();
    var file := DefaultHeader() + more;
    assert file[LAST_OFFSET_AT..FIRST_RECORD] == DefaultHeader()[LAST_OFFSET_AT..FIRST_RECORD];
    assert End([]) == FIRST_RECORD;
  }

  // ---------------------------------------------------------------- what writes do

  /** Growing the file changes nothing that it holds. */
  lemma GrownHolds(file: seq<byte>, more: seq<byte>, records: seq<Record>)
    requires Holds(file, records)
    ensures Holds(file + more, records)
  {
    assert (file + more)[LAST_OFFSET_AT..FIRST_RECORD] == file[LAST_OFFSET_AT..FIRST_RECORD];
    assert (file + more)[FIRST_RECORD..End(records)] == file[FIRST_RECORD..End(records)];
  }

  /** Bytes written behind the last record do not show. */
  lemma WriteBehind(file: seq<byte>, records: seq<Record>, values: seq<byte>)
    requires Holds(file, records) && End(records) + |values| <= |file|
    ensures Holds(Patched(file, End(records), values), records)
  {
    PatchedBefore(file, End(records), values, LAST_OFFSET_AT, FIRST_RECORD);
    PatchedBefore(file, End(records), values, FIRST_RECORD, End(records));
  }

  lemma OneMore(records: seq<Record>, r: Record)
    ensures Image(records + [r]) == Image(records) + Encoded(r)
  {
    ImageSplit(records, [r]);
    ImageOne(r);
  }

  /** Moving the end behind a written record makes it part of the list. */
  lemma CommitRecord(file: seq<byte>, records: seq<Record>, r: Record)
    requires Holds(file, records) && Fits(r) && End(records + [r]) < Range(4)
    requires End(records) + |Encoded(r)| <= |file| && file[End(records)..End(records) + |Encoded(r)|] == Encoded(r)
    ensures End(records + [r]) == End(records) + |Encoded(r)|
    ensures Holds(Patched(file, LAST_OFFSET_AT, Pack(End(records + [r]), 4)), records + [r])
  {
    var end := End(records + [r]);
    OneMore(records, r);
    PatchedAt(file, LAST_OFFSET_AT, Pack(end, 4));
    PatchedBehind(file, LAST_OFFSET_AT, Pack(end, 4), FIRST_RECORD, end);
    assert file[FIRST_RECORD..end] == file[FIRST_RECORD..End(records)] + file[End(records)..end];
  }

  /** Moving the end back to an earlier record cuts the list there. */
  lemma CutRecords(file: seq<byte>, records: seq<Record>, n: nat)
    requires Holds(file, records) && n <= |records|
    ensures Holds(Patched(file, LAST_OFFSET_AT, Pack(End(records[..n]), 4)), records[..n])
  {
    var end := End(records[..n]);
    HeldPiece(file, records, 0, n);
    assert records[..0] == [] && records[0..n] == records[..n];
    PatchedAt(file, LAST_OFFSET_AT, Pack(end, 4));
    PatchedBehind(file, LAST_OFFSET_AT, Pack(end, 4), FIRST_RECORD, end);
  }
}
