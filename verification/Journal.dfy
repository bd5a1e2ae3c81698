/** The journals: a list in memory, and the same list kept in a growing file that
    can be reopened after a stop between any two writes. */
module Journal {
  import opened Bytes
  import opened JournalFormat
  import opened Options

  const INITIAL_SIZE := 1024

  function Kept(records: seq<Record>, n: nat): seq<Record> {
    if n < |records| then records[..n] else records
  }

  function Rest(records: seq<Record>, n: nat): seq<Record> {
    if n < |records| then records[n..] else []
  }

  class MemoryJournal {
    var journal: seq<Record>

    constructor ()
      ensures journal == []
    {
      journal := [];
    }

    method Add(r: Record)
      modifies this
      ensures journal == old(journal) + [r]
    {
      journal := journal + [r];
    }

    method Clear()
      modifies this
      ensures journal == []
    {
      journal := [];
    }

    method DeleteEntriesFrom(entryFrom: nat)
      modifies this
      ensures journal == Kept(old(journal), entryFrom)
    {
      journal := Kept(journal, entryFrom);
    }

    method DeleteEntriesTo(entryTo: nat)
      modifies this
      ensures journal == Rest(old(journal), entryTo)
    {
      journal := Rest(journal, entryTo);
    }
  }

  /** A file that does not reach far enough doubles, once. */
  function Grown(file: seq<byte>, need: nat): (r: seq<byte>)
    ensures |r| == if need > |file| then 2 * |file| else |file|
  {
    if need > |file| then file + Zeros(|file|) else file
  }

  class ResizableFile {
    var mm: seq<byte>
    /** The contents after every change, for what a crash may leave. */
    ghost var states: seq<seq<byte>>

    /** Open an existing file, or create one with the default content. */
    constructor (existing: Option<seq<byte>>, defaultContent: seq<byte>)
      ensures var content := if existing.Some? then existing.value else defaultContent;
              mm == if |content| < INITIAL_SIZE then content + Zeros(INITIAL_SIZE - |content|) else content
    {
      mm := if existing.Some? then existing.value else defaultContent;
      states := [];
      new;
      if |mm| < INITIAL_SIZE {
        mm := mm + Zeros(INITIAL_SIZE - |mm|);
      }
    }

    /** Assigning a slice that the file still does not cover raises. */
    method Write(offset: nat, values: seq<byte>) returns (ok: bool)
      requires values != []
      modifies this
      ensures ok <==> offset + |values| <= 2 * |old(mm)|
      ensures var grown := Grown(old(mm), offset + |values|);
              && mm == (if ok then Patched(grown, offset, values) else grown)
              && states == old(states) + (if offset + |values| > |old(mm)| then [grown] else []) + if ok then [mm] else []
    {
      if offset + |values| > |mm| {
        mm := mm + Zeros(|mm|);
        states := states + [mm];
      }
      ok := offset + |values| <= |mm|;
      if ok {
        mm := mm[..offset] + values + mm[offset + |values|..];
        states := states + [mm];
      }
    }

    method Read(offset: nat, size: nat) returns (values: seq<byte>)
      ensures values == Slice(mm, offset, size)
    {
      values := if offset >= |mm| then [] else if offset + size > |mm| then mm[offset..] else mm[offset..offset + size];
    }
  }

  /** The file holds, and reopening rebuilds, the first n records for some n from
      lo on. */
  ghost predicate ShowsPrefix(file: seq<byte>, records: seq<Record>, lo: nat) {
    exists n :: lo <= n <= |records| && Holds(file, records[..n]) && Recovers(file, records[..n])
  }

  lemma HeldShows(file: seq<byte>, records: seq<Record>, n: nat, lo: nat)
    requires lo <= n <= |records| && Holds(file, records[..n])
    ensures ShowsPrefix(file, records, lo)
  {
    ReopenHeld(file, records[..n]);
  }

  /** Every content since the first `from` changes. */
  ghost predicate AllShow(states: seq<seq<byte>>, from: nat, records: seq<Record>, lo: nat) {
    forall i :: from <= i < |states| ==> ShowsPrefix(states[i], records, lo)
  }

  ghost predicate AllHold(states: seq<seq<byte>>, from: nat, records: seq<Record>) {
    forall i :: from <= i < |states| ==> Holds(states[i], records)
  }

  /** Moving the end over the written record: first the old list, then the list with
      the new record. */
  lemma Committed(written: seq<seq<byte>>, from: nat, before: seq<byte>, records: seq<Record>, r: Record, after: seq<byte>)
    requires from <= |written| && AllHold(written, from, records) && Holds(before, records) && Fits(r)
    requires End(records) + |Encoded(r)| <= |before| && before[End(records)..End(records) + |Encoded(r)|] == Encoded(r)
    requires End(records) + |Encoded(r)| < Range(4)
    requires after == Patched(before, LAST_OFFSET_AT, Pack(End(records) + |Encoded(r)|, 4))
    ensures Holds(after, records + [r]) && End(records + [r]) == End(records) + |Encoded(r)|
    ensures AllShow(written + [after], from, records + [r], |records|)
  {
    OneMore(records, r);
    CommitRecord(before, records, r);
    AllOld(written, from, records, r);
    assert (records + [r])[..|records + [r]|] == records + [r];
    ShowsMore(written, from, records + [r], |records|, after, |records + [r]|);
  }

  /** The old list all the time. */
  lemma AllOld(states: seq<seq<byte>>, from: nat, records: seq<Record>, r: Record)
    requires AllHold(states, from, records)
    ensures AllShow(states, from, records + [r], |records|)
  {
    var all := records + [r];
    assert all[..|records|] == records;
    forall i | from <= i < |states| ensures ShowsPrefix(states[i], all, |records|) {
      HeldShows(states[i], all, |records|, |records|);
    }
  }

  lemma ShowsMore(states: seq<seq<byte>>, from: nat, records: seq<Record>, lo: nat, file: seq<byte>, n: nat)
    requires AllShow(states, from, records, lo) && lo <= n <= |records| && Holds(file, records[..n])
    ensures AllShow(states + [file], from, records, lo)
  {
    HeldShows(file, records, n, lo);
  }

  lemma ShowsWhole(states: seq<seq<byte>>, from: nat, some: seq<Record>, lo: nat, all: seq<Record>)
    requires AllShow(states, from, some, lo) && some <= all
    ensures AllShow(states, from, all, 0)
  {
    forall i | from <= i < |states| ensures ShowsPrefix(states[i], all, 0) {
      var n :| lo <= n <= |some| && Holds(states[i], some[..n]) && Recovers(states[i], some[..n]);
      assert some[..n] == all[..n];
    }
  }

  lemma ShowsJoin(states: seq<seq<byte>>, from: nat, mid: nat, records: seq<Record>)
    requires from <= mid <= |states| && AllShow(states[..mid], from, records, 0) && AllShow(states, mid, records, 0)
    ensures AllShow(states, from, records, 0)
  {
    forall i | from <= i < |states| ensures ShowsPrefix(states[i], records, 0) {
      if i < mid {
        assert states[..mid][i] == states[i];
      }
    }
  }

  /** The record that ends where the first n records end. */
  lemma LastRecord(file: seq<byte>, records: seq<Record>, held: nat, n: nat)
    requires 0 < n <= held <= |records| && Holds(file, records[..held])
    ensures var r := records[n - 1];
            && Fits(r) && End(records[..n]) == End(records[..n - 1]) + |Encoded(r)| <= |file|
            && file[End(records[..n]) - |Encoded(r)|..End(records[..n])] == Encoded(r)
  {
    HeldRecord(file, records[..held], n - 1);
    assert records[..held][..n] == records[..n] && records[..held][..n - 1] == records[..n - 1];
    assert Fits(records[..held][n - 1]);
  }

  lemma StepBack(file: seq<byte>, records: seq<Record>, held: nat, n: nat)
    requires 0 < n <= held <= |records| && Holds(file, records[..held])
    ensures var end := End(records[..n]);
            4 <= end <= |file| && end == End(records[..n - 1]) + Unpack(file[end - 4..end]) + 8
  {
    LastRecord(file, records, held, n);
    ReadBackwards(file, End(records[..n]), records[n - 1]);
  }

  lemma CutHeld(file: seq<byte>, records: seq<Record>, held: nat, n: nat)
    requires n <= held <= |records| && Holds(file, records[..held])
    ensures End(records[..n]) < Range(4)
    ensures Holds(Patched(file, LAST_OFFSET_AT, Pack(End(records[..n]), 4)), records[..n])
  {
    assert records[..held][..n] == records[..n];
    CutRecords(file, records[..held], n);
  }

  /** Any stretch of a list that fits the file fits it too. */
  lemma SuffixFits(file: seq<byte>, records: seq<Record>, from: nat, i: nat)
    requires Holds(file, records) && from <= |records| && i < |records| - from
    ensures var rest := records[from..];
            && Fits(rest[i]) && End(rest[..i]) + |Encoded(rest[i])| == End(rest[..i + 1])
            && End(rest[..i + 1]) <= End(records)
  {
    var rest := records[from..];
    assert rest[..i + 1] == rest[..i] + [rest[i]];
    ImageSplit(rest[..i], [rest[i]]);
    ImageOne(rest[i]);
    assert records == (records[..from] + rest[..i + 1]) + rest[i + 1..];
    ImageSplit(records[..from] + rest[..i + 1], rest[i + 1..]);
    ImageSplit(records[..from], rest[..i + 1]);
  }

  datatype Op = Add(r: Record) | Clear | DeleteFrom(n: nat) | DeleteTo(n: nat)

  function ListStep(records: seq<Record>, op: Op): seq<Record> {
    match op
    case Add(r) => records + [r]
    case Clear => []
    case DeleteFrom(n) => Kept(records, n)
    case DeleteTo(n) => Rest(records, n)
  }

  /** Only adding can raise: where a number does not fit its field, or doubling the
      file once does not make it long enough. */
  predicate OpFits(records: seq<Record>, size: nat, op: Op) {
    op.Add? ==> Fits(op.r) && End(records) + |Encoded(op.r)| <= 2 * size && End(records) + |Encoded(op.r)| < Range(4)
  }

  function SizeStep(records: seq<Record>, size: nat, op: Op): nat {
    if op.Add? && End(records) + |Encoded(op.r)| > size then 2 * size else size
  }

  function ListAfter(records: seq<Record>, ops: seq<Op>): seq<Record>
    decreases |ops|
  {
    if ops == [] then records else ListStep(ListAfter(records, ops[..|ops| - 1]), ops[|ops| - 1])
  }

  function SizeAfter(records: seq<Record>, size: nat, ops: seq<Op>): nat
    decreases |ops|
  {
    if ops == [] then size
    else
      var n := |ops| - 1;
      SizeStep(ListAfter(records, ops[..n]), SizeAfter(records, size, ops[..n]), ops[n])
  }

  /** None of the first n operations raises. */
  ghost predicate AllFit(records: seq<Record>, size: nat, ops: seq<Op>, n: nat)
    requires n <= |ops|
  {
    forall k :: 0 <= k < n ==> OpFits(ListAfter(records, ops[..k]), SizeAfter(records, size, ops[..k]), ops[k])
  }

  /** What reopening the file rebuilds if the process stops inside an operation. */
  ghost predicate During(file: seq<byte>, records: seq<Record>, op: Op) {
    match op
    case Add(r) => ShowsPrefix(file, records + [r], |records|)
    case Clear => Recovers(file, [])
    case DeleteFrom(n) => ShowsPrefix(file, records, |Kept(records, n)|)
    case DeleteTo(n) => ShowsPrefix(file, Rest(records, n), 0)
  }

  ghost predicate AllDuring(states: seq<seq<byte>>, from: nat, records: seq<Record>, op: Op) {
    forall i :: from <= i < |states| ==> During(states[i], records, op)
  }

  /** Every content since the first `from` changes belongs to one of the first n
      operations. */
  ghost predicate RunShows(states: seq<seq<byte>>, from: nat, records: seq<Record>, ops: seq<Op>, n: nat) {
    forall i :: from <= i < |states| ==> DuringOne(states[i], records, ops, n)
  }

  ghost predicate DuringOne(file: seq<byte>, records: seq<Record>, ops: seq<Op>, n: nat) {
    exists k :: 0 <= k < n && k < |ops| && During(file, ListAfter(records, ops[..k]), ops[k])
  }

  // ------------------------------------------------------- what survives a stop

  /** The records of the list that an operation is to leave in it. */
  function Surviving(records: seq<Record>, op: Op): seq<Record> {
    match op
    case Add(_) => records
    case Clear => []
    case DeleteFrom(n) => Kept(records, n)
    case DeleteTo(n) => Rest(records, n)
  }

  /** Reopening the file rebuilds these records, maybe with others behind them. */
  predicate Survives(file: seq<byte>, records: seq<Record>) {
    |file| >= FIRST_RECORD && Parse(file).Some? && records <= Parse(file).value.0
  }

  ghost predicate AllSurvive(states: seq<seq<byte>>, from: nat, records: seq<Record>) {
    forall i :: from <= i < |states| ==> Survives(states[i], records)
  }

  /** Dropping entries from the front while keeping some. */
  predicate Lossy(records: seq<Record>, op: Op) {
    op.DeleteTo? && Rest(records, op.n) != []
  }

  lemma ShownSurvives(file: seq<byte>, records: seq<Record>, lo: nat)
    requires lo <= |records| && ShowsPrefix(file, records, lo)
    ensures Survives(file, records[..lo])
  {
    var n :| lo <= n <= |records| && Holds(file, records[..n]) && Recovers(file, records[..n]);
    assert records[..lo] <= records[..n];
  }

  lemma DuringSurvives(file: seq<byte>, records: seq<Record>, op: Op)
    requires During(file, records, op) && !Lossy(records, op)
    ensures Survives(file, Surviving(records, op))
  {
    match op
    case Add(r) =>
      ShownSurvives(file, records + [r], |records|);
      assert (records + [r])[..|records|] == records;
    case Clear =>
    case DeleteFrom(n) =>
      ShownSurvives(file, records, |Kept(records, n)|);
      assert records[..|Kept(records, n)|] == Kept(records, n);
    case DeleteTo(n) => ShownSurvives(file, Rest(records, n), 0);
  }

  /** Wherever the process stops inside an operation, the records it is to leave are
      rebuilt, if and only if the operation is not one that drops entries from the
      front and keeps some. */
  lemma SurvivesIff(states: seq<seq<byte>>, from: nat, records: seq<Record>, op: Op)
    requires AllDuring(states, from, records, op)
    requires op.DeleteTo? ==> from < |states| && Recovers(states[from], [])
    ensures AllSurvive(states, from, Surviving(records, op)) <==> !Lossy(records, op)
  {
    if !Lossy(records, op) {
      forall i | from <= i < |states| ensures Survives(states[i], Surviving(records, op)) {
        DuringSurvives(states[i], records, op);
      }
    } else {
      assert !Survives(states[from], Surviving(records, op));
    }
  }

  /** The contents marks[k]..marks[k + 1] are those of operation k. */
  ghost predicate Marked(states: seq<seq<byte>>, records: seq<Record>, ops: seq<Op>, marks: seq<nat>) {
    && 0 < |marks| <= |ops| + 1 && marks[|marks| - 1] == |states|
    && forall k :: 0 <= k < |marks| - 1 ==> MarkedAt(states, records, ops, marks, k)
  }

  ghost predicate MarkedAt(states: seq<seq<byte>>, records: seq<Record>, ops: seq<Op>, marks: seq<nat>, k: nat) {
    && k + 1 < |marks| && k < |ops| && marks[k] <= marks[k + 1] <= |states|
    && AllDuring(states[..marks[k + 1]], marks[k], ListAfter(records, ops[..k]), ops[k])
    && (SurvivesAt(states, records, ops, marks, k) <==> !LossyAt(records, ops, k))
  }

  /** What operation k was to leave is rebuilt from each of its contents. */
  ghost predicate SurvivesAt(states: seq<seq<byte>>, records: seq<Record>, ops: seq<Op>, marks: seq<nat>, k: nat) {
    && k + 1 < |marks| && k < |ops| && marks[k + 1] <= |states|
    && AllSurvive(states[..marks[k + 1]], marks[k], Surviving(ListAfter(records, ops[..k]), ops[k]))
  }

  predicate LossyAt(records: seq<Record>, ops: seq<Op>, k: nat) {
    k < |ops| && Lossy(ListAfter(records, ops[..k]), ops[k])
  }

  lemma MarkNext(before: seq<seq<byte>>, states: seq<seq<byte>>, records: seq<Record>, ops: seq<Op>, marks: seq<nat>)
    requires Marked(before, records, ops, marks) && before <= states && |marks| <= |ops|
    requires var k := |marks| - 1;
             var list := ListAfter(records, ops[..k]);
             && AllDuring(states, |before|, list, ops[k])
             && (AllSurvive(states, |before|, Surviving(list, ops[k])) <==> !Lossy(list, ops[k]))
    ensures Marked(states, records, ops, marks + [|states|])
  {
    var more := marks + [|states|];
    assert states[..|states|] == states;
    forall k | 0 <= k < |more| - 1 ensures MarkedAt(states, records, ops, more, k) {
      if k < |marks| - 1 {
        assert MarkedAt(before, records, ops, marks, k);
        assert states[..marks[k + 1]] == before[..marks[k + 1]];
      }
    }
  }

  lemma {:induction false} MarkedShows(states: seq<seq<byte>>, records: seq<Record>, ops: seq<Op>, marks: seq<nat>, i: nat, n: nat)
    requires Marked(states, records, ops, marks) && n < |marks| && marks[0] <= i < marks[n] <= |states|
    ensures DuringOne(states[i], records, ops, n)
  {
    if n > 0 {
      assert MarkedAt(states, records, ops, marks, n - 1);
      if i < marks[n - 1] {
        MarkedShows(states, records, ops, marks, i, n - 1);
      } else {
        assert states[..marks[n]][i] == states[i];
        assert During(states[i], ListAfter(records, ops[..n - 1]), ops[n - 1]);
      }
    }
  }

  lemma MarkedRun(states: seq<seq<byte>>, records: seq<Record>, ops: seq<Op>, marks: seq<nat>)
    requires Marked(states, records, ops, marks)
    ensures RunShows(states, marks[0], records, ops, |marks| - 1)
    ensures RunSurvives(states, records, ops, marks) <==> NoneLossy(records, ops, |marks| - 1)
  {
    forall i | marks[0] <= i < |states| ensures DuringOne(states[i], records, ops, |marks| - 1) {
      MarkedShows(states, records, ops, marks, i, |marks| - 1);
    }
    RunSurvivesIff(states, records, ops, marks);
  }

  /** No stop anywhere in the run costs a record that the operation in progress was to
      leave. */
  ghost predicate RunSurvives(states: seq<seq<byte>>, records: seq<Record>, ops: seq<Op>, marks: seq<nat>) {
    forall k :: 0 <= k < |marks| - 1 ==> SurvivesAt(states, records, ops, marks, k)
  }

  ghost predicate NoneLossy(records: seq<Record>, ops: seq<Op>, n: nat) {
    forall k :: 0 <= k < n ==> !LossyAt(records, ops, k)
  }

  lemma RunSurvivesIff(states: seq<seq<byte>>, records: seq<Record>, ops: seq<Op>, marks: seq<nat>)
    requires Marked(states, records, ops, marks)
    ensures RunSurvives(states, records, ops, marks) <==> NoneLossy(records, ops, |marks| - 1)
  {
    forall k | 0 <= k < |marks| - 1 ensures SurvivesAt(states, records, ops, marks, k) <==> !LossyAt(records, ops, k) {
      assert MarkedAt(states, records, ops, marks, k);
    }
  }

  lemma AfterNext(records: seq<Record>, size: nat, ops: seq<Op>, k: nat)
    requires k < |ops|
    ensures ListAfter(records, ops[..k + 1]) == ListStep(ListAfter(records, ops[..k]), ops[k])
    ensures SizeAfter(records, size, ops[..k + 1]) == SizeStep(ListAfter(records, ops[..k]), SizeAfter(records, size, ops[..k]), ops[k])
  {
    assert ops[..k + 1][..k] == ops[..k];
  }

  class FileJournal {
    const file: ResizableFile
    var journal: seq<Record>
    var currentOffset: nat

    ghost predicate Valid()
      reads this, file
    {
      Holds(file.mm, journal) && currentOffset == End(journal)
    }

    constructor (file: ResizableFile, journal: seq<Record>, currentOffset: nat)
      ensures this.file == file && this.journal == journal && this.currentOffset == currentOffset
    {
      this.file, this.journal, this.currentOffset := file, journal, currentOffset;
    }

    static method ReadOne(file: ResizableFile, offset: nat) returns (read: Option<(Record, nat)>)
      ensures read == ReadRecord(file.mm, offset)
    {
      var sizeBytes := file.Read(offset, 4);
      if |sizeBytes| < 4 {
        return None;
      }
      var size := Unpack(sizeBytes);
      var data := file.Read(offset + 4, size);
      if |data| < 16 {
        return None;
      }
      read := Some((Record(data[16..], Unpack(data[..8]), Unpack(data[8..16])), offset + size + 8));
    }

    /** Scan a file from its first record to the end its header names; None where
        the scan raises. */
    static method ScanFile(file: ResizableFile) returns (found: Option<(seq<Record>, nat)>)
      requires |file.mm| >= FIRST_RECORD
      ensures found == Parse(file.mm)
    {
      var records: seq<Record> := [];
      var offset := FIRST_RECORD;
      var lastBytes := file.Read(LAST_OFFSET_AT, 4);
      var end := Unpack(lastBytes);
      BehindNothing(Scan(file.mm, offset, end));
      while offset < end
        invariant Parse(file.mm) == Behind(records, Scan(file.mm, offset, end))
        decreases end - offset
      {
        var read := ReadOne(file, offset);
        if read.None? {
          return None;
        }
        ScanNext(file.mm, offset, end, records, read.value.0);
        records := records + [read.value.0];
        offset := read.value.1;
      }
      assert records + [] == records;
      found := Some((records, offset));
    }

    /** Rebuild the list from a file; null where the scan raises. */
    static method Open(file: ResizableFile) returns (j: FileJournal?)
      requires |file.mm| >= FIRST_RECORD
      ensures j == null <==> Parse(file.mm).None?
      ensures j != null ==> fresh(j) && j.file == file && (j.journal, j.currentOffset) == Parse(file.mm).value
      ensures forall records :: Holds(file.mm, records) ==> j != null && j.Valid() && j.journal == records
    {
      var found := ScanFile(file);
      OpenHeld(file.mm);
      if found.None? {
        return null;
      }
      j := new FileJournal(file, found.value.0, found.value.1);
    }

    method SetLastRecordOffset(offset: nat) returns (ok: bool)
      requires |file.mm| >= FIRST_RECORD
      modifies file
      ensures ok <==> offset < Range(4)
      ensures file.mm == if ok then Patched(old(file.mm), LAST_OFFSET_AT, Pack(offset, 4)) else old(file.mm)
      ensures file.states == old(file.states) + if ok then [file.mm] else []
    {
      ok := offset < Range(4);
      if ok {
        var written := file.Write(LAST_OFFSET_AT, Pack(offset, 4));
      }
    }

    /** The list in memory grows first. Where a number does not fit its field, or
        doubling the file is not enough, the exception leaves the file with the
        old list. */
    method Add(r: Record) returns (ok: bool)
      requires Valid()
      modifies this, file
      ensures journal == old(journal) + [r]
      ensures ok <==> Fits(r) && End(old(journal)) + |Encoded(r)| <= 2 * |old(file.mm)|
                      && End(old(journal)) + |Encoded(r)| < Range(4)
      ensures ok ==> Valid()
      ensures !ok ==> Holds(file.mm, old(journal))
      ensures ok ==> |file.mm| == |Grown(old(file.mm), End(old(journal)) + |Encoded(r)|)|
      ensures old(file.states) <= file.states && AllShow(file.states, |old(file.states)|, journal, |old(journal)|)
      ensures !ok ==> AllHold(file.states, |old(file.states)|, old(journal))
    {
      journal := journal + [r];
      ok := WriteRecord(r, old(journal));
      AllOld(file.states, |old(file.states)|, old(journal), r);
      if !ok {
        return;
      }
      ghost var before, written := file.mm, file.states;
      currentOffset := currentOffset + 24 + |r.command|;
      ok := SetLastRecordOffset(currentOffset);
      if ok {
        Committed(written, |old(file.states)|, before, old(journal), r, file.mm);
      }
    }

    /** The bytes of a record, behind those of the list on file. */
    method WriteRecord(r: Record, ghost records: seq<Record>) returns (ok: bool)
      requires Holds(file.mm, records) && currentOffset == End(records)
      modifies file
      ensures ok <==> Fits(r) && End(records) + |Encoded(r)| <= 2 * |old(file.mm)|
      ensures Holds(file.mm, records)
      ensures ok ==> End(records) + |Encoded(r)| <= |file.mm| && file.mm[End(records)..End(records) + |Encoded(r)|] == Encoded(r)
      ensures ok ==> |file.mm| == |Grown(old(file.mm), End(records) + |Encoded(r)|)|
      ensures old(file.states) <= file.states && AllHold(file.states, |old(file.states)|, records)
    {
      if r.idx >= Range(8) || r.term >= Range(8) {
        return false;
      }
      var data := Pack(r.idx, 8) + Pack(r.term, 8) + r.command;
      if |data| >= Range(4) {
        return false;
      }
      data := Pack(|data|, 4) + data + Pack(|data|, 4);
      ok := file.Write(currentOffset, data);
      GrownKeeps(old(file.mm), records, currentOffset + |data|);
      if ok {
        WrittenKeeps(old(file.mm), file.mm, records, r);
      }
    }

    method Clear()
      requires Valid()
      modifies this, file
      ensures Valid() && journal == [] && |file.mm| == |old(file.mm)|
      ensures file.states == old(file.states) + [file.mm]
    {
      Widths();
      assert journal[..0] == [] && End([]) == FIRST_RECORD;
      CutRecords(file.mm, journal, 0);
      journal := [];
      var ok := SetLastRecordOffset(FIRST_RECORD);
      currentOffset := FIRST_RECORD;
    }

    method DeleteEntriesFrom(entryFrom: nat)
      requires Valid()
      modifies this, file
      ensures Valid() && journal == Kept(old(journal), entryFrom) && |file.mm| == |old(file.mm)|
      ensures old(file.states) <= file.states
      ensures AllShow(file.states, |old(file.states)|, old(journal), |journal|)
    {
      ghost var all := journal;
      var keep := if entryFrom < |journal| then entryFrom else |journal|;
      var remove := |journal| - keep;
      assert journal[..keep] == Kept(journal, entryFrom);
      journal := journal[..keep];
      currentOffset := WalkBack(remove, all);
    }

    /** Walk back over the records to drop, reading the size that ends each; every
        tenth step, and the last, moves the end that the header names. */
    method WalkBack(remove: nat, ghost all: seq<Record>) returns (offset: nat)
      requires Holds(file.mm, all) && currentOffset == End(all) && remove <= |all|
      modifies file
      ensures Holds(file.mm, all[..|all| - remove]) && offset == End(all[..|all| - remove]) && |file.mm| == |old(file.mm)|
      ensures old(file.states) <= file.states
      ensures AllShow(file.states, |old(file.states)|, all, |all| - remove)
    {
      offset := currentOffset;
      var removed := 0;
      ghost var held := |all|;
      assert all[..|all|] == all;
      while removed < remove
        invariant removed <= remove && |all| - removed <= held <= |all|
        invariant offset == End(all[..|all| - removed])
        invariant Holds(file.mm, all[..held]) && |file.mm| == |old(file.mm)|
        invariant old(file.states) <= file.states && AllShow(file.states, |old(file.states)|, all, |all| - remove)
      {
        StepBack(file.mm, all, held, |all| - removed);
        var sizeBytes := file.Read(offset - 4, 4);
        offset := offset - (Unpack(sizeBytes) + 8);
        removed := removed + 1;
        if removed % 10 == 0 {
          MoveEnd(offset, all, held, |all| - removed, |old(file.states)|, |all| - remove);
          held := |all| - removed;
        }
      }
      MoveEnd(offset, all, held, |all| - remove, |old(file.states)|, |all| - remove);
    }

    method MoveEnd(offset: nat, ghost all: seq<Record>, ghost held: nat, ghost n: nat, ghost from: nat, ghost lo: nat)
      requires lo <= n <= held <= |all| && Holds(file.mm, all[..held]) && offset == End(all[..n])
      requires from <= |file.states| && AllShow(file.states, from, all, lo)
      modifies file
      ensures Holds(file.mm, all[..n]) && |file.mm| == |old(file.mm)|
      ensures old(file.states) <= file.states && AllShow(file.states, from, all, lo)
    {
      CutHeld(file.mm, all, held, n);
      var ok := SetLastRecordOffset(offset);
      ShowsMore(old(file.states), from, all, lo, file.mm, n);
    }

    /** Start over, and add the kept records one by one. The first change empties
        the list on file: a process that stops there has lost the kept records. */
    method DeleteEntriesTo(entryTo: nat)
      requires Valid()
      modifies this, file
      ensures Valid() && journal == Rest(old(journal), entryTo) && |file.mm| == |old(file.mm)|
      ensures old(file.states) < file.states && Recovers(file.states[|old(file.states)|], [])
      ensures AllShow(file.states, |old(file.states)|, journal, 0)
    {
      ghost var from := if entryTo < |journal| then entryTo else |journal|;
      var kept := Rest(journal, entryTo);
      assert kept == old(journal)[from..];
      Clear();
      assert kept[..0] == [];
      ReopenHeld(file.mm, []);
      ghost var cleared := file.states;
      ShowsMore(old(file.states), |old(file.states)|, kept, 0, file.mm, 0);
      var i := 0;
      while i < |kept|
        invariant i <= |kept| && Valid() && journal == kept[..i] && |file.mm| == |old(file.mm)|
        invariant cleared <= file.states && AllShow(file.states, |old(file.states)|, kept, 0)
      {
        SuffixFits(old(file.mm), old(journal), from, i);
        ghost var states := file.states;
        var ok := Add(kept[i]);
        assert journal == kept[..i + 1];
        ShowsWhole(file.states, |states|, journal, i, kept);
        ShowsJoin(file.states, |old(file.states)|, |states|, kept);
        i := i + 1;
      }
      assert kept[..i] == kept;
    }

    /** One operation, side by side with the journal in memory. */
    method StepBeside(memory: MemoryJournal, op: Op) returns (ok: bool)
      requires Valid() && memory.journal == journal
      modifies this, file, memory
      ensures ok <==> OpFits(old(journal), |old(file.mm)|, op)
      ensures journal == ListStep(old(journal), op) && memory.journal == journal
      ensures ok ==> Valid() && |file.mm| == SizeStep(old(journal), |old(file.mm)|, op)
      ensures !ok ==> Holds(file.mm, old(journal))
      ensures old(file.states) <= file.states && AllDuring(file.states, |old(file.states)|, old(journal), op)
      ensures AllSurvive(file.states, |old(file.states)|, Surviving(old(journal), op)) <==> !Lossy(old(journal), op)
    {
      ok := true;
      match op {
      case Add(r) =>
        memory.Add(r);
        ok := Add(r);
      case Clear =>
        memory.Clear();
        Clear();
        ReopenHeld(file.mm, []);
      case DeleteFrom(n) =>
        memory.DeleteEntriesFrom(n);
        DeleteEntriesFrom(n);
      case DeleteTo(n) =>
        memory.DeleteEntriesTo(n);
        DeleteEntriesTo(n);
      }
      SurvivesIff(file.states, |old(file.states)|, old(journal), op);
    }

    /** Any sequence of operations, side by side with the journal in memory, up to
        the first that raises, which is the first that does not fit. The marks say
        which contents of the file belong to which operation. */
    method RunOps(memory: MemoryJournal, ops: seq<Op>) returns (done: nat, ghost marks: seq<nat>)
      requires Valid() && memory.journal == journal
      modifies this, file, memory
      ensures done <= |ops| && AllFit(old(journal), |old(file.mm)|, ops, done)
      ensures done < |ops| ==>
                !OpFits(ListAfter(old(journal), ops[..done]), SizeAfter(old(journal), |old(file.mm)|, ops[..done]), ops[done])
      ensures memory.journal == journal == ListAfter(old(journal), if done < |ops| then ops[..done + 1] else ops)
      ensures Holds(file.mm, ListAfter(old(journal), ops[..done])) && (done == |ops| ==> Valid())
      ensures old(file.states) <= file.states && Marked(file.states, old(journal), ops, marks)
      ensures |marks| == (if done < |ops| then done + 2 else done + 1) && marks[0] == |old(file.states)|
    {
      ghost var records, size := journal, |file.mm|;
      done, marks := 0, [|file.states|];
      while done < |ops|
        invariant done <= |ops| && Valid() && memory.journal == journal == ListAfter(records, ops[..done])
        invariant |file.mm| == SizeAfter(records, size, ops[..done]) && AllFit(records, size, ops, done)
        invariant old(file.states) <= file.states && Marked(file.states, records, ops, marks)
        invariant |marks| == done + 1 && marks[0] == |old(file.states)|
      {
        ghost var states := file.states;
        AfterNext(records, size, ops, done);
        var ok := StepBeside(memory, ops[done]);
        MarkNext(states, file.states, records, ops, marks);
        marks := marks + [|file.states|];
        if !ok {
          return;
        }
        done := done + 1;
      }
      assert ops[..done] == ops;
    }

    /** The same, with what it means for reopening: the lists stay the same, and so
        does what reopening the file rebuilds. If the process stops in between, the
        operation it was in says what is rebuilt; and no stop costs a record that was
        to stay if and only if none of the operations is lossy. */
    method RunBeside(memory: MemoryJournal, ops: seq<Op>) returns (done: nat, ghost marks: seq<nat>)
      requires Valid() && memory.journal == journal
      modifies this, file, memory
      ensures done <= |ops| && AllFit(old(journal), |old(file.mm)|, ops, done)
      ensures done < |ops| ==>
                !OpFits(ListAfter(old(journal), ops[..done]), SizeAfter(old(journal), |old(file.mm)|, ops[..done]), ops[done])
      ensures memory.journal == journal == ListAfter(old(journal), if done < |ops| then ops[..done + 1] else ops)
      ensures done == |ops| ==> Valid()
      ensures Recovers(file.mm, ListAfter(old(journal), ops[..done]))
      ensures old(file.states) <= file.states && Marked(file.states, old(journal), ops, marks)
      ensures |marks| == (if done < |ops| then done + 2 else done + 1) && marks[0] == |old(file.states)|
      ensures RunShows(file.states, |old(file.states)|, old(journal), ops, |marks| - 1)
      ensures RunSurvives(file.states, old(journal), ops, marks) <==> NoneLossy(old(journal), ops, |marks| - 1)
    {
      ghost var records := journal;
      done, marks := RunOps(memory, ops);
      MarkedRun(file.states, records, ops, marks);
      ReopenHeld(file.mm, ListAfter(records, ops[..done]));
    }
  }

  /** What a scan finds behind the records found already. */
  ghost function Behind(found: seq<Record>, scan: Option<(seq<Record>, nat)>): Option<(seq<Record>, nat)> {
    match scan
    case None => None
    case Some((rest, stop)) => Some((found + rest, stop))
  }

  lemma BehindNothing(scan: Option<(seq<Record>, nat)>)
    ensures Behind([], scan) == scan
  {
    if scan.Some? {
      assert [] + scan.value.0 == scan.value.0;
    }
  }

  lemma ScanNext(file: seq<byte>, offset: nat, end: nat, found: seq<Record>, r: Record)
    requires offset < end && ReadRecord(file, offset).Some? && ReadRecord(file, offset).value.0 == r
    ensures Behind(found, Scan(file, offset, end)) == Behind(found + [r], Scan(file, ReadRecord(file, offset).value.1, end))
  {
    match Scan(file, ReadRecord(file, offset).value.1, end)
    case None =>
    case Some((rest, stop)) => assert found + ([r] + rest) == found + [r] + rest;
  }

  lemma OpenHeld(file: seq<byte>)
    requires |file| >= FIRST_RECORD
    ensures forall records :: Holds(file, records) ==> Parse(file) == Some((records, End(records)))
  {
    forall records | Holds(file, records) ensures Parse(file) == Some((records, End(records))) {
      ReopenHeld(file, records);
    }
  }

  lemma GrownKeeps(file: seq<byte>, records: seq<Record>, need: nat)
    requires Holds(file, records)
    ensures Holds(Grown(file, need), records)
  {
    GrownHolds(file, Zeros(|file|), records);
  }

  /** After the record itself is written, the file still shows the old list, with
      the record behind it. */
  lemma WrittenKeeps(file: seq<byte>, after: seq<byte>, records: seq<Record>, r: Record)
    requires Holds(file, records) && End(records) + |Encoded(r)| <= |Grown(file, End(records) + |Encoded(r)|)|
    requires after == Patched(Grown(file, End(records) + |Encoded(r)|), End(records), Encoded(r))
    ensures Holds(after, records) && |after| >= End(records) + |Encoded(r)|
    ensures after[End(records)..End(records) + |Encoded(r)|] == Encoded(r)
  {
    GrownKeeps(file, records, End(records) + |Encoded(r)|);
    WriteBehind(Grown(file, End(records) + |Encoded(r)|), records, Encoded(r));
    PatchedAt(Grown(file, End(records) + |Encoded(r)|), End(records), Encoded(r));
  }
}
