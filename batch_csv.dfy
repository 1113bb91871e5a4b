/** The CSV batch reader: a data file and a label file with one sample per
    line. The constructor records, for every sample, the byte offsets of its
    label line and its data line; an iterator over a mini-batch seeks to
    those offsets and copies each line's values into column `i` of its label
    and data buffers. */
module BatchCsv {
  import opened Arith
  import opened Outcomes
  import opened BatchReading

  /** One line of a file: its text, which fixes the byte offsets, and the
      values `stof` parses from its comma-separated fields. */
  datatype Line = Line(text: string, fields: seq<real>)

  /** The byte offset at which line `k` starts, every line being followed by
      one newline. */
  function LineStart(lines: seq<Line>, k: nat): nat
    requires k <= |lines|
  {
    if k == 0 then 0 else LineStart(lines, k - 1) + |lines[k - 1].text| + 1
  }

  /** Lines start at strictly increasing offsets. */
  lemma {:induction false} LineStartIncreasing(lines: seq<Line>, i: nat, j: nat)
    requires i < j <= |lines|
    ensures LineStart(lines, i) < LineStart(lines, j)
  {
    if i < j - 1 {
      LineStartIncreasing(lines, i, j - 1);
    }
  }

  /** `tellg()` once line `k` has been read: the start of the next line, or
      -1 when the file has no line `k` and the stream has failed. */
  function TellAfter(lines: seq<Line>, k: nat): int {
    if k < |lines| then LineStart(lines, k + 1) else -1
  }

  /** The position of the line starting at byte `off`, searching from line
      `k` on. */
  function FindLine(lines: seq<Line>, off: int, k: nat): (r: Option<nat>)
    requires k <= |lines|
    ensures r.Some? ==> k <= r.value < |lines| && LineStart(lines, r.value) == off
    ensures r.None? ==> forall j | k <= j < |lines| :: LineStart(lines, j) != off
    decreases |lines| - k
  {
    if k == |lines| then None
    else if LineStart(lines, k) == off then Some(k)
    else FindLine(lines, off, k + 1)
  }

  /** The search finds every line at its own start. */
  lemma FindsLine(lines: seq<Line>, j: nat)
    requires j < |lines|
    ensures FindLine(lines, LineStart(lines, j), 0) == Some(j)
  {
    var r := FindLine(lines, LineStart(lines, j), 0);
    if r.value < j {
      LineStartIncreasing(lines, r.value, j);
    } else if r.value > j {
      LineStartIncreasing(lines, j, r.value);
    }
  }

  // ---------------------------------------------------------------------------
  // The constructor's scan
  // ---------------------------------------------------------------------------

  /** The offsets of one sample's label line and data line. */
  datatype Offsets = Offsets(labelAt: int, dataAt: int)

  /** The variables of the constructor's loop: the records so far and the
      offsets `off1`, `off2` the next record will get. */
  datatype ScanState = ScanState(records: seq<Offsets>, off1: int, off2: int)

  /** The constructor's loop as written, after the first `k` lines: a
      non-empty data line is recorded with the current offsets, and only
      then are the offsets moved past the lines just read. (The turn after
      the last line reads nothing and records nothing.) */
  function ScanAsWritten(labels: seq<Line>, data: seq<Line>, k: nat): ScanState
    requires k <= |data|
  {
    if k == 0 then ScanState([], 0, 0)
    else
      var s := ScanAsWritten(labels, data, k - 1);
      if |data[k - 1].text| > 0 then
        ScanState(s.records + [Offsets(s.off1, s.off2)], TellAfter(labels, k - 1), LineStart(data, k))
      else s
  }

  /** Record `r` points at a non-empty line of `data`. */
  predicate PointsAtSample(data: seq<Line>, r: Offsets) {
    var j := FindLine(data, r.dataAt, 0);
    j.Some? && |data[j.value].text| > 0
  }

  /** With a blank line between two samples, the record of the second sample
      points at the blank line, and the second sample is never read. */
  lemma BlankLineShiftsRecord()
    ensures var data := [Line("1", [1.0]), Line("", []), Line("2", [2.0])];
      && ScanAsWritten(data, data, 3).records == [Offsets(0, 0), Offsets(2, 2)]
      && !PointsAtSample(data, Offsets(2, 2))
  {
    var data := [Line("1", [1.0]), Line("", []), Line("2", [2.0])];
    assert LineStart(data, 1) == 2;
    assert FindLine(data, 2, 0) == Some(1);
  }

  /** Where the label line of sample `j` starts: what `tellg()` gave after
      the line before it. */
  function LabelStart(labels: seq<Line>, j: nat): int {
    if j == 0 then 0 else TellAfter(labels, j - 1)
  }

  /** The records of the first `k` lines, offsets moved past every line read
      whether it is recorded or not: one record per non-empty data line,
      holding the starts of that sample's own lines. */
  function Scan(labels: seq<Line>, data: seq<Line>, k: nat): seq<Offsets>
    requires k <= |data|
  {
    if k == 0 then []
    else
      Scan(labels, data, k - 1)
        + if |data[k - 1].text| > 0 then [Offsets(LabelStart(labels, k - 1), LineStart(data, k - 1))] else []
  }

  /** How many of the lines are non-empty. */
  function NonEmpty(data: seq<Line>): nat {
    if |data| == 0 then 0 else NonEmpty(data[..|data| - 1]) + if |data[|data| - 1].text| > 0 then 1 else 0
  }

  /** The scan has one record per non-empty data line, and every record
      points at a non-empty line: the one of its own sample. */
  lemma {:induction false} ScanPointsAtSamples(labels: seq<Line>, data: seq<Line>, k: nat)
    requires k <= |data|
    ensures |Scan(labels, data, k)| == NonEmpty(data[..k])
    ensures forall i | 0 <= i < |Scan(labels, data, k)| :: PointsAtSample(data, Scan(labels, data, k)[i])
  {
    if k > 0 {
      ScanPointsAtSamples(labels, data, k - 1);
      assert data[..k][..k - 1] == data[..k - 1];
      if |data[k - 1].text| > 0 {
        FindsLine(data, k - 1);
      }
    }
  }

  // ---------------------------------------------------------------------------
  // The buffer layout of `labels()` and `data()`
  // ---------------------------------------------------------------------------

  /** `fields` copied into `buf` from position `off` on, one position after
      the other; everything else as it was. */
  function WriteAt(buf: seq<real>, off: nat, fields: seq<real>): (r: seq<real>)
    requires off + |fields| <= |buf|
    ensures |r| == |buf|
    ensures forall p | 0 <= p < |buf| :: r[p] == if off <= p < off + |fields| then fields[p - off] else buf[p]
  {
    if |fields| == 0 then buf
    else
      var k := |fields| - 1;
      WriteAt(buf, off, fields[..k])[off + k := fields[k]]
  }

  /** Where slot `i` of a buffer of slots of `num` positions starts: `i`
      slots of `num` positions precede it. */
  function Slot(i: nat, num: nat): nat {
    if i == 0 then 0 else Slot(i - 1, num) + num
  }

  /** Slot `i` starts at `i * num`, the offset of column `i` of a column-major
      matrix with `num` rows. */
  lemma {:induction false} SlotIsProduct(i: nat, num: nat)
    ensures Slot(i, num) == i * num
  {
    if i > 0 {
      SlotIsProduct(i - 1, num);
    }
  }

  /** Slot `i` ends where slot `i + 1` starts, at or before slot `n`. */
  lemma {:induction false} SlotInside(i: nat, n: nat, num: nat)
    requires i < n
    ensures Slot(i, num) + num <= Slot(n, num)
  {
    if i < n - 1 {
      SlotInside(i, n - 1, num);
    }
  }

  /** Every row fits in a slot of `num` positions. */
  predicate RowsFit(rows: seq<seq<real>>, num: nat) {
    forall i | 0 <= i < |rows| :: |rows[i]| <= num
  }

  /** The buffer after the first `n` rows have been copied, row `i` into
      slot `i`. */
  function Filled(buf: seq<real>, rows: seq<seq<real>>, num: nat, n: nat): (r: seq<real>)
    requires n <= |rows| && Slot(n, num) <= |buf| && RowsFit(rows, num)
    ensures |r| == |buf|
  {
    if n == 0 then buf
    else WriteAt(Filled(buf, rows, num, n - 1), Slot(n - 1, num), rows[n - 1])
  }

  /** Positions from slot `n` on are untouched by the first `n` rows. */
  lemma {:induction false} FilledBeyond(buf: seq<real>, rows: seq<seq<real>>, num: nat, n: nat, p: nat)
    requires n <= |rows| && Slot(n, num) <= |buf| && RowsFit(rows, num) && Slot(n, num) <= p < |buf|
    ensures Filled(buf, rows, num, n)[p] == buf[p]
  {
    if n > 0 {
      FilledBeyond(buf, rows, num, n - 1, p);
    }
  }

  /** Sample `i` owns slot `i`: position `j` of the slot holds field `j` of
      its row when the row has one, and keeps its old value otherwise,
      whatever the other rows hold. */
  lemma {:induction false} FilledLayout(buf: seq<real>, rows: seq<seq<real>>, num: nat, n: nat, i: nat, j: nat)
    requires n <= |rows| && Slot(n, num) <= |buf| && RowsFit(rows, num) && i < n && j < num
    ensures Slot(i, num) + j < |buf|
    ensures Filled(buf, rows, num, n)[Slot(i, num) + j] == if j < |rows[i]| then rows[i][j] else buf[Slot(i, num) + j]
  {
    SlotInside(i, n, num);
    var before, p := Filled(buf, rows, num, n - 1), Slot(i, num) + j;
    assert Filled(buf, rows, num, n) == WriteAt(before, Slot(n - 1, num), rows[n - 1]);
    if i < n - 1 {
      SlotInside(i, n - 1, num);
      FilledLayout(buf, rows, num, n - 1, i, j);
      assert Filled(buf, rows, num, n)[p] == before[p];
    } else {
      FilledBeyond(buf, rows, num, n - 1, p);
    }
  }

  /** The values `read_line` copies for the line starting at `off`. */
  function ReadLine(lines: seq<Line>, off: int): seq<real> {
    match FindLine(lines, off, 0)
    case Some(j) => lines[j].fields
    case None => []
  }

  /** Every offset is the start of a line with at most `num` values: the
      condition under which `read_line`, which has no bound check, stays in
      its slot. */
  predicate Readable(lines: seq<Line>, offs: seq<int>, num: nat) {
    forall i | 0 <= i < |offs| :: FindLine(lines, offs[i], 0).Some? && |ReadLine(lines, offs[i])| <= num
  }

  /** The values read for each offset. */
  function Rows(lines: seq<Line>, offs: seq<int>): (rows: seq<seq<real>>)
    ensures |rows| == |offs| && forall i | 0 <= i < |offs| :: rows[i] == ReadLine(lines, offs[i])
  {
    seq(|offs|, i requires 0 <= i < |offs| => ReadLine(lines, offs[i]))
  }

  /** Lines that fit their slots give rows that do. */
  lemma ReadableRowsFit(lines: seq<Line>, offs: seq<int>, num: nat)
    requires Readable(lines, offs, num)
    ensures RowsFit(Rows(lines, offs), num)
  {
  }

  /** The loop of `labels()` and `data()`: row `i`, the values of the line
      read for sample `i`, is copied into slot `i` of the buffer. */
  method ReadSlots(buf: array<real>, rows: seq<seq<real>>, num: nat)
    requires buf.Length == Slot(|rows|, num) && RowsFit(rows, num)
    modifies buf
    ensures buf[..] == Filled(old(buf[..]), rows, num, |rows|)
  {
    ghost var start := buf[..];
    var off := 0;
    for i := 0 to |rows|
      invariant off == Slot(i, num) <= buf.Length
      invariant buf[..] == Filled(start, rows, num, i)
    {
      SlotInside(i, |rows|, num);
      ReadSlot(buf, off, rows[i]);
      off := off + num;
    }
  }

  /** One `read_line`: the values of one line copied into the buffer from
      position `off` on. */
  method ReadSlot(buf: array<real>, off: nat, fields: seq<real>)
    requires off + |fields| <= buf.Length
    modifies buf
    ensures buf[..] == WriteAt(old(buf[..]), off, fields)
  {
    ghost var before := buf[..];
    for k := 0 to |fields|
      invariant buf[..] == WriteAt(before, off, fields[..k])
    {
      buf[off + k] := fields[k];
    }
    assert fields[..|fields|] == fields;
  }

  // ---------------------------------------------------------------------------
  // The file streams
  // ---------------------------------------------------------------------------

  /** An `ifstream` over a file of lines: the line the next read starts at,
      and whether failbit is set. */
  datatype Stream = Stream(at: nat, failed: bool)

  /** A stream just opened, as the reader's constructor leaves both. */
  const Opened := Stream(0, false)

  /** `std::getline`: the values of the line at the stream's position and
      the stream past it. At the end of the file nothing is extracted and
      failbit is set; a failed stream extracts nothing and stays failed. */
  function GetLine(lines: seq<Line>, st: Stream): (seq<real>, Stream) {
    if st.failed then ([], st)
    else if st.at < |lines| then (lines[st.at].fields, Stream(st.at + 1, false))
    else ([], Stream(st.at, true))
  }

  /** `seekg(off)`: to the line starting at byte `off`, or to the end of the
      file. A failed stream ignores it (the sentry fails), and an offset
      that is neither sets failbit. */
  function Seek(lines: seq<Line>, st: Stream, off: int): Stream {
    if st.failed then st
    else match FindLine(lines, off, 0)
      case Some(j) => Stream(j, false)
      case None => if off == LineStart(lines, |lines|) then Stream(|lines|, false) else Stream(st.at, true)
  }

  /** `read_line(data, ifs, off)`: a seek, then one `getline`. */
  function ReadLineAt(lines: seq<Line>, st: Stream, off: int): (seq<real>, Stream) {
    GetLine(lines, Seek(lines, st, off))
  }

  /** The stream after `read_line` at each of `offs` in turn. */
  function ReadAll(lines: seq<Line>, st: Stream, offs: seq<int>): Stream
    decreases |offs|
  {
    if |offs| == 0 then st else ReadAll(lines, ReadLineAt(lines, st, offs[0]).1, offs[1..])
  }

  /** On a stream that has not failed, `read_line` at the start of line `j`
      copies the values `ReadLine` gives and leaves the stream at line
      `j + 1`. */
  lemma ReadLineAtStart(lines: seq<Line>, st: Stream, j: nat)
    requires !st.failed && j < |lines|
    ensures ReadLineAt(lines, st, LineStart(lines, j)) == (ReadLine(lines, LineStart(lines, j)), Stream(j + 1, false))
  {
    FindsLine(lines, j);
  }

  /** A failed stream reads nothing, wherever `read_line` seeks. */
  lemma FailedReadsNothing(lines: seq<Line>, st: Stream, off: int)
    requires st.failed
    ensures ReadLineAt(lines, st, off) == ([], st)
  {
  }

  /** `peek_size` as written: the number of values on the line at the
      stream's current position, with the stream left past it. */
  function PeekAsWritten(lines: seq<Line>, st: Stream): (r: (nat, Stream)) {
    var (fields, st') := GetLine(lines, st);
    (|fields|, st')
  }

  /** The values on the first line of a file. */
  function FirstWidth(lines: seq<Line>): nat {
    if |lines| == 0 then 0 else |lines[0].fields|
  }

  /** The first `begin()` after the constructor peeks the first line of a
      file and `end()` the second; after an epoch whose last read was the
      last line of a two-line file, the next `begin()` peeks 0 values and
      sets failbit, and from then on every `read_line` copies nothing. */
  lemma SecondEpochReadsNothing()
    ensures var lines := [Line("1", [1.0, 2.0]), Line("3", [3.0, 4.0])];
      var (w0, s1) := PeekAsWritten(lines, Opened);
      var (w1, s2) := PeekAsWritten(lines, s1);
      var s3 := ReadAll(lines, s2, [0, 2]);
      var (w2, s4) := PeekAsWritten(lines, s3);
      && w0 == FirstWidth(lines) == 2 && w1 == 2 && s3 == Stream(2, false)
      && w2 == 0 && s4.failed
      && ReadLineAt(lines, s4, 0) == ([], s4)
  {
    var lines := [Line("1", [1.0, 2.0]), Line("3", [3.0, 4.0])];
    assert LineStart(lines, 1) == 2;
    assert FindLine(lines, 0, 0) == Some(0);
    assert FindLine(lines, 2, 0) == Some(1);
  }

  /** `peek_size` as its comment intends: clear the stream's state, rewind
      it to the start (`clear()`, `seekg(0)`), then count the values of the
      line there. */
  function PeekFromStart(lines: seq<Line>, st: Stream): (r: (nat, Stream)) {
    PeekAsWritten(lines, Seek(lines, Opened, 0))
  }

  /** Whatever an earlier epoch left in the stream, the rewinding peek
      counts the values of the first line. It agrees with the peek as
      written on a stream just opened, the one the first `begin()` sees. */
  lemma RewoundPeekIsFirstWidth(lines: seq<Line>, st: Stream)
    ensures PeekFromStart(lines, st).0 == FirstWidth(lines)
    ensures PeekFromStart(lines, st) == PeekAsWritten(lines, Opened)
  {
    if |lines| > 0 {
      FindsLine(lines, 0);
    }
  }

  // ---------------------------------------------------------------------------
  // The reader
  // ---------------------------------------------------------------------------

  class CsvReader {
    const labelFile: seq<Line>
    const dataFile: seq<Line>
    var paths: seq<Offsets>
    const batch: int
    var totalSize: int

    predicate Valid()
      reads this
    {
      totalSize == |paths|
    }

    /** The constructor: one record per non-empty data line, `_total_size`
      counting them. */
    constructor(labelFile: seq<Line>, dataFile: seq<Line>, batch: int)
      ensures Valid() && this.labelFile == labelFile && this.dataFile == dataFile && this.batch == batch
      ensures paths == Scan(labelFile, dataFile, |dataFile|) && totalSize == NonEmpty(dataFile)
    {
      var records: seq<Offsets> := [];
      var total := 0;
      var off1, off2 := 0, 0;
      for k := 0 to |dataFile|
        invariant records == Scan(labelFile, dataFile, k) && total == |records|
        invariant off1 == LabelStart(labelFile, k) && off2 == LineStart(dataFile, k)
      {
        if |dataFile[k].text| > 0 {
          records := records + [Offsets(off1, off2)];
          total := total + 1;
        }
        off1 := TellAfter(labelFile, k);
        off2 := LineStart(dataFile, k + 1);
      }
      this.labelFile := labelFile;
      this.dataFile := dataFile;
      paths := records;
      this.batch := batch;
      totalSize := total;
      ScanPointsAtSamples(labelFile, dataFile, |dataFile|);
      assert dataFile[..|dataFile|] == dataFile;
    }

    /** `begin()`: the iterator at the first record, its buffers sized by the
      rewinding peek, the first lines of the two files. */
    method Begin() returns (it: CsvIterator)
      requires batch >= 0
      ensures fresh(it) && fresh(it.labelBuf) && fresh(it.dataBuf) && it.Valid()
      ensures it.reader == this && it.begin == 0 && it.batch == batch
      ensures it.numLabels == FirstWidth(labelFile) && it.numData == FirstWidth(dataFile)
    {
      it := new CsvIterator(this, 0, batch, FirstWidth(labelFile), FirstWidth(dataFile));
    }

    /** `end()`, stopping at `StopOffset` rather than at the offset of
      `EndAsWritten`, which the iterator may step over. */
    method End() returns (it: CsvIterator)
      requires batch > 0 && totalSize >= 0
      ensures fresh(it) && fresh(it.labelBuf) && fresh(it.dataBuf) && it.Valid()
      ensures it.reader == this && it.begin == StopOffset(totalSize, batch) && it.batch == batch
    {
      var misal := totalSize % batch;
      it := new CsvIterator(this, totalSize - misal, batch, FirstWidth(labelFile), FirstWidth(dataFile));
    }

    /** `reset()`: shuffles the records in place. */
    method Reset(picks: seq<int>)
      requires Valid() && Picks(picks, |paths|)
      modifies this
      ensures Valid() && paths == Shuffled(old(paths), picks) && totalSize == old(totalSize)
    {
      paths := Shuffle(paths, picks);
    }
  }

  /** The label offsets of a run of records. */
  function LabelOffsets(rs: seq<Offsets>): (offs: seq<int>)
    ensures |offs| == |rs| && forall i | 0 <= i < |rs| :: offs[i] == rs[i].labelAt
  {
    seq(|rs|, i requires 0 <= i < |rs| => rs[i].labelAt)
  }

  /** The data offsets of a run of records. */
  function DataOffsets(rs: seq<Offsets>): (offs: seq<int>)
    ensures |offs| == |rs| && forall i | 0 <= i < |rs| :: offs[i] == rs[i].dataAt
  {
    seq(|rs|, i requires 0 <= i < |rs| => rs[i].dataAt)
  }

  /** A fresh copy of a buffer. */
  method CopyBuffer(a: array<real>) returns (b: array<real>)
    ensures fresh(b) && b[..] == a[..]
  {
    b := new real[a.Length];
    for i := 0 to a.Length
      invariant b[..i] == a[..i]
    {
      b[i] := a[i];
    }
    assert b[..] == b[..a.Length];
  }

  // ---------------------------------------------------------------------------
  // The iterator
  // ---------------------------------------------------------------------------

  /** An iterator over the records of `reader` at offset `begin`, owning a
      `numLabels x batch` label buffer and a `numData x batch` data buffer
      stored column by column. */
  class CsvIterator {
    var begin: int
    const batch: int
    const reader: CsvReader
    const numLabels: nat
    const numData: nat
    var labelBuf: array<real>
    var dataBuf: array<real>

    /** Each buffer holds `batch` slots, `numLabels * batch` and
      `numData * batch` positions (`SlotIsProduct`). */
    predicate Valid()
      reads this
    {
      batch >= 0 && labelBuf.Length == Slot(batch, numLabels) && dataBuf.Length == Slot(batch, numData)
    }

    constructor(reader: CsvReader, begin: int, batch: int, numLabels: nat, numData: nat)
      requires batch >= 0
      ensures fresh(labelBuf) && fresh(dataBuf) && Valid()
      ensures this.reader == reader && this.begin == begin && this.batch == batch
      ensures this.numLabels == numLabels && this.numData == numData
    {
      this.reader := reader;
      this.begin := begin;
      this.batch := batch;
      this.numLabels := numLabels;
      this.numData := numData;
      labelBuf := new real[numLabels * batch];
      dataBuf := new real[numData * batch];
      SlotIsProduct(batch, numLabels);
      SlotIsProduct(batch, numData);
    }

    /** The records of the batch. */
    function Records(): seq<Offsets>
      reads this, reader
      requires 0 <= begin && 0 <= batch && begin + batch <= |reader.paths|
    {
      reader.paths[begin .. begin + batch]
    }

    /** Prefix `++`: one batch forward. */
    method Next()
      modifies this
      ensures begin == old(begin) + batch && labelBuf == old(labelBuf) && dataBuf == old(dataBuf)
    {
      begin := begin + batch;
    }

    /** Prefix `--`: one batch back, undoing `Next`. */
    method Prev()
      modifies this
      ensures begin == old(begin) - batch && labelBuf == old(labelBuf) && dataBuf == old(dataBuf)
    {
      begin := begin - batch;
    }

    /** A copy: same offset, reader, files and sizes, and fresh buffers with
      the same contents. */
    method Copy() returns (it: CsvIterator)
      requires Valid()
      ensures fresh(it) && fresh(it.labelBuf) && fresh(it.dataBuf) && it.Valid()
      ensures it.reader == reader && it.begin == begin && it.batch == batch
      ensures it.numLabels == numLabels && it.numData == numData
      ensures it.labelBuf[..] == labelBuf[..] && it.dataBuf[..] == dataBuf[..]
    {
      it := new CsvIterator(reader, begin, batch, numLabels, numData);
      it.labelBuf := CopyBuffer(labelBuf);
      it.dataBuf := CopyBuffer(dataBuf);
    }

    /** Postfix `++`: steps forward and returns a copy taken before. */
    method PostNext() returns (temp: CsvIterator)
      requires Valid()
      modifies this
      ensures fresh(temp) && temp.Valid() && temp.reader == reader && temp.batch == batch
      ensures temp.begin == old(begin) && begin == old(begin) + batch
      ensures temp.labelBuf[..] == labelBuf[..] && temp.dataBuf[..] == dataBuf[..]
    {
      temp := Copy();
      Next();
    }

    /** Postfix `--`: steps back and returns a copy taken before. */
    method PostPrev() returns (temp: CsvIterator)
      requires Valid()
      modifies this
      ensures fresh(temp) && temp.Valid() && temp.reader == reader && temp.batch == batch
      ensures temp.begin == old(begin) && begin == old(begin) - batch
      ensures temp.labelBuf[..] == labelBuf[..] && temp.dataBuf[..] == dataBuf[..]
    {
      temp := Copy();
      Prev();
    }

    /** `==`: only the record offsets are compared. */
    predicate Equals(other: CsvIterator)
      reads this, other
    {
      begin == other.begin
    }

    /** `labels()`: the label line of sample `i` of the batch is read into
      column `i` of the label buffer. */
    method Labels()
      requires Valid() && 0 <= begin && begin + batch <= |reader.paths|
      requires Readable(reader.labelFile, LabelOffsets(Records()), numLabels)
      modifies labelBuf
      ensures RowsFit(Rows(reader.labelFile, LabelOffsets(Records())), numLabels)
      ensures labelBuf[..] == Filled(old(labelBuf[..]), Rows(reader.labelFile, LabelOffsets(Records())), numLabels, batch)
    {
      var rows := Rows(reader.labelFile, LabelOffsets(reader.paths[begin .. begin + batch]));
      ReadableRowsFit(reader.labelFile, LabelOffsets(reader.paths[begin .. begin + batch]), numLabels);
      ReadSlots(labelBuf, rows, numLabels);
    }

    /** `data()`: the data line of sample `i` of the batch is read into
      column `i` of the data buffer. */
    method Data()
      requires Valid() && 0 <= begin && begin + batch <= |reader.paths|
      requires Readable(reader.dataFile, DataOffsets(Records()), numData)
      modifies dataBuf
      ensures RowsFit(Rows(reader.dataFile, DataOffsets(Records())), numData)
      ensures dataBuf[..] == Filled(old(dataBuf[..]), Rows(reader.dataFile, DataOffsets(Records())), numData, batch)
    {
      var rows := Rows(reader.dataFile, DataOffsets(reader.paths[begin .. begin + batch]));
      ReadableRowsFit(reader.dataFile, DataOffsets(reader.paths[begin .. begin + batch]), numData);
      ReadSlots(dataBuf, rows, numData);
    }
  }

  /** An iterator taken from `begin()` and advanced `k` times compares equal
      to `end()` exactly after `totalSize / batch` steps, and every batch it
      visits before that stays inside the record array. */
  lemma IterationStops(reader: CsvReader, it: CsvIterator, stop: CsvIterator, k: nat)
    requires reader.batch > 0 && reader.totalSize >= 0
    requires it.batch == reader.batch && it.begin == k * reader.batch
    requires stop.begin == StopOffset(reader.totalSize, reader.batch)
    ensures it.Equals(stop) <==> k == reader.totalSize / reader.batch
    ensures k < reader.totalSize / reader.batch ==> it.begin + it.batch <= reader.totalSize
  {
    StopReached(reader.totalSize, reader.batch, k);
  }
}
