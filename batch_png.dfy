/** The PNG batch reader: it scans a parent directory whose sub-directories
    are the classes, records one `(label, path)` pair per `.png` file, and
    hands out iterators over mini-batches of the shuffled records whose
    `labels()` is the one-hot label matrix of the batch. */
module BatchPng {
  import opened Outcomes
  import opened Matrices
  import opened BatchReading
  import Batching

  /** One `(label, path)` entry of the record array. */
  datatype Record = Record(labelId: int, path: string)

  /** One entry of the parent directory: a sub-directory, with the paths of
      the entries it lists, or anything else. */
  datatype Entry = Directory(children: seq<string>) | Other

  // ---------------------------------------------------------------------------
  // File names
  // ---------------------------------------------------------------------------

  /** The last position of `c` in `s`, or -1. */
  function LastIndexOf(s: string, c: char): (r: int)
    ensures -1 <= r < |s|
    ensures 0 <= r ==> s[r] == c
    ensures forall k | r < k < |s| :: s[k] != c
  {
    if |s| == 0 then -1
    else if s[|s| - 1] == c then |s| - 1
    else LastIndexOf(s[..|s| - 1], c)
  }

  /** The file name of a path: what follows its last `/`. */
  function FileName(path: string): string {
    path[LastIndexOf(path, '/') + 1..]
  }

  /** `path.extension()`: the file name from its last dot on; empty when the
      name has no dot, starts with its only dot, or is `..`. */
  function Extension(path: string): string {
    var name := FileName(path);
    var dot := LastIndexOf(name, '.');
    if name == "." || name == ".." || dot <= 0 then "" else name[dot..]
  }

  /** The extension the reader keeps. */
  const Png := ".png"

  // ---------------------------------------------------------------------------
  // The directory scan
  // ---------------------------------------------------------------------------

  /** Whether the reader keeps a path: its extension is `.png`. */
  predicate IsPng(path: string) {
    Extension(path) == Png
  }

  /** The records of one sub-directory's listing whose paths `keep`
      accepts, in listing order, all labelled `id`. */
  function Listed(children: seq<string>, id: int, keep: string -> bool): seq<Record>
  {
    if |children| == 0 then []
    else
      var last := children[|children| - 1];
      Listed(children[..|children| - 1], id, keep) + (if keep(last) then [Record(id, last)] else [])
  }

  /** The records of one sub-directory's listing: its `.png` files. */
  function PngRecords(children: seq<string>, id: int): seq<Record> {
    Listed(children, id, IsPng)
  }

  /** How many sub-directories the listing holds. */
  function Directories(entries: seq<Entry>): (n: nat)
    ensures n <= |entries|
  {
    if |entries| == 0 then 0
    else Directories(entries[..|entries| - 1]) + (if entries[|entries| - 1].Directory? then 1 else 0)
  }

  /** The records the scan keeps from the listing with the filter `keep`:
      each sub-directory contributes the entries `keep` accepts, labelled by
      its position among the sub-directories. */
  function ScanWith(entries: seq<Entry>, keep: string -> bool): seq<Record>
  {
    if |entries| == 0 then []
    else
      var init := entries[..|entries| - 1];
      ScanWith(init, keep) + match entries[|entries| - 1] {
        case Directory(children) => Listed(children, Directories(init), keep)
        case Other => []
      }
  }

  /** The record array the constructor builds from the listing, before the
      shuffle: the `.png` files of every sub-directory. */
  function Scan(entries: seq<Entry>): seq<Record> {
    ScanWith(entries, IsPng)
  }

  /** `(label, path)` is listed exactly when the path is in the listing,
      `keep` accepts it and the label is the one the listing is given. */
  lemma {:induction false} ListedExactly(children: seq<string>, id: int, keep: string -> bool, r: Record)
    ensures r in Listed(children, id, keep) <==> r.path in children && keep(r.path) && r.labelId == id
  {
    if |children| > 0 {
      var init, last := children[..|children| - 1], children[|children| - 1];
      ListedExactly(init, id, keep, r);
      assert children == init + [last];
    }
  }

  /** One turn of the inner loop of the scan: entry `j` of the listing is
      appended when `keep` accepts it. */
  lemma ListedStep(children: seq<string>, id: int, keep: string -> bool, j: nat)
    requires j < |children|
    ensures Listed(children[..j + 1], id, keep)
      == Listed(children[..j], id, keep) + if keep(children[j]) then [Record(id, children[j])] else []
  {
    assert children[..j + 1][..j] == children[..j];
  }

  /** A directory's position among the sub-directories grows with its
      position in the listing. */
  lemma {:induction false} DirectoriesGrow(entries: seq<Entry>, d: nat)
    requires d < |entries| && entries[d].Directory?
    ensures Directories(entries[..d]) < Directories(entries)
  {
    var n := |entries|;
    if d < n - 1 {
      DirectoriesGrow(entries[..n - 1], d);
      assert entries[..n - 1][..d] == entries[..d];
    } else {
      assert entries[..n - 1] == entries[..d];
    }
  }

  /** Sub-directory `d` of the listing lists `r.path`, `keep` accepts it,
      and `r.labelId` is the position of `d` among the sub-directories. */
  predicate ListedIn(entries: seq<Entry>, keep: string -> bool, d: int, r: Record) {
    && 0 <= d < |entries| && entries[d].Directory? && r.path in entries[d].children
    && keep(r.path) && r.labelId == Directories(entries[..d])
  }

  /** Every record of the scan comes from a sub-directory that lists it, so
      its label is below the number of sub-directories. */
  lemma {:induction false} ScanSound(entries: seq<Entry>, keep: string -> bool, r: Record)
    requires r in ScanWith(entries, keep)
    ensures exists d :: ListedIn(entries, keep, d, r)
    ensures 0 <= r.labelId < Directories(entries)
  {
    var n := |entries|;
    var init := entries[..n - 1];
    if r in ScanWith(init, keep) {
      ScanSound(init, keep, r);
      var d :| ListedIn(init, keep, d, r);
      assert init[..d] == entries[..d];
      assert ListedIn(entries, keep, d, r);
    } else {
      ListedExactly(entries[n - 1].children, Directories(init), keep, r);
      assert ListedIn(entries, keep, n - 1, r);
    }
  }

  /** Every entry a sub-directory lists and `keep` accepts is recorded, with
      that sub-directory's label. */
  lemma {:induction false} ScanComplete(entries: seq<Entry>, keep: string -> bool, d: int, r: Record)
    requires ListedIn(entries, keep, d, r)
    ensures r in ScanWith(entries, keep)
  {
    var n := |entries|;
    var init := entries[..n - 1];
    if d < n - 1 {
      assert init[..d] == entries[..d];
      ScanComplete(init, keep, d, r);
    } else {
      assert init == entries[..d];
      ListedExactly(entries[n - 1].children, Directories(init), keep, r);
    }
  }

  /** One turn of the scan's outer loop: entry `k` appends what it
      contributes, and a sub-directory takes the next label. */
  lemma ScanStep(entries: seq<Entry>, k: nat)
    requires k < |entries|
    ensures Scan(entries[..k + 1]) == Scan(entries[..k]) + match entries[k] {
        case Directory(children) => PngRecords(children, Directories(entries[..k]))
        case Other => []
      }
    ensures Directories(entries[..k + 1]) == Directories(entries[..k]) + if entries[k].Directory? then 1 else 0
  {
    assert entries[..k + 1][..k] == entries[..k];
  }

  /** The labels of the scan all lie below the number of sub-directories. */
  lemma ScanLabelsBelow(entries: seq<Entry>)
    ensures forall i | 0 <= i < |Scan(entries)| :: 0 <= Scan(entries)[i].labelId < Directories(entries)
  {
    forall i | 0 <= i < |Scan(entries)| ensures 0 <= Scan(entries)[i].labelId < Directories(entries) {
      ScanSound(entries, IsPng, Scan(entries)[i]);
    }
  }

  /** The labels of a run of records, in order. */
  function LabelsOf(rs: seq<Record>): (ls: seq<int>)
    ensures |ls| == |rs| && forall i | 0 <= i < |rs| :: ls[i] == rs[i].labelId
  {
    seq(|rs|, i requires 0 <= i < |rs| => rs[i].labelId)
  }

  // ---------------------------------------------------------------------------
  // One-hot labels
  // ---------------------------------------------------------------------------

  /** Every label names one of `n` classes. */
  predicate Below(ls: seq<int>, n: int) {
    forall i | 0 <= i < |ls| :: 0 <= ls[i] < n
  }

  /** The `n x |ls|` one-hot matrix: column `c` holds 1 at row `ls[c]` and 0
      everywhere else. */
  function OneHot(ls: seq<int>, n: nat): (m: Matrix)
    ensures m.Valid() && m.rows == n && m.cols == |ls|
    ensures forall r, c | 0 <= r < n && 0 <= c < |ls| :: m.At(r, c) == if r == ls[c] then 1.0 else 0.0
  {
    Build(n, |ls|, (r, c) => if 0 <= c < |ls| && r == ls[c] then 1.0 else 0.0)
  }

  /** Reading the labels back from their one-hot matrix with the arg-max of
      `accuracy` gives the labels again. */
  lemma OneHotDecodes(ls: seq<int>, n: nat)
    requires n > 0 && Below(ls, n)
    ensures Batching.PredictedLabels(OneHot(ls, n)) == ls
  {
    var m := OneHot(ls, n);
    var p := Batching.PredictedLabels(m);
    forall c | 0 <= c < |ls| ensures p[c] == ls[c] {
      var k := ArgMaxColumn(m, c, n);
      assert p[c] == k;
      assert m.At(ls[c], c) <= m.At(k, c);
    }
  }

  // ---------------------------------------------------------------------------
  // The reader
  // ---------------------------------------------------------------------------

  class PngReader {
    var paths: seq<Record>
    const batch: int
    var totalSize: int
    var labels: int

    /** Every record's label names one of the scanned classes, and the count
      is the length of the record array. */
    predicate Valid()
      reads this
    {
      && totalSize == |paths| && labels >= 0
      && forall i | 0 <= i < |paths| :: 0 <= paths[i].labelId < labels
    }

    /** The directory scan of the constructor, before its size check: one
      record per `.png` file of each sub-directory, `_labels` counting the
      sub-directories. */
    constructor(entries: seq<Entry>, batch: int)
      ensures Valid() && this.batch == batch
      ensures paths == Scan(entries) && labels == Directories(entries)
    {
      var records: seq<Record> := [];
      var count := 0;
      for k := 0 to |entries|
        invariant records == Scan(entries[..k]) && count == Directories(entries[..k])
      {
        ScanStep(entries, k);
        match entries[k] {
          case Directory(children) =>
            var found := ScanDirectory(children, count);
            records := records + found;
            count := count + 1;
          case Other =>
        }
      }
      assert entries[..|entries|] == entries;
      paths := records;
      this.batch := batch;
      totalSize := |records|;
      labels := count;
      new;
      ScanLabelsBelow(entries);
    }

    /** `begin()`: the iterator at the first record. */
    method Begin() returns (it: PngIterator)
      requires batch >= 0 && labels >= 0
      ensures fresh(it) && fresh(it.labels) && it.Valid()
      ensures it.reader == this && it.begin == 0 && it.batch == batch && it.numLabels == labels
    {
      it := new PngIterator(this, 0, batch, labels);
    }

    /** `end()`, stopping at `StopOffset` rather than at the offset of
      `EndAsWritten`, which the iterator may step over. */
    method End() returns (it: PngIterator)
      requires batch > 0 && labels >= 0 && totalSize >= 0
      ensures fresh(it) && fresh(it.labels) && it.Valid()
      ensures it.reader == this && it.begin == StopOffset(totalSize, batch) && it.batch == batch && it.numLabels == labels
    {
      var misal := totalSize % batch;
      it := new PngIterator(this, totalSize - misal, batch, labels);
    }

    /** `reset()`: shuffles the records in place, which keeps every label
      in range. */
    method Reset(picks: seq<int>)
      requires Valid() && Picks(picks, |paths|)
      modifies this
      ensures Valid() && paths == Shuffled(old(paths), picks)
      ensures totalSize == old(totalSize) && labels == old(labels)
    {
      ghost var before := paths;
      paths := Shuffle(paths, picks);
      forall i | 0 <= i < |paths| ensures 0 <= paths[i].labelId < labels {
        assert paths[i] in multiset(before);
      }
    }
  }

  /** The inner loop of the scan: the `.png` entries of one sub-directory's
    listing, in listing order, labelled `id`. */
  method ScanDirectory(children: seq<string>, id: int) returns (records: seq<Record>)
    ensures records == PngRecords(children, id)
  {
    records := [];
    for j := 0 to |children|
      invariant records == PngRecords(children[..j], id)
    {
      ListedStep(children, id, IsPng, j);
      if IsPng(children[j]) {
        records := records + [Record(id, children[j])];
      }
    }
    assert children[..|children|] == children;
  }

  /** The constructor of `BatchPNGReader`: scans the listing, throws when it
      yields fewer records than one batch, and otherwise shuffles the records
      before any image is read. */
  method Open(entries: seq<Entry>, batch: int, picks: seq<int>) returns (res: Result<PngReader>)
    requires Picks(picks, |Scan(entries)|)
    ensures res.Err? <==> |Scan(entries)| < batch
    ensures res.Err? ==> res.error == DatasetTooSmall
    ensures res.Ok? ==> (fresh(res.value) && res.value.Valid() && res.value.batch == batch
      && res.value.paths == Shuffled(Scan(entries), picks) && res.value.labels == Directories(entries))
  {
    var reader := new PngReader(entries, batch);
    if reader.totalSize < batch {
      return Err(DatasetTooSmall);
    }
    reader.Reset(picks);
    return Ok(reader);
  }

  // ---------------------------------------------------------------------------
  // The iterator
  // ---------------------------------------------------------------------------

  /** An iterator over the records of `reader` at offset `begin`, owning a
      `numLabels x batch` label buffer. */
  class PngIterator {
    var begin: int
    const batch: int
    const numLabels: int
    const reader: PngReader
    const labels: array2<real>

    predicate Valid()
      reads this
    {
      labels.Length0 == numLabels && labels.Length1 == batch
    }

    constructor(reader: PngReader, begin: int, batch: int, numLabels: int)
      requires batch >= 0 && numLabels >= 0
      ensures fresh(labels) && Valid()
      ensures this.reader == reader && this.begin == begin && this.batch == batch && this.numLabels == numLabels
    {
      this.reader := reader;
      this.begin := begin;
      this.batch := batch;
      this.numLabels := numLabels;
      labels := new real[numLabels, batch];
    }

    /** A copy: same offset, reader and sizes, and a fresh label buffer with
      the same contents. */
    method Copy() returns (it: PngIterator)
      requires Valid()
      ensures fresh(it) && fresh(it.labels) && it.Valid()
      ensures it.reader == reader && it.begin == begin && it.batch == batch && it.numLabels == numLabels
      ensures forall r, c | 0 <= r < numLabels && 0 <= c < batch :: it.labels[r, c] == labels[r, c]
    {
      it := new PngIterator(reader, begin, batch, numLabels);
      for r := 0 to numLabels
        modifies it.labels
        invariant forall r', c | 0 <= r' < r && 0 <= c < batch :: it.labels[r', c] == labels[r', c]
      {
        for c := 0 to batch
          modifies it.labels
          invariant forall r', c' | 0 <= r' < numLabels && 0 <= c' < batch && (r' < r || (r' == r && c' < c)) ::
            it.labels[r', c'] == labels[r', c']
        {
          it.labels[r, c] := labels[r, c];
        }
      }
    }

    /** Prefix `++`: one batch forward. */
    method Next()
      modifies this
      ensures begin == old(begin) + batch
    {
      begin := begin + batch;
    }

    /** Prefix `--`: one batch back, undoing `Next`. */
    method Prev()
      modifies this
      ensures begin == old(begin) - batch
    {
      begin := begin - batch;
    }

    /** Postfix `++`: steps forward and returns a copy taken before. */
    method PostNext() returns (temp: PngIterator)
      requires Valid()
      modifies this
      ensures fresh(temp) && fresh(temp.labels) && temp.Valid()
      ensures Valid() && temp.begin == old(begin) && temp.reader == reader && temp.batch == batch && temp.numLabels == numLabels
      ensures begin == old(begin) + batch
      ensures forall r, c | 0 <= r < numLabels && 0 <= c < batch :: temp.labels[r, c] == labels[r, c]
    {
      temp := Copy();
      Next();
    }

    /** Postfix `--`: steps back and returns a copy taken before. */
    method PostPrev() returns (temp: PngIterator)
      requires Valid()
      modifies this
      ensures fresh(temp) && fresh(temp.labels) && temp.Valid()
      ensures Valid() && temp.begin == old(begin) && temp.reader == reader && temp.batch == batch && temp.numLabels == numLabels
      ensures begin == old(begin) - batch
      ensures forall r, c | 0 <= r < numLabels && 0 <= c < batch :: temp.labels[r, c] == labels[r, c]
    {
      temp := Copy();
      Prev();
    }

    /** `==`: only the record offsets are compared. */
    predicate Equals(other: PngIterator)
      reads this, other
    {
      begin == other.begin
    }

    /** `labels()`: zeroes the buffer, then puts a 1 in column `i` at the
      row of the label of record `begin + i`; the result is the one-hot
      matrix of the batch's labels. */
    method Labels()
      requires Valid() && 0 <= begin && begin + batch <= |reader.paths|
      requires Below(LabelsOf(reader.paths[begin .. begin + batch]), numLabels)
      modifies labels
      ensures forall r, c | 0 <= r < numLabels && 0 <= c < batch ::
        labels[r, c] == OneHot(LabelsOf(reader.paths[begin .. begin + batch]), numLabels).At(r, c)
    {
      ghost var ls := LabelsOf(reader.paths[begin .. begin + batch]);
      for r := 0 to numLabels
        invariant forall r', c | 0 <= r' < r && 0 <= c < batch :: labels[r', c] == 0.0
      {
        for c := 0 to batch
          invariant forall r', c' | 0 <= r' < numLabels && 0 <= c' < batch && (r' < r || (r' == r && c' < c)) ::
            labels[r', c'] == 0.0
        {
          labels[r, c] := 0.0;
        }
      }
      for i := 0 to batch
        invariant forall r, c | 0 <= r < numLabels && 0 <= c < batch ::
          labels[r, c] == if c < i && r == ls[c] then 1.0 else 0.0
      {
        labels[reader.paths[begin + i].labelId, i] := 1.0;
      }
    }
  }

  /** An iterator taken from `begin()` of a reader with at least one batch
      and advanced `k` times compares equal to `end()` exactly after
      `totalSize / batch` steps, and every batch it visits before that
      stays inside the record array. */
  lemma IterationStops(reader: PngReader, it: PngIterator, stop: PngIterator, k: nat)
    requires reader.batch > 0 && reader.totalSize >= 0
    requires it.batch == reader.batch && it.begin == k * reader.batch
    requires stop.begin == StopOffset(reader.totalSize, reader.batch)
    ensures it.Equals(stop) <==> k == reader.totalSize / reader.batch
    ensures k < reader.totalSize / reader.batch ==> it.begin + it.batch <= reader.totalSize
  {
    StopReached(reader.totalSize, reader.batch, k);
  }
}
