/**
 * The selection steps of the offline response statistics: pick the
 * behavioural file of a directory listing with the latest ctime, and keep the
 * rows of the experimental part of its log.
 */
module ResponseStats {
  import opened Wrappers

  /** A behavioural file as the directory listing yields it, with its ctime
   * (`os.path.getctime`: the inode-change time on Unix, the creation time on Windows).
   */
  datatype FileEntry = FileEntry(path: string, ctime: real)

  datatype StatsError =
    | NoFiles                  // the listing is empty: taking its last element raises
    | MissingColumn(column: string)  // a row has no such column: looking it up raises

  const BLOCK_TYPE := "block_type"
  const EXPERIMENT := "experiment"

  // ---------------------------------------------------------------------
  // Most recent file
  // ---------------------------------------------------------------------

  predicate SortedByCtime(files: seq<FileEntry>) {
    forall i, j :: 0 <= i < j < |files| ==> files[i].ctime <= files[j].ctime
  }

  /**
   * Stable insertion: `x` goes after every entry no newer than it, so among
   * entries with equal ctime the one inserted later stays later.
   */
  function Insert(sorted: seq<FileEntry>, x: FileEntry): (r: seq<FileEntry>)
    ensures |r| == |sorted| + 1
    ensures multiset(r) == multiset(sorted) + multiset{x}
  {
    if sorted == [] then [x]
    else if sorted[|sorted| - 1].ctime <= x.ctime then sorted + [x]
    else
      var front := sorted[..|sorted| - 1];
      assert sorted == front + [sorted[|sorted| - 1]];
      Insert(front, x) + [sorted[|sorted| - 1]]
  }

  /** The listing sorted by ctime, stably: entries are inserted in listing order. */
  function SortByCtime(files: seq<FileEntry>): (r: seq<FileEntry>)
    ensures |r| == |files|
    ensures multiset(r) == multiset(files)
  {
    if files == [] then []
    else
      var front := files[..|files| - 1];
      assert files == front + [files[|files| - 1]];
      Insert(SortByCtime(front), files[|files| - 1])
  }

  lemma {:induction false} InsertSorted(sorted: seq<FileEntry>, x: FileEntry)
    requires SortedByCtime(sorted)
    ensures SortedByCtime(Insert(sorted, x))
    decreases |sorted|
  {
    if sorted != [] && x.ctime < sorted[|sorted| - 1].ctime {
      var last := sorted[|sorted| - 1];
      var front := sorted[..|sorted| - 1];
      InsertSorted(front, x);
      var ins := Insert(front, x);
      forall k | 0 <= k < |ins|
        ensures ins[k].ctime <= last.ctime
      {
        assert ins[k] in multiset(ins);
        if ins[k] != x {
          assert ins[k] in multiset(front);
          var i :| 0 <= i < |front| && front[i] == ins[k];
          assert sorted[i] == ins[k];
        }
      }
    }
  }

  /** Sorting orders the listing by ctime. */
  lemma {:induction false} SortSorted(files: seq<FileEntry>)
    ensures SortedByCtime(SortByCtime(files))
    decreases |files|
  {
    if files != [] {
      SortSorted(files[..|files| - 1]);
      InsertSorted(SortByCtime(files[..|files| - 1]), files[|files| - 1]);
    }
  }

  /**
   * Index of the newest file, scanning in listing order: a later file with an
   * equal or greater ctime replaces the one found so far.
   */
  function NewestIndex(files: seq<FileEntry>): (i: nat)
    requires files != []
    ensures i < |files|
    ensures forall j :: 0 <= j < |files| ==> files[j].ctime <= files[i].ctime
    ensures forall j :: i < j < |files| ==> files[j].ctime < files[i].ctime
  {
    if |files| == 1 then 0
    else
      var front := files[..|files| - 1];
      var k := NewestIndex(front);
      assert forall j :: 0 <= j < |front| ==> files[j] == front[j];
      if files[k].ctime <= files[|files| - 1].ctime then |files| - 1 else k
  }

  /**
   * The last file after the stable sort is the newest one, and of several
   * equally new ones the latest in listing order.
   */
  lemma {:induction false} SortLastIsNewest(files: seq<FileEntry>)
    requires files != []
    ensures SortByCtime(files)[|files| - 1] == files[NewestIndex(files)]
    decreases |files|
  {
    if |files| > 1 {
      var front := files[..|files| - 1];
      SortLastIsNewest(front);
      assert files[NewestIndex(front)] == front[NewestIndex(front)];
    }
  }

  /**
   * The file the statistics read: the last of the listing sorted by ctime;
   * an empty listing raises.
   */
  function MostRecentFile(files: seq<FileEntry>): (r: Result<FileEntry, StatsError>)
    ensures r.Failure? <==> files == []
    ensures r.Failure? ==> r.error == NoFiles
    ensures r.Success? ==> exists i :: 0 <= i < |files| && files[i] == r.value
                             && (forall j :: 0 <= j < |files| ==> files[j].ctime <= r.value.ctime)
                             && (forall j :: i < j < |files| ==> files[j].ctime < r.value.ctime)
  {
    if files == [] then Failure(NoFiles)
    else
      SortLastIsNewest(files);
      Success(SortByCtime(files)[|files| - 1])
  }

  // ---------------------------------------------------------------------
  // Experiment rows
  // ---------------------------------------------------------------------

  /**
   * A CSV row keyed by column name. A row shorter than the header has no value
   * (None) in its trailing columns; a column absent from the header is absent
   * from every row.
   */
  type Row = map<string, Option<string>>

  predicate IsExperiment(row: Row) {
    BLOCK_TYPE in row && row[BLOCK_TYPE] == Some(EXPERIMENT)
  }

  /** The rows whose block type is "experiment", in their original order. */
  function KeepExperiment(rows: seq<Row>): (kept: seq<Row>)
    ensures forall k :: 0 <= k < |kept| ==> IsExperiment(kept[k])
    ensures multiset(kept) <= multiset(rows)
  {
    if rows == [] then []
    else
      var front := rows[..|rows| - 1];
      assert rows == front + [rows[|rows| - 1]];
      var kept := KeepExperiment(front);
      if IsExperiment(rows[|rows| - 1]) then kept + [rows[|rows| - 1]] else kept
  }

  /** The positions of the experiment rows, ascending. */
  function ExperimentIndices(rows: seq<Row>): (idx: seq<nat>)
    ensures forall k :: 0 <= k < |idx| ==> idx[k] < |rows| && IsExperiment(rows[idx[k]])
    ensures forall k, l :: 0 <= k < l < |idx| ==> idx[k] < idx[l]
    ensures forall i :: 0 <= i < |rows| && IsExperiment(rows[i]) ==> i in idx
  {
    if rows == [] then []
    else
      var front := rows[..|rows| - 1];
      var idx := ExperimentIndices(front);
      assert forall i :: 0 <= i < |front| ==> rows[i] == front[i];
      if IsExperiment(rows[|rows| - 1]) then idx + [|rows| - 1] else idx
  }

  /**
   * The filter keeps exactly the experiment rows, in their original order:
   * its k-th row is the row at the k-th experiment position.
   */
  lemma {:induction false} KeepExperimentOrder(rows: seq<Row>)
    ensures var kept := KeepExperiment(rows);
            var idx := ExperimentIndices(rows);
            && |kept| == |idx|
            && forall k :: 0 <= k < |kept| ==> kept[k] == rows[idx[k]]
    decreases |rows|
  {
    if rows != [] {
      var front := rows[..|rows| - 1];
      var last := rows[|rows| - 1];
      KeepExperimentOrder(front);
      var kept := KeepExperiment(front);
      var idx := ExperimentIndices(front);
      assert forall k :: 0 <= k < |idx| ==> rows[idx[k]] == front[idx[k]];
      if IsExperiment(last) {
        assert KeepExperiment(rows) == kept + [last];
        assert ExperimentIndices(rows) == idx + [|rows| - 1];
      } else {
        assert KeepExperiment(rows) == kept;
        assert ExperimentIndices(rows) == idx;
      }
    }
  }

  /** The number of rows kept is the number of experiment rows. */
  lemma KeepExperimentCount(rows: seq<Row>)
    ensures |KeepExperiment(rows)| == |set i | 0 <= i < |rows| && IsExperiment(rows[i])|
  {
    var idx := ExperimentIndices(rows);
    KeepExperimentOrder(rows);
    var positions := set i | 0 <= i < |rows| && IsExperiment(rows[i]);
    assert positions == set k | 0 <= k < |idx| :: idx[k];
    DistinctCard(idx);
  }

  /** Strictly ascending indices are as many as the set of them. */
  lemma {:induction false} DistinctCard(idx: seq<nat>)
    requires forall k, l :: 0 <= k < l < |idx| ==> idx[k] < idx[l]
    ensures |set k | 0 <= k < |idx| :: idx[k]| == |idx|
    decreases |idx|
  {
    if idx != [] {
      var front := idx[..|idx| - 1];
      DistinctCard(front);
      var s := set k | 0 <= k < |front| :: front[k];
      assert (set k | 0 <= k < |idx| :: idx[k]) == s + {idx[|idx| - 1]};
      assert idx[|idx| - 1] !in s;
    }
  }

  /** Whether every row has the given column, so that looking it up cannot raise. */
  predicate HasColumn(rows: seq<Row>, column: string) {
    forall k :: 0 <= k < |rows| ==> column in rows[k]
  }

  /**
   * The experiment rows of a log: looking up "block_type" raises as soon as a
   * row lacks that column; otherwise the filtered rows.
   */
  function ExperimentRows(rows: seq<Row>): (r: Result<seq<Row>, StatsError>)
    ensures r.Failure? <==> !HasColumn(rows, BLOCK_TYPE)
    ensures r.Failure? ==> r.error == MissingColumn(BLOCK_TYPE)
    ensures r.Success? ==> r.value == KeepExperiment(rows)
  {
    if HasColumn(rows, BLOCK_TYPE) then Success(KeepExperiment(rows))
    else Failure(MissingColumn(BLOCK_TYPE))
  }
}
