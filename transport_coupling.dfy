/**
 * itk::TransportCoupling: one ordered map from target identifier to weight
 * per source index, its resizing, and the comma-separated text SaveToCsv
 * writes for it.
 */
module Coupling {
  import opened Text
  import opened OrderedKeys

  /** The entry of one source: target identifier to transported weight. */
  type Entry = map<int, real>

  /** One (source index, target, weight) entry of the coupling. */
  datatype Row = Row(source: int, target: int, weight: real)

  /** The line written for a row, "i , t , w", with the weight's text given by fmt. */
  function CsvLine(r: Row, fmt: real -> string): string {
    IntToString(r.source) + " , " + IntToString(r.target) + " , " + fmt(r.weight) + "\n"
  }

  /** The weight e holds for target t; only targets that are keys of e are ever looked up. */
  function WeightOf(e: Entry, t: int): real {
    if t in e then e[t] else 0.0
  }

  /** The rows of source i for the given targets, in the given order. */
  function EntryRows(i: int, e: Entry, keys: seq<int>): (r: seq<Row>)
    ensures |r| == |keys|
  {
    seq(|keys|, j requires 0 <= j < |keys| => Row(i, keys[j], WeightOf(e, keys[j])))
  }

  /** The rows of source i, one per target, in ascending target order. */
  ghost function SourceRows(m: seq<Entry>, i: nat): (r: seq<Row>)
    requires i < |m|
    ensures |r| == |m[i]|
  {
    assert |m[i].Keys| == |m[i]|;
    EntryRows(i, m[i], SortedKeys(m[i].Keys))
  }

  /** The j-th target of source i in ascending order, with its weight. */
  ghost function RowAt(m: seq<Entry>, i: nat, j: nat): Row
    requires i < |m| && j < |m[i]|
  {
    var keys := SortedKeys(m[i].Keys);
    assert |m[i].Keys| == |m[i]|;
    assert keys[j] in keys;
    Row(i, keys[j], m[i][keys[j]])
  }

  /** The rows of the first n source indices, in the order SaveToCsv visits them. */
  ghost function CsvRows(m: seq<Entry>, n: nat): seq<Row>
    requires n <= |m|
  {
    if n == 0 then [] else CsvRows(m, n - 1) + SourceRows(m, n - 1)
  }

  /** The number of (source, target) entries in the first n maps. */
  function EntryCount(m: seq<Entry>, n: nat): nat
    requires n <= |m|
  {
    if n == 0 then 0 else EntryCount(m, n - 1) + |m[n - 1]|
  }

  /** SaveToCsv visits exactly one row per (source index, target) entry. */
  lemma {:induction false} CsvRowCount(m: seq<Entry>, n: nat)
    requires n <= |m|
    ensures |CsvRows(m, n)| == EntryCount(m, n)
  {
    if n > 0 {
      CsvRowCount(m, n - 1);
    }
  }

  /**
   * The rows of source i start right after those of sources 0 .. i-1, and
   * within source i they follow its targets in ascending order.
   */
  lemma {:induction false} CsvRowsOrder(m: seq<Entry>, n: nat, i: nat, j: nat)
    requires i < n <= |m|
    requires j < |m[i]|
    ensures EntryCount(m, i) + j < |CsvRows(m, n)|
    ensures CsvRows(m, n)[EntryCount(m, i) + j] == RowAt(m, i, j)
  {
    var front := CsvRows(m, n - 1);
    assert CsvRows(m, n) == front + SourceRows(m, n - 1);
    if i == n - 1 {
      CsvRowCount(m, i);
      assert |m[i].Keys| == |m[i]|;
      assert SortedKeys(m[i].Keys)[j] in m[i];
    } else {
      CsvRowsOrder(m, n - 1, i, j);
    }
  }

  /** The lines written for rows, one line per row and in the same order. */
  ghost predicate LinesOf(lines: seq<string>, rows: seq<Row>, fmt: real -> string) {
    |lines| == |rows| && forall k :: 0 <= k < |lines| ==> lines[k] == CsvLine(rows[k], fmt)
  }

  class TransportCoupling {
    /** m_Map: the entry of each source index. */
    var entries: seq<Entry>

    constructor ()
      ensures entries == []
    {
      entries := [];
    }

    /**
     * AlloacteMap(size): std::vector::resize, keeping the entries at indices
     * below the new size and giving new indices empty entries.
     */
    method AlloacteMap(size: int)
      requires size >= 0
      modifies this
      ensures |entries| == size
      ensures forall i :: 0 <= i < size && i < |old(entries)| ==> entries[i] == old(entries)[i]
      ensures forall i :: |old(entries)| <= i < size ==> entries[i] == map[]
    {
      if size <= |entries| {
        entries := entries[..size];
      } else {
        var grown := entries;
        while |grown| < size
          invariant |entries| <= |grown| <= size
          invariant grown[..|entries|] == entries
          invariant forall i :: |entries| <= i < |grown| ==> grown[i] == map[]
        {
          grown := grown + [map[]];
        }
        entries := grown;
      }
    }

    /**
     * SaveToCsv: the lines written to the file, for each source index in
     * turn and within it for each target in ascending order, each formatted
     * "i , t , w" with the weight's text given by fmt (the stream's default
     * formatting of a double). No header line is written.
     */
    method SaveToCsv(fmt: real -> string) returns (lines: seq<string>)
      ensures LinesOf(lines, CsvRows(entries, |entries|), fmt)
    {
      lines := [];
      var i := 0;
      while i < |entries|
        invariant 0 <= i <= |entries|
        invariant LinesOf(lines, CsvRows(entries, i), fmt)
      {
        var emitted := EntryCsv(i, entries[i], fmt);
        AppendLines(lines, CsvRows(entries, i), emitted, SourceRows(entries, i), fmt);
        lines := lines + emitted;
        i := i + 1;
      }
    }
  }

  /** Lines written for two row sequences, one after the other, are the lines of their concatenation. */
  lemma AppendLines(l1: seq<string>, r1: seq<Row>, l2: seq<string>, r2: seq<Row>, fmt: real -> string)
    requires LinesOf(l1, r1, fmt) && LinesOf(l2, r2, fmt)
    ensures LinesOf(l1 + l2, r1 + r2, fmt)
  {
    var l, r := l1 + l2, r1 + r2;
    forall k | 0 <= k < |l|
      ensures l[k] == CsvLine(r[k], fmt)
    {
      if k >= |l1| {
        assert l[k] == l2[k - |l1|] && r[k] == r2[k - |l1|];
      }
    }
  }

  /** The inner loop of SaveToCsv: the lines of one source's entry, in ascending target order. */
  method EntryCsv(i: int, e: Entry, fmt: real -> string) returns (emitted: seq<string>)
    ensures LinesOf(emitted, EntryRows(i, e, SortedKeys(e.Keys)), fmt)
  {
    var rest := e.Keys;
    ghost var done: seq<int> := [];
    emitted := [];
    while rest != {}
      invariant done + SortedKeys(rest) == SortedKeys(e.Keys)
      invariant LinesOf(emitted, EntryRows(i, e, done), fmt)
      decreases |rest|
    {
      HasMin(rest);
      var k :| IsMin(k, rest);
      EmitStep(i, e, rest, k, done, emitted, fmt);
      emitted := emitted + [CsvLine(Row(i, k, WeightOf(e, k)), fmt)];
      done := done + [k];
      rest := rest - {k};
    }
    assert SortedKeys(rest) == [];
    assert done == SortedKeys(e.Keys);
  }

  /** Emitting the line of the least remaining target extends the emitted prefix by one key. */
  lemma EmitStep(i: int, e: Entry, rest: set<int>, k: int, done: seq<int>, emitted: seq<string>, fmt: real -> string)
    requires IsMin(k, rest)
    requires done + SortedKeys(rest) == SortedKeys(e.Keys)
    requires LinesOf(emitted, EntryRows(i, e, done), fmt)
    ensures (done + [k]) + SortedKeys(rest - {k}) == SortedKeys(e.Keys)
    ensures LinesOf(emitted + [CsvLine(Row(i, k, WeightOf(e, k)), fmt)], EntryRows(i, e, done + [k]), fmt)
  {
    SortedKeysFirst(rest, k);
    assert done + SortedKeys(rest) == (done + [k]) + SortedKeys(rest - {k});
    AppendLines(emitted, EntryRows(i, e, done), [CsvLine(Row(i, k, WeightOf(e, k)), fmt)], EntryRows(i, e, [k]), fmt);
    assert EntryRows(i, e, done) + EntryRows(i, e, [k]) == EntryRows(i, e, done + [k]);
  }
}
