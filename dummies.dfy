/**
 pandas' get_dummies applied to a frame of one row. The row is the list of
 (column name, cell) pairs of the record, in the record's order. An integer
 cell keeps its column; a text cell v in column n becomes the indicator
 column "n_v" holding 1. Values that are not in the row make no column.
 */
module Dummies {

  datatype Cell = Number(n: int) | Text(s: string)

  type Entry = (string, Cell)

  /** The name get_dummies gives the indicator of value v in column n. */
  function DummyColumn(n: string, v: string): string
  {
    n + "_" + v
  }

  /** The column an entry of the row turns into. */
  function OutputColumn(e: Entry): string
  {
    match e.1
    case Number(_) => e.0
    case Text(v) => DummyColumn(e.0, v)
  }

  /** The value that column holds: the number itself, or 1 for an indicator. */
  function OutputValue(c: Cell): int
  {
    match c
    case Number(x) => x
    case Text(_) => 1
  }

  /** get_dummies of the one-row frame, column by column. */
  function GetDummies(row: seq<Entry>): (m: map<string, int>)
    ensures forall i :: 0 <= i < |row| ==> OutputColumn(row[i]) in m
    ensures |m| <= |row|
    decreases |row|
  {
    if row == [] then map[]
    else
      var e := row[|row| - 1];
      GetDummies(row[..|row| - 1])[OutputColumn(e) := OutputValue(e.1)]
  }

  /** Two names differ at a position both have, so that neither is a prefix of the other. */
  ghost predicate Diverge(a: string, b: string)
  {
    exists k :: 0 <= k < |a| && k < |b| && a[k] != b[k]
  }

  /** Every two columns of the row have diverging names. */
  ghost predicate NamesSeparated(row: seq<Entry>)
  {
    forall i, j :: 0 <= i < |row| && 0 <= j < |row| && i != j ==> Diverge(row[i].0, row[j].0)
  }

  lemma DivergeAt(a: string, b: string, k: nat)
    requires k < |a| && k < |b| && a[k] != b[k]
    ensures Diverge(a, b)
  {
  }

  lemma DivergeSymmetric(a: string, b: string)
    requires Diverge(a, b)
    ensures Diverge(b, a)
  {
  }

  /** a comes strictly before b in the order of characters, and is not a prefix of b. */
  ghost predicate Precedes(a: string, b: string)
  {
    exists p :: 0 <= p < |a| && p < |b| && a[..p] == b[..p] && a[p] < b[p]
  }

  lemma PrecedesAt(a: string, b: string, p: nat)
    requires p < |a| && p < |b| && a[..p] == b[..p] && a[p] < b[p]
    ensures Precedes(a, b)
  {
  }

  lemma PrecedesDiverge(a: string, b: string)
    requires Precedes(a, b)
    ensures Diverge(a, b)
  {
    var p :| 0 <= p < |a| && p < |b| && a[..p] == b[..p] && a[p] < b[p];
    DivergeAt(a, b, p);
  }

  lemma PrecedesTransitive(a: string, b: string, c: string)
    requires Precedes(a, b) && Precedes(b, c)
    ensures Precedes(a, c)
  {
    var p :| 0 <= p < |a| && p < |b| && a[..p] == b[..p] && a[p] < b[p];
    var q :| 0 <= q < |b| && q < |c| && b[..q] == c[..q] && b[q] < c[q];
    if p < q {
      assert b[..p] == c[..q][..p] == c[..p];
      assert b[p] == c[..q][p] == c[p];
      PrecedesAt(a, c, p);
    } else if q < p {
      assert a[..q] == b[..p][..q] == b[..q];
      assert a[q] == b[..p][q] == b[q];
      PrecedesAt(a, c, q);
    } else {
      PrecedesAt(a, c, p);
    }
  }

  /** A list whose neighbours are in order is in order throughout. */
  lemma {:induction false} ChainPrecedes(names: seq<string>, i: nat, j: nat)
    requires forall k :: 0 <= k < |names| - 1 ==> Precedes(names[k], names[k + 1])
    requires i < j < |names|
    ensures Precedes(names[i], names[j])
    decreases j - i
  {
    if i + 1 < j {
      ChainPrecedes(names, i + 1, j);
      PrecedesTransitive(names[i], names[i + 1], names[j]);
    }
  }

  /** Entries whose names diverge never produce the same column, whatever their cells. */
  lemma OutputColumnsDiffer(e: Entry, d: Entry)
    requires Diverge(e.0, d.0)
    ensures OutputColumn(e) != OutputColumn(d)
  {
    var k :| 0 <= k < |e.0| && k < |d.0| && e.0[k] != d.0[k];
    assert OutputColumn(e)[k] == e.0[k];
    assert OutputColumn(d)[k] == d.0[k];
  }

  /** Within one column, the indicator's name determines the value. */
  lemma DummyColumnDeterminesValue(n: string, v: string, w: string)
    requires DummyColumn(n, v) == DummyColumn(n, w)
    ensures v == w
  {
    assert v == DummyColumn(n, v)[|n| + 1..];
    assert w == DummyColumn(n, w)[|n| + 1..];
  }

  /** The frame's columns are exactly the columns of the row's entries. */
  lemma {:induction false} GetDummiesColumns(row: seq<Entry>, c: string)
    ensures c in GetDummies(row) <==> exists i :: 0 <= i < |row| && c == OutputColumn(row[i])
  {
    if row != [] {
      var front := row[..|row| - 1];
      GetDummiesColumns(front, c);
      if c in GetDummies(front) {
        var i :| 0 <= i < |front| && c == OutputColumn(front[i]);
        assert row[i] == front[i];
      }
      if exists i :: 0 <= i < |row| && c == OutputColumn(row[i]) {
        var i :| 0 <= i < |row| && c == OutputColumn(row[i]);
        if i < |front| {
          assert front[i] == row[i];
        }
      }
    }
  }

  /** With separated names every entry's column is present and holds that
      entry's value: no later entry overwrites it. */
  lemma {:induction false} GetDummiesAt(row: seq<Entry>, i: nat)
    requires NamesSeparated(row) && i < |row|
    ensures OutputColumn(row[i]) in GetDummies(row)
    ensures GetDummies(row)[OutputColumn(row[i])] == OutputValue(row[i].1)
  {
    var last := |row| - 1;
    var front := row[..last];
    if i < last {
      assert NamesSeparated(front) by {
        forall p, q | 0 <= p < |front| && 0 <= q < |front| && p != q
          ensures Diverge(front[p].0, front[q].0)
        {
          assert front[p] == row[p] && front[q] == row[q];
        }
      }
      GetDummiesAt(front, i);
      assert front[i] == row[i];
      OutputColumnsDiffer(row[i], row[last]);
    }
  }

  /** One-hot: of all indicator columns of a text column, exactly the one for
      the row's value is present. */
  lemma GetDummiesOneHot(row: seq<Entry>, i: nat, v: string)
    requires NamesSeparated(row) && i < |row| && row[i].1.Text?
    ensures DummyColumn(row[i].0, v) in GetDummies(row) <==> v == row[i].1.s
  {
    var c := DummyColumn(row[i].0, v);
    if v == row[i].1.s {
      GetDummiesAt(row, i);
    } else if c in GetDummies(row) {
      GetDummiesColumns(row, c);
      var j :| 0 <= j < |row| && c == OutputColumn(row[j]);
      if j != i {
        OutputColumnsDiffer((row[i].0, Text(v)), row[j]);
      }
      DummyColumnDeterminesValue(row[i].0, v, row[i].1.s);
      assert false;
    }
  }

  /** With separated names the frame has exactly one column per entry. */
  lemma {:induction false} GetDummiesSize(row: seq<Entry>)
    requires NamesSeparated(row)
    ensures |GetDummies(row)| == |row|
  {
    if row != [] {
      var last := |row| - 1;
      var front := row[..last];
      assert NamesSeparated(front) by {
        forall p, q | 0 <= p < |front| && 0 <= q < |front| && p != q
          ensures Diverge(front[p].0, front[q].0)
        {
          assert front[p] == row[p] && front[q] == row[q];
        }
      }
      GetDummiesSize(front);
      var c := OutputColumn(row[last]);
      if c in GetDummies(front) {
        GetDummiesColumns(front, c);
        var j :| 0 <= j < |front| && c == OutputColumn(front[j]);
        assert front[j] == row[j];
        OutputColumnsDiffer(row[j], row[last]);
        assert false;
      }
    }
  }
}
