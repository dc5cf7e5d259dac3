/**
 Schema reconciliation: the encoded columns are brought to the classifier's
 feature list. Every listed feature that the encoding lacks is added with 0,
 then exactly the listed features are selected, in list order; encoded
 columns that the list does not name are dropped.
 */
module Reconciliation {

  /** What a frame holds in column c once missing columns read as 0. */
  function Lookup(m: map<string, int>, c: string): int
  {
    if c in m then m[c] else 0
  }

  /** The frame after the missing features have been added. */
  function Filled(m: map<string, int>, schema: seq<string>): map<string, int>
  {
    map c | c in m.Keys + (set x | x in schema) :: Lookup(m, c)
  }

  /** The feature row, aligned to the schema. */
  function Aligned(m: map<string, int>, schema: seq<string>): seq<int>
  {
    seq(|schema|, i requires 0 <= i < |schema| => Lookup(m, schema[i]))
  }

  /** The frame a feature row stands for: each listed feature holds its entry. */
  function FrameOf(schema: seq<string>, row: seq<int>): map<string, int>
    requires |row| == |schema|
    decreases |schema|
  {
    if schema == [] then map[]
    else
      var n := |schema| - 1;
      FrameOf(schema[..n], row[..n])[schema[n] := row[n]]
  }

  /** Adds each missing feature with 0, then selects the features in order. */
  method Reconcile(encoded: map<string, int>, schema: seq<string>)
    returns (columns: map<string, int>, features: seq<int>)
    ensures forall c :: c in columns <==> c in encoded || c in schema
    ensures forall c :: c in encoded ==> columns[c] == encoded[c]
    ensures forall c :: c in columns && c !in encoded ==> columns[c] == 0
    ensures |features| == |schema|
    ensures forall i :: 0 <= i < |schema| ==> features[i] == columns[schema[i]]
    ensures columns == Filled(encoded, schema)
    ensures features == Aligned(encoded, schema)
  {
    columns := encoded;
    for i := 0 to |schema|
      invariant forall c :: c in columns <==> c in encoded || c in schema[..i]
      invariant forall c :: c in columns ==> columns[c] == Lookup(encoded, c)
    {
      if schema[i] !in columns {
        columns := columns[schema[i] := 0];
      }
      assert schema[..i + 1] == schema[..i] + [schema[i]];
    }
    assert schema[..|schema|] == schema;
    features := [];
    for i := 0 to |schema|
      invariant |features| == i
      invariant forall k :: 0 <= k < i ==> features[k] == columns[schema[k]]
    {
      features := features + [columns[schema[i]]];
    }
  }

  /** The feature row has one entry per listed feature, read off the encoding. */
  lemma AlignedAt(m: map<string, int>, schema: seq<string>, i: nat)
    requires i < |schema|
    ensures |Aligned(m, schema)| == |schema|
    ensures schema[i] in m ==> Aligned(m, schema)[i] == m[schema[i]]
    ensures schema[i] !in m ==> Aligned(m, schema)[i] == 0
  {
  }

  /** An encoded column that is not a listed feature is dropped without effect. */
  lemma UnlistedColumnIsDropped(m: map<string, int>, schema: seq<string>, c: string, x: int)
    requires c !in schema
    ensures Aligned(m[c := x], schema) == Aligned(m, schema)
    ensures Aligned(m - {c}, schema) == Aligned(m, schema)
  {
    forall i | 0 <= i < |schema|
      ensures Aligned(m[c := x], schema)[i] == Aligned(m, schema)[i]
      ensures Aligned(m - {c}, schema)[i] == Aligned(m, schema)[i]
    {
      assert schema[i] != c;
    }
  }

  /** The feature row depends only on the values, missing read as 0, of the
      listed features. */
  lemma AlignedDependsOnListedColumns(m1: map<string, int>, m2: map<string, int>, schema: seq<string>)
    ensures Aligned(m1, schema) == Aligned(m2, schema) <==>
      forall c :: c in schema ==> Lookup(m1, c) == Lookup(m2, c)
  {
    if Aligned(m1, schema) == Aligned(m2, schema) {
      forall c | c in schema ensures Lookup(m1, c) == Lookup(m2, c) {
        var i :| 0 <= i < |schema| && schema[i] == c;
        assert Aligned(m1, schema)[i] == Aligned(m2, schema)[i];
      }
    }
  }

  /** Filling is idempotent and keeps the feature row. */
  lemma FilledIdempotent(m: map<string, int>, schema: seq<string>)
    ensures Filled(Filled(m, schema), schema) == Filled(m, schema)
    ensures Aligned(Filled(m, schema), schema) == Aligned(m, schema)
  {
    var f := Filled(m, schema);
    forall c | c in f.Keys + (set x | x in schema) ensures c in f && Lookup(f, c) == f[c] {
    }
    assert Filled(f, schema) == f;
  }

  lemma {:induction false} FrameOfLookup(schema: seq<string>, row: seq<int>, i: nat)
    requires |row| == |schema| && i < |schema|
    requires forall p, q :: 0 <= p < |schema| && 0 <= q < |schema| && schema[p] == schema[q] ==> row[p] == row[q]
    ensures schema[i] in FrameOf(schema, row) && FrameOf(schema, row)[schema[i]] == row[i]
  {
    var n := |schema| - 1;
    if i < n {
      var s, r := schema[..n], row[..n];
      assert forall p :: 0 <= p < n ==> s[p] == schema[p] && r[p] == row[p];
      FrameOfLookup(s, r, i);
    }
  }

  /** Reconciling an already reconciled row against the same schema gives that
      row back. */
  lemma ReconcileAlignedIsIdentity(m: map<string, int>, schema: seq<string>)
    ensures Aligned(FrameOf(schema, Aligned(m, schema)), schema) == Aligned(m, schema)
  {
    var row := Aligned(m, schema);
    forall i | 0 <= i < |schema|
      ensures Aligned(FrameOf(schema, row), schema)[i] == row[i]
    {
      FrameOfLookup(schema, row, i);
    }
  }
}
