/**
 The prediction step of the dashboard: sidebar answers, record, encoding,
 reconciliation against the classifier's feature list, then the classifier's
 predicted label and the banner chosen from it. The classifier is a parameter: any
 function from a feature row to a class label.
 */
module Prediction {
  import opened Form
  import opened Dummies
  import opened Encoding
  import opened Reconciliation

  /** The two result banners: high churn risk and low churn risk. */
  datatype Banner = HighRisk | LowRisk

  /** The banner shown for a predicted label. */
  function BannerFor(predicted: int): (b: Banner)
    ensures b == HighRisk <==> predicted == 1
  {
    if predicted == 1 then HighRisk else LowRisk
  }

  /** The feature row the classifier receives for a sidebar state. */
  function FeatureRow(s: Selections, schema: seq<string>): seq<int>
    requires ChargesInRange(s.monthlyCharges, s.totalCharges)
  {
    Aligned(Encode(BuildRecord(s)), schema)
  }

  /** One press of the analyse button: build the record, encode it, reconcile
      it with the classifier's feature list, classify, and pick the banner. */
  method Analyze(s: Selections, schema: seq<string>, classify: seq<int> -> int)
    returns (features: seq<int>, predicted: int, banner: Banner)
    requires ChargesInRange(s.monthlyCharges, s.totalCharges)
    ensures |features| == |schema|
    ensures features == FeatureRow(s, schema)
    ensures predicted == classify(features)
    ensures banner == HighRisk <==> predicted == 1
  {
    var record := BuildRecord(s);
    var encoded := Encode(record);
    var columns;
    columns, features := Reconcile(encoded, schema);
    predicted := classify(features);
    banner := BannerFor(predicted);
  }

  /** Each entry of the feature row: the record's integer fields under their
      own names, 1 for the column of each text field's value, and 0 for every
      other listed feature. */
  lemma FeatureRowAt(s: Selections, schema: seq<string>, i: nat)
    requires ChargesInRange(s.monthlyCharges, s.totalCharges)
    requires i < |schema|
    ensures |FeatureRow(s, schema)| == |schema|
    ensures FeatureRow(s, schema)[i] ==
      var r, c := BuildRecord(s), schema[i];
      if c == SeniorCitizenColumn then r.seniorCitizen
      else if c == MonthlyChargesColumn then r.monthlyCharges
      else if c == TotalChargesColumn then r.totalCharges
      else if exists f :: c == ColumnOf(r, f) then 1
      else 0
  {
    var r, c := BuildRecord(s), schema[i];
    EncodeKeepsIntegerFields(r);
    EncodeColumns(r, c);
    if !IsIntegerColumn(c) && exists f :: c == ColumnOf(r, f) {
      var f :| c == ColumnOf(r, f);
      EncodeIsOneHot(r, f, FieldValue(r, f));
    }
  }

  /** Answers hidden behind a closed gate never reach the classifier: two
      sidebar states that agree on every asked answer give the same feature
      row, and so the same label and banner, for any classifier. */
  lemma HiddenAnswersDoNotAffectPrediction(s: Selections, t: Selections, schema: seq<string>, classify: seq<int> -> int)
    requires ChargesInRange(s.monthlyCharges, s.totalCharges)
    requires ChargesInRange(t.monthlyCharges, t.totalCharges)
    requires SameAskedAnswers(s, t)
    ensures FeatureRow(s, schema) == FeatureRow(t, schema)
    ensures BannerFor(classify(FeatureRow(s, schema))) == BannerFor(classify(FeatureRow(t, schema)))
  {
    RecordDependsExactlyOnAskedAnswers(s, t);
  }

  /** If the feature list lacks the phone sentinel's column, a customer without
      phone service shows 0 in every listed MultipleLines column: the sentinel
      is dropped, as any unlisted column is. */
  lemma PhoneSentinelLostWithoutItsColumn(s: Selections, schema: seq<string>, i: nat, v: string)
    requires ChargesInRange(s.monthlyCharges, s.totalCharges)
    requires s.phoneService == No
    requires DummyColumn(FieldName(MultipleLinesField), NoPhoneServiceText) !in schema
    requires i < |schema| && schema[i] == DummyColumn(FieldName(MultipleLinesField), v)
    ensures FeatureRow(s, schema)[i] == 0
  {
    var r := BuildRecord(s);
    ClosedPhoneGateEncodesSentinel(r, v);
    assert v != NoPhoneServiceText;
    AlignedAt(Encode(r), schema, i);
  }

  /** The same for the internet sentinel and the six add-on fields. */
  lemma InternetSentinelLostWithoutItsColumn(s: Selections, schema: seq<string>, f: Field, i: nat, v: string)
    requires ChargesInRange(s.monthlyCharges, s.totalCharges)
    requires s.internetService == NoInternet && f in AddOnFields
    requires DummyColumn(FieldName(f), NoInternetServiceText) !in schema
    requires i < |schema| && schema[i] == DummyColumn(FieldName(f), v)
    ensures FeatureRow(s, schema)[i] == 0
  {
    var r := BuildRecord(s);
    ClosedInternetGateEncodesSentinels(r, f, v);
    assert v != NoInternetServiceText;
    AlignedAt(Encode(r), schema, i);
  }
}
