/**
 The encoding of one attribute record: the record becomes a one-row frame,
 in the order of the dashboard's dictionary, and get_dummies expands it.
 */
module Encoding {
  import opened Form
  import opened Dummies

  /** The text-valued fields of the record, which get_dummies expands. */
  datatype Field =
    | PartnerField | DependentsField | PhoneServiceField | MultipleLinesField
    | InternetServiceField | OnlineSecurityField | OnlineBackupField
    | DeviceProtectionField | TechSupportField | StreamingTvField
    | StreamingMoviesField | ContractField | PaperlessBillingField
    | PaymentMethodField | TenureGroupField

  // Names of the integer fields, which the encoding passes through: the names
  // at positions 0, 15 and 16 of the row, "SeniorCitizen", "MonthlyCharges"
  // and "TotalCharges".
  const SeniorCitizenColumn: string := NameAt(0)
  const MonthlyChargesColumn: string := NameAt(15)
  const TotalChargesColumn: string := NameAt(16)

  /** The record's key for a text field: the name at the field's place in the
      row (the keys themselves are listed in SortedName). */
  function FieldName(f: Field): string
  {
    NameAt(Position(f))
  }

  // The strings the form's widgets and sentinels put in the record.

  function YesNoText(x: YesNo): string
  {
    match x
    case No => "No"
    case Yes => "Yes"
  }

  const NoPhoneServiceText: string := "No phone service"
  const NoInternetServiceText: string := "No internet service"

  function LinesText(v: LinesValue): string
  {
    match v
    case Lines(x) => YesNoText(x)
    case NoPhoneService => NoPhoneServiceText
  }

  function AddOnText(v: AddOnValue): string
  {
    match v
    case AddOn(x) => YesNoText(x)
    case NoInternetService => NoInternetServiceText
  }

  function InternetText(x: InternetType): string
  {
    match x
    case Dsl => "DSL"
    case FiberOptic => "Fiber optic"
    case NoInternet => "None"
  }

  function ContractText(x: ContractTerm): string
  {
    match x
    case Monthly => "Monthly"
    case OneYear => "1 Year"
    case TwoYears => "2 Years"
  }

  function PaymentText(x: PaymentMethod): string
  {
    match x
    case ElectronicCheck => "Electronic Check"
    case MailedCheck => "Mailed Check"
    case BankTransfer => "Bank Transfer"
    case CreditCard => "Credit Card"
  }

  function TenureText(x: TenureGroup): string
  {
    match x
    case Months1To12 => "1-12 mo"
    case Months13To24 => "13-24 mo"
    case Months25To36 => "25-36 mo"
    case Months37To48 => "37-48 mo"
    case Months49To60 => "49-60 mo"
    case Months61To72 => "61-72 mo"
  }

  /** The text a record holds in field f. */
  function FieldValue(r: AttributeRecord, f: Field): string
  {
    match f
    case PartnerField => YesNoText(r.partner)
    case DependentsField => YesNoText(r.dependents)
    case PhoneServiceField => YesNoText(r.phoneService)
    case MultipleLinesField => LinesText(r.multipleLines)
    case InternetServiceField => InternetText(r.internetService)
    case OnlineSecurityField => AddOnText(r.onlineSecurity)
    case OnlineBackupField => AddOnText(r.onlineBackup)
    case DeviceProtectionField => AddOnText(r.deviceProtection)
    case TechSupportField => AddOnText(r.techSupport)
    case StreamingTvField => AddOnText(r.streamingTv)
    case StreamingMoviesField => AddOnText(r.streamingMovies)
    case ContractField => ContractText(r.contract)
    case PaperlessBillingField => YesNoText(r.paperlessBilling)
    case PaymentMethodField => PaymentText(r.paymentMethod)
    case TenureGroupField => TenureText(r.tenureGroup)
  }

  function TextEntry(r: AttributeRecord, f: Field): Entry
  {
    (FieldName(f), Text(FieldValue(r, f)))
  }

  /** The number of fields of the record, and so of entries of its row. */
  const RowLength: nat := 18

  /** Where a text field sits in the row, which follows the dictionary's order. */
  function Position(f: Field): nat
  {
    match f
    case PartnerField => 1
    case DependentsField => 2
    case PhoneServiceField => 3
    case MultipleLinesField => 4
    case InternetServiceField => 5
    case OnlineSecurityField => 6
    case OnlineBackupField => 7
    case DeviceProtectionField => 8
    case TechSupportField => 9
    case StreamingTvField => 10
    case StreamingMoviesField => 11
    case ContractField => 12
    case PaperlessBillingField => 13
    case PaymentMethodField => 14
    case TenureGroupField => 17
  }

  /** Positions 0, 15 and 16 hold SeniorCitizen, MonthlyCharges and TotalCharges. */
  predicate IsTextPosition(i: nat)
  {
    i < RowLength && i != 0 && i != 15 && i != 16
  }

  /** The text field at a text position of the row. */
  function FieldAt(i: nat): (f: Field)
    requires IsTextPosition(i)
    ensures Position(f) == i
  {
    match i
    case 1 => PartnerField
    case 2 => DependentsField
    case 3 => PhoneServiceField
    case 4 => MultipleLinesField
    case 5 => InternetServiceField
    case 6 => OnlineSecurityField
    case 7 => OnlineBackupField
    case 8 => DeviceProtectionField
    case 9 => TechSupportField
    case 10 => StreamingTvField
    case 11 => StreamingMoviesField
    case 12 => ContractField
    case 13 => PaperlessBillingField
    case 14 => PaymentMethodField
    case _ => TenureGroupField
  }

  /** The column name at position i of the row. */
  function NameAt(i: nat): string
    requires i < RowLength
  {
    SortedName(Rank(i))
  }

  /** The record's cell at position i of the row. */
  function CellAt(r: AttributeRecord, i: nat): Cell
    requires i < RowLength
  {
    if i == 0 then Number(r.seniorCitizen)
    else if i == 15 then Number(r.monthlyCharges)
    else if i == 16 then Number(r.totalCharges)
    else Text(FieldValue(r, FieldAt(i)))
  }

  /** The one-row frame of the record, in the dictionary's order. */
  function Row(r: AttributeRecord): seq<Entry>
  {
    seq(RowLength, i requires 0 <= i < RowLength => (NameAt(i), CellAt(r, i)))
  }

  /** get_dummies of the record's one-row frame. */
  function Encode(r: AttributeRecord): (m: map<string, int>)
    ensures |m| == RowLength
  {
    RowSeparated(r);
    GetDummiesSize(Row(r));
    GetDummies(Row(r))
  }

  /** The column a record's text field turns into. */
  function ColumnOf(r: AttributeRecord, f: Field): string
  {
    DummyColumn(FieldName(f), FieldValue(r, f))
  }

  lemma FieldAtPosition(f: Field)
    ensures IsTextPosition(Position(f)) && FieldAt(Position(f)) == f
  {
  }

  lemma RowAt(r: AttributeRecord, f: Field)
    ensures |Row(r)| == RowLength && Position(f) < RowLength && Row(r)[Position(f)] == TextEntry(r, f)
  {
    FieldAtPosition(f);
  }

  // The names come out as the dictionary's keys.

  lemma IntegerAndAccountKeys()
    ensures SeniorCitizenColumn == "SeniorCitizen" && MonthlyChargesColumn == "MonthlyCharges"
    ensures TotalChargesColumn == "TotalCharges" && FieldName(ContractField) == "Contract"
    ensures FieldName(PaperlessBillingField) == "PaperlessBilling"
    ensures FieldName(PaymentMethodField) == "PaymentMethod"
  {
  }

  lemma DemographicAndPhoneKeys()
    ensures FieldName(PartnerField) == "Partner" && FieldName(DependentsField) == "Dependents"
    ensures FieldName(TenureGroupField) == "tenure_group"
    ensures FieldName(PhoneServiceField) == "PhoneService"
    ensures FieldName(MultipleLinesField) == "MultipleLines"
    ensures FieldName(InternetServiceField) == "InternetService"
  {
  }

  lemma AddOnKeys()
    ensures FieldName(OnlineSecurityField) == "OnlineSecurity" && FieldName(OnlineBackupField) == "OnlineBackup"
    ensures FieldName(DeviceProtectionField) == "DeviceProtection" && FieldName(TechSupportField) == "TechSupport"
    ensures FieldName(StreamingTvField) == "StreamingTV" && FieldName(StreamingMoviesField) == "StreamingMovies"
  {
  }

  /** The record's 18 keys, which are the row's column names, in the order of
      their characters. */
  function SortedName(k: nat): string
    requires k < RowLength
  {
    match k
    case 0 => "Contract"
    case 1 => "Dependents"
    case 2 => "DeviceProtection"
    case 3 => "InternetService"
    case 4 => "MonthlyCharges"
    case 5 => "MultipleLines"
    case 6 => "OnlineBackup"
    case 7 => "OnlineSecurity"
    case 8 => "PaperlessBilling"
    case 9 => "Partner"
    case 10 => "PaymentMethod"
    case 11 => "PhoneService"
    case 12 => "SeniorCitizen"
    case 13 => "StreamingMovies"
    case 14 => "StreamingTV"
    case 15 => "TechSupport"
    case 16 => "TotalCharges"
    case _ => "tenure_group"
  }

  /** Where the name at row position i stands among the sorted names. */
  function Rank(i: nat): nat
    requires i < RowLength
  {
    match i
    case 0 => 12
    case 1 => 9
    case 2 => 1
    case 3 => 11
    case 4 => 5
    case 5 => 3
    case 6 => 7
    case 7 => 6
    case 8 => 2
    case 9 => 15
    case 10 => 14
    case 11 => 13
    case 12 => 0
    case 13 => 8
    case 14 => 10
    case 15 => 4
    case 16 => 16
    case _ => 17
  }

  /** Each sorted name strictly precedes the next and is not a prefix of it
      (shown for four stretches of the list separately). */
  lemma AdjacentNamesPrecede(k: nat)
    requires k < RowLength - 1
    ensures Precedes(SortedName(k), SortedName(k + 1))
  {
    if k < 5 {
      AdjacentNamesPrecedeA(k);
    } else if k < 9 {
      AdjacentNamesPrecedeB(k);
    } else if k < 13 {
      AdjacentNamesPrecedeC(k);
    } else {
      AdjacentNamesPrecedeD(k);
    }
  }

  lemma AdjacentNamesPrecedeA(k: nat)
    requires k < 5
    ensures Precedes(SortedName(k), SortedName(k + 1))
  {
    match k
    case 0 => PrecedesAt(SortedName(0), SortedName(1), 0);
    case 1 => PrecedesAt(SortedName(1), SortedName(2), 2);
    case 2 => PrecedesAt(SortedName(2), SortedName(3), 0);
    case 3 => PrecedesAt(SortedName(3), SortedName(4), 0);
    case _ => PrecedesAt(SortedName(4), SortedName(5), 1);
  }

  lemma AdjacentNamesPrecedeB(k: nat)
    requires 5 <= k < 9
    ensures Precedes(SortedName(k), SortedName(k + 1))
  {
    match k
    case 5 => PrecedesAt(SortedName(5), SortedName(6), 0);
    case 6 => PrecedesAt(SortedName(6), SortedName(7), 6);
    case 7 => PrecedesAt(SortedName(7), SortedName(8), 0);
    case _ => PrecedesAt(SortedName(8), SortedName(9), 2);
  }

  lemma AdjacentNamesPrecedeC(k: nat)
    requires 9 <= k < 13
    ensures Precedes(SortedName(k), SortedName(k + 1))
  {
    match k
    case 9 => PrecedesAt(SortedName(9), SortedName(10), 2);
    case 10 => PrecedesAt(SortedName(10), SortedName(11), 1);
    case 11 => PrecedesAt(SortedName(11), SortedName(12), 0);
    case _ => PrecedesAt(SortedName(12), SortedName(13), 1);
  }

  lemma AdjacentNamesPrecedeD(k: nat)
    requires 13 <= k < 17
    ensures Precedes(SortedName(k), SortedName(k + 1))
  {
    match k
    case 13 => PrecedesAt(SortedName(13), SortedName(14), 9);
    case 14 => PrecedesAt(SortedName(14), SortedName(15), 0);
    case 15 => PrecedesAt(SortedName(15), SortedName(16), 1);
    case _ => PrecedesAt(SortedName(16), SortedName(17), 0);
  }

  /** No column name of the record is a prefix of another, so no two of its
      entries can produce the same column. */
  lemma ColumnNamesDiverge(i: nat, j: nat)
    requires i < RowLength && j < RowLength && i != j
    ensures Diverge(NameAt(i), NameAt(j))
  {
    var sorted := seq(RowLength, k requires 0 <= k < RowLength => SortedName(k));
    forall k | 0 <= k < |sorted| - 1 ensures Precedes(sorted[k], sorted[k + 1]) {
      AdjacentNamesPrecede(k);
    }
    if Rank(i) < Rank(j) {
      ChainPrecedes(sorted, Rank(i), Rank(j));
      PrecedesDiverge(NameAt(i), NameAt(j));
    } else {
      ChainPrecedes(sorted, Rank(j), Rank(i));
      PrecedesDiverge(NameAt(j), NameAt(i));
      DivergeSymmetric(NameAt(j), NameAt(i));
    }
  }

  lemma RowSeparated(r: AttributeRecord)
    ensures NamesSeparated(Row(r))
  {
    forall i, j | 0 <= i < |Row(r)| && 0 <= j < |Row(r)| && i != j
      ensures Diverge(Row(r)[i].0, Row(r)[j].0)
    {
      ColumnNamesDiverge(i, j);
    }
  }

  /** One-hot: of all columns field f could produce, exactly the one for the
      record's own value is present, and it holds 1. Sentinel values are no
      exception. */
  lemma EncodeIsOneHot(r: AttributeRecord, f: Field, v: string)
    ensures DummyColumn(FieldName(f), v) in Encode(r) <==> v == FieldValue(r, f)
    ensures ColumnOf(r, f) in Encode(r) && Encode(r)[ColumnOf(r, f)] == 1
  {
    RowSeparated(r);
    RowAt(r, f);
    GetDummiesOneHot(Row(r), Position(f), v);
    GetDummiesAt(Row(r), Position(f));
  }

  /** SeniorCitizen, MonthlyCharges and TotalCharges keep their names and values. */
  lemma EncodeKeepsIntegerFields(r: AttributeRecord)
    ensures SeniorCitizenColumn in Encode(r) && Encode(r)[SeniorCitizenColumn] == r.seniorCitizen
    ensures MonthlyChargesColumn in Encode(r) && Encode(r)[MonthlyChargesColumn] == r.monthlyCharges
    ensures TotalChargesColumn in Encode(r) && Encode(r)[TotalChargesColumn] == r.totalCharges
  {
    RowSeparated(r);
    GetDummiesAt(Row(r), 0);
    GetDummiesAt(Row(r), 15);
    GetDummiesAt(Row(r), 16);
  }

  predicate IsIntegerColumn(c: string)
  {
    c == SeniorCitizenColumn || c == MonthlyChargesColumn || c == TotalChargesColumn
  }

  /** The encoding's columns are the three integer fields and one indicator per
      text field, nothing else. */
  lemma EncodeColumns(r: AttributeRecord, c: string)
    ensures c in Encode(r) <==> IsIntegerColumn(c) || exists f :: c == ColumnOf(r, f)
  {
    var row := Row(r);
    GetDummiesColumns(row, c);
    if c in Encode(r) {
      var j :| 0 <= j < |row| && c == OutputColumn(row[j]);
      if IsTextPosition(j) {
        var f := FieldAt(j);
        RowAt(r, f);
        assert c == ColumnOf(r, f);
      }
    }
    if IsIntegerColumn(c) {
      assert c == OutputColumn(row[0]) || c == OutputColumn(row[15]) || c == OutputColumn(row[16]);
    } else if exists f :: c == ColumnOf(r, f) {
      var f :| c == ColumnOf(r, f);
      RowAt(r, f);
      assert c == OutputColumn(row[Position(f)]);
    }
  }

  /** With the phone gate closed, the only MultipleLines column is the sentinel's. */
  lemma ClosedPhoneGateEncodesSentinel(r: AttributeRecord, v: string)
    requires Consistent(r) && r.phoneService == No
    ensures DummyColumn(FieldName(MultipleLinesField), v) in Encode(r) <==> v == NoPhoneServiceText
  {
    EncodeIsOneHot(r, MultipleLinesField, v);
  }

  /** The six fields behind the internet gate. */
  const AddOnFields: set<Field> := {
    OnlineSecurityField, OnlineBackupField, DeviceProtectionField,
    TechSupportField, StreamingTvField, StreamingMoviesField}

  /** With the internet gate closed, each add-on's only column is the sentinel's. */
  lemma ClosedInternetGateEncodesSentinels(r: AttributeRecord, f: Field, v: string)
    requires Consistent(r) && r.internetService == NoInternet && f in AddOnFields
    ensures DummyColumn(FieldName(f), v) in Encode(r) <==> v == NoInternetServiceText
  {
    assert FieldValue(r, f) == NoInternetServiceText;
    EncodeIsOneHot(r, f, v);
  }
}
