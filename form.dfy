/**
 The form state controller of the churn dashboard: the sidebar's answers are
 turned into one attribute record. Two answers gate others: phone service
 gates multiple lines, and the internet type gates the six add-on services.
 A gated field is not choosable; it takes a sentinel value instead.
 */
module Form {

  datatype YesNo = No | Yes

  datatype AgeGroup = Under60 | SixtyPlus

  datatype TenureGroup =
    | Months1To12 | Months13To24 | Months25To36
    | Months37To48 | Months49To60 | Months61To72

  datatype InternetType = Dsl | FiberOptic | NoInternet

  datatype ContractTerm = Monthly | OneYear | TwoYears

  datatype PaymentMethod = ElectronicCheck | MailedCheck | BankTransfer | CreditCard

  /** The value of MultipleLines: the user's answer, or the phone sentinel. */
  datatype LinesValue = Lines(lines: YesNo) | NoPhoneService

  /** The value of an internet add-on: the user's answer, or the internet sentinel. */
  datatype AddOnValue = AddOn(addOn: YesNo) | NoInternetService

  // Slider bounds of the two charge inputs.
  const MinMonthlyCharges: int := 20
  const MaxMonthlyCharges: int := 120
  const MinTotalCharges: int := 100
  const MaxTotalCharges: int := 10000

  /** What every widget of the sidebar holds. The answers for multiple lines and
      for the six add-ons are only read when their gate is open. */
  datatype Selections = Selections(
    ageGroup: AgeGroup,
    partner: YesNo,
    dependents: YesNo,
    tenureGroup: TenureGroup,
    phoneService: YesNo,
    multipleLines: YesNo,
    internetService: InternetType,
    onlineSecurity: YesNo,
    onlineBackup: YesNo,
    streamingTv: YesNo,
    deviceProtection: YesNo,
    techSupport: YesNo,
    streamingMovies: YesNo,
    contract: ContractTerm,
    paperlessBilling: YesNo,
    paymentMethod: PaymentMethod,
    monthlyCharges: int,
    totalCharges: int)

  /** The customer record handed to the encoder, field for field the dictionary
      the dashboard builds. */
  datatype AttributeRecord = AttributeRecord(
    seniorCitizen: int,
    partner: YesNo,
    dependents: YesNo,
    phoneService: YesNo,
    multipleLines: LinesValue,
    internetService: InternetType,
    onlineSecurity: AddOnValue,
    onlineBackup: AddOnValue,
    deviceProtection: AddOnValue,
    techSupport: AddOnValue,
    streamingTv: AddOnValue,
    streamingMovies: AddOnValue,
    contract: ContractTerm,
    paperlessBilling: YesNo,
    paymentMethod: PaymentMethod,
    monthlyCharges: int,
    totalCharges: int,
    tenureGroup: TenureGroup)

  /** The sliders only produce charges inside their ranges. */
  predicate ChargesInRange(monthly: int, total: int)
  {
    MinMonthlyCharges <= monthly <= MaxMonthlyCharges &&
    MinTotalCharges <= total <= MaxTotalCharges
  }

  /** An add-on value agrees with the internet gate. */
  predicate AddOnGated(internet: InternetType, v: AddOnValue)
  {
    (internet == NoInternet) <==> (v == NoInternetService)
  }

  /** The record invariants: a gated field holds its sentinel exactly when its
      gate is closed, SeniorCitizen is 0 or 1, and the charges are in range. */
  predicate Consistent(r: AttributeRecord)
  {
    (r.seniorCitizen == 0 || r.seniorCitizen == 1) &&
    ((r.phoneService == No) <==> (r.multipleLines == NoPhoneService)) &&
    AddOnGated(r.internetService, r.onlineSecurity) &&
    AddOnGated(r.internetService, r.onlineBackup) &&
    AddOnGated(r.internetService, r.deviceProtection) &&
    AddOnGated(r.internetService, r.techSupport) &&
    AddOnGated(r.internetService, r.streamingTv) &&
    AddOnGated(r.internetService, r.streamingMovies) &&
    ChargesInRange(r.monthlyCharges, r.totalCharges)
  }

  /** The phone gate: multiple lines is asked only when there is phone service. */
  function GateLines(phone: YesNo, answer: YesNo): LinesValue
  {
    if phone == Yes then Lines(answer) else NoPhoneService
  }

  /** The internet gate: an add-on is asked only when there is internet service. */
  function GateAddOn(internet: InternetType, answer: YesNo): AddOnValue
  {
    if internet != NoInternet then AddOn(answer) else NoInternetService
  }

  /** Builds the record from the sidebar: the age group becomes 0/1 and the
      gated fields go through their gates. */
  function BuildRecord(s: Selections): (r: AttributeRecord)
    requires ChargesInRange(s.monthlyCharges, s.totalCharges)
    ensures Consistent(r)
    ensures r.seniorCitizen == 1 <==> s.ageGroup == SixtyPlus
    ensures r.phoneService == s.phoneService && r.internetService == s.internetService
    ensures r.multipleLines == NoPhoneService <==> s.phoneService == No
    ensures s.phoneService == Yes ==> r.multipleLines == Lines(s.multipleLines)
    ensures s.internetService == NoInternet ==>
      r.onlineSecurity == r.onlineBackup == r.deviceProtection ==
      r.techSupport == r.streamingTv == r.streamingMovies == NoInternetService
    ensures s.internetService != NoInternet ==>
      r.onlineSecurity == AddOn(s.onlineSecurity) &&
      r.onlineBackup == AddOn(s.onlineBackup) &&
      r.deviceProtection == AddOn(s.deviceProtection) &&
      r.techSupport == AddOn(s.techSupport) &&
      r.streamingTv == AddOn(s.streamingTv) &&
      r.streamingMovies == AddOn(s.streamingMovies)
    ensures r.partner == s.partner && r.dependents == s.dependents &&
            r.contract == s.contract && r.paperlessBilling == s.paperlessBilling &&
            r.paymentMethod == s.paymentMethod && r.tenureGroup == s.tenureGroup &&
            r.monthlyCharges == s.monthlyCharges && r.totalCharges == s.totalCharges
  {
    AttributeRecord(
      if s.ageGroup == SixtyPlus then 1 else 0,
      s.partner,
      s.dependents,
      s.phoneService,
      GateLines(s.phoneService, s.multipleLines),
      s.internetService,
      GateAddOn(s.internetService, s.onlineSecurity),
      GateAddOn(s.internetService, s.onlineBackup),
      GateAddOn(s.internetService, s.deviceProtection),
      GateAddOn(s.internetService, s.techSupport),
      GateAddOn(s.internetService, s.streamingTv),
      GateAddOn(s.internetService, s.streamingMovies),
      s.contract,
      s.paperlessBilling,
      s.paymentMethod,
      s.monthlyCharges,
      s.totalCharges,
      s.tenureGroup)
  }

  /** The answer a gated value came from, or No when the gate was closed. */
  function LinesAnswer(v: LinesValue): YesNo
  {
    if v.Lines? then v.lines else No
  }

  function AddOnAnswer(v: AddOnValue): YesNo
  {
    if v.AddOn? then v.addOn else No
  }

  /** A sidebar state that produces a given record. */
  function SelectionsFor(r: AttributeRecord): Selections
  {
    Selections(
      if r.seniorCitizen == 1 then SixtyPlus else Under60,
      r.partner, r.dependents, r.tenureGroup,
      r.phoneService, LinesAnswer(r.multipleLines),
      r.internetService,
      AddOnAnswer(r.onlineSecurity), AddOnAnswer(r.onlineBackup),
      AddOnAnswer(r.streamingTv), AddOnAnswer(r.deviceProtection),
      AddOnAnswer(r.techSupport), AddOnAnswer(r.streamingMovies),
      r.contract, r.paperlessBilling, r.paymentMethod,
      r.monthlyCharges, r.totalCharges)
  }

  /** Every consistent record is what some sidebar state produces: the gating
      rules are the only constraints the form puts on a record. */
  lemma EveryConsistentRecordIsBuilt(r: AttributeRecord)
    requires Consistent(r)
    ensures ChargesInRange(SelectionsFor(r).monthlyCharges, SelectionsFor(r).totalCharges)
    ensures BuildRecord(SelectionsFor(r)) == r
  {
    var s := SelectionsFor(r);
    assert BuildRecord(s).multipleLines == r.multipleLines;
    assert BuildRecord(s).onlineSecurity == r.onlineSecurity;
    assert BuildRecord(s).onlineBackup == r.onlineBackup;
    assert BuildRecord(s).deviceProtection == r.deviceProtection;
    assert BuildRecord(s).techSupport == r.techSupport;
    assert BuildRecord(s).streamingTv == r.streamingTv;
    assert BuildRecord(s).streamingMovies == r.streamingMovies;
  }

  /** Two sidebar states that agree on every answer that is asked. */
  predicate SameAskedAnswers(s: Selections, t: Selections)
  {
    s.ageGroup == t.ageGroup && s.partner == t.partner &&
    s.dependents == t.dependents && s.tenureGroup == t.tenureGroup &&
    s.phoneService == t.phoneService &&
    (s.phoneService == Yes ==> s.multipleLines == t.multipleLines) &&
    s.internetService == t.internetService &&
    (s.internetService != NoInternet ==>
      s.onlineSecurity == t.onlineSecurity && s.onlineBackup == t.onlineBackup &&
      s.streamingTv == t.streamingTv && s.deviceProtection == t.deviceProtection &&
      s.techSupport == t.techSupport && s.streamingMovies == t.streamingMovies) &&
    s.contract == t.contract && s.paperlessBilling == t.paperlessBilling &&
    s.paymentMethod == t.paymentMethod &&
    s.monthlyCharges == t.monthlyCharges && s.totalCharges == t.totalCharges
  }

  /** The record depends exactly on the answers that are asked: answers hidden
      behind a closed gate never reach it, and any asked answer that differs
      gives a different record. */
  lemma RecordDependsExactlyOnAskedAnswers(s: Selections, t: Selections)
    requires ChargesInRange(s.monthlyCharges, s.totalCharges)
    requires ChargesInRange(t.monthlyCharges, t.totalCharges)
    ensures BuildRecord(s) == BuildRecord(t) <==> SameAskedAnswers(s, t)
  {
    if BuildRecord(s) == BuildRecord(t) {
      var r := BuildRecord(s);
      assert s.ageGroup == t.ageGroup by {
        assert (r.seniorCitizen == 1) == (s.ageGroup == SixtyPlus) == (t.ageGroup == SixtyPlus);
      }
    }
  }
}
