# Churn dashboard: form gating, encoding and schema reconciliation

This project models the one piece of logic in the Telco churn dashboard
(`app.py`, a Streamlit script): the path from the sidebar's answers to the
banner that the dashboard shows once "Analyze Customer" is pressed.

- **Form gating** (module `Form`). The sidebar's answers become one attribute
  record. The age group becomes `SeniorCitizen` as 1 (for "60+") or 0.
  Multiple lines is asked only when there is phone service; otherwise it holds
  the sentinel "No phone service". The six add-on services (security, backup,
  device protection, tech support, streaming TV and streaming movies) are
  asked only when the internet type is not "None"; otherwise each holds
  "No internet service". The two sliders keep the monthly charges in [20, 120]
  and the total charges in [100, 10000].
- **get_dummies** (modules `Dummies` and `Encoding`). The record becomes a
  one-row frame in the dictionary's key order. `pandas.get_dummies` then turns
  each text field `f` holding `v` into the single column `f_v` holding 1.
  The values the row does not hold make no column. The integer fields
  `SeniorCitizen`, `MonthlyCharges` and `TotalCharges` pass through under
  their own names. The frame is a `map<string, int>`.
- **Schema reconciliation** (module `Reconciliation`). A loop walks the
  classifier's feature names and adds each missing column with 0. Then exactly
  the listed features are selected, in list order. This is the method
  `Reconcile`, which is proved against the specification functions `Filled`
  (the map after the loop) and `Aligned` (the selected row).
- **Prediction** (module `Prediction`). The classifier is a parameter: any
  function from the feature row to an integer label. The high-risk banner is
  chosen exactly when the label is 1.

Two proofs carry the weight.

1. **No two fields of a record ever produce the same column.** This is what
   makes the encoding one-hot per field. No key of the record is a prefix of
   another: listed in character order, each key strictly precedes the next
   at some position both share. The general reason is generic
   (`Dummies.ChainPrecedes`); the 18 keys themselves are checked one
   neighbouring pair at a time.
2. **The reconciliation loop meets its specification.** Its invariant says
   which columns exist after each step and that every value is the encoded
   one or 0.

## Model

| member | source | states |
|---|---|---|
| Form.BuildRecord | app.py:49-182 | the record always satisfies the gating invariants. Multiple lines holds the phone sentinel exactly when phone service is No, and holds the user's answer when it is Yes (lines 60-64). With internet type None all six add-ons hold the internet sentinel; otherwise each holds the user's answer (lines 69-80). SeniorCitizen is 1 exactly when the age group is 60+ and 0 otherwise, and every ungated answer and both charges are copied unchanged into the record (lines 163-182) |
| Form.EveryConsistentRecordIsBuilt | app.py:59-93 | every record that satisfies the gating invariants and the slider ranges is produced by some sidebar state. The gating rules are the only constraints the form puts on a record |
| Form.RecordDependsExactlyOnAskedAnswers | app.py:59-93 | two sidebar states give the same record if and only if they agree on every answer that is asked. Answers behind a closed gate are ignored, and any other difference changes the record |
| Dummies.GetDummies | app.py:185 | get_dummies of a one-row frame: every entry's column (the name for a number, `name_value` for a text) is a column of the frame, and the frame has at most one column per entry. GetDummiesColumns, GetDummiesAt, GetDummiesOneHot and GetDummiesSize state the rest of what it computes |
| Dummies.GetDummiesColumns | app.py:185 | the columns of get_dummies of one row are exactly the columns of the row's entries: the name for a number, `name_value` for a text |
| Dummies.GetDummiesAt | app.py:185 | when the row's names are separated, each entry's column is present and holds the number, or 1 for a text |
| Dummies.GetDummiesOneHot | app.py:185 | when the row's names are separated, an indicator column of a text entry is present if and only if it names the entry's own value |
| Dummies.GetDummiesSize | app.py:185 | when the row's names are separated, the frame has exactly one column per entry |
| Dummies.DummyColumnDeterminesValue | app.py:185 | within one field, the indicator column's name determines the value |
| Encoding.ColumnNamesDiverge | app.py:163-182 | any two of the record's 18 keys differ at a position both have, so neither is a prefix of the other |
| Encoding.IntegerAndAccountKeys | app.py:163-182 | the integer columns are named SeniorCitizen, MonthlyCharges and TotalCharges; the account fields' keys are Contract, PaperlessBilling and PaymentMethod |
| Encoding.DemographicAndPhoneKeys | app.py:163-182 | the keys of the demographic, tenure, phone and internet-type fields are Partner, Dependents, tenure_group, PhoneService, MultipleLines and InternetService |
| Encoding.AddOnKeys | app.py:163-182 | the six add-on keys are OnlineSecurity, OnlineBackup, DeviceProtection, TechSupport, StreamingTV and StreamingMovies |
| Encoding.Encode | app.py:163-185 | the record's one-row frame, expanded by get_dummies, has exactly 18 columns, one per key of the record. EncodeColumns, EncodeIsOneHot and EncodeKeepsIntegerFields state which columns and values they are |
| Encoding.EncodeIsOneHot | app.py:163-185 | for every text field, the column for any value v is present if and only if v is the record's value. The record's own column holds 1 |
| Encoding.EncodeKeepsIntegerFields | app.py:163-185 | SeniorCitizen, MonthlyCharges and TotalCharges keep their names and their values |
| Encoding.EncodeColumns | app.py:184-185 | a column is in the encoding if and only if it is an integer field's name or the column of some text field's value |
| Encoding.ClosedPhoneGateEncodesSentinel | app.py:61-64 | with no phone service, the only MultipleLines column is `MultipleLines_No phone service`. The sentinel is encoded like any other value |
| Encoding.ClosedInternetGateEncodesSentinels | app.py:69-80 | with internet type None, each of the six add-ons has exactly one column, `<field>_No internet service` |
| Reconciliation.Reconcile | app.py:188-192 | afterwards every listed feature is a column, and so is every encoded column. Encoded values survive unchanged and added columns hold 0. The row has one entry per listed feature, in list order, each being that column's value. The map equals `Filled` and the row equals `Aligned` |
| Reconciliation.UnlistedColumnIsDropped | app.py:192 | adding, changing or removing an encoded column that is not listed leaves the row unchanged |
| Reconciliation.AlignedDependsOnListedColumns | app.py:189-192 | two encodings give the same row if and only if they agree, missing read as 0, on every listed feature |
| Reconciliation.FilledIdempotent | app.py:189-191 | running the filling loop a second time changes nothing, and filling does not change the selected row |
| Reconciliation.ReconcileAlignedIsIdentity | app.py:189-192 | reconciling an already reconciled row against the same feature list gives that row back |
| Prediction.BannerFor | app.py:236-249 | the high-risk banner is chosen if and only if the predicted label is 1; every other label gives the low-risk banner |
| Prediction.Analyze | app.py:184-249 | the feature row handed to the classifier has the list's length. It is the reconciled encoding of the record built from the sidebar, and the label is the classifier's answer on it (lines 184-195). The high-risk banner is chosen if and only if the label is 1; every other label gives the low-risk banner (lines 236-249) |
| Prediction.FeatureRowAt | app.py:163-192 | each feature entry is: the integer field's value for an integer field's name; 1 for the column of one of the record's text values; 0 for any other listed feature |
| Prediction.HiddenAnswersDoNotAffectPrediction | app.py:59-80 | sidebar states that agree on every asked answer give the same feature row, and so the same banner, for every classifier |
| Prediction.PhoneSentinelLostWithoutItsColumn | app.py:188-192 | if the feature list lacks `MultipleLines_No phone service`, a customer without phone service shows 0 in every listed MultipleLines column |
| Prediction.InternetSentinelLostWithoutItsColumn | app.py:188-192 | if the feature list lacks an add-on's `No internet service` column, a customer with internet type None shows 0 in every listed column of that add-on |

## Left out

- Widgets, sidebar layout, HTML panels, the static metric cards and the key-factor, recommendation and customer-profile panels are left out: they only display values. A sidebar state is modelled as the datatype `Selections`.
- `Selections` carries an answer even for widgets that a closed gate does not render. The record ignores those answers, which `Form.RecordDependsExactlyOnAskedAnswers` states.
- Loading the stylesheet is left out because it is file I/O.
- Loading the classifier with joblib and caching it are left out. The classifier's feature-name list is a parameter (`schema`).
- The classifier's internals are left out. `predict` is the parameter `classify`. Its label is any integer; the source's test `prediction[0] == 1` is modelled exactly.
- `predict_proba`, the percentage `churn_prob` shown in the banners, and the gauge are left out: they are floating point and rendering.
- The one-second pause before the analysis is left out because it only delays.
- Column order of the encoded frame before selection is not modelled: a frame is a map. After selection the order is the list's, which the model keeps.
- pandas dtypes are left out: indicator columns hold the integer 1, and charges are integers, as the integer sliders produce.
- Errors raised by a missing model file or a wrong feature attribute belong to the libraries and are left out. The code handles neither case, so no error path is modelled.
- get_dummies of a one-row frame makes one indicator column per text field, for the value the row holds. Every other indicator column the classifier knows comes only from reconciliation, with 0.
