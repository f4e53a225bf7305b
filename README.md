# Certificate print system front end, modelled in Dafny

This project models the browser side of a vehicle-certificate ("合格证")
print system. Its parts:

- **PrintPage**: operators scan a vehicle's VIN, VSN and engine number,
  have the backend check them, preview the certificate and print it.
- **ReprintPage**: a quality-department operator looks a vehicle up,
  corrects its parameters, has a new certificate number issued and prints
  a supplement.
- **ParameterList and ModelView**: maintain the vehicle-model parameter
  table.
- **StatusChange and GoPrint**: a wizard assigns a vehicle its print track,
  and a dialog sends it to the right print page.
- **Reports**: turns report rows into display cells.
- **UserStore and AppStore**: hold the signed-in user and the UI settings.

How the model is written:

- Pure code becomes datatypes, functions and lemmas. Each page and store
  whose handlers change state becomes a `class` with `modifies` clauses,
  and each method states the whole new state.
- Every backend call is an input of type `Reply` (`Ok(value)` or `Failed`).
  The request client resolves only when the business code is 200 or 201
  and rejects otherwise.
- Every page logs the requests it sends in a `sent` field and the messages
  it shows in `notices`. This lets the contracts state call order, and
  state that a call is missing.
- JavaScript values are the `Js.JsValue` datatype: truthiness, `||`, `?.`,
  object spread, `===` and `String(v)` are written out. Form values are maps
  from field name to value. The form library's rules are predicates in
  `Forms`.

Modules:

| module | what it holds |
|---|---|
| `Common` | `Option` and `Reply` |
| `Js` | JavaScript values |
| `Forms` | form rules |
| `Backend` | reading `response.data` |
| `Text` | `includes`, `indexOf`, `split`, ASCII case |
| `Identifiers` | the validators of `utils/index.js` |
| `Constants` | the constant tables |
| `StatusChange` | the track wizard |
| `GoPrint` | the route dialog |
| `PrintPage` | the normal print page |
| `ReprintPage` | the supplement page |
| `CertificatePreview` | the certificate layout |
| `Reports` | the statistics page |
| `ParameterList` | the parameter table |
| `ModelView` | the model-parameter modal |
| `UserStore` | the user store |
| `AppStore` | the UI-settings store |

## Model

| member | source | states |
|---|---|---|
| `Backend.Payload` | src/api/request.js:40-46 | A call yields `response.data` exactly when it resolves with a non-nullish value; a rejected call, or one whose value cannot be read, yields nothing |
| `Js.ShowOrEmpty` | src/pages/reprint/components/CertificatePreview.jsx:13 | `{v \|\| ""}` shows nothing for every falsy value (0 included) and a string as itself |
| `Js.Truthy` | src/pages/parameter/components/goPrintModal.jsx:9 | JavaScript truthiness: `if (!record)` returns for exactly the values `Js.FalsyValues` lists |
| `Js.FalsyValues` | src/pages/parameter/components/goPrintModal.jsx:9 | The falsy values are exactly undefined, null, false, 0 and "" |
| `Js.ToJsString` | src/pages/reports/ReportsPage.jsx:246 | `String(v)` as `+` with a string writes it: "undefined", "null", "true"/"false", decimal digits, the string itself, arrays joined by "," with nullish elements empty, "[object Object]" |
| `Js.RenderText` | src/pages/reprint/components/CertificatePreview.jsx:13 | The text React shows for a child: strings and numbers as text, booleans, nullish values and objects as nothing, arrays element by element |
| `Js.NatToString` | src/pages/reports/ReportsPage.jsx:246 | The decimal text of a number is non-empty, made of digits only, and begins with "0" only for 0 |
| `Js.NatToStringReadsBack` | src/pages/reports/ReportsPage.jsx:246 | The decimal text of n denotes n, so `String` loses nothing of a number |
| `Js.ScalarText` | src/pages/reports/ReportsPage.jsx:246 | `String(n)` of a non-negative number reads back as n; React shows strings and numbers as `String` writes them, and booleans, nullish values and objects as nothing |
| `Forms.RequiredRejectsEmpty` | src/pages/print/PrintPage.jsx:198 | A required field rejects undefined, null and ""; among strings it accepts exactly the non-empty ones |
| `Forms.RequiredRule` | src/pages/parameter/ParameterList.jsx:353 | `{ required: true }` fails on undefined, null, "" and [], and passes on every other value |
| `Forms.LenRule` | src/pages/parameter/ParameterList.jsx:354 | `{ len: n }` is a string rule: it is skipped on undefined, null and "", passes on a string of exactly n characters, and fails on every number, boolean, array and object |
| `Forms.LenRuleIff` | src/pages/parameter/ParameterList.jsx:354 | A length rule passes exactly on a skipped value or on a string of that length |
| `Forms.PatternRule` | src/pages/parameter/ParameterList.jsx:380 | `{ pattern }` is skipped on undefined, null and "", and otherwise passes exactly when the pattern matches the value's text |
| `Forms.FieldsValue` | src/pages/print/PrintPage.jsx:79 | `getFieldsValue()` returns exactly the fields mounted at the time of the call, which the caller names, with their stored values; a field without a stored value reads as undefined |
| `Forms.FieldsValueSeesOnlyMounted` | src/pages/print/PrintPage.jsx:141-147 | With nothing mounted the read is empty. Reading twice changes nothing, narrowing the mounted set narrows the result, and a value stored for an unmounted field never shows |
| `Forms.MountWithInitialValues` | src/pages/reprint/ReprintPage.jsx:255-258 | A form mounting with `initialValues` keeps every value its store holds, and takes the initial value only for the keys the store lacks |
| `Forms.MountKeepsStore` | src/pages/reprint/ReprintPage.jsx:255-258 | Mounting into an empty store shows the initial values. After that, mounting again with any other initial values changes none of the stored fields |
| `Text.IndexOfFirst` | src/pages/reports/ReportsPage.jsx:157 | `indexOf` returns the first occurrence, and finds none exactly when `includes` is false |
| `Text.SplitContains` | src/pages/reports/ReportsPage.jsx:157-158 | A string splits into two or more pieces exactly when it contains the separator, so `split(...)[1]` exists after `includes` |
| `Text.SplitPiecesAreFree` | src/pages/reports/ReportsPage.jsx:158 | No piece of a split contains the separator |
| `Text.JoinSplit` | src/pages/reports/ReportsPage.jsx:158 | Joining the pieces of a split with its separator gives the string back |
| `Text.SecondPiece` | src/pages/reports/ReportsPage.jsx:158 | `split(sep)[1]` is the text between the first and the second occurrence, or from the first occurrence to the end |
| `Text.ToLowerAsciiIdempotent` | src/pages/parameter/components/ModelView.jsx:86-88 | Lower-casing twice is lower-casing once |
| `Identifiers.MatchesRepeatIff` | src/utils/index.js:55 | An anchored `^[class]{n}$` accepts exactly the strings of length n whose characters are all in the class |
| `Identifiers.MatchesPlusIff` | src/pages/parameter/ParameterList.jsx:380 | An anchored `^[class]+$` accepts exactly the non-empty strings over the class |
| `Identifiers.VinClassIsIsoAlphabet` | src/utils/index.js:55 | `[A-HJ-NPR-Z0-9]` is the ISO 3779 VIN alphabet: upper-case letters and digits except I, O and Q |
| `Identifiers.ValidateVinIff` | src/utils/index.js:53-56 | `validateVIN` holds iff the value is a string of 17 VIN characters |
| `Identifiers.ValidateVsnIff` | src/utils/index.js:63-66 | `validateVSN` holds iff the value is a string of 13 characters from A-Z and 0-9 |
| `Identifiers.ValidateCertificateNoIff` | src/utils/index.js:73-76 | `validateCertificateNo` holds iff the value is a string of 14 characters from A-Z and 0-9 |
| `Identifiers.ValidatorsRefuseEmptyAndNonStrings` | src/utils/index.js:54 | All three validators refuse non-strings and "" |
| `Identifiers.ValidatorsRefuseLowerCase` | src/utils/index.js:65 | One lower-case letter makes all three validators refuse, because nothing is case-folded |
| `Identifiers.VinPrefix` | src/utils/index.js:134-137 | `getVINPrefix` is "" below 8 characters and otherwise an 8-character prefix of the VIN |
| `Identifiers.VsnPrefix` | src/utils/index.js:144-147 | `getVSNPrefix` is "" below 2 characters and otherwise a 2-character prefix of the VSN |
| `Identifiers.ValidVinHasPrefix` | src/utils/index.js:134-137 | Every valid VIN has a full 8-character prefix made of VIN characters |
| `Identifiers.ValidateVin` | src/utils/index.js:53-56 | `validateVIN`: a non-empty string matching `^[A-HJ-NPR-Z0-9]{17}$`; `Identifiers.ValidateVinIff` states what it accepts |
| `Identifiers.ValidateVsn` | src/utils/index.js:63-66 | `validateVSN`: a non-empty string matching `^[A-Z0-9]{13}$`; `Identifiers.ValidateVsnIff` states what it accepts |
| `Identifiers.ValidateCertificateNo` | src/utils/index.js:73-76 | `validateCertificateNo`: a non-empty string matching `^[A-Z0-9]{14}$`; `Identifiers.ValidateCertificateNoIff` states what it accepts |
| `Constants.RoleNamesCoverRoles` | src/constants/index.js:10-29 | ROLE_NAMES has one entry for each of the seven roles, and each role's value is its key |
| `Constants.PrintTypeNamesCoverPrintTypes` | src/constants/index.js:32-43 | PRINT_TYPE_NAMES is keyed by exactly the three print types NORMAL, REPRINT and SUPPLEMENT |
| `Constants.VehicleTypeNamesCoverVehicleTypes` | src/constants/index.js:46-59 | VEHICLE_TYPE_NAMES names exactly the four vehicle types |
| `Constants.OrderStatusNamesCoverOrderStatus` | src/constants/index.js:62-75 | ORDER_STATUS_NAMES names exactly the four order states |
| `Constants.OperatorStatusNamesCoverOperatorStatus` | src/constants/index.js:78-87 | OPERATOR_STATUS_NAMES names exactly the two operator states |
| `Constants.NamesAreNonEmpty` | src/constants/index.js:39-59 | Every print-type and vehicle-type name is non-empty, so a lookup that hits is truthy |
| `Constants.LengthsAgreeWithValidators` | src/constants/index.js:90-96 | VIN_LENGTH, VSN_LENGTH and CERTIFICATE_NO_LENGTH equal the lengths the validators accept |
| `Constants.DefaultPageSizeIsOffered` | src/constants/index.js:99-103 | The default page size is one of the page-size options, and the default page is 1 |
| `StatusChange.Classify` | src/pages/parameter/components/StatusChangeModal.jsx:38-87 | The decision the wizard implements, stated without steps: every outcome is one of the five tracks, and "whole" comes exactly when no earlier answer settled the track |
| `StatusChange.NextEffectAt` | src/pages/parameter/components/StatusChangeModal.jsx:42-83 | One "next" press. Below step 3 it is refused exactly when the step has no answer. With an answer it submits exactly for "reprint" or "supplement" at step 0 (reporting that answer) and for "yes" at step 1 or 2 (reporting "chassis" or "order"); any other answer moves one step on. Step 3 submits "whole" |
| `StatusChange.Run` | src/pages/parameter/components/StatusChangeModal.jsx:38-87 | Pressing "next" once per remaining question reports a track unless the answers run out first; from step 3 it reports "whole" |
| `StatusChange.RunClassifies` | src/pages/parameter/components/StatusChangeModal.jsx:38-87 | Walking the steps with three answers reports exactly the track `Classify` gives |
| `StatusChange.RunReportsTrackTag` | src/pages/parameter/components/StatusChangeModal.jsx:38-87 | From any step and any answers, a reported track is one of the five |
| `StatusChange.EveryTrackReachable` | src/pages/parameter/components/StatusChangeModal.jsx:113-158 | Each of the five tracks is reached by some choice of the offered radio values |
| `StatusChange.ButtonText` | src/pages/parameter/components/StatusChangeModal.jsx:172-177 | The button reads "完成打印" exactly at step 3, and "下一步" otherwise |
| `StatusChange.RecordAnswer` | src/pages/parameter/components/StatusChangeModal.jsx:44 | The answer is recorded in the field of its step and every other answer is kept |
| `StatusChange.StatusChangeModal.constructor` | src/pages/parameter/components/StatusChangeModal.jsx:15-21 | The wizard starts at step 0 with no answers |
| `StatusChange.StatusChangeModal.SetProps` | src/pages/parameter/components/StatusChangeModal.jsx:24-35 | When `open` or `record` changes and the modal is open on a record, the wizard is back at step 0 with no answers; otherwise nothing changes |
| `StatusChange.StatusChangeModal.Pick` | src/pages/parameter/components/StatusChangeModal.jsx:120-126 | Picking a radio value makes it the current step's answer |
| `StatusChange.StatusChangeModal.HandleNext` | src/pages/parameter/components/StatusChangeModal.jsx:38-108 | Does what `NextEffectAt` says. A submission reports `{vin, type}` once; success closes the modal with "状态更新成功", failure keeps it open with "状态更新失败" at the same step. The reported type is `Classify` of the recorded answers, and the step stays within 0..3 |
| `StatusChange.StatusChangeModal.HandlePrev` | src/pages/parameter/components/StatusChangeModal.jsx:90-93 | The step becomes max(0, step - 1), which does nothing at step 0; the form is cleared |
| `GoPrint.QueryValue` | src/pages/parameter/components/goPrintModal.jsx:12-14 | A falsy vin, vsnCode or type is sent as empty text, and a string as itself |
| `GoPrint.Lookup` | src/pages/parameter/components/goPrintModal.jsx:17-19 | Reading a query parameter finds its first occurrence, or nothing when the key is absent |
| `GoPrint.RouteFor` | src/pages/parameter/components/goPrintModal.jsx:8-22 | OK navigates exactly when there is a record. The path is /reprint exactly when the type is "supplement", and /print otherwise |
| `GoPrint.Prompt` | src/pages/parameter/components/goPrintModal.jsx:24-41 | The dialog shows a prompt exactly when there is a record |
| `GoPrint.RouteCarriesRecord` | src/pages/parameter/components/goPrintModal.jsx:8-22 | OK navigates (and closes) exactly when there is a record. "supplement" goes to /reprint with vin and vsn only; every other type goes to /print with vin, vsn and type. The target reads back the record's own values |
| `GoPrint.PromptsDistinguishTracks` | src/pages/parameter/components/goPrintModal.jsx:24-41 | Each of the five track types gets its own prompt; any other type gets the "unknown" prompt |
| `GoPrint.ClassifiedRecordRoutes` | src/pages/parameter/components/goPrintModal.jsx:8-41 | A record the wizard classified has a specific prompt, and it is routed to /reprint when it is a supplement and to /print otherwise |
| `PrintPage.VinFieldOk` | src/pages/print/PrintPage.jsx:152-163 | The VIN box's rules: required, VIN_LENGTH long, and `validateVIN` on a non-empty value; `PrintPage.VinFieldIff` states what they accept |
| `PrintPage.VinFieldIff` | src/pages/print/PrintPage.jsx:152-163 | The VIN box accepts exactly the 17-character texts over the VIN alphabet, and any value it accepts is a string that passes `validateVIN` |
| `PrintPage.VsnFieldOk` | src/pages/print/PrintPage.jsx:175-186 | The VSN box's rules: required, VSN_LENGTH long, and `validateVSN` on a non-empty value; `PrintPage.VsnFieldIff` states what they accept |
| `PrintPage.VsnFieldIff` | src/pages/print/PrintPage.jsx:175-186 | The VSN box accepts exactly the 13-character texts over A-Z and 0-9, and any value it accepts is a string that passes `validateVSN` |
| `PrintPage.FormValid` | src/pages/print/PrintPage.jsx:141-198 | The scan form passes, so `onFinish` runs: the VIN and VSN boxes pass their rules and an engine number is given |
| `PrintPage.PrintRequest` | src/pages/print/PrintPage.jsx:94-98 | The print body is the form's values with `parameters` set to the preview data, and every other field kept |
| `PrintPage.MountedValues` | src/pages/print/PrintPage.jsx:141-147 | What `vinForm.getFieldsValue()` reads. At step 0 it is the three scan fields, and passes the rules exactly when the store does. At any later step the scan form is not rendered and the read is empty |
| `PrintPage.ScannedValues` | src/pages/print/PrintPage.jsx:61-73 | The scan as the store keeps it: the three scan fields, valid exactly when the store is, and equal to what step 0 reads |
| `PrintPage.LaterRequestsLoseTheScan` | src/pages/print/PrintPage.jsx:76-123 | As written, after step 0 a valid scan still yields a preview request with no parameters, a print body holding only the preview data, and a reprint whose VIN is undefined |
| `PrintPage.IntendedRequestsCarryTheScan` | src/pages/print/PrintPage.jsx:91-98 | Built from the stored scan, the print body carries the checked VIN, VSN and engine number, each passing its rule, and the preview data as `parameters` |
| `PrintPage.PageHoldsTheCheckedScan` | src/pages/print/PrintPage.jsx:61-88 | At every step after 0 the store still holds exactly the scan the validation accepted, with a valid VIN and VSN, while the form reads as empty |
| `PrintPage.ChecksWereValidAppend` | src/pages/print/PrintPage.jsx:61-73 | Appending a check request that passed the rules keeps "every check request passed the rules" |
| `PrintPage.Page.constructor` | src/pages/print/PrintPage.jsx:33-38 | Step 0, an empty form and no data |
| `PrintPage.Page.EnterField` | src/pages/print/PrintPage.jsx:150-198 | Typing at step 0, where the boxes exist, changes exactly the one field |
| `PrintPage.Page.SubmitVinForm` | src/pages/print/PrintPage.jsx:61-73 | A form failing its rules sends nothing. Otherwise the mounted values are sent for checking. A readable reply stores the result, moves 0 to 1, shows "校验成功" and records the scan as accepted; a failure changes nothing else |
| `PrintPage.Page.AcceptScan` | src/pages/print/PrintPage.jsx:66-68 | The validation result is kept, step 1 opens with "校验成功", and the stored scan is recorded as the accepted one |
| `PrintPage.Page.ConfirmValidation` | src/pages/print/PrintPage.jsx:76-88 | What `getFieldsValue()` reads at step 1 (nothing) is sent for a preview. A readable reply stores it and moves to step 2; a failure leaves step and data |
| `PrintPage.Page.Print` | src/pages/print/PrintPage.jsx:91-108 | The print request built from what step 2 reads (nothing) and the preview is sent. A readable reply stores the result, moves to step 3 and shows "打印成功"; a failure leaves step and data |
| `PrintPage.Page.Reprint` | src/pages/print/PrintPage.jsx:111-123 | Sends only `{vin}` as read at step 3 (undefined) and never changes the step. A resolved call shows "重打成功", and a readable reply replaces the print result |
| `PrintPage.Page.HandleReset` | src/pages/print/PrintPage.jsx:126-132 | Offered at step 0 and, once there is a print result, at step 3. Back to step 0 with the form, the validation result, the preview and the print result cleared |
| `PrintPage.Page.BackFromValidation` | src/pages/print/PrintPage.jsx:263 | Step 1 goes back to step 0 and nothing else changes |
| `PrintPage.Page.BackFromPreview` | src/pages/print/PrintPage.jsx:321 | Step 2 goes back to step 1 and nothing else changes |
| `ReprintPage.IsQualityUser` | src/pages/reprint/ReprintPage.jsx:85-86 | The role gate: the user's `operator_type` is strictly "质量部" |
| `ReprintPage.IssueRequest` | src/pages/reprint/ReprintPage.jsx:115-119 | The number request carries exactly the form's vin, `engineNo` taken from `engineInfo`, and printType "supplement" |
| `ReprintPage.Supplement` | src/pages/reprint/ReprintPage.jsx:105-136 | The save is always sent first. The number is requested only after a truthy save result, and the re-read only after the number call resolves. New data exists only when all three can be read. The page advances on a falsy save result or on complete data, and stays on the edit step after any failure |
| `ReprintPage.MergedCarriesIssuedNumber` | src/pages/reprint/ReprintPage.jsx:122-127 | The new certificate data is the re-read record with `certificateNo` replaced by the issued number, and every other field kept |
| `ReprintPage.PreviewShowsIssuedNumber` | src/pages/reprint/ReprintPage.jsx:122-127 | The preview then prints the issued number in cell 1 |
| `ReprintPage.IssueFollowsSaveAppend` | src/pages/reprint/ReprintPage.jsx:105-136 | Joining two logs in which every number request directly follows its save keeps that property |
| `ReprintPage.SupplementRequestsFollowSave` | src/pages/reprint/ReprintPage.jsx:110-121 | Within one supplement, the number request directly follows the save and is built from exactly the saved values |
| `ReprintPage.IntendedEditValues` | src/pages/reprint/ReprintPage.jsx:255-258 | What the edit form is meant to show for a record: every edit field holds that record's value |
| `ReprintPage.EditValuesAfterMount` | src/pages/reprint/ReprintPage.jsx:255-258 | What the edit form shows as written: a field already in the store keeps the stored value, and only the others take the record's |
| `ReprintPage.FirstLookupAsIntended` | src/pages/reprint/ReprintPage.jsx:255-258 | Into an empty store, the first lookup shows the record as intended |
| `ReprintPage.LaterLookupShowsEarlierRecord` | src/pages/reprint/ReprintPage.jsx:255-258 | Once record a was shown, mounting the form for record b shows a's value in every field a has |
| `ReprintPage.LaterLookupCounterexample` | src/pages/reprint/ReprintPage.jsx:255-258 | Looking up VIN …347 after VIN …346 shows …346 in the VIN box, where …347 is intended |
| `ReprintPage.Page.constructor` | src/pages/reprint/ReprintPage.jsx:41-48 | Step 0, empty forms and no data |
| `ReprintPage.Page.Prefill` | src/pages/reprint/ReprintPage.jsx:51-60 | A non-empty `vin` in the query string fills the search box, and nothing else changes |
| `ReprintPage.Page.EnterSearchVin` | src/pages/reprint/ReprintPage.jsx:198-207 | Typing changes exactly the search box |
| `ReprintPage.Page.SubmitSearch` | src/pages/reprint/ReprintPage.jsx:83-102 | An empty VIN does nothing. A user outside "质量部" gets the permission notice, and no call is made. Otherwise the lookup is sent; a readable reply is shown as `ShowRecord` says, and a failure leaves step and data |
| `ReprintPage.Page.ShowRecord` | src/pages/reprint/ReprintPage.jsx:94-97 | A found record is kept and step 1 opens with "查询成功". A truthy record mounts the edit form with it as initial values, so the form shows `EditValuesAfterMount` of the previous store |
| `ReprintPage.Page.MountEditForm` | src/pages/reprint/ReprintPage.jsx:255-258 | The edit form mounts for the current record: the record becomes its initial values, under the values already stored. Nothing else changes |
| `ReprintPage.Page.EditField` | src/pages/reprint/ReprintPage.jsx:264-565 | Typing changes exactly the one edit field |
| `ReprintPage.Page.HandleSupplementPrint` | src/pages/reprint/ReprintPage.jsx:105-136 | The edit form's mounted values go to `Supplement`, and the log grows by exactly the requests it sends. The data becomes the new data when there is any. The step becomes 2 with "修改成功" when the chain advances, and otherwise stays 1 |
| `ReprintPage.Page.ApplySupplement` | src/pages/reprint/ReprintPage.jsx:110-131 | The page takes in one supplement's outcome: the log grows by its requests, a new record replaces the data, and advancing moves to step 2 with "修改成功". The forms and the print result stay |
| `ReprintPage.Page.HandlePrint` | src/pages/reprint/ReprintPage.jsx:139-161 | Step 3 is reached exactly when the operator confirms. The print result is then the certificate data plus the time and the operator's name. No call is made |
| `ReprintPage.Page.HandleReset` | src/pages/reprint/ReprintPage.jsx:164-171 | Back to step 0 with the search form, the certificate data, the modified data and the print result cleared. The edit form returns to the initial values it last rendered with, the record shown before |
| `ReprintPage.Page.BackFromEdit` | src/pages/reprint/ReprintPage.jsx:582 | Offered at step 1 with a record shown. Step 1 goes back to step 0 and nothing else changes |
| `ReprintPage.Page.BackFromPreview` | src/pages/reprint/ReprintPage.jsx:611 | Step 2 goes back to step 1, and the edit form mounts again for the merged record, under the stored values. No number is issued |
| `CertificatePreview.Preview` | src/pages/reprint/components/CertificatePreview.jsx:3-173 | Falsy data renders nothing. Otherwise there is one cell per layout slot, in order, each with its number, caption and the text of its source |
| `CertificatePreview.CellText` | src/pages/reprint/components/CertificatePreview.jsx:13-166 | The text of one cell: a plain field as `{v \|\| ""}`, the brand cell as "<brand>牌 <name>", the displacement cell as "<displacement>/<power>" |
| `CertificatePreview.LayoutNumbers` | src/pages/reprint/components/CertificatePreview.jsx:12-166 | There are 38 cells, numbered 1 to 19, then 38, then 20 to 37 |
| `CertificatePreview.LabelOrder` | src/pages/reprint/components/CertificatePreview.jsx:88-91 | Every number from 1 to 38 labels exactly one cell, and 38 sits right after 19 |
| `CertificatePreview.FirstCellIsCertificateNo` | src/pages/reprint/components/CertificatePreview.jsx:13 | Cell 1 shows the record's `certificateNo` as it is |
| `CertificatePreview.PlainCellsShowTheirField` | src/pages/reprint/components/CertificatePreview.jsx:13-166 | Every single-field cell shows its field's text, and nothing when the field is falsy (0 included) |
| `CertificatePreview.BrandCell` | src/pages/reprint/components/CertificatePreview.jsx:26-27 | Cell 4 reads "<brand>牌 <name>"; with neither present it is a single space |
| `CertificatePreview.DisplacementPowerCell` | src/pages/reprint/components/CertificatePreview.jsx:65-66 | Cell 13 reads "<displacement>/<power>"; without a displacement it is the power alone |
| `Reports.PrintStatusFromDescription` | src/pages/reports/ReportsPage.jsx:157-158 | When `operateDesc` holds "类型：", the status is the text between its first and second occurrence, or to the end |
| `Reports.PrintStatusFallback` | src/pages/reports/ReportsPage.jsx:160 | Otherwise a known print type shows its name, and any other value shows unchanged |
| `Reports.LegacyStatus` | src/pages/reports/ReportsPage.jsx:158 | The status read from a legacy description never contains "类型：" |
| `Reports.PrintStatusCell` | src/pages/reports/ReportsPage.jsx:156-161 | A text description holding "类型：" always gives a text status without the marker |
| `Reports.FirstCertMatch` | src/pages/reports/ReportsPage.jsx:174 | The leftmost position where "证号：" is followed by a letter or digit, or none when there is none |
| `Reports.AlnumRunEnd` | src/pages/reports/ReportsPage.jsx:174 | The end of the maximal run of ASCII letters and digits |
| `Reports.CertificateNoText` | src/pages/reports/ReportsPage.jsx:174-175 | The number shown is "-" or a non-empty run of ASCII letters and digits |
| `Reports.CertificateNoCell` | src/pages/reports/ReportsPage.jsx:173-176 | A text description is searched, and anything else shows "-" |
| `Reports.CertificateNoDashIff` | src/pages/reports/ReportsPage.jsx:173-176 | The number shows as "-" exactly when no "证号：" is followed by a letter or digit |
| `Reports.CertificateNoIsLeftmostRun` | src/pages/reports/ReportsPage.jsx:173-176 | Otherwise it is the whole maximal alphanumeric run after the leftmost such marker |
| `Reports.OrderTypeCell` | src/pages/reports/ReportsPage.jsx:222-227 | "order" shows as "订单车"; anything else shows unchanged |
| `Reports.PassengerCell` | src/pages/reports/ReportsPage.jsx:240 | The value, or "-" when it is falsy |
| `Reports.MassCell` | src/pages/reports/ReportsPage.jsx:246 | "-" exactly when the value is falsy, and otherwise its text followed by " kg" |
| `Reports.MassCellOfNumber` | src/pages/reports/ReportsPage.jsx:252 | A non-zero mass shows its decimal text and " kg", and for a positive mass the text before " kg" reads back as the mass |
| `Reports.PrintTypeCell` | src/pages/reports/ReportsPage.jsx:370 | "qualified" shows as "合格证"; anything else shows unchanged |
| `Reports.Page.constructor` | src/pages/reports/ReportsPage.jsx:29-34 | Tab 1, an empty table and both counts 0 |
| `Reports.Page.EnterField` | src/pages/reports/ReportsPage.jsx:130-135 | Typing changes exactly the one search field |
| `Reports.Page.SearchPrintHistory` | src/pages/reports/ReportsPage.jsx:37-47 | Without a VIN nothing is sent. Otherwise the table becomes the reply or `[]`, and a failure keeps the table |
| `Reports.RangeParams` | src/pages/reports/ReportsPage.jsx:53-56 | The range search sends exactly `start` and `end`, each the formatted end of the range |
| `Reports.Page.SearchOrderModify` | src/pages/reports/ReportsPage.jsx:50-66 | Without a time range nothing is sent. Otherwise the range is sent; the table becomes the reply or `[]`, and a failure empties it |
| `Reports.CountAsWritten` | src/pages/reports/ReportsPage.jsx:77-78 | The stored count is the resolved reply when that is truthy and 0 otherwise, so it is always 0 or truthy |
| `Reports.IntendedCount` | src/pages/reports/ReportsPage.jsx:77-78 | The count as every other page reads a reply: its `data` when truthy, 0 when the call fails or the reply is nullish |
| `Reports.CountHoldsTheWrapper` | src/pages/reports/ReportsPage.jsx:77-78 | For a successful reply `{code: 200, data: n}` the stored count is the wrapper object, while the intended count is n and shows as n's decimal digits |
| `Reports.Page.SearchCertificateCount` | src/pages/reports/ReportsPage.jsx:69-85 | Without a time range nothing is sent. Otherwise the range is sent and the count becomes `Reports.CountAsWritten` of the reply: the reply, or 0 when it is falsy or the call fails |
| `Reports.Page.SearchOperatorCount` | src/pages/reports/ReportsPage.jsx:88-106 | Both the operator and the range are required. The operator goes out as `user` with the range. The count becomes `Reports.CountAsWritten` of the reply |
| `Reports.Page.SearchCertificateInfo` | src/pages/reports/ReportsPage.jsx:109-121 | The table becomes `[reply]` for a truthy reply, and `[]` otherwise or on failure |
| `Reports.Page.ChangeTab` | src/pages/reports/ReportsPage.jsx:382-386 | Called for one of the five tabs other than the open one. The new tab is shown with the form cleared and the table emptied; the counts stay |
| `ParameterList.ChassisIdOk` | src/pages/parameter/ParameterList.jsx:470-479 | The chassis-ID validator: a "CHASSIS" category needs an ID, and a non-empty ID must be seven decimal digits |
| `ParameterList.ChassisIdIff` | src/pages/parameter/ParameterList.jsx:470-479 | An empty chassis ID is accepted exactly when the category is not "CHASSIS"; a non-empty one exactly when it is seven decimal digits |
| `ParameterList.ModelCodeOk` | src/pages/parameter/ParameterList.jsx:352-355 | 车型代码 is required and four long |
| `ParameterList.ModelCodeIff` | src/pages/parameter/ParameterList.jsx:352-355 | The model code box accepts exactly the strings of four characters; a number, boolean, array or object fails it |
| `ParameterList.ChassisModelOk` | src/pages/parameter/ParameterList.jsx:378-380 | 底盘型号 is required and matches `^[A-Z0-9]+$` |
| `ParameterList.ChassisModelIff` | src/pages/parameter/ParameterList.jsx:378-380 | A chassis-model text is accepted exactly when it is one or more characters from A-Z and 0-9 |
| `ParameterList.FormValid` | src/pages/parameter/ParameterList.jsx:253-255 | `validateFields` resolves: the model code, chassis model, required fields and chassis ID all pass |
| `ParameterList.FetchRequest` | src/pages/parameter/ParameterList.jsx:151-156 | The list request `{page, pageSize, ...searchParams, ...params}`; `ParameterList.FetchPrecedence` states which part wins |
| `ParameterList.FetchPrecedence` | src/pages/parameter/ParameterList.jsx:151-156 | The list request has the keys of all three parts. Explicit parameters win over the search filter, which wins over the current pagination |
| `ParameterList.SearchRequest` | src/pages/parameter/ParameterList.jsx:175-179 | A search asks for page 1 with the search form's values over the previous filter |
| `ParameterList.SearchIgnoresOldFilter` | src/pages/parameter/ParameterList.jsx:175-179 | A search requests page 1 with exactly its own filter; the previous filter cannot leak into it |
| `ParameterList.ResetRequestAsWritten` | src/pages/parameter/ParameterList.jsx:182-186 | The reset request as the code builds it asks for page 1 and still carries every key of the previous filter |
| `ParameterList.ResetRequest` | src/pages/parameter/ParameterList.jsx:182-186 | The intended reset request is exactly page 1 at the current page size |
| `ParameterList.ResetKeepsOldFilter` | src/pages/parameter/ParameterList.jsx:182-186 | The reset as written still sends the previous search's model code |
| `ParameterList.ResetRequestIsUnfiltered` | src/pages/parameter/ParameterList.jsx:182-186 | The intended reset asks for page 1 with no filter. It coincides with the as-written request exactly when there was no filter |
| `ParameterList.ListResult` | src/pages/parameter/ParameterList.jsx:157-161 | A readable list reply gives the rows (or `[]`) and the total (or 0). A reply whose `data` is nullish yields nothing |
| `ParameterList.ModalTitle` | src/pages/parameter/ParameterList.jsx:331-337 | "新增车型参数" for add and "编辑车型参数" for edit. Any other mode gets the given title: "复制车型参数" on the list page, and the view title in the modal |
| `ParameterList.SaveRequest` | src/pages/parameter/ParameterList.jsx:253-274 | A save is issued exactly when every rule passes (so the model code is a four-character string) and, for an update, there is a row. Add and copy create; anything else updates, keyed by the row's model code |
| `ParameterList.SavedValuesPassRules` | src/pages/parameter/ParameterList.jsx:255 | A saved parameter set holds exactly the modal's fields, and each passes its rules |
| `ParameterList.SavedNotice` | src/pages/parameter/ParameterList.jsx:259-264 | "新增成功" for a creation and "更新成功" for an update |
| `ParameterList.Page.constructor` | src/pages/parameter/ParameterList.jsx:39-50 | An empty table, page 1 of size 10 with total 0, no filter and the modal closed in add mode |
| `ParameterList.Page.Fetch` | src/pages/parameter/ParameterList.jsx:148-167 | One list request is sent. A readable reply replaces the rows and the total, and otherwise they stay as they were |
| `ParameterList.Page.Mount` | src/pages/parameter/ParameterList.jsx:170-172 | The first load asks for the current page with the current filter, and a readable reply becomes the rows and the total. Nothing else changes |
| `ParameterList.Page.EnterSearch` | src/pages/parameter/ParameterList.jsx:281-296 | Typing changes exactly the one search field; every other part of the page stays |
| `ParameterList.Page.HandleSearch` | src/pages/parameter/ParameterList.jsx:175-179 | The search form's values become the filter, the page becomes 1 and page 1 is requested with that filter. The search form, the modal and the notices stay |
| `ParameterList.Page.HandleReset` | src/pages/parameter/ParameterList.jsx:182-186 | The filter is dropped and the page becomes 1, while the request sent is `ParameterList.ResetRequestAsWritten` of the previous filter, as the code builds it. The search form, the modal and the notices stay |
| `ParameterList.Page.HandleTableChange` | src/pages/parameter/ParameterList.jsx:189-192 | The new page and size are kept and requested with the current filter. The filter, the search form, the modal and the notices stay |
| `ParameterList.Page.HandleAdd` | src/pages/parameter/ParameterList.jsx:195-200 | The modal opens empty in add mode with no row. The table, the filter, the search form and the notices stay |
| `ParameterList.Page.HandleEdit` | src/pages/parameter/ParameterList.jsx:203-213 | The row's stored parameters are requested by model code. A readable reply merges them into the form and opens the modal in edit mode on that row. A failure changes nothing |
| `ParameterList.Page.HandleCopy` | src/pages/parameter/ParameterList.jsx:216-228 | As edit, but in copy mode and without the stored model code: the form's model code is left as it was |
| `ParameterList.Page.SetField` | src/pages/parameter/ParameterList.jsx:359 | Called while the modal is open. Typing changes the one field, except the model code in edit mode, whose box is disabled. Everything outside the modal's form stays |
| `ParameterList.Page.HandleSubmit` | src/pages/parameter/ParameterList.jsx:253-274 | Nothing is sent unless `SaveRequest` gives a save. A failed save leaves the modal open. A successful one shows its notice, closes the modal and reloads the current page with the current filter, and a readable reload reply becomes the rows and the total. The form, the mode, the row, the filter and the search form stay |
| `ParameterList.Page.CloseAndReload` | src/pages/parameter/ParameterList.jsx:266-267 | The notice is shown, the modal closes and the current page is reloaded with the current filter; a readable reply becomes the rows and the total, and otherwise they stay |
| `ParameterList.Page.CloseModal` | src/pages/parameter/ParameterList.jsx:340 | Only the modal closes: the form, the mode, the row, the table, the filter, the search form, the calls and the notices stay |
| `ModelView.IsReadOnly` | src/pages/parameter/components/ModelView.jsx:54 | The modal is read-only exactly in view mode |
| `ModelView.OkText` | src/pages/parameter/components/ModelView.jsx:70 | The OK button reads "关闭" exactly in read-only mode, and "确定" otherwise |
| `ModelView.TitleAgreesWithReadOnly` | src/pages/parameter/components/ModelView.jsx:54-60 | A read-only modal is titled "查看车型参数". That title is used exactly for the modes other than add and edit |
| `ModelView.ShowTemplateSelector` | src/pages/parameter/components/ModelView.jsx:77 | The template selector exists only when adding and when there are models to copy |
| `ModelView.OptionLabel` | src/pages/parameter/components/ModelView.jsx:90 | A template's option reads `${modelCode} - ${vehicleBrand}` |
| `ModelView.FilterOption` | src/pages/parameter/components/ModelView.jsx:86-88 | An option is shown when its lower-cased label contains the lower-cased typed text |
| `ModelView.FilterOptionIgnoresCase` | src/pages/parameter/components/ModelView.jsx:86-88 | Lower-casing the typed text or the label first does not change which options are shown |
| `ModelView.FilterOptionEmptyAndSelf` | src/pages/parameter/components/ModelView.jsx:86-88 | An empty search shows every option, and every label matches itself |
| `ModelView.FilterFindsLowerCaseCode` | src/pages/parameter/components/ModelView.jsx:86-92 | Typing a template's model code in lower case still finds it |
| `ModelView.FindTemplate` | src/pages/parameter/components/ModelView.jsx:32 | `find` returns the first model whose model code is strictly equal to the code. It stops with an error at a null element, and every element before the stop is a non-null non-match |
| `ModelView.TemplateData` | src/pages/parameter/components/ModelView.jsx:35-36 | The template's own fields without `id` |
| `ModelView.RulesPass` | src/pages/parameter/components/ModelView.jsx:103-441 | Every rule of the modal passes: its required fields are filled and the chassis model matches `^[A-Z0-9]+$` |
| `ModelView.SubmittedValuesPassRules` | src/pages/parameter/components/ModelView.jsx:45-52 | The submitted values hold every field of the modal, and each passes its rule |
| `ModelView.ModelViewForm.constructor` | src/pages/parameter/components/ModelView.jsx:12 | An empty form |
| `ModelView.ModelViewForm.Sync` | src/pages/parameter/components/ModelView.jsx:14-22 | Opening for an edit or a view merges the record into the form. Opening in any other mode empties the form. A closed modal changes nothing |
| `ModelView.ModelViewForm.TemplateImport` | src/pages/parameter/components/ModelView.jsx:25-43 | Runs only where the selector is shown. An empty code resets the form. A found template is merged in without its `id`, so the model code becomes the chosen one, and "模板导入成功" is shown. No match leaves the form unchanged. A failing search shows "模板导入失败" |
| `ModelView.ModelViewForm.SetField` | src/pages/parameter/components/ModelView.jsx:105-461 | Typing changes the one field, except in view mode, where every input is disabled |
| `ModelView.ModelViewForm.HandleOk` | src/pages/parameter/components/ModelView.jsx:45-52 | The form's values go to the page exactly when every rule passes |
| `UserStore.Rehydrate` | src/store/userStore.js:72-78 | Loading a stored slice merges it over the current state: an empty slice keeps the state, and a complete one replaces all three fields |
| `UserStore.Partialize` | src/store/userStore.js:74-78 | The persisted slice is exactly `{user, token, isAuthenticated}` |
| `UserStore.RehydratePartialize` | src/store/userStore.js:72-78 | A persisted state comes back unchanged, whatever the store held before loading it |
| `UserStore.RehydrateKeepsMissing` | src/store/userStore.js:72-78 | A stored slice without a token keeps the current token |
| `UserStore.Store.constructor` | src/store/userStore.js:26-30 | No user, no token, not authenticated |
| `UserStore.Store.SetUserInfo` | src/store/userStore.js:33-37 | The user is replaced. The flag is set exactly when the user is truthy, and the token is kept |
| `UserStore.Store.SetToken` | src/store/userStore.js:40-43 | Only the token changes |
| `UserStore.Store.Login` | src/store/userStore.js:46-51 | User and token are set, and the store is authenticated |
| `UserStore.Store.Logout` | src/store/userStore.js:54-59 | All three fields return to their initial values |
| `UserStore.Store.UpdateUserInfo` | src/store/userStore.js:62-70 | A missing user stays null. Otherwise the updates win field by field and the user's other fields are kept. Token and flag are unchanged |
| `UserStore.LoginThenLogout` | src/store/userStore.js:46-59 | Signing in and then out leaves the initial state, and persists the initial slice |
| `AppStore.Store.constructor` | src/store/appStore.js:11-17 | The sidebar is expanded, the theme is "light" and the language is "zh-CN" |
| `AppStore.Store.SetSidebarCollapsed` | src/store/appStore.js:20-23 | The flag becomes exactly the given value, and nothing else changes |
| `AppStore.Store.ToggleSidebar` | src/store/appStore.js:26-29 | The flag is negated, and nothing else changes |
| `AppStore.Store.SetTheme` | src/store/appStore.js:32-35 | Only the theme changes |
| `AppStore.Store.SetLanguage` | src/store/appStore.js:38-41 | Only the language changes |
| `AppStore.ToggleTwice` | src/store/appStore.js:26-29 | Toggling twice restores every setting |

## Left out

**JavaScript values and rendering**

- Numbers: numbers are integers. Floating point, NaN and numeric strings are not modelled.
- Spread and rendering: spreading a non-object gives `{}`, and React's rendering of object children (which throws) shows as empty text.
- `Js.StrictEq`: two object or array values are always taken to be different references, so aliasing of the same object is not modelled.
- `GoPrint.RouteFor`: the query holds each value's text before `encodeURIComponent`, which is treated as an injective encoding that the target page undoes.
- `GoPrint.RouteFor`: the route stands for the navigation followed by the dialog's close. The close itself is not a separate output.

**Form library**

- Form-library internals are reduced to a store that maps field names to values, plus the set of fields a read sees. Each page passes that set from the step it renders. Validation messages and the in-flight `loading` spinner are left out.
- `Forms.MountWithInitialValues`: the library merges `initialValues` into the store deeply, one nested object field at a time. The model merges at the top level only, which is the same for records whose fields are not objects.
- `PrintPage.Page`, `ReprintPage.Page`, `Reports.Page` and `ParameterList.Page` follow the code as written: their requests use `PrintPage.MountedValues` and `ReprintPage.EditValuesAfterMount`, `Reports.Page` stores `Reports.CountAsWritten`, and `ParameterList.Page.HandleReset` sends `ParameterList.ResetRequestAsWritten`. The intended values are defined and proved beside them; see Findings.
- Fields the page does not register are not removed from a merged form.
- The effect dependencies are compared by value, where React compares objects by reference.
- `ModelView.ModelViewForm.Sync`: `resetFields` is modelled as emptying the form. The form declares no initial values, so these coincide.
- `ParameterList.Page.HandleCopy`: `setFieldsValue` merges, so a model code left in the form by an earlier edit of the same form stays. The contract states this rather than an empty model code.
- `ReprintPage.Page.HandleSupplementPrint`: the edit form's rules are never checked before the save, and the model keeps that.

**Text and identifiers**

- `ModelView.FilterOption`: `toLowerCase` is modelled on ASCII letters only. Other scripts are compared unchanged.
- `Reports.PrintStatusCell`: a truthy `operateDesc` that is not a string, and whose `includes`/`split` would throw or behave differently, is not modelled. The fallback is taken instead.
- `Reports.CertificateNoCell`: a non-string `operateDesc`, whose `match` would throw, shows "-".
- `Reports.OrderTypeCell`: looking up inherited object properties such as "toString" in the type table is not modelled.

**Page inputs**

- `Reports.Page.SearchOrderModify`: the time range arrives already formatted. The dayjs formatting of the two ends is not modelled, and a missing range counts as a failed required rule. The same holds for the other range searches.
- `ReprintPage.Page.HandlePrint`: the time text and the operator's confirmation are inputs. They replace `new Date().toLocaleString()`, `window.print`, the `afterprint` listener and `Modal.confirm`.
- `ReprintPage.Page.Prefill`: the query string is reduced to an optional `vin` input, standing in for `useLocation` and `URLSearchParams`.
- Navigation from the parameter list to the wizard and the route dialog is not modelled; each is a class or function of its own here.
- `ParameterList.Page.HandleTableChange`: antd's pagination object is reduced to page and size, and the previous total is kept.

**Operations and files outside the model**

- `handleDelete` and `handleExport` of the parameter list are calls with no logic of their own.
- The backend API wrappers, `fetch.js`, `request.js` and the 401 redirect are reduced to a call that either resolves with a value or fails.
- The order and chassis list pages, the layout, the routes and the login page are not part of this model.
- The zustand `persist` storage mechanics are reduced to `Partialize` and `Rehydrate`.
- `formatDateTime`, `storage`, `downloadFile`, `exportExcel`, `debounce`, `throttle` and `deepClone` rely on clocks, storage, the DOM, timers and reflection, and are not modelled.
- Render guards: each page handler requires the step, tab or open modal under which its button or form is rendered. Calls the interface cannot make, such as a reprint at step 0, are not modelled. `ReprintPage.Page.Prefill` has no such guard: it is an effect on the query string, and it writes the search form's store at whatever step the page is.
- Concurrency: handlers that overlap while a call is in flight are not modelled. Each handler runs to its end before the next starts.

**Rules the source does not have**

No track for "notqualified", no chassis/VSN mismatch check, and no role gate on the normal print page exist in the code, so none is modelled.

## Findings

| source | as written | input that shows it | evidently intended | confidence | as-written member | corrected member |
|---|---|---|---|---|---|---|
| src/pages/parameter/ParameterList.jsx:182-186 | `handleReset` calls `fetchData({ page: 1 })` in the same render as `setSearchParams({})`, so the request still spreads the previous `searchParams` | search with model code "A001", then press reset: the reset request still carries `modelCode: "A001"` | reset loads page 1 of the unfiltered list | not executed | `ParameterList.ResetRequestAsWritten`, `ParameterList.ResetKeepsOldFilter`, used by `ParameterList.Page.HandleReset` | `ParameterList.ResetRequest`, `ParameterList.ResetRequestIsUnfiltered` |
| src/pages/print/PrintPage.jsx:79 | The scan form is rendered only at step 0 (lines 141-147). `vinForm.getFieldsValue()` at lines 79, 94 and 114 runs at steps 1, 2 and 3, so it reads no mounted field and returns `{}`, although the store still holds the scan | scan a valid VIN, VSN and engine number, press 校验, then 确认并继续: the preview request has no parameters, the print body is only `{parameters}`, and the reprint sends `vin: undefined` | the later steps send the scan the validation accepted, for example through `getFieldsValue(["vin", "vsn", "engineNo"])` | not executed | `PrintPage.MountedValues`, `PrintPage.LaterRequestsLoseTheScan`, used by `PrintPage.Page` | `PrintPage.ScannedValues`, `PrintPage.IntendedRequestsCarryTheScan`, `PrintPage.PageHoldsTheCheckedScan` |
| src/pages/reprint/ReprintPage.jsx:255-258 | The edit form takes the record only through `initialValues`. These fill only fields the store lacks, and the store keeps its values across unmounting and `resetFields` (line 167) | look up VIN LFWADRJF011002346, go back with 上一步 or 重置, then look up LFWADRJF011002347: the edit form still shows, and saves, LFWADRJF011002346 | each lookup shows the looked-up record, for example through `setFieldsValue(record)` | not executed | `ReprintPage.EditValuesAfterMount`, `ReprintPage.LaterLookupShowsEarlierRecord`, `ReprintPage.LaterLookupCounterexample`, used by `ReprintPage.Page` | `ReprintPage.IntendedEditValues`, `ReprintPage.FirstLookupAsIntended` |
| src/pages/reports/ReportsPage.jsx:77-78 | The count tabs store the whole resolved reply (`setCertificateCount(response || 0)`, and the same at line 98). The request client resolves with the `{code, data, message}` body (src/api/request.js:40-42) | a successful count query whose reply is `{code: 200, data: 5}`: the count is the wrapper object, which React cannot render at line 401 | the tab shows `response.data`, as the other pages read a reply. The table tabs (lines 41, 59 and 114) store the reply the same way, so their table receives the wrapper rather than rows; they are kept as written in `Reports.Page`, and the intended reading for them is the same `response.data` | not executed | `Reports.CountAsWritten`, `Reports.CountHoldsTheWrapper`, used by `Reports.Page` | `Reports.IntendedCount`, `Reports.CountHoldsTheWrapper` |
