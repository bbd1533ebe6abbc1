# Capture session and result presenter of a browser ID-scanning app

This project models the in-repository logic of a browser application that
wires a document-capture SDK to a results page. Two pieces are modelled.

- The capture-session controller of `index.ts` is module `Capture`.
  - The settings built per mode (`createIdCaptureSettingsFor`, `supportedDocumentsByMode`).
  - The verification dispatcher (`verifyScannedId`) and the verified flag,
    which is the OR of the two verifier outcomes.
  - The three SDK listener callbacks (`didCaptureId`, `didRejectId`, `didFailWithError`).
  - The startup order of `run`: capture is switched off until the camera is on.
  - The UI actions of `window.dispatchAction`.

  The vendor SDK is the class `Capture.Sdk`. It holds the mode's enabled
  flag, its settings, a reset counter and the camera state. It also keeps the
  ordered log of every call the controller makes. The controller (`Capture.Controller`)
  keeps the invariant that capture is never switched on before the camera,
  and that exactly one mode button on the page is active.
  What the verifiers answer is an input; the model fixes when they are asked.
- The result presenter of `ui.ts` is split over three modules.
  - `Values` holds the value shapes and `getDOMOfFormattedValue`.
  - `Records` holds the captured record, the field tables of `showResult` in
    source order, and the row-selection and fragment specifications with their lemmas.
  - `Presenter` holds the DOM state as class `Page` and the loops that build the rows.

  DOM nodes are the abstract datatype `Values.Node`. A captured record is a
  property bag (`map<string, Value>`): a missing property reads as `undefined`.
  A sub-record is present exactly when its key is in the record.

`showWarning` crashes as written. It replaces the alert markup with a
paragraph and a single Close button. It then looks up `button[print]`, which
that markup does not contain, and calls `addEventListener` on `null`, which
throws. The warning text is therefore never written and the alert never
becomes visible. In `didRejectId` and `didFailWithError`, the `reset()`
after `showWarning` is never reached. The model follows the code here:
`Page.ShowWarning` reports `threw`, and both handlers stop at that point.

`showResult` has sixteen per-sub-record blocks plus the block for the common
fields. They all follow one pattern: an `if (value) push([label, value])` for
each field, then one append if any row was collected. The model writes that
pattern once (`CollectRows`, `FragmentForFields`). It runs the pattern over a
table (`Records.ResultGroups`) that lists each block's property names and
captions in source order, with the captions spelled as in the source
(`play pan code` included).

## Model

| member | source | states |
|---|---|---|
| `Values.Format` | ui.ts:65-127 | null, undefined and `''` give the "empty" marker, and so does a date missing a numeric day, month or year. No other value gives it. A non-empty string gives its own text and a number its digits. A boolean gives `yes`/`no`. A full date gives date text. An array gives a paragraph holding each element's format, in order. A permit or vehicle restriction gives a block. No value ever renders as a label. |
| `Values.FormatNestedBlocks` | ui.ts:94-115 | a driving permit renders as the label/value fragments of `Codes` and `Date of Expiry`. A vehicle restriction renders as those of `Vehicle Code`, `Vehicle Restriction` and `Date of Issue`. Each sub-value is formatted in turn. |
| `Values.LabelAndValueLabels` | ui.ts:137-146 | `LabelAndValue` (getFragmentForLabelAndValue) yields a fragment whose only top-level label is the caption it was given, whatever the value; labels nested inside a permit or restriction value sit one level down |
| `Records.GroupRecord` | ui.ts:253-254 | the common block reads the top-level fields. Any other block reads the document's sub-record of its key, which is available exactly when the document carries it. |
| `Records.GroupNodes` | ui.ts:253-366 | a block whose sub-record is absent appends nothing. A present block appends exactly the fragment of its selected rows, so nodes appear only when at least one row was collected. |
| `Records.FaceNodes` | ui.ts:214-219 | with a face image the content starts with exactly the `Face` label followed by the image; without one, nothing is added |
| `Records.HeaderFor` | ui.ts:210-212 | the header is `Document verified successfully` if and only if the document is verified |
| `Records.SelectRowsExact` | ui.ts:221-249 | a row is collected if and only if some field of the block has a truthy value, and the row carries that field's caption and value |
| `Records.SelectedRowsAreTruthy` | ui.ts:221-249 | every collected row holds a truthy value, so `false`, `0` and `''` never become rows |
| `Records.SelectRowsAppend` | ui.ts:253-364 | rows keep source order: collecting over two runs of fields is the concatenation of collecting over each |
| `Records.FieldsNodesShape` | ui.ts:148-154 | n rows give exactly 2n nodes, the label of row i at 2i and its formatted value at 2i+1 |
| `Records.FieldsNodesLabels` | ui.ts:129-154 | a label appears at the top level of a fragment if and only if some row has that caption; a formatted value is never itself a label |
| `Records.FalsyFieldNotShown` | ui.ts:221-251 | a field with a falsy value never appears as a row label, provided no other field of the block shares its caption |
| `Records.NotExpiredNotShown` | ui.ts:247 | when `isExpired` is `false`, no `Is Expired` row is shown |
| `Records.GroupsNodesLength` | ui.ts:251-968 | the blocks render to exactly two nodes per collected row |
| `Records.GroupLabels` | ui.ts:253-366 | a block shows a row label if and only if its record is present and one of its entries with that caption holds a truthy value |
| `Records.GroupsLabels` | ui.ts:251-968 | the appended blocks show a row label if and only if one of the blocks shows it |
| `Records.ContentLabels` | ui.ts:203-968 | a label appears at the top level of the result dialog if and only if it is the face label of a document with a face image, or the caption of a truthy field of a present block. The labels nested inside a permit or restriction value are not covered. |
| `Records.NotExpiredNeverShown` | ui.ts:247 | when `isExpired` is `false`, no top-level `Is Expired` label appears anywhere in the result dialog, because the common block is the only block with that caption |
| `Presenter.CollectRows` | ui.ts:221-249 | the loop of guarded pushes returns the specified selection, all truthy, at most one row per field |
| `Presenter.FragmentForFields` | ui.ts:148-154 | the loop appends label then value for each row, in order, giving 2n nodes |
| `Presenter.BuildResultContent` | ui.ts:207-968 | the fragment built for a document is exactly `ResultContent`: the face portrait, then the seventeen blocks in source order |
| `Presenter.BuildResult` | ui.ts:207-968 | the assembled content is the face portrait followed by every block in source order, with two nodes per collected row |
| `Presenter.FindButton` | ui.ts:57 | the lookup finds a button of the kind if and only if the markup has one, and returns the first such button |
| `Presenter.FirstActive` | ui.ts:31 | the lookup returns the first selector button marked active, or none if no button is active |
| `Presenter.SwitchedTo` | ui.ts:30-33 | the chosen button ends up active; if at most one button was active before, it is then the only active button |
| `Presenter.Page.constructor` | ui.ts:13-23 | the page starts with both dialogs hidden and exactly one mode button active, which establishes the page's invariant |
| `Presenter.Page.OnModeSwitched` | ui.ts:30-33 | the selector becomes `SwitchedTo(old, b)`. The page keeps its invariant that exactly one mode button is active, so b is then the only active button. Nothing else on the page changes. |
| `Presenter.Page.ShowWarning` | ui.ts:50-63 | the alert markup is replaced, then the call throws; the text is never written and the alert's visibility is unchanged |
| `Presenter.Page.ShowResult` | ui.ts:203-997 | the header follows the verified flag and the content is replaced wholesale by `ResultContent`. The dialog is shown, and one more print listener is registered on each call. The alert and the selector are untouched. |
| `Presenter.Page.CloseDialog` | ui.ts:999-1001 | the alert is hidden and nothing else changes |
| `Presenter.Page.CloseResults` | ui.ts:1003-1005 | the result dialog is hidden and nothing else changes |
| `Presenter.Page.NavigateAway` | index.ts:256 | the page is sent away and nothing else on it changes |
| `Capture.SettingsFor` | index.ts:62-87 | for mode `viz`, the supported documents are exactly `[DLVIZ, IdCardVIZ, PassportVIZ]` in that order, the sides are FrontAndBack and the face image is requested. For any other mode the document list is assigned `undefined` (modelled as None), and the sides and face image stay at the SDK's defaults. |
| `Capture.Dispatch` | index.ts:99-115 | the comparison result is filled if and only if `vizResult` is present, and the barcode result if and only if `aamvaBarcodeResult` is present, each with that verifier's answer |
| `Capture.Verified` | index.ts:161-169 | the document is verified if and only if an applicable verifier passed; with neither sub-record it is not verified |
| `Capture.VerifierCalls` | index.ts:104-114 | each verifier is called at most once per record, and only when its sub-record is present |
| `Capture.NeedsBackSide` | index.ts:131-134 | the record waits for its back side if and only if it has a VIZ result that reports back-side capture as `true` and whose captured sides are not FrontAndBack. A record with both sides captured never waits. |
| `Capture.CameraBeforeEnableExtends` | index.ts:231-237 | once the camera is on and capture has never been enabled before it, no later sequence of calls can break that order |
| `Capture.Sdk.ForContext` | index.ts:92 | a new capture mode holds the given settings and starts enabled, with no resets and the camera off |
| `Capture.Sdk.SetEnabled` | index.ts:124 | the enabled flag takes the new value and the call is logged; nothing else changes |
| `Capture.Sdk.Reset` | index.ts:170 | the reset counter grows by one and the call is logged; nothing else changes |
| `Capture.Sdk.ApplySettings` | index.ts:251 | the mode's settings are replaced wholesale and the call is logged |
| `Capture.Sdk.SwitchCameraOn` | index.ts:236 | the camera is on and the call is logged |
| `Capture.Sdk.CompareVizAndBarcode` | index.ts:109 | the comparison verifier answers with the given outcome and the call is logged |
| `Capture.Sdk.VerifyBarcode` | index.ts:112 | the barcode verifier answers with the given outcome and the call is logged |
| `Capture.Controller.Run` | index.ts:193-238 | startup creates the mode for the selected mode's settings, disables it, switches the camera on, then enables capture, in exactly that order |
| `Capture.Controller.VerifyScannedId` | index.ts:99-115 | the result equals `Dispatch`; the comparison verifier is called first, then the barcode verifier, each only when its sub-record is present; the mode is untouched |
| `Capture.Controller.DidCaptureId` | index.ts:119-172 | capture is always disabled first. A missing record stops there. A front side still waiting for its back re-enables capture: no verifier runs, no result is shown, no reset. Otherwise the verifiers run, the result is shown once with the OR of their outcomes, and a reset follows with capture left disabled. |
| `Capture.Controller.DidRejectId` | index.ts:173-177 | capture is disabled, then the warning markup is written and the call throws; no reset happens |
| `Capture.Controller.DidFailWithError` | index.ts:178-186 | only RecoveredAfterFailure reaches the warning, which throws before the reset; any other error kind changes nothing |
| `Capture.Controller.SwitchTo` | index.ts:249-251 | switching to another mode makes its button the only active one, makes it the current mode, and applies and logs that mode's settings. Capture, resets and the rest of the page are unchanged. |
| `Capture.Controller.ShowUnverified` | index.ts:267-272 | skipping the back side closes the alert, shows the record's result as not verified, and resets the mode once. Capture and settings are unchanged. |
| `Capture.Controller.DispatchAction` | index.ts:240-275 | SWITCH_MODE with the current mode is a no-op. Any other mode makes its button the only active one, becomes the current mode and applies that mode's settings. CLOSE_RESULT hides the result, navigates away and enables capture. CLOSE_WARNING and SCAN_BACKSIDE hide the alert and enable capture. SKIP_BACKSIDE hides the alert, shows the record as not verified and resets, with capture unchanged. An unknown action changes nothing. For each action, every page and SDK field not named here keeps its value. |

## Left out

- The SDK's work: recognition, MRZ and AAMVA barcode parsing, and the verifier algorithms. The verifiers' answers are inputs (`VerifierOutcomes`).
- SDK lifecycle plumbing: `configure`, the data capture context, the view, the progress bar, camera settings, the camera switch control and the overlay swap. `run` keeps only the mode creation, the enable/disable calls and the camera switch, in their order.
- Re-entrancy between awaited calls: each handler and action is one atomic step.
- The uncaught-startup-error alert of `run().catch`.
- PDF export on the print button (page format, margins, scale): the model counts the click listeners only.
- Locale date formatting: a full date renders as the abstract `DateText(day, month, year)`, without the `Date` constructor's normalisation of out-of-range components.
- Floating-point numbers: numeric values are integers, so NaN (which is falsy) is not modelled.
- Values of types other than those in `Values.Value`, which would render through their string conversion.
- The face image's data URL: only whether it is present.
- `scrollTop`, SVG icons, `getPanel`, `getSelectedMode` (the selected mode is a parameter of `Run`) and `confirmScanningBackside`, which nothing in `index.ts` calls.
- The page markup outside the alert (index.html is not part of this model). It is assumed that the result footer holds the print button that `showResult` queries.
- `Presenter.Page.constructor`: the starting page, with both dialogs hidden and exactly one mode button active, is assumed from index.html. `Capture.Controller.Run` requires a page in that state.
- `Capture.Controller.DispatchAction`: the requirement that a SWITCH_MODE button index names an existing selector button is assumed from index.html.
- Labels nested inside a permit or restriction value (`Codes`, `Date of Expiry`, `Vehicle Code`, `Vehicle Restriction`, `Date of Issue`) are given only by `Values.FormatNestedBlocks`. The label lemmas of `Records` speak of top-level labels only.
- `Capture.FrontAndBackTag`: the string value of `SupportedSides.FrontAndBack` belongs to the SDK and is assumed to be `frontAndBack`.
- `Capture.Sdk.ForContext`: a new capture mode is assumed to start enabled, as the comment at index.ts:232 implies.
- `Capture.SettingsFor`: a mode name that is a property of every JavaScript object (such as `toString`) would find a non-array value; any mode other than `viz` is modelled as finding `undefined`.
- `Capture.Controller.DispatchAction`: SKIP_BACKSIDE is modelled only with a record argument. Called without one, `showResult` would throw.
- `Capture.Controller.DidCaptureId`: `newlyCapturedId` is either a record or missing; other falsy values are not modelled.
- index23.ts (an older draft), ui_ignore.ts (a stub copy of the presenter), vite.config.ts and global.d.ts are not part of this model.
- The license key is data, not logic.
