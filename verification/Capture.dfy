/**
 * The capture-session controller of index.ts: the settings chosen per mode,
 * the verification dispatcher, the listener the SDK calls back, the startup
 * order of `run` and the UI actions of `dispatchAction`.
 *
 * The vendor SDK is the class `Sdk`: the capture mode's enabled flag and
 * settings, a reset counter, the camera state and the ordered log of every
 * call the controller makes into it. What the verifiers conclude is an input
 * (`VerifierOutcomes`): the model fixes when they are asked, not what they say.
 */
module Capture {
  import opened Values
  import opened Records
  import opened Presenter

  datatype DocumentType = DLVIZ | IdCardVIZ | PassportVIZ
  datatype SupportedSides = FrontOnly | FrontAndBack

  /** IdCaptureSettings. The document list is always assigned from the
      per-mode table, so None means it was assigned `undefined` (a mode with no
      entry). A side setting of None is one the controller leaves at the SDK's
      default; `includeFaceImage` is false unless the controller asks for the
      face image. */
  datatype Settings = Settings(
    supportedDocuments: Option<seq<DocumentType>>,
    supportedSides: Option<SupportedSides>,
    includeFaceImage: bool)

  const VizMode: string := "viz"

  /** The string value of SupportedSides.FrontAndBack in a captured record. */
  const FrontAndBackTag: string := "frontAndBack"

  /** supportedDocumentsByMode: the only mode is 'viz'. */
  const SupportedDocumentsByMode: map<string, seq<DocumentType>> :=
    map[VizMode := [DLVIZ, IdCardVIZ, PassportVIZ]]

  /** createIdCaptureSettingsFor: the documents of the mode; for 'viz' both
      sides and the face image. Any other mode name finds no entry, so its
      document list is assigned `undefined` (None). */
  function SettingsFor(mode: string): (s: Settings)
    ensures mode == VizMode ==>
      s.supportedDocuments == Some([DLVIZ, IdCardVIZ, PassportVIZ])
      && s.supportedSides == Some(FrontAndBack) && s.includeFaceImage
    ensures mode != VizMode ==> s == Settings(None, None, false)
  {
    var docs := if mode in SupportedDocumentsByMode then Some(SupportedDocumentsByMode[mode]) else None;
    if mode == VizMode then Settings(docs, Some(FrontAndBack), true)
    else Settings(docs, None, false)
  }

  const VizKey: string := "vizResult"
  const AamvaKey: string := "aamvaBarcodeResult"

  /** What the two verifiers would answer for the record at hand. */
  datatype VerifierOutcomes = VerifierOutcomes(comparisonPassed: bool, barcodeAllPassed: bool)

  /** VerificationResult: None where the verifier was not asked. */
  datatype VerificationResult = VerificationResult(
    comparisonChecksPassed: Option<bool>,
    barcodeAllChecksPassed: Option<bool>)

  /** verifyScannedId's result: a verifier is asked exactly when its sub-record is present. */
  function Dispatch(id: CapturedId, o: VerifierOutcomes): (r: VerificationResult)
    ensures r.comparisonChecksPassed.Some? <==> VizKey in id.subRecords
    ensures r.barcodeAllChecksPassed.Some? <==> AamvaKey in id.subRecords
    ensures r.comparisonChecksPassed.Some? ==> r.comparisonChecksPassed.value == o.comparisonPassed
    ensures r.barcodeAllChecksPassed.Some? ==> r.barcodeAllChecksPassed.value == o.barcodeAllPassed
  {
    VerificationResult(
      if VizKey in id.subRecords then Some(o.comparisonPassed) else None,
      if AamvaKey in id.subRecords then Some(o.barcodeAllPassed) else None)
  }

  /** `comparison?.checksPassed || barcode?.allChecksPassed`: an absent result is falsy. */
  predicate IsVerified(r: VerificationResult)
  {
    r.comparisonChecksPassed == Some(true) || r.barcodeAllChecksPassed == Some(true)
  }

  /** The verified flag handed to showResult after a full capture: the document
      is verified exactly when some verifier that applies to it passed. */
  function Verified(id: CapturedId, o: VerifierOutcomes): (b: bool)
    ensures b <==> (VizKey in id.subRecords && o.comparisonPassed)
                   || (AamvaKey in id.subRecords && o.barcodeAllPassed)
    ensures VizKey !in id.subRecords && AamvaKey !in id.subRecords ==> !b
  {
    IsVerified(Dispatch(id, o))
  }

  /** The verifier calls verifyScannedId makes, in order: the comparison
      verifier, then the barcode verifier, each only for a present sub-record. */
  function VerifierCalls(id: CapturedId): (calls: seq<SdkCall>)
    ensures multiset(calls)[ComparisonVerified] <= 1 && multiset(calls)[BarcodeVerified] <= 1
    ensures forall c :: c in calls ==> c == ComparisonVerified || c == BarcodeVerified
    ensures ComparisonVerified in calls <==> VizKey in id.subRecords
    ensures BarcodeVerified in calls <==> AamvaKey in id.subRecords
  {
    (if VizKey in id.subRecords then [ComparisonVerified] else [])
    + (if AamvaKey in id.subRecords then [BarcodeVerified] else [])
  }

  /** The record is the front of a document whose back can still be captured:
      `vizResult?.isBackSideCaptureSupported === true` and its captured sides
      are not FrontAndBack. */
  function NeedsBackSide(id: CapturedId): (b: bool)
    ensures b ==> VizKey in id.subRecords
    ensures b ==> Lookup(id.subRecords[VizKey], "isBackSideCaptureSupported") == Bool(true)
    ensures VizKey in id.subRecords && Lookup(id.subRecords[VizKey], "capturedSides") == Str(FrontAndBackTag) ==> !b
    ensures (VizKey in id.subRecords
             && Lookup(id.subRecords[VizKey], "isBackSideCaptureSupported") == Bool(true)
             && Lookup(id.subRecords[VizKey], "capturedSides") != Str(FrontAndBackTag)) ==> b
  {
    match SubRecord(id, VizKey)
    case None => false
    case Some(viz) =>
      Lookup(viz, "isBackSideCaptureSupported") == Bool(true)
      && Lookup(viz, "capturedSides") != Str(FrontAndBackTag)
  }

  /** One call the controller makes into the SDK. */
  datatype SdkCall =
    | Created(settings: Settings)
    | EnabledSet(on: bool)
    | ResetDone
    | SettingsApplied(settings: Settings)
    | CameraSwitchedOn
    | ComparisonVerified
    | BarcodeVerified

  /** Capture is never switched on before the camera has been switched on. */
  ghost predicate CameraBeforeEnable(calls: seq<SdkCall>)
  {
    forall i :: 0 <= i < |calls| && calls[i] == EnabledSet(true) ==> CameraSwitchedOn in calls[..i]
  }

  /** Once the camera is on, no later call can break CameraBeforeEnable. */
  lemma CameraBeforeEnableExtends(calls: seq<SdkCall>, later: seq<SdkCall>)
    requires CameraBeforeEnable(calls) && CameraSwitchedOn in calls
    requires calls <= later
    ensures CameraBeforeEnable(later) && CameraSwitchedOn in later
  {
    var k :| 0 <= k < |calls| && calls[k] == CameraSwitchedOn;
    assert later[k] == CameraSwitchedOn;
    forall i | 0 <= i < |later| && later[i] == EnabledSet(true)
      ensures CameraSwitchedOn in later[..i]
    {
      if i < |calls| {
        assert later[..i] == calls[..i];
      } else {
        assert later[..i][k] == CameraSwitchedOn;
      }
    }
  }

  /** The SDK objects the controller drives: the IdCapture mode, the camera and
      the two verifiers, seen through the calls made into them. */
  class Sdk {
    var enabled: bool
    var settings: Settings
    var resets: nat
    var cameraOn: bool
    var calls: seq<SdkCall>

    /** IdCapture.forContext: a new mode starts enabled, with the camera off. */
    constructor ForContext(s: Settings)
      ensures enabled && settings == s && resets == 0 && !cameraOn
      ensures calls == [Created(s)]
    {
      enabled := true;
      settings := s;
      resets := 0;
      cameraOn := false;
      calls := [Created(s)];
    }

    method SetEnabled(on: bool)
      modifies this
      ensures enabled == on && calls == old(calls) + [EnabledSet(on)]
      ensures settings == old(settings) && resets == old(resets) && cameraOn == old(cameraOn)
    {
      enabled := on;
      calls := calls + [EnabledSet(on)];
    }

    method Reset()
      modifies this
      ensures resets == old(resets) + 1 && calls == old(calls) + [ResetDone]
      ensures enabled == old(enabled) && settings == old(settings) && cameraOn == old(cameraOn)
    {
      resets := resets + 1;
      calls := calls + [ResetDone];
    }

    method ApplySettings(s: Settings)
      modifies this
      ensures settings == s && calls == old(calls) + [SettingsApplied(s)]
      ensures enabled == old(enabled) && resets == old(resets) && cameraOn == old(cameraOn)
    {
      settings := s;
      calls := calls + [SettingsApplied(s)];
    }

    /** camera.switchToDesiredState(FrameSourceState.On). */
    method SwitchCameraOn()
      modifies this
      ensures cameraOn && calls == old(calls) + [CameraSwitchedOn]
      ensures enabled == old(enabled) && settings == old(settings) && resets == old(resets)
    {
      cameraOn := true;
      calls := calls + [CameraSwitchedOn];
    }

    /** AamvaVizBarcodeComparisonVerifier.verify: its answer is the given outcome. */
    method CompareVizAndBarcode(outcome: bool) returns (checksPassed: bool)
      modifies this
      ensures checksPassed == outcome && calls == old(calls) + [ComparisonVerified]
      ensures enabled == old(enabled) && settings == old(settings)
      ensures resets == old(resets) && cameraOn == old(cameraOn)
    {
      checksPassed := outcome;
      calls := calls + [ComparisonVerified];
    }

    /** AamvaBarcodeVerifier.verify: its answer is the given outcome. */
    method VerifyBarcode(outcome: bool) returns (allChecksPassed: bool)
      modifies this
      ensures allChecksPassed == outcome && calls == old(calls) + [BarcodeVerified]
      ensures enabled == old(enabled) && settings == old(settings)
      ensures resets == old(resets) && cameraOn == old(cameraOn)
    {
      allChecksPassed := outcome;
      calls := calls + [BarcodeVerified];
    }
  }

  /** IdCaptureErrorCode as far as the listener tells kinds apart. */
  datatype CaptureError = RecoveredAfterFailure | OtherFailure(code: nat)

  /** The actions the page sends through window.dispatchAction. */
  datatype Action =
    | SwitchMode(mode: string, button: nat)
    | CloseResult
    | CloseWarning
    | ScanBackside
    | SkipBackside(capturedId: CapturedId)
    | Unknown(name: string)

  const RejectedText: string := "Document type not supported."
  const RecoveredText: string :=
    "Oops, something went wrong. Please start over by scanning the front-side of your document."

  /** The module state of index.ts once `run` has finished. */
  class Controller {
    const sdk: Sdk
    const page: Page
    var currentMode: string

    /** The camera was switched on before capture was ever enabled, and the
        page keeps exactly one active mode button. */
    ghost predicate Valid()
      reads this, sdk, page
    {
      sdk.cameraOn && CameraSwitchedOn in sdk.calls && CameraBeforeEnable(sdk.calls)
      && page.Valid()
    }

    /** run: create the mode for the selected mode's settings, disable it, switch
        the camera on, and only then enable capture. */
    constructor Run(page: Page, selectedMode: string)
      requires page.Valid()
      ensures Valid() && fresh(sdk)
      ensures this.page == page && currentMode == selectedMode
      ensures sdk.calls == [Created(SettingsFor(selectedMode)), EnabledSet(false), CameraSwitchedOn, EnabledSet(true)]
      ensures sdk.enabled && sdk.settings == SettingsFor(selectedMode) && sdk.resets == 0
    {
      this.page := page;
      currentMode := selectedMode;
      sdk := new Sdk.ForContext(SettingsFor(selectedMode));
      new;
      sdk.SetEnabled(false);
      sdk.SwitchCameraOn();
      sdk.SetEnabled(true);
      assert sdk.calls[..3] == [Created(SettingsFor(selectedMode)), EnabledSet(false), CameraSwitchedOn];
    }

    /** verifyScannedId: asks each verifier whose sub-record is present, once,
        the comparison verifier first. */
    method VerifyScannedId(id: CapturedId, o: VerifierOutcomes) returns (r: VerificationResult)
      requires Valid()
      modifies sdk
      ensures Valid()
      ensures r == Dispatch(id, o)
      ensures sdk.calls == old(sdk.calls) + VerifierCalls(id)
      ensures sdk.enabled == old(sdk.enabled) && sdk.settings == old(sdk.settings)
      ensures sdk.resets == old(sdk.resets)
    {
      ghost var before := sdk.calls;
      var comparison: Option<bool> := None;
      if VizKey in id.subRecords {
        var passed := sdk.CompareVizAndBarcode(o.comparisonPassed);
        comparison := Some(passed);
      }
      var barcode: Option<bool> := None;
      if AamvaKey in id.subRecords {
        var passed := sdk.VerifyBarcode(o.barcodeAllPassed);
        barcode := Some(passed);
      }
      r := VerificationResult(comparison, barcode);
      CameraBeforeEnableExtends(before, sdk.calls);
    }

    /** didCaptureId: capture is disabled first; a missing record stops there;
        a front side whose back is still to come re-enables capture; otherwise
        the record is verified, shown once with its verified flag, and the
        mode is reset with capture left disabled. */
    method DidCaptureId(newlyCapturedId: Option<CapturedId>, o: VerifierOutcomes)
      requires Valid()
      modifies sdk, page
      ensures Valid()
      ensures sdk.settings == old(sdk.settings)
      ensures newlyCapturedId.None? ==>
        sdk.calls == old(sdk.calls) + [EnabledSet(false)] && !sdk.enabled
        && sdk.resets == old(sdk.resets) && unchanged(page)
      ensures newlyCapturedId.Some? && NeedsBackSide(newlyCapturedId.value) ==>
        sdk.calls == old(sdk.calls) + [EnabledSet(false), EnabledSet(true)] && sdk.enabled
        && sdk.resets == old(sdk.resets) && unchanged(page)
      ensures newlyCapturedId.Some? && !NeedsBackSide(newlyCapturedId.value) ==>
        var id := newlyCapturedId.value;
        sdk.calls == old(sdk.calls) + [EnabledSet(false)] + VerifierCalls(id) + [ResetDone]
        && !sdk.enabled && sdk.resets == old(sdk.resets) + 1
        && page.resultContent == ResultContent(id)
        && page.resultHeader == HeaderFor(Verified(id, o))
        && !page.resultHidden && page.printListeners == old(page.printListeners) + 1
        && page.alertHidden == old(page.alertHidden) && page.alert == old(page.alert)
        && page.selector == old(page.selector) && page.navigatedAway == old(page.navigatedAway)
    {
      ghost var before := sdk.calls;
      sdk.SetEnabled(false);
      CameraBeforeEnableExtends(before, sdk.calls);
      if newlyCapturedId.None? {
        return;
      }
      var id := newlyCapturedId.value;
      if NeedsBackSide(id) {
        ghost var disabled := sdk.calls;
        sdk.SetEnabled(true);
        assert CameraSwitchedOn in sdk.calls[..|disabled|] by {
          assert sdk.calls[..|disabled|] == disabled;
        }
        CameraBeforeEnableExtends(disabled, sdk.calls);
      } else {
        var r := VerifyScannedId(id, o);
        page.ShowResult(id, IsVerified(r));
        ghost var verified := sdk.calls;
        sdk.Reset();
        CameraBeforeEnableExtends(verified, sdk.calls);
      }
    }

    /** didRejectId: capture is disabled and the warning is shown; showWarning
        throws, so the reset that follows it is never reached. */
    method DidRejectId() returns (threw: bool)
      requires Valid()
      modifies sdk, page
      ensures Valid()
      ensures threw
      ensures sdk.calls == old(sdk.calls) + [EnabledSet(false)] && !sdk.enabled
      ensures sdk.resets == old(sdk.resets) && sdk.settings == old(sdk.settings)
      ensures page.alert == WarningMarkup && page.alertHidden == old(page.alertHidden)
      ensures page.resultHidden == old(page.resultHidden) && page.resultContent == old(page.resultContent)
      ensures page.resultHeader == old(page.resultHeader) && page.printListeners == old(page.printListeners)
      ensures page.selector == old(page.selector) && page.navigatedAway == old(page.navigatedAway)
    {
      ghost var before := sdk.calls;
      sdk.SetEnabled(false);
      CameraBeforeEnableExtends(before, sdk.calls);
      threw := page.ShowWarning(RejectedText);
    }

    /** didFailWithError: only RecoveredAfterFailure leads to the warning (which
        throws before the reset); every other kind changes nothing. */
    method DidFailWithError(error: CaptureError) returns (threw: bool)
      requires Valid()
      modifies page
      ensures Valid()
      ensures threw <==> error == RecoveredAfterFailure
      ensures error != RecoveredAfterFailure ==> unchanged(page)
      ensures error == RecoveredAfterFailure ==>
        page.alert == WarningMarkup && page.alertHidden == old(page.alertHidden)
        && page.resultHidden == old(page.resultHidden) && page.resultContent == old(page.resultContent)
        && page.resultHeader == old(page.resultHeader) && page.printListeners == old(page.printListeners)
        && page.selector == old(page.selector) && page.navigatedAway == old(page.navigatedAway)
    {
      threw := false;
      if error == RecoveredAfterFailure {
        threw := page.ShowWarning(RecoveredText);
      }
    }

    /** SWITCH_MODE to a mode other than the current one: the selector moves
        to the mode's button and the mode's settings are applied. */
    method SwitchTo(mode: string, button: nat)
      requires Valid() && button < |page.selector|
      modifies this, sdk, page
      ensures Valid()
      ensures currentMode == mode
      ensures sdk.settings == SettingsFor(mode)
        && sdk.calls == old(sdk.calls) + [SettingsApplied(SettingsFor(mode))]
        && sdk.enabled == old(sdk.enabled) && sdk.resets == old(sdk.resets)
      ensures page.selector == SwitchedTo(old(page.selector), button)
        && (forall i :: 0 <= i < |page.selector| ==> (page.selector[i] <==> i == button))
        && page.alertHidden == old(page.alertHidden) && page.alert == old(page.alert)
        && page.resultHidden == old(page.resultHidden) && page.resultContent == old(page.resultContent)
        && page.resultHeader == old(page.resultHeader) && page.printListeners == old(page.printListeners)
        && page.navigatedAway == old(page.navigatedAway)
    {
      ghost var before := sdk.calls;
      page.OnModeSwitched(button);
      currentMode := mode;
      sdk.ApplySettings(SettingsFor(currentMode));
      CameraBeforeEnableExtends(before, sdk.calls);
    }

    /** SKIP_BACKSIDE: the alert closes, the record is shown as not verified
        and the mode is reset, with capture left as it was. */
    method ShowUnverified(id: CapturedId)
      requires Valid()
      modifies sdk, page
      ensures Valid()
      ensures page.alertHidden
        && page.resultContent == ResultContent(id)
        && page.resultHeader == HeaderFor(false) && !page.resultHidden
        && page.printListeners == old(page.printListeners) + 1
        && page.alert == old(page.alert) && page.selector == old(page.selector)
        && page.navigatedAway == old(page.navigatedAway)
      ensures sdk.calls == old(sdk.calls) + [ResetDone] && sdk.resets == old(sdk.resets) + 1
        && sdk.enabled == old(sdk.enabled) && sdk.settings == old(sdk.settings)
    {
      ghost var before := sdk.calls;
      page.CloseDialog();
      page.ShowResult(id, false);
      sdk.Reset();
      CameraBeforeEnableExtends(before, sdk.calls);
    }

    /** window.dispatchAction. */
    method DispatchAction(action: Action)
      requires Valid()
      requires action.SwitchMode? ==> action.button < |page.selector|
      modifies this, sdk, page
      ensures Valid()
      ensures action.SwitchMode? && action.mode == old(currentMode) ==>
        currentMode == old(currentMode) && unchanged(sdk) && unchanged(page)
      ensures action.SwitchMode? && action.mode != old(currentMode) ==>
        currentMode == action.mode
        && sdk.settings == SettingsFor(action.mode)
        && sdk.calls == old(sdk.calls) + [SettingsApplied(SettingsFor(action.mode))]
        && sdk.enabled == old(sdk.enabled) && sdk.resets == old(sdk.resets)
        && page.selector == SwitchedTo(old(page.selector), action.button)
        && (forall i :: 0 <= i < |page.selector| ==> (page.selector[i] <==> i == action.button))
        && page.alertHidden == old(page.alertHidden) && page.alert == old(page.alert)
        && page.resultHidden == old(page.resultHidden) && page.resultContent == old(page.resultContent)
        && page.resultHeader == old(page.resultHeader) && page.printListeners == old(page.printListeners)
        && page.navigatedAway == old(page.navigatedAway)
      ensures action.CloseResult? ==>
        page.resultHidden && page.navigatedAway
        && sdk.calls == old(sdk.calls) + [EnabledSet(true)] && sdk.enabled
        && sdk.settings == old(sdk.settings) && sdk.resets == old(sdk.resets)
        && page.alertHidden == old(page.alertHidden) && page.alert == old(page.alert)
        && page.selector == old(page.selector) && page.resultHeader == old(page.resultHeader)
        && page.resultContent == old(page.resultContent) && page.printListeners == old(page.printListeners)
      ensures action.CloseWarning? || action.ScanBackside? ==>
        page.alertHidden
        && sdk.calls == old(sdk.calls) + [EnabledSet(true)] && sdk.enabled
        && sdk.settings == old(sdk.settings) && sdk.resets == old(sdk.resets)
        && page.alert == old(page.alert) && page.selector == old(page.selector)
        && page.resultHidden == old(page.resultHidden) && page.resultHeader == old(page.resultHeader)
        && page.resultContent == old(page.resultContent) && page.printListeners == old(page.printListeners)
        && page.navigatedAway == old(page.navigatedAway)
      ensures action.SkipBackside? ==>
        page.alertHidden
        && page.resultContent == ResultContent(action.capturedId)
        && page.resultHeader == HeaderFor(false) && !page.resultHidden
        && page.printListeners == old(page.printListeners) + 1
        && sdk.calls == old(sdk.calls) + [ResetDone] && sdk.resets == old(sdk.resets) + 1
        && sdk.enabled == old(sdk.enabled) && sdk.settings == old(sdk.settings)
        && page.alert == old(page.alert) && page.selector == old(page.selector)
        && page.navigatedAway == old(page.navigatedAway)
      ensures !action.SwitchMode? ==> currentMode == old(currentMode)
      ensures action.Unknown? ==> unchanged(sdk) && unchanged(page)
    {
      ghost var before := sdk.calls;
      match action {
        case SwitchMode(mode, button) =>
          if mode == currentMode {
            return;
          }
          SwitchTo(mode, button);
        case CloseResult =>
          page.CloseResults();
          page.NavigateAway();
          sdk.SetEnabled(true);
        case CloseWarning =>
          page.CloseDialog();
          sdk.SetEnabled(true);
        case ScanBackside =>
          sdk.SetEnabled(true);
          page.CloseDialog();
        case SkipBackside(capturedId) =>
          ShowUnverified(capturedId);
        case Unknown(_) =>
      }
      CameraBeforeEnableExtends(before, sdk.calls);
    }
  }
}
