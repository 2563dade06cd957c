/** The face-comparison demo page: two image slots filled by upload or camera
    capture, a camera modal bound to one slot, a simulated comparison and a
    reset. The component's five state cells are the fields of `Demo`; each
    event handler is a method. What the browser supplies (the file the reader
    produced, camera permission, whether the video element and its stream
    exist, the captured frame, the two `Math.random()` draws) is passed in. */
module DemoPage {
  import opened Wrappers
  import opened JsNumber

  /** Which of the two image slots a handler addresses. */
  datatype Slot = Reference | Comparison

  /** The verdict shown under the images (`isMatch` is the source's `match`). */
  datatype MatchResult = MatchResult(isMatch: bool, confidence: int)

  /** A user-visible notification. */
  datatype Toast = Toast(title: string, description: string)

  const CameraErrorToast: Toast :=
    Toast("Camera Error", "Unable to access camera. Please check permissions.")

  const MissingImagesToast: Toast :=
    Toast("Missing Images", "Please upload or capture both images before comparing.")

  /** JavaScript truthiness of an image cell: neither null nor the empty string. */
  predicate Present(image: Option<string>): (present: bool)
    ensures present ==> image.Some?
    ensures image == Some("") ==> !present
    ensures image.Some? && |image.value| > 0 ==> present
  {
    image.Some? && image.value != ""
  }

  /** The confidence ranges a simulated verdict can show. */
  predicate InRange(r: MatchResult) {
    if r.isMatch then 85 <= r.confidence <= 100 else 20 <= r.confidence <= 60
  }

  /** The simulated verdict for two `Math.random()` draws: a match when the first
      draw exceeds one half; the confidence is then drawn from [85, 100) or from
      [20, 60) and rounded. */
  function SimulatedResult(matchDraw: real, confidenceDraw: real): (r: MatchResult)
    requires 0.0 <= matchDraw < 1.0 && 0.0 <= confidenceDraw < 1.0
    ensures r.isMatch <==> matchDraw > 0.5
    ensures InRange(r)
    ensures r.isMatch ==> RoundsTo(85.0 + confidenceDraw * 15.0, r.confidence)
    ensures !r.isMatch ==> RoundsTo(20.0 + confidenceDraw * 40.0, r.confidence)
  {
    var isMatch := matchDraw > 0.5;
    var confidence := if isMatch then 85.0 + confidenceDraw * 15.0 else 20.0 + confidenceDraw * 40.0;
    MatchResult(isMatch, Round(confidence))
  }

  class Demo {
    var referenceImage: Option<string>
    var comparisonImage: Option<string>
    var isComparing: bool
    var result: Option<MatchResult>
    var showCamera: Option<Slot>

    /** Every verdict on display lies in its range. */
    ghost predicate Valid()
      reads this
    {
      result.Some? ==> InRange(result.value)
    }

    /** The page as first rendered: no images, no verdict, camera closed. */
    constructor()
      ensures Valid()
      ensures referenceImage == None && comparisonImage == None
      ensures !isComparing && result == None && showCamera == None
    {
      referenceImage, comparisonImage := None, None;
      isComparing, result, showCamera := false, None, None;
    }

    /** The compare button is enabled: nothing is being compared and both
        slots hold a non-empty image. */
    predicate CompareEnabled(): (enabled: bool)
      reads this
      ensures enabled ==> !isComparing && referenceImage.Some? && comparisonImage.Some?
      ensures enabled ==> referenceImage.value != "" && comparisonImage.value != ""
      ensures !isComparing && Present(referenceImage) && Present(comparisonImage) ==> enabled
    {
      !isComparing && Present(referenceImage) && Present(comparisonImage)
    }

    /** `handleImageUpload`: `dataUrl` is what the file reader produced for the
        chosen file, or None when no file was chosen. */
    method HandleImageUpload(dataUrl: Option<string>, slot: Slot)
      requires Valid()
      modifies this
      ensures Valid()
      ensures dataUrl == None ==> referenceImage == old(referenceImage) && comparisonImage == old(comparisonImage)
      ensures dataUrl.Some? && slot == Reference ==>
        referenceImage == dataUrl && comparisonImage == old(comparisonImage)
      ensures dataUrl.Some? && slot == Comparison ==>
        comparisonImage == dataUrl && referenceImage == old(referenceImage)
      ensures isComparing == old(isComparing) && result == old(result) && showCamera == old(showCamera)
    {
      if dataUrl.Some? {
        if slot == Reference {
          referenceImage := dataUrl;
        } else {
          comparisonImage := dataUrl;
        }
      }
    }

    /** `startCamera`: `granted` says whether the browser handed out a stream. */
    method StartCamera(slot: Slot, granted: bool) returns (toast: Option<Toast>)
      requires Valid()
      modifies this
      ensures Valid()
      ensures granted ==> showCamera == Some(slot) && toast == None
      ensures !granted ==> showCamera == old(showCamera) && toast == Some(CameraErrorToast)
      ensures referenceImage == old(referenceImage) && comparisonImage == old(comparisonImage)
      ensures isComparing == old(isComparing) && result == old(result)
    {
      if granted {
        showCamera := Some(slot);
        toast := None;
      } else {
        toast := Some(CameraErrorToast);
      }
    }

    /** `stopCamera`: `streamAttached` says whether the video element holds a
        stream; `tracksStopped` says whether its tracks were stopped. */
    method StopCamera(streamAttached: bool) returns (tracksStopped: bool)
      requires Valid()
      modifies this
      ensures Valid()
      ensures showCamera == None
      ensures tracksStopped == streamAttached
      ensures referenceImage == old(referenceImage) && comparisonImage == old(comparisonImage)
      ensures isComparing == old(isComparing) && result == old(result)
    {
      tracksStopped := streamAttached;
      showCamera := None;
    }

    /** `capturePhoto`: `videoMounted` says whether the video element exists and
        `frame` is the data URL of the frame drawn from it. */
    method CapturePhoto(videoMounted: bool, streamAttached: bool, frame: string) returns (tracksStopped: bool)
      requires Valid()
      modifies this
      ensures Valid()
      ensures !videoMounted ==>
        referenceImage == old(referenceImage) && comparisonImage == old(comparisonImage) &&
        showCamera == old(showCamera) && !tracksStopped
      ensures videoMounted && old(showCamera) == Some(Reference) ==>
        referenceImage == Some(frame) && comparisonImage == old(comparisonImage)
      ensures videoMounted && old(showCamera) != Some(Reference) ==>
        comparisonImage == Some(frame) && referenceImage == old(referenceImage)
      ensures videoMounted ==> showCamera == None && tracksStopped == streamAttached
      ensures isComparing == old(isComparing) && result == old(result)
    {
      tracksStopped := false;
      if videoMounted {
        if showCamera == Some(Reference) {
          referenceImage := Some(frame);
        } else {
          comparisonImage := Some(frame);
        }
        tracksStopped := StopCamera(streamAttached);
      }
    }

    /** `compareFaces`, taken as one step from the click to the verdict:
        without both images it only notifies; otherwise it shows the simulated
        verdict for the two draws and is no longer comparing. */
    method CompareFaces(matchDraw: real, confidenceDraw: real) returns (toast: Option<Toast>)
      requires Valid()
      requires 0.0 <= matchDraw < 1.0 && 0.0 <= confidenceDraw < 1.0
      modifies this
      ensures Valid()
      ensures !(Present(old(referenceImage)) && Present(old(comparisonImage))) ==>
        toast == Some(MissingImagesToast) && isComparing == old(isComparing) && result == old(result)
      ensures Present(old(referenceImage)) && Present(old(comparisonImage)) ==>
        toast == None && !isComparing && result == Some(SimulatedResult(matchDraw, confidenceDraw))
      ensures old(CompareEnabled()) ==> result.Some? && InRange(result.value)
      ensures referenceImage == old(referenceImage) && comparisonImage == old(comparisonImage)
      ensures showCamera == old(showCamera)
    {
      if !Present(referenceImage) || !Present(comparisonImage) {
        return Some(MissingImagesToast);
      }
      isComparing := true;
      result := None;
      result := Some(SimulatedResult(matchDraw, confidenceDraw));
      isComparing := false;
      toast := None;
    }

    /** `reset`: both slots, the verdict and the camera target are cleared. */
    method Reset()
      requires Valid()
      modifies this
      ensures Valid()
      ensures referenceImage == None && comparisonImage == None
      ensures result == None && showCamera == None
      ensures isComparing == old(isComparing)
    {
      referenceImage := None;
      comparisonImage := None;
      result := None;
      showCamera := None;
    }
  }

  /** A comparison right after a reset only notifies that images are missing. */
  method CompareAfterReset(first: string, second: string, matchDraw: real, confidenceDraw: real)
    returns (enabled: bool, toast: Option<Toast>, shown: Option<MatchResult>)
    requires 0.0 <= matchDraw < 1.0 && 0.0 <= confidenceDraw < 1.0
    ensures !enabled
    ensures toast == Some(MissingImagesToast) && shown == None
  {
    var page := new Demo();
    page.HandleImageUpload(Some(first), Reference);
    page.HandleImageUpload(Some(second), Comparison);
    page.Reset();
    enabled := page.CompareEnabled();
    toast := page.CompareFaces(matchDraw, confidenceDraw);
    shown := page.result;
  }

  /** Uploading one image and capturing the other from the camera enables the
      comparison, which then shows a verdict in range and keeps both images. */
  method UploadCaptureCompare(uploaded: string, frame: string, matchDraw: real, confidenceDraw: real)
    returns (enabledBefore: bool, shown: Option<MatchResult>, reference: Option<string>, comparison: Option<string>)
    requires uploaded != "" && frame != ""
    requires 0.0 <= matchDraw < 1.0 && 0.0 <= confidenceDraw < 1.0
    ensures enabledBefore
    ensures shown == Some(SimulatedResult(matchDraw, confidenceDraw))
    ensures reference == Some(uploaded) && comparison == Some(frame)
  {
    var page := new Demo();
    page.HandleImageUpload(Some(uploaded), Reference);
    var toast := page.StartCamera(Comparison, true);
    var stopped := page.CapturePhoto(true, true, frame);
    enabledBefore := page.CompareEnabled();
    toast := page.CompareFaces(matchDraw, confidenceDraw);
    shown, reference, comparison := page.result, page.referenceImage, page.comparisonImage;
  }
}
