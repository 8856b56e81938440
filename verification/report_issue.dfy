/**
  The report-capture flow of app/screens/ReportIssueScreen.js: open the camera,
  record a two-second video, upload it, start again.

  The component's state is the class `ReportFlow`; each handler is a method
  that updates its fields. The camera permission, the camera itself and the
  result of `recordAsync` cannot be seen from here: they are the method
  parameters `alreadyGranted`, `requestGranted`, `cameraReady` and `video`.
  Which screen is shown is a pure function of the state, `SelectScreen`.
*/
module ReportIssueScreen {
  import opened Optional

  // ---------------------------------------------------------------------------
  // The countdown shown while recording
  // ---------------------------------------------------------------------------

  /** The value recording starts the countdown from. */
  const CountdownStart: int := 2

  /**
    The reducer given to `setCountdown` once a second: it counts down by one
    and never goes below zero.
  */
  function NextCountdown(prev: int): (next: int)
    ensures next >= 0
    ensures next == if prev > 0 then prev - 1 else 0
  {
    if prev <= 1 then 0 else prev - 1
  }

  /** The countdown after `ticks` applications of the reducer. */
  function CountdownAfter(start: int, ticks: nat): int {
    if ticks == 0 then start else NextCountdown(CountdownAfter(start, ticks - 1))
  }

  /** From a non-negative start, `ticks` ticks leave max(start - ticks, 0). */
  lemma {:induction false} CountdownAfterTicks(start: int, ticks: nat)
    requires start >= 0
    ensures CountdownAfter(start, ticks) == if start >= ticks then start - ticks else 0
  {
    if ticks > 0 {
      CountdownAfterTicks(start, ticks - 1);
    }
  }

  /** Started from 2, the countdown never goes negative, shows 2, 1 and then stays at 0. */
  lemma CountdownFromStart(ticks: nat)
    ensures 0 <= CountdownAfter(CountdownStart, ticks) <= CountdownStart
    ensures ticks >= 2 ==> CountdownAfter(CountdownStart, ticks) == 0
    ensures ticks == 1 ==> CountdownAfter(CountdownStart, ticks) == 1
  {
    CountdownAfterTicks(CountdownStart, ticks);
  }

  // ---------------------------------------------------------------------------
  // Screen selection
  // ---------------------------------------------------------------------------

  /** The lower panel of the upload screen. */
  datatype UploadPanel = UploadedBanner | UploadingSpinner | UploadButton

  /** What the open camera shows. */
  datatype CameraView =
    | RequestingPermission
    | PermissionPrompt
    | Viewfinder(showCountdown: bool, showRecording: bool, recordEnabled: bool)

  /** The three screens of the flow. */
  datatype Screen = InitialScreen | CameraScreen(view: CameraView) | UploadScreen(panel: UploadPanel)

  /** JavaScript truthiness of the stored video URI: present and not the empty string. */
  predicate HasVideo(videoUri: Option<string>) {
    videoUri.Some? && videoUri.value != ""
  }

  /**
    The render body. `permission` is the camera permission hook's value:
    `None` while it is loading, otherwise whether access is granted. The
    trailing `return null` is the `None` result, which the first ensures
    shows is never reached.
  */
  function SelectScreen(cameraOpen: bool, videoUri: Option<string>, permission: Option<bool>,
                        recording: bool, countdown: int, uploading: bool, uploaded: bool): (screen: Option<Screen>)
    ensures screen.Some?
    ensures (screen.value.InitialScreen? <==> !cameraOpen && !HasVideo(videoUri))
    ensures (screen.value.CameraScreen? <==> cameraOpen && !HasVideo(videoUri))
    ensures (screen.value.UploadScreen? <==> HasVideo(videoUri))
    ensures screen.value.UploadScreen? ==>
      && (screen.value.panel == UploadedBanner <==> uploaded)
      && (screen.value.panel == UploadingSpinner <==> !uploaded && uploading)
      && (screen.value.panel == UploadButton <==> !uploaded && !uploading)
    ensures screen.value.CameraScreen? && screen.value.view.Viewfinder? ==>
      permission == Some(true)
    ensures screen.value.CameraScreen? ==>
      && (screen.value.view == RequestingPermission <==> permission.None?)
      && (screen.value.view == PermissionPrompt <==> permission == Some(false))
      && (permission == Some(true) ==>
            screen.value.view == Viewfinder(
              showCountdown := countdown > 0,
              showRecording := recording && countdown == 0,
              recordEnabled := !recording))
  {
    if !cameraOpen && !HasVideo(videoUri) then
      Some(InitialScreen)
    else if cameraOpen && !HasVideo(videoUri) then
      if permission.None? then Some(CameraScreen(RequestingPermission))
      else if !permission.value then Some(CameraScreen(PermissionPrompt))
      else Some(CameraScreen(Viewfinder(
        showCountdown := countdown > 0,
        showRecording := recording && countdown == 0,
        recordEnabled := !recording)))
    else if HasVideo(videoUri) then
      Some(UploadScreen(if !uploaded then (if uploading then UploadingSpinner else UploadButton) else UploadedBanner))
    else
      None
  }

  // ---------------------------------------------------------------------------
  // The component's state and its handlers
  // ---------------------------------------------------------------------------

  class ReportFlow {
    var cameraOpen: bool
    var recording: bool
    var countdown: int
    var videoUri: Option<string>
    var uploading: bool
    var uploaded: bool
    var facing: string

    /**
      The countdown stays within 0..2, and a stored video URI is never the
      empty string (only a truthy URI is ever stored).
    */
    ghost predicate Valid()
      reads this
    {
      && 0 <= countdown <= CountdownStart
      && (videoUri.Some? ==> videoUri.value != "")
    }

    /** The screen rendered from the current state, given the camera permission. */
    function Render(permission: Option<bool>): Screen
      reads this
    {
      SelectScreen(cameraOpen, videoUri, permission, recording, countdown, uploading, uploaded).value
    }

    /** The initial state of the `useState` hooks. */
    constructor ()
      ensures Valid()
      ensures !cameraOpen && !recording && countdown == 0 && videoUri == None
      ensures !uploading && !uploaded && facing == "back"
    {
      cameraOpen, recording, countdown, videoUri := false, false, 0, None;
      uploading, uploaded, facing := false, false, "back";
    }

    /**
      `openCamera`: without a granted permission the permission is requested;
      refused, the camera stays as it was, otherwise it opens.
    */
    method OpenCamera(alreadyGranted: bool, requestGranted: bool)
      requires Valid()
      modifies this
      ensures Valid()
      ensures cameraOpen == (alreadyGranted || requestGranted || old(cameraOpen))
      ensures recording == old(recording) && countdown == old(countdown) && videoUri == old(videoUri)
      ensures uploading == old(uploading) && uploaded == old(uploaded) && facing == old(facing)
    {
      if !alreadyGranted {
        if !requestGranted {
          return;
        }
      }
      cameraOpen := true;
    }

    /** The close button of the camera screen. */
    method CloseCamera()
      requires Valid()
      modifies this
      ensures Valid()
      ensures !cameraOpen
      ensures recording == old(recording) && countdown == old(countdown) && videoUri == old(videoUri)
      ensures uploading == old(uploading) && uploaded == old(uploaded) && facing == old(facing)
    {
      cameraOpen := false;
    }

    /** `onRecordingStarted`: the countdown starts from 2. */
    method RecordingStarted()
      requires Valid()
      modifies this
      ensures Valid()
      ensures countdown == CountdownStart
      ensures cameraOpen == old(cameraOpen) && recording == old(recording) && videoUri == old(videoUri)
      ensures uploading == old(uploading) && uploaded == old(uploaded) && facing == old(facing)
    {
      countdown := CountdownStart;
    }

    /** One tick of the countdown interval. */
    method CountdownTick()
      requires Valid()
      modifies this
      ensures Valid()
      ensures countdown == NextCountdown(old(countdown))
      ensures cameraOpen == old(cameraOpen) && recording == old(recording) && videoUri == old(videoUri)
      ensures uploading == old(uploading) && uploaded == old(uploaded) && facing == old(facing)
    {
      countdown := NextCountdown(countdown);
    }

    /**
      What `takeVideo` does once `recordAsync` settles: a truthy URI is stored
      and closes the camera; anything else (no URI, or a rejection) is the
      error path and keeps the previous video. Either way the `finally` block
      stops recording and clears the countdown.
    */
    method FinishRecording(video: Option<string>)
      requires Valid()
      modifies this
      ensures Valid()
      ensures !recording && countdown == 0
      ensures videoUri == if HasVideo(video) then video else old(videoUri)
      ensures cameraOpen == if HasVideo(video) then false else old(cameraOpen)
      ensures uploading == old(uploading) && uploaded == old(uploaded) && facing == old(facing)
    {
      if HasVideo(video) {
        videoUri := video;
        cameraOpen := false;
      }
      recording := false;
      countdown := 0;
    }

    /**
      The synchronous start of `takeVideo`, up to its `await`: nothing happens
      without a camera or while a recording is under way; otherwise recording
      starts. While `recordAsync` is pending, the camera callbacks
      `RecordingStarted` and `CountdownTick`, the close button and further taps
      may run; when it settles, `FinishRecording` applies.
    */
    method StartRecording(cameraReady: bool) returns (started: bool)
      requires Valid()
      modifies this
      ensures Valid()
      ensures started == (cameraReady && !old(recording))
      ensures recording == (started || old(recording))
      ensures cameraOpen == old(cameraOpen) && countdown == old(countdown) && videoUri == old(videoUri)
      ensures uploading == old(uploading) && uploaded == old(uploaded) && facing == old(facing)
    {
      if !cameraReady || recording {
        return false;
      }
      recording := true;
      started := true;
    }

    /** The first half of `uploadVideo`: without a video nothing happens, otherwise uploading starts. */
    method StartUpload() returns (started: bool)
      requires Valid()
      modifies this
      ensures Valid()
      ensures started == HasVideo(videoUri)
      ensures uploading == (started || old(uploading))
      ensures cameraOpen == old(cameraOpen) && recording == old(recording) && countdown == old(countdown)
      ensures videoUri == old(videoUri) && uploaded == old(uploaded) && facing == old(facing)
    {
      if !HasVideo(videoUri) {
        return false;
      }
      uploading := true;
      started := true;
    }

    /** The second half of `uploadVideo`, after the simulated delay: uploaded, and no longer uploading. */
    method CompleteUpload()
      requires Valid()
      modifies this
      ensures Valid()
      ensures uploaded && !uploading
      ensures cameraOpen == old(cameraOpen) && recording == old(recording) && countdown == old(countdown)
      ensures videoUri == old(videoUri) && facing == old(facing)
    {
      uploaded := true;
      uploading := false;
    }

    /** `uploadVideo`: does nothing without a video; otherwise ends uploaded and not uploading. */
    method UploadVideo()
      requires Valid()
      modifies this
      ensures Valid()
      ensures !HasVideo(old(videoUri)) ==> uploading == old(uploading) && uploaded == old(uploaded)
      ensures HasVideo(old(videoUri)) ==> uploaded && !uploading
      ensures cameraOpen == old(cameraOpen) && recording == old(recording) && countdown == old(countdown)
      ensures videoUri == old(videoUri) && facing == old(facing)
    {
      var started := StartUpload();
      if started {
        CompleteUpload();
      }
    }

    /**
      `resetFlow`: forgets the video and returns to the initial screen;
      `uploading` and `facing` are left as they were.
    */
    method ResetFlow()
      requires Valid()
      modifies this
      ensures Valid()
      ensures videoUri == None && !uploaded && !cameraOpen && !recording && countdown == 0
      ensures uploading == old(uploading) && facing == old(facing)
      ensures forall permission: Option<bool> ::
        SelectScreen(cameraOpen, videoUri, permission, recording, countdown, uploading, uploaded) == Some(InitialScreen)
    {
      videoUri := None;
      uploaded := false;
      cameraOpen := false;
      recording := false;
      countdown := 0;
    }
  }

  /**
    A whole successful capture with camera permission granted: from the
    initial state, the camera is opened, a recording is started, a second tap
    on the record button is ignored, the countdown runs down and the recording
    settles with a URI. `shown` lists the screen rendered after each step.
  */
  method CaptureScenario(uri: string) returns (flow: ReportFlow, secondTapStarted: bool, shown: seq<Screen>)
    requires uri != ""
    ensures flow.Valid()
    ensures !secondTapStarted
    ensures shown == [
      CameraScreen(Viewfinder(false, false, true)),  // camera open, record button enabled
      CameraScreen(Viewfinder(false, true, false)),  // recording, before the camera calls back
      CameraScreen(Viewfinder(true, false, false)),  // countdown 2
      CameraScreen(Viewfinder(true, false, false)),  // countdown 1
      CameraScreen(Viewfinder(false, true, false)),  // countdown over: "Recording..."
      UploadScreen(UploadButton)]
  {
    flow := new ReportFlow();
    flow.OpenCamera(true, true);
    shown := [flow.Render(Some(true))];
    var started := flow.StartRecording(true);
    shown := shown + [flow.Render(Some(true))];
    flow.RecordingStarted();
    secondTapStarted := flow.StartRecording(true);
    shown := shown + [flow.Render(Some(true))];
    flow.CountdownTick();
    shown := shown + [flow.Render(Some(true))];
    flow.CountdownTick();
    shown := shown + [flow.Render(Some(true))];
    flow.FinishRecording(Some(uri));
    shown := shown + [flow.Render(Some(true))];
  }
}
