/** MainActivity.kt: the recording toggles, which controls the connection
    state enables, the disconnect button, the photo command and its fallback
    upload, and the reaction to device notifications. */
module MainScreen {
  import opened Wrappers
  import opened Bytes
  import opened Files
  import opened Connection
  import opened Notification
  import PhotoUploadManager
  import PhotoAutoUploader

  /** The fields of a `glassesControl` response the app acts on. */
  datatype ControlResponse = ControlResponse(dataType: int, errorCode: int)

  predicate Succeeded(r: ControlResponse) {
    r.dataType == 1 && r.errorCode == 0
  }

  const PHOTO_COMMAND: seq<int8> := [0x02, 0x01, 0x01]
  const VIDEO_START: int8 := 0x02
  const VIDEO_STOP: int8 := 0x03
  const AUDIO_START: int8 := 0x08
  const AUDIO_STOP: int8 := 0x0c

  /** The command a toggle sends, chosen by the flag's new value. */
  function RecordCommand(recording: bool, start: int8, stop: int8): seq<int8> {
    [0x02, 0x01, if recording then start else stop]
  }

  /** The glasses can tell every command the screen sends apart. */
  lemma CommandsDistinct(v1: bool, v2: bool, a1: bool, a2: bool)
    ensures RecordCommand(v1, VIDEO_START, VIDEO_STOP) == RecordCommand(v2, VIDEO_START, VIDEO_STOP) <==> v1 == v2
    ensures RecordCommand(a1, AUDIO_START, AUDIO_STOP) == RecordCommand(a2, AUDIO_START, AUDIO_STOP) <==> a1 == a2
    ensures RecordCommand(v1, VIDEO_START, VIDEO_STOP) != RecordCommand(a1, AUDIO_START, AUDIO_STOP)
    ensures PHOTO_COMMAND != RecordCommand(v1, VIDEO_START, VIDEO_STOP)
    ensures PHOTO_COMMAND != RecordCommand(a1, AUDIO_START, AUDIO_STOP)
  {
    assert RecordCommand(v1, VIDEO_START, VIDEO_STOP)[2] != RecordCommand(a1, AUDIO_START, AUDIO_STOP)[2];
    assert PHOTO_COMMAND[2] != RecordCommand(v1, VIDEO_START, VIDEO_STOP)[2];
    assert PHOTO_COMMAND[2] != RecordCommand(a1, AUDIO_START, AUDIO_STOP)[2];
    if RecordCommand(v1, VIDEO_START, VIDEO_STOP) == RecordCommand(v2, VIDEO_START, VIDEO_STOP) {
      assert RecordCommand(v1, VIDEO_START, VIDEO_STOP)[2] == RecordCommand(v2, VIDEO_START, VIDEO_STOP)[2];
    }
    if RecordCommand(a1, AUDIO_START, AUDIO_STOP) == RecordCommand(a2, AUDIO_START, AUDIO_STOP) {
      assert RecordCommand(a1, AUDIO_START, AUDIO_STOP)[2] == RecordCommand(a2, AUDIO_START, AUDIO_STOP)[2];
    }
  }

  /** A toggle's flag once its response arrives: kept on success, flipped back
      otherwise. */
  function AfterResponse(flag: bool, r: ControlResponse): bool {
    if Succeeded(r) then flag else !flag
  }

  /** A toggle followed by its response leaves the flag changed exactly when
      the glasses accepted the command. */
  lemma ToggleSettles(before: bool, r: ControlResponse)
    ensures AfterResponse(!before, r) != before <==> Succeeded(r)
  {
  }

  /** The controls `updateConnectionUI` enables when the glasses are ready. */
  datatype Control =
    | TakePhotoButton | StartVideoButton | StartAudioButton | SyncTimeButton
    | GetBatteryButton | GetVersionButton | GetMediaCountButton | DownloadMediaButton

  const AllControls: set<Control> := {
    TakePhotoButton, StartVideoButton, StartAudioButton, SyncTimeButton,
    GetBatteryButton, GetVersionButton, GetMediaCountButton, DownloadMediaButton }

  datatype ConnectionStatus = ReadyStatus(deviceName: string) | Initializing | NotConnected

  datatype ConnectionView = ConnectionView(disconnectEnabled: bool, enabled: set<Control>, status: ConnectionStatus)

  /** `updateConnectionUI`: disconnect follows `isConnected`, every control
      follows `isReady`, and the status line prefers ready over connected. */
  function ConnectionUi(c: Conn): (v: ConnectionView)
    ensures v.disconnectEnabled <==> c.isConnected
    ensures c.isReady ==> v.enabled == AllControls
    ensures !c.isReady ==> v.enabled == {}
    ensures v.status.ReadyStatus? <==> c.isReady
    ensures v.status.ReadyStatus? ==> v.status.deviceName == c.deviceName.GetOr("Unknown")
    ensures v.status == Initializing <==> !c.isReady && c.isConnected
    ensures v.status == NotConnected <==> !c.isReady && !c.isConnected
  {
    ConnectionView(
      c.isConnected,
      if c.isReady then AllControls else {},
      if c.isReady then ReadyStatus(c.deviceName.GetOr("Unknown"))
      else if c.isConnected then Initializing
      else NotConnected)
  }

  /** `disconnectGlasses`; when `unBindDevice` throws, nothing changes. */
  function DisconnectNext(w: World, unbindThrows: bool): World {
    if unbindThrows then w
    else World(w.conn.(isConnected := false, deviceAddress := None, deviceName := None),
               w.managerAddress, w.trace + [Called(UnBindDevice)])
  }

  class MainActivity {
    var isRecordingVideo: bool
    var isRecordingAudio: bool
    /** What the connection panel shows. */
    var view: ConnectionView
    /** Fallback uploads scheduled after a photo command and not yet run. */
    var pendingUploads: nat

    constructor(st: GlassesConnectionState)
      ensures !isRecordingVideo && !isRecordingAudio && pendingUploads == 0
      ensures view == ConnectionUi(st.Snapshot())
    {
      isRecordingVideo, isRecordingAudio := false, false;
      view := ConnectionUi(st.Snapshot());
      pendingUploads := 0;
    }

    /** `updateConnectionUI`, also what `onBluetoothEvent` and `onResume` do. */
    method UpdateConnectionUI(st: GlassesConnectionState)
      modifies this
      ensures view == ConnectionUi(st.Snapshot())
      ensures isRecordingVideo == old(isRecordingVideo) && isRecordingAudio == old(isRecordingAudio)
      ensures pendingUploads == old(pendingUploads)
    {
      view := ConnectionUi(st.Snapshot());
    }

    /** `disconnectGlasses`: clears `isConnected` and the device identity but
        not `isReady`, so the controls stay enabled. */
    method DisconnectGlasses(st: GlassesConnectionState, sdk: Sdk, unbindThrows: bool)
      modifies st, sdk, this
      ensures WorldOf(st, sdk) == DisconnectNext(old(WorldOf(st, sdk)), unbindThrows)
      ensures st.isReady == old(st.isReady)
      ensures !unbindThrows ==>
        && !st.isConnected && st.deviceAddress.None? && st.deviceName.None?
        && view == ConnectionUi(st.Snapshot())
        && view.enabled == old(ConnectionUi(st.Snapshot()).enabled)
      ensures unbindThrows ==> view == old(view)
      ensures isRecordingVideo == old(isRecordingVideo) && isRecordingAudio == old(isRecordingAudio)
      ensures pendingUploads == old(pendingUploads)
    {
      if unbindThrows {
        return;
      }
      sdk.trace := sdk.trace + [Called(UnBindDevice)];
      st.isConnected := false;
      st.deviceAddress := None;
      st.deviceName := None;
      UpdateConnectionUI(st);
    }

    /** `takePhoto`: sends the photo command, unless dispatching throws. */
    method TakePhoto(sdk: Sdk, dispatchThrows: bool)
      modifies sdk
      ensures sdk.managerAddress == old(sdk.managerAddress)
      ensures sdk.trace == old(sdk.trace) + (if dispatchThrows then [] else [Called(GlassesControl(PHOTO_COMMAND))])
    {
      if !dispatchThrows {
        sdk.trace := sdk.trace + [Called(GlassesControl(PHOTO_COMMAND))];
      }
    }

    /** The photo command's response: only success schedules the fallback
        upload. */
    method OnPhotoResponse(r: ControlResponse)
      modifies this
      ensures pendingUploads == old(pendingUploads) + (if Succeeded(r) then 1 else 0)
      ensures isRecordingVideo == old(isRecordingVideo) && isRecordingAudio == old(isRecordingAudio)
      ensures view == old(view)
    {
      if Succeeded(r) {
        pendingUploads := pendingUploads + 1;
      }
    }

    /** The delayed fallback runs `triggerPhotoUpload`, which always passes a
        listener. */
    method RunPendingUpload(uploader: PhotoAutoUploader.Uploader, prefs: PhotoUploadManager.SharedPreferences,
                            dirs: seq<Directory>, now: int, buildFailure: Option<PhotoUploadManager.Exception>)
      returns (attempt: PhotoAutoUploader.Attempt)
      requires pendingUploads > 0
      modifies this, uploader
      ensures pendingUploads == old(pendingUploads) - 1
      ensures old(uploader.isUploading) ==> attempt == PhotoAutoUploader.AlreadyUploading
      ensures !old(uploader.isUploading) && !PhotoUploadManager.IsEndpointConfigured(prefs) ==>
        attempt == PhotoAutoUploader.NotConfigured
      ensures !old(uploader.isUploading) && PhotoUploadManager.IsEndpointConfigured(prefs) && PhotoAutoUploader.NewestPhoto(dirs).None? ==>
        attempt == PhotoAutoUploader.NoPhotoFound
      ensures !old(uploader.isUploading) && PhotoUploadManager.IsEndpointConfigured(prefs) && PhotoAutoUploader.NewestPhoto(dirs).Some? ==>
        var f := PhotoAutoUploader.NewestPhoto(dirs).value;
        attempt == if f.lastModified <= old(uploader.lastUploadTime) then PhotoAutoUploader.NoNewPhoto(f.name) else PhotoAutoUploader.Started(f.name)
      ensures attempt == PhotoAutoUploader.AlreadyUploading ==> uploader.delivered == old(uploader.delivered)
      ensures attempt == PhotoAutoUploader.NotConfigured ==>
        uploader.delivered == old(uploader.delivered)
          + PhotoAutoUploader.Tell(true, PhotoAutoUploader.UploadFailed("none", "Backend API not configured. Go to Settings."))
      ensures attempt == PhotoAutoUploader.NoPhotoFound ==>
        uploader.delivered == old(uploader.delivered)
          + PhotoAutoUploader.Tell(true, PhotoAutoUploader.UploadFailed("none", "No photo found to upload"))
      ensures attempt.NoNewPhoto? ==>
        uploader.delivered == old(uploader.delivered)
          + PhotoAutoUploader.Tell(true, PhotoAutoUploader.UploadFailed(attempt.filename, "No new photo to upload"))
      ensures !attempt.Started? ==>
        && uploader.isUploading == old(uploader.isUploading) && uploader.inFlight == old(uploader.inFlight)
        && uploader.sent == old(uploader.sent)
      ensures attempt.Started? ==>
        var f := PhotoAutoUploader.NewestPhoto(dirs).value;
        var s := PhotoUploadManager.UploadPhoto(prefs, f, now, buildFailure);
        && uploader.isUploading == s.Enqueued?
        && uploader.delivered == old(uploader.delivered) + PhotoAutoUploader.DispatchEvents(f.name, true, s)
        && uploader.inFlight == old(uploader.inFlight) + (if s.Enqueued? then [PhotoAutoUploader.InFlight(f.name, true, s.request)] else [])
        && uploader.sent == old(uploader.sent) + (if s.Enqueued? then [s.request] else [])
      ensures uploader.lastUploadTime == old(uploader.lastUploadTime)
      ensures old(uploader.SingleUpload()) ==> uploader.SingleUpload()
      ensures isRecordingVideo == old(isRecordingVideo) && isRecordingAudio == old(isRecordingAudio)
      ensures view == old(view)
    {
      pendingUploads := pendingUploads - 1;
      attempt := uploader.OnPhotoTaken(prefs, dirs, true, now, buildFailure);
    }

    /** `toggleVideoRecording`: flips the flag first, sends the command the
        new value selects, and flips back at once if dispatching throws. */
    method ToggleVideoRecording(sdk: Sdk, dispatchThrows: bool)
      modifies this, sdk
      ensures isRecordingVideo == (if dispatchThrows then old(isRecordingVideo) else !old(isRecordingVideo))
      ensures sdk.trace == old(sdk.trace)
        + (if dispatchThrows then [] else [Called(GlassesControl(RecordCommand(!old(isRecordingVideo), VIDEO_START, VIDEO_STOP)))])
      ensures sdk.managerAddress == old(sdk.managerAddress)
      ensures isRecordingAudio == old(isRecordingAudio) && pendingUploads == old(pendingUploads) && view == old(view)
    {
      isRecordingVideo := !isRecordingVideo;
      var command := if isRecordingVideo then VIDEO_START else VIDEO_STOP;
      if dispatchThrows {
        isRecordingVideo := !isRecordingVideo;
      } else {
        sdk.trace := sdk.trace + [Called(GlassesControl([0x02, 0x01, command]))];
      }
    }

    /** The video command's response: a failure flips the flag back. */
    method OnVideoResponse(r: ControlResponse)
      modifies this
      ensures isRecordingVideo == AfterResponse(old(isRecordingVideo), r)
      ensures isRecordingAudio == old(isRecordingAudio) && pendingUploads == old(pendingUploads) && view == old(view)
    {
      if !Succeeded(r) {
        isRecordingVideo := !isRecordingVideo;
      }
    }

    /** `toggleAudioRecording`, the same protocol with the audio commands. */
    method ToggleAudioRecording(sdk: Sdk, dispatchThrows: bool)
      modifies this, sdk
      ensures isRecordingAudio == (if dispatchThrows then old(isRecordingAudio) else !old(isRecordingAudio))
      ensures sdk.trace == old(sdk.trace)
        + (if dispatchThrows then [] else [Called(GlassesControl(RecordCommand(!old(isRecordingAudio), AUDIO_START, AUDIO_STOP)))])
      ensures sdk.managerAddress == old(sdk.managerAddress)
      ensures isRecordingVideo == old(isRecordingVideo) && pendingUploads == old(pendingUploads) && view == old(view)
    {
      isRecordingAudio := !isRecordingAudio;
      var command := if isRecordingAudio then AUDIO_START else AUDIO_STOP;
      if dispatchThrows {
        isRecordingAudio := !isRecordingAudio;
      } else {
        sdk.trace := sdk.trace + [Called(GlassesControl([0x02, 0x01, command]))];
      }
    }

    /** The audio command's response: a failure flips the flag back. */
    method OnAudioResponse(r: ControlResponse)
      modifies this
      ensures isRecordingAudio == AfterResponse(old(isRecordingAudio), r)
      ensures isRecordingVideo == old(isRecordingVideo) && pendingUploads == old(pendingUploads) && view == old(view)
    {
      if !Succeeded(r) {
        isRecordingAudio := !isRecordingAudio;
      }
    }

    /** `handleDeviceNotification`: only a photo notification has an effect
        beyond the log, and that effect is an upload attempt. */
    method HandleDeviceNotification(data: Option<seq<int8>>, uploader: PhotoAutoUploader.Uploader,
                                    prefs: PhotoUploadManager.SharedPreferences, dirs: seq<Directory>,
                                    now: int, buildFailure: Option<PhotoUploadManager.Exception>)
      returns (event: Option<DeviceNotification>, attempt: Option<PhotoAutoUploader.Attempt>)
      modifies uploader
      ensures event == Decode(data)
      ensures attempt.Some? <==> event == Some(PhotoCaptured)
      ensures attempt.None? ==>
        && uploader.isUploading == old(uploader.isUploading)
        && uploader.inFlight == old(uploader.inFlight) && uploader.sent == old(uploader.sent)
        && uploader.delivered == old(uploader.delivered)
      ensures attempt.Some? && old(uploader.isUploading) ==> attempt.value == PhotoAutoUploader.AlreadyUploading
      ensures attempt.Some? && !old(uploader.isUploading) && !PhotoUploadManager.IsEndpointConfigured(prefs) ==>
        attempt.value == PhotoAutoUploader.NotConfigured
      ensures attempt.Some? && !old(uploader.isUploading) && PhotoUploadManager.IsEndpointConfigured(prefs)
              && PhotoAutoUploader.NewestPhoto(dirs).None? ==>
        attempt.value == PhotoAutoUploader.NoPhotoFound
      ensures attempt.Some? && !old(uploader.isUploading) && PhotoUploadManager.IsEndpointConfigured(prefs)
              && PhotoAutoUploader.NewestPhoto(dirs).Some? ==>
        var f := PhotoAutoUploader.NewestPhoto(dirs).value;
        attempt.value == if f.lastModified <= old(uploader.lastUploadTime) then PhotoAutoUploader.NoNewPhoto(f.name) else PhotoAutoUploader.Started(f.name)
      ensures attempt == Some(PhotoAutoUploader.AlreadyUploading) ==> uploader.delivered == old(uploader.delivered)
      ensures attempt == Some(PhotoAutoUploader.NotConfigured) ==>
        uploader.delivered == old(uploader.delivered)
          + PhotoAutoUploader.Tell(true, PhotoAutoUploader.UploadFailed("none", "Backend API not configured. Go to Settings."))
      ensures attempt == Some(PhotoAutoUploader.NoPhotoFound) ==>
        uploader.delivered == old(uploader.delivered)
          + PhotoAutoUploader.Tell(true, PhotoAutoUploader.UploadFailed("none", "No photo found to upload"))
      ensures attempt.Some? && attempt.value.NoNewPhoto? ==>
        uploader.delivered == old(uploader.delivered)
          + PhotoAutoUploader.Tell(true, PhotoAutoUploader.UploadFailed(attempt.value.filename, "No new photo to upload"))
      ensures attempt.Some? && !attempt.value.Started? ==>
        && uploader.isUploading == old(uploader.isUploading) && uploader.inFlight == old(uploader.inFlight)
        && uploader.sent == old(uploader.sent)
      ensures attempt.Some? && attempt.value.Started? && PhotoAutoUploader.NewestPhoto(dirs).Some? ==>
        var f := PhotoAutoUploader.NewestPhoto(dirs).value;
        var s := PhotoUploadManager.UploadPhoto(prefs, f, now, buildFailure);
        && uploader.isUploading == s.Enqueued?
        && uploader.delivered == old(uploader.delivered) + PhotoAutoUploader.DispatchEvents(f.name, true, s)
        && uploader.inFlight == old(uploader.inFlight) + (if s.Enqueued? then [PhotoAutoUploader.InFlight(f.name, true, s.request)] else [])
        && uploader.sent == old(uploader.sent) + (if s.Enqueued? then [s.request] else [])
      ensures uploader.lastUploadTime == old(uploader.lastUploadTime)
      ensures old(uploader.SingleUpload()) ==> uploader.SingleUpload()
    {
      event := Decode(data);
      attempt := None;
      if event == Some(PhotoCaptured) {
        var a := uploader.OnPhotoTaken(prefs, dirs, true, now, buildFailure);
        attempt := Some(a);
      }
    }
  }
}
