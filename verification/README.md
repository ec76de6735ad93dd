# MyCyanGlasses, modelled in Dafny

MyCyanGlasses is an Android app that drives a pair of HeyCyan smart glasses
over Bluetooth LE. It connects through the vendor SDK and sends capture
commands (photo, video, audio). It decodes the notifications the glasses push
and uploads every new photo to a configurable HTTP backend. This project
models the sequential logic of the app in Dafny and proves properties of it.
The SDK, the HTTP client, the filesystem and the UI are replaced by inputs and
recorded outputs.

Modules, one per source file or shared concept:

- `Wrappers`, `Bytes`, `Text`, `Sorting`, `Files` (common.dfy, sorting.dfy, files.dfy)
  - `Option`;
  - Kotlin's signed `Byte` and its `and 0xFF` reading;
  - `trim`/`isBlank` over Kotlin's whitespace set, `File.extension`, ASCII `lowercase`, decimal `toString`;
  - `sortByDescending` as a stable insertion sort;
  - directories and files as records.
- `PhotoUploadManager` (upload_manager.dfy)
  - the preferences store as a class holding a map;
  - endpoint validation, including how `java.net.URL` finds the protocol of a string;
  - the multipart request, the `Authorization` header and the classification of the HTTP outcome.
- `PhotoAutoUploader` (uploader.dfy)
  - the singleton as a class with `isUploading` and `lastUploadTime`;
  - the scan for the newest photo as a loop proved against a fold;
  - the guard chain of `onPhotoTaken`, and the completion callback.
- `Connection` (connection.dfy)
  - `GlassesConnectionState`, plus an `Sdk` object standing for the vendor SDK and the EventBus;
  - `Sdk` holds `DeviceManager.deviceAddress` and one ordered trace of SDK calls and posted `BluetoothEvent`s;
  - each receiver is a method, tied to a pure next-state function.
- `Notification` (notification.dfy): the device-notification decoder, with an encoder and round-trip lemmas.
- `MainScreen` (main_activity.dfy): the recording toggles, control enablement, disconnect, the photo command and its fallback upload.
- `DeviceScan` (device_scan.dfy): the scan list, which is deduplicated by address and sorted by RSSI, and the hand-over to the connection state.
- `Gallery` (gallery.dfy): the media list, classified by extension and sorted newest first, and the delete count, with a file listed twice deleted once.
- `Settings` (settings.dfy): save, reset and the connection test.
- `Lifecycle` (lifecycle.dfy)
  - every connection-relevant stimulus applied over whole runs, together with what the main screen last drew;
  - the invariant that no glasses command and no ready event precede `initEnable`;
  - the controls that stay drawn enabled after an ACL disconnect.

Where the documented intent and the code disagree, the model follows the code:

- The battery level is `data[7] & 0xFF`, so it ranges over 0..255, not 0..100.
- `onServiceDiscovered` sets `isReady` whether or not a device is connected, so `isReady` does not imply `isConnected` (`Lifecycle.ReadyWithoutConnection`).
- `disconnectGlasses` leaves `isReady` set, and the controls stay enabled (`Lifecycle.UserDisconnectKeepsControls`).
- There is no dispatcher that refuses commands while not ready. Commands are only kept back by the buttons being disabled, and a button keeps what the last `updateConnectionUI` drew (`Lifecycle.Step`). An ACL disconnect redraws nothing, so a command can then be sent while `isReady` is false (see Findings).
- A toggle's response flips back whatever the flag holds when the response arrives. Overlapping toggles are not serialised.

## Model

| member | source | states |
|---|---|---|
| `Bytes.Unsigned` | app/src/main/java/com/buddy/cyanglasses/MainActivity.kt:206 | the unsigned reading of a byte lies in 0..255, is congruent to it mod 256, and equals it for non-negative bytes |
| `Bytes.UnsignedIsOneIffSignedIsOne` | app/src/main/java/com/buddy/cyanglasses/MainActivity.kt:229 | the microphone test on the signed byte agrees with an unsigned test |
| `Text.Trim` | app/src/main/java/com/buddy/cyanglasses/SettingsActivity.kt:48-49 | the result is a contiguous slice with only whitespace cut off either end, starts and ends with non-whitespace, and is empty iff the input is blank |
| `Text.TrimIdempotent` | app/src/main/java/com/buddy/cyanglasses/SettingsActivity.kt:48 | trimming twice is trimming once |
| `Text.Extension` | app/src/main/java/com/buddy/cyanglasses/PhotoAutoUploader.kt:122 | the extension holds no '.', is the text after the last '.', and is empty when there is no '.' |
| `Text.ExtensionOfJoined` | app/src/main/java/com/buddy/cyanglasses/GalleryActivity.kt:78 | the extension of `base.ext` is `ext` |
| `Text.NatToStringRoundTrip` | app/src/main/java/com/buddy/cyanglasses/PhotoUploadManager.kt:81 | the decimal text of a number reads back as that number |
| `Sorting.SortDescendingSorted` | app/src/main/java/com/buddy/cyanglasses/GalleryActivity.kt:96 | the sorted list is non-increasing in its key |
| `Sorting.SortDescendingPermutes` | app/src/main/java/com/buddy/cyanglasses/GalleryActivity.kt:96 | the sorted list is a permutation of the input |
| `Sorting.SortOfSorted` | app/src/main/java/com/buddy/cyanglasses/DeviceScanActivity.kt:202 | sorting an already sorted list changes nothing (stability) |
| `Sorting.SortAfterAppend` | app/src/main/java/com/buddy/cyanglasses/DeviceScanActivity.kt:201-202 | appending to a sorted list and sorting inserts the new element after every element with a key at least as large |
| `PhotoUploadManager.SharedPreferences.constructor` | app/src/main/java/com/buddy/cyanglasses/PhotoUploadManager.kt:30-44 | with nothing stored the endpoint is the default one, there is no key, and auto-upload is not configured |
| `PhotoUploadManager.SetApiEndpoint` | app/src/main/java/com/buddy/cyanglasses/PhotoUploadManager.kt:35-39 | the endpoint is stored and read back; the key is untouched |
| `PhotoUploadManager.SetApiKey` | app/src/main/java/com/buddy/cyanglasses/PhotoUploadManager.kt:46-54 | a null or blank key removes the entry and reads back as null; any other key is stored; the endpoint is untouched |
| `PhotoUploadManager.ConfiguredIffStored` | app/src/main/java/com/buddy/cyanglasses/PhotoUploadManager.kt:125-128 | unfolds the definition, for reference: configured iff an endpoint is stored that is neither the default one nor blank |
| `PhotoUploadManager.UrlTrimStart` | app/src/main/java/com/buddy/cyanglasses/PhotoUploadManager.kt:134 | the leading characters <= ' ' are dropped, and nothing else |
| `PhotoUploadManager.ColonBeforeSlash` | app/src/main/java/com/buddy/cyanglasses/PhotoUploadManager.kt:134 | finds the first ':' with no ':' or '/' before it, and nothing when there is no ':' |
| `PhotoUploadManager.HttpUrlsValidate` | app/src/main/java/com/buddy/cyanglasses/PhotoUploadManager.kt:130-139 | every endpoint of the form http://… or https://… validates |
| `PhotoUploadManager.NoColonInvalid` | app/src/main/java/com/buddy/cyanglasses/PhotoUploadManager.kt:130-139 | an endpoint without a ':' has no protocol and is rejected |
| `PhotoUploadManager.DefaultEndpointValid` | app/src/main/java/com/buddy/cyanglasses/PhotoUploadManager.kt:22 | the default test endpoint is itself a valid URL |
| `PhotoUploadManager.AuthHeaders` | app/src/main/java/com/buddy/cyanglasses/PhotoUploadManager.kt:90-93 | there is exactly one header, `Authorization: Bearer <key>`, iff the key is non-blank, else none |
| `PhotoUploadManager.MultipartBody` | app/src/main/java/com/buddy/cyanglasses/PhotoUploadManager.kt:74-83 | the parts are photo (the file, under its name, image/jpeg), timestamp (reading back as the send time) and filename, in that order |
| `PhotoUploadManager.Submit` | app/src/main/java/com/buddy/cyanglasses/PhotoUploadManager.kt:64-122 | a missing or unreadable file, or a build exception, calls back at once with the exact failure text and sends nothing; otherwise a request with that URL, body and header is enqueued |
| `PhotoUploadManager.UploadPhoto` | app/src/main/java/com/buddy/cyanglasses/PhotoUploadManager.kt:56-98 | the request goes to the stored endpoint with the stored key; the immediate failures do not depend on the settings |
| `PhotoUploadManager.ClassifyResponse` | app/src/main/java/com/buddy/cyanglasses/PhotoUploadManager.kt:99-121 | success iff a response with a status code in 200..299 (OkHttp's `isSuccessful`); the error is null iff success; the body is passed on only from a response; the server-error and network-error texts |
| `PhotoAutoUploader.IsImageFileByExtension` | app/src/main/java/com/buddy/cyanglasses/PhotoAutoUploader.kt:121-124 | `base.ext` is an image iff the lowercased `ext` is jpg, jpeg or png |
| `PhotoAutoUploader.NoDotIsNotImage` | app/src/main/java/com/buddy/cyanglasses/PhotoAutoUploader.kt:121-124 | a name without an extension is never an image |
| `PhotoAutoUploader.ScanFindsFirstNewest` | app/src/main/java/com/buddy/cyanglasses/PhotoAutoUploader.kt:96-110 | the scan finds a candidate with time > 0, strictly newer than every candidate before it and not older than any; ties keep the first; nothing iff no candidate is newer than 0 |
| `PhotoAutoUploader.ScanListing` | app/src/main/java/com/buddy/cyanglasses/PhotoAutoUploader.kt:102-109 | the loop over one listing continues the scan over that listing's image files |
| `PhotoAutoUploader.NewestPhotoIsNewest` | app/src/main/java/com/buddy/cyanglasses/PhotoAutoUploader.kt:96-118 | the photo found is a candidate with time above 0 and no candidate is newer; nothing is found iff no candidate is newer than 0 |
| `PhotoAutoUploader.FindNewestPhoto` | app/src/main/java/com/buddy/cyanglasses/PhotoAutoUploader.kt:89-119 | the loop over directories and files computes the scan, skipping missing, non-directory and unlistable directories and non-image entries; the result is a candidate with the largest time, above 0 |
| `PhotoAutoUploader.Completion` | app/src/main/java/com/buddy/cyanglasses/PhotoAutoUploader.kt:78-85 | success reports the body; failure reports the error, or "Unknown error" when it is null |
| `PhotoAutoUploader.Uploader.constructor` | app/src/main/java/com/buddy/cyanglasses/PhotoAutoUploader.kt:12-13 | starts with time 0, nothing in progress, nothing sent |
| `PhotoAutoUploader.Uploader.Finish` | app/src/main/java/com/buddy/cyanglasses/PhotoAutoUploader.kt:75-86 | clears `isUploading` always; moves `lastUploadTime` to now only on success; tells the listener |
| `PhotoAutoUploader.Uploader.UploadPhoto` | app/src/main/java/com/buddy/cyanglasses/PhotoAutoUploader.kt:67-87 | sets `isUploading` before dispatch; reports started and progress; either finishes at once or enqueues one request |
| `PhotoAutoUploader.Uploader.OnPhotoTaken` | app/src/main/java/com/buddy/cyanglasses/PhotoAutoUploader.kt:23-55 | the four guards in order, with their messages; no guard sends anything; only a photo newer than the last upload starts one; the time is unchanged; at most one upload in flight is preserved |
| `PhotoAutoUploader.Uploader.UploadSpecificPhoto` | app/src/main/java/com/buddy/cyanglasses/PhotoAutoUploader.kt:57-65 | only the file's existence is checked ("File not found"); otherwise the upload starts regardless of the other guards |
| `PhotoAutoUploader.Uploader.CompleteUpload` | app/src/main/java/com/buddy/cyanglasses/PhotoAutoUploader.kt:75-86 | the pending request's outcome is classified; `isUploading` is cleared; the time advances only on success; the single-upload invariant is kept |
| `PhotoAutoUploader.Uploader.ResetLastUploadTime` | app/src/main/java/com/buddy/cyanglasses/PhotoAutoUploader.kt:134-137 | the time goes back to 0 and nothing else changes |
| `Connection.GlassesConnectionState.constructor` | app/src/main/java/com/buddy/cyanglasses/MyApplication.kt:67-72 | not connected, not ready, no address, no name |
| `Connection.ConnectStatue` | app/src/main/java/com/buddy/cyanglasses/MyApplication.kt:87-102 | a connected device sets the address, the name only if non-null, and `isConnected`, leaving `isReady` and the EventBus alone; otherwise both flags are cleared, address and name kept, `BluetoothEvent(false)` posted |
| `Connection.OnServiceDiscovered` | app/src/main/java/com/buddy/cyanglasses/MyApplication.kt:104-117 | `initEnable`, then the ready flags, then `BluetoothEvent(true)`, whatever `isConnected` is |
| `Connection.OnReceive` | app/src/main/java/com/buddy/cyanglasses/MyApplication.kt:137-178 | adapter off clears both flags and posts false; adapter on reconnects iff the last address is non-empty and keeps the flags; ACL disconnect clears both flags and posts nothing; address and name never change |
| `Notification.Decode` | app/src/main/java/com/buddy/cyanglasses/MainActivity.kt:202-241 | no event for a null or short frame; each tag's event iff its tag and length guard hold; battery level and charging bits; unknown tags reported with their value |
| `Notification.Encode` | app/src/main/java/com/buddy/cyanglasses/MainActivity.kt:205-232 | the shortest frame for a notification keeps the six header bytes |
| `Notification.DecodeEncode` | app/src/main/java/com/buddy/cyanglasses/MainActivity.kt:205-232 | decoding an encoded notification gives it back |
| `Notification.DecodeIgnoresTrailingBytes` | app/src/main/java/com/buddy/cyanglasses/MainActivity.kt:205-232 | whatever decodes is encodable, and bytes after the payload change nothing |
| `MainScreen.CommandsDistinct` | app/src/main/java/com/buddy/cyanglasses/MainActivity.kt:292-366 | a check of the constants rather than a property: the photo, video start/stop and audio start/stop commands are pairwise different, and each toggle's command is chosen by the new flag |
| `MainScreen.ToggleSettles` | app/src/main/java/com/buddy/cyanglasses/MainActivity.kt:345-353 | follows from the definitions: after a toggle and its response the flag has changed iff the response was a success |
| `MainScreen.ConnectionUi` | app/src/main/java/com/buddy/cyanglasses/MainActivity.kt:243-270 | disconnect enabled iff connected; every control enabled iff ready; status Ready (name or "Unknown"), else Connected-initialising, else Not Connected |
| `MainScreen.MainActivity.constructor` | app/src/main/java/com/buddy/cyanglasses/MainActivity.kt:32-33 | not recording, nothing scheduled |
| `MainScreen.MainActivity.UpdateConnectionUI` | app/src/main/java/com/buddy/cyanglasses/MainActivity.kt:69-73 | the panel shows the current connection state |
| `MainScreen.MainActivity.DisconnectGlasses` | app/src/main/java/com/buddy/cyanglasses/MainActivity.kt:273-285 | clears `isConnected`, address and name, keeps `isReady` and so the enabled controls; nothing changes if `unBindDevice` throws |
| `MainScreen.MainActivity.TakePhoto` | app/src/main/java/com/buddy/cyanglasses/MainActivity.kt:287-323 | sends `[0x02,0x01,0x01]` unless dispatching throws |
| `MainScreen.MainActivity.OnPhotoResponse` | app/src/main/java/com/buddy/cyanglasses/MainActivity.kt:303-316 | schedules the fallback upload iff dataType is 1 and errorCode 0 |
| `MainScreen.MainActivity.RunPendingUpload` | app/src/main/java/com/buddy/cyanglasses/MainActivity.kt:544-547 | the fallback runs `onPhotoTaken` with a listener: every outcome of its guard chain (already uploading, not configured, no photo, no new photo, started) with the listener messages, the uploader's new state, the unchanged time and the single-upload invariant |
| `MainScreen.MainActivity.ToggleVideoRecording` | app/src/main/java/com/buddy/cyanglasses/MainActivity.kt:325-362 | flips the flag and sends 0x02 (now recording) or 0x03; dispatch failure leaves the flag as it was |
| `MainScreen.MainActivity.OnVideoResponse` | app/src/main/java/com/buddy/cyanglasses/MainActivity.kt:342-354 | a failed response flips the flag back |
| `MainScreen.MainActivity.ToggleAudioRecording` | app/src/main/java/com/buddy/cyanglasses/MainActivity.kt:364-401 | flips the flag and sends 0x08 (now recording) or 0x0c; dispatch failure leaves the flag as it was |
| `MainScreen.MainActivity.OnAudioResponse` | app/src/main/java/com/buddy/cyanglasses/MainActivity.kt:381-393 | a failed response flips the flag back |
| `MainScreen.MainActivity.HandleDeviceNotification` | app/src/main/java/com/buddy/cyanglasses/MainActivity.kt:202-213 | only a photo notification triggers an upload attempt, which runs `onPhotoTaken` with a listener: every guard outcome with its listener message, the uploader's new state, the unchanged time and the single-upload invariant; any other frame leaves the uploader alone |
| `DeviceScan.InsertKeepsUnique` | app/src/main/java/com/buddy/cyanglasses/DeviceScanActivity.kt:198-202 | inserting a device with a new address keeps the addresses unique |
| `DeviceScan.AddedDeviceKeepsListValid` | app/src/main/java/com/buddy/cyanglasses/DeviceScanActivity.kt:198-202 | after an add the list is unique, sorted by RSSI (strongest first) and holds exactly the old devices plus the new one |
| `DeviceScan.DeviceScanActivity.constructor` | app/src/main/java/com/buddy/cyanglasses/DeviceScanActivity.kt:44 | the list starts empty |
| `DeviceScan.DeviceScanActivity.StartScanning` | app/src/main/java/com/buddy/cyanglasses/DeviceScanActivity.kt:157-170 | the list is emptied on every scan |
| `DeviceScan.DeviceScanActivity.StopScanning` | app/src/main/java/com/buddy/cyanglasses/DeviceScanActivity.kt:172-179 | scanning stops; the list is kept |
| `DeviceScan.DeviceScanActivity.OnLeScan` | app/src/main/java/com/buddy/cyanglasses/DeviceScanActivity.kt:190-208 | a device is added iff it is non-null, named, and its address is new; the list stays unique and sorted |
| `DeviceScan.DeviceScanActivity.ConnectToDevice` | app/src/main/java/com/buddy/cyanglasses/DeviceScanActivity.kt:223-237 | address and name go into the connection state and `DeviceManager`, then `connectDirectly`; the flags are untouched |
| `DeviceScan.DeviceScanActivity.OnBluetoothEvent` | app/src/main/java/com/buddy/cyanglasses/DeviceScanActivity.kt:70-86 | a ready event sets RESULT_OK and finishes; a failure event changes neither |
| `DeviceScan.DeviceScanActivity.OnConnectionTimeout` | app/src/main/java/com/buddy/cyanglasses/DeviceScanActivity.kt:240-246 | a timeout is reported iff the glasses are still not ready |
| `Gallery.ClassifyByExtension` | app/src/main/java/com/buddy/cyanglasses/GalleryActivity.kt:78-89 | `base.ext` is an image, video or audio file iff the lowercased `ext` is in that type's list |
| `Gallery.GalleryImagesAreUploaderImages` | app/src/main/java/com/buddy/cyanglasses/GalleryActivity.kt:80-82 | the gallery's images are exactly the uploader's photos |
| `Gallery.MediaInDirsSound` | app/src/main/java/com/buddy/cyanglasses/GalleryActivity.kt:74-93 | every listed entry is a regular file of a scanned directory, with the type its extension gives |
| `Gallery.MediaInDirsComplete` | app/src/main/java/com/buddy/cyanglasses/GalleryActivity.kt:74-93 | every regular file with a known extension in a scanned directory is listed |
| `Gallery.CollectListing` | app/src/main/java/com/buddy/cyanglasses/GalleryActivity.kt:76-91 | the loop over one listing collects exactly its regular files with a known extension, in listing order, each with its type |
| `Gallery.CollectMedia` | app/src/main/java/com/buddy/cyanglasses/GalleryActivity.kt:74-93 | the nested loop collects exactly those files, in listing order |
| `Gallery.StatusText` | app/src/main/java/com/buddy/cyanglasses/GalleryActivity.kt:101-105 | the empty-gallery message iff there are no files; otherwise a count that reads back as the number, then " file(s) found" |
| `Gallery.DeletedCount` | app/src/main/java/com/buddy/cyanglasses/GalleryActivity.kt:141-146 | one success per distinct file removed, so at most the number of entries |
| `Gallery.DeletedPathsAre` | app/src/main/java/com/buddy/cyanglasses/GalleryActivity.kt:141-146 | a file is removed iff some entry for it is deletable |
| `Gallery.DeletedCountAllIff` | app/src/main/java/com/buddy/cyanglasses/GalleryActivity.kt:141-146 | every `delete()` succeeds iff every file is deletable and no file is listed twice |
| `Gallery.DeletedCountPermutation` | app/src/main/java/com/buddy/cyanglasses/GalleryActivity.kt:96-146 | the number of successful deletes does not depend on the list's order |
| `Gallery.SecondCopyDeletesNothing` | app/src/main/java/com/buddy/cyanglasses/GalleryActivity.kt:141-146 | files listed a second time add no successful delete |
| `Gallery.ThreeDirectories` | app/src/main/java/com/buddy/cyanglasses/GalleryActivity.kt:68-93 | the list holds the three directories' media in directory order |
| `Gallery.GalleryListsDcimTwice` | app/src/main/java/com/buddy/cyanglasses/GalleryActivity.kt:68-146 | with the first and third directory the same, as `File(getExternalFilesDir(null), "DCIM")` and `getExternalFilesDir("DCIM")` are, the DCIM media are listed twice while the delete removes each once |
| `Gallery.CountDeleted` | app/src/main/java/com/buddy/cyanglasses/GalleryActivity.kt:141-146 | the loop counts the successful deletes, a second entry for a removed file failing |
| `Gallery.GalleryActivity.constructor` | app/src/main/java/com/buddy/cyanglasses/GalleryActivity.kt:25 | the list starts empty |
| `Gallery.GalleryActivity.LoadMediaFiles` | app/src/main/java/com/buddy/cyanglasses/GalleryActivity.kt:64-106 | the list is rebuilt from the directories alone (nothing stale survives), sorted newest first as a permutation, and the status line follows |
| `Gallery.GalleryActivity.DeleteAllMedia` | app/src/main/java/com/buddy/cyanglasses/GalleryActivity.kt:131-139 | nothing to delete iff the list is empty; otherwise confirmation is asked for all of them |
| `Gallery.GalleryActivity.OnDeleteConfirmed` | app/src/main/java/com/buddy/cyanglasses/GalleryActivity.kt:140-149 | reports the number of successful deletes, then reloads |
| `Settings.TrimBlank` | app/src/main/java/com/buddy/cyanglasses/SettingsActivity.kt:48-52 | follows from `Text.Trim`'s contract: a trimmed text is blank iff the text was |
| `Settings.SaveOutcomeOf` | app/src/main/java/com/buddy/cyanglasses/SettingsActivity.kt:47-60 | rejected as empty iff the text is blank; rejected as invalid iff it is non-blank and its trim is not a valid URL; saved iff non-blank and valid |
| `Settings.SaveSettings` | app/src/main/java/com/buddy/cyanglasses/SettingsActivity.kt:47-68 | the outcome is the decision above; nothing is written unless saved; on a save the trimmed endpoint is stored, and the key is stored trimmed or removed when blank; no other entry changes |
| `Settings.ResetToDefaults` | app/src/main/java/com/buddy/cyanglasses/SettingsActivity.kt:119-122 | the new store is the old one with the test endpoint stored and the key removed, every other entry unchanged; auto-upload is then not configured, though the endpoint is valid |
| `Settings.TestConnectionIgnoresTypedEndpoint` | app/src/main/java/com/buddy/cyanglasses/SettingsActivity.kt:70-94 | a valid typed endpoint that is not the stored one is not where the test request goes |
| `Settings.TestConnection` | app/src/main/java/com/buddy/cyanglasses/SettingsActivity.kt:70-112 | nothing happens for an invalid typed endpoint; a failed write is reported; the test request goes to the validated typed endpoint with the stored key |
| `Settings.TestConnectionAgreesWhenSaved` | app/src/main/java/com/buddy/cyanglasses/SettingsActivity.kt:70-94 | once the typed endpoint is saved, the corrected and the original test agree |
| `Lifecycle.ServiceDiscoveredOrdered` | app/src/main/java/com/buddy/cyanglasses/MyApplication.kt:107-116 | the order in `onServiceDiscovered` puts `initEnable` before its ready event |
| `Lifecycle.StepKeepsInv` | app/src/main/java/com/buddy/cyanglasses/MyApplication.kt:87-178 | every handler, and every press of a drawn-enabled control, keeps the invariant: ready, or a control drawn enabled, implies `initEnable` was issued, and no ready event or glasses command precedes it |
| `Lifecycle.RunKeepsInv` | app/src/main/java/com/buddy/cyanglasses/MyApplication.kt:87-178 | the invariant holds after any run of stimuli |
| `Lifecycle.ControlsFollowInitEnable` | app/src/main/java/com/buddy/cyanglasses/MainActivity.kt:247-256 | on every run from process start, with commands gated on what was last drawn, a control drawn enabled implies `initEnable` was issued, and no command or ready event came before it |
| `Lifecycle.ReadyWithoutConnection` | app/src/main/java/com/buddy/cyanglasses/MyApplication.kt:104-117 | service discovery alone gives ready but not connected, and the screen redrawn by its event shows the controls enabled and disconnect disabled |
| `Lifecycle.UserDisconnectKeepsControls` | app/src/main/java/com/buddy/cyanglasses/MainActivity.kt:276-279 | after Disconnect a ready state stays ready, with every control enabled and the status "Ready: Unknown" |
| `Lifecycle.LinkLossDisablesControls` | app/src/main/java/com/buddy/cyanglasses/MyApplication.kt:97-148 | a disconnect callback or adapter off clears both flags and, through the posted event, redraws every control disabled and Not Connected |
| `Lifecycle.StaleControlsAfterAclDisconnect` | app/src/main/java/com/buddy/cyanglasses/MyApplication.kt:166-170 | after service discovery and an ACL disconnect, the glasses are not ready, every control is still drawn enabled, and a press sends its command |
| `Lifecycle.CorrectedStepKeepsAgreement` | app/src/main/java/com/buddy/cyanglasses/MyApplication.kt:87-178 | with an ACL disconnect that posts `BluetoothEvent(false)`, every step keeps the drawn controls in agreement with `isReady` |
| `Lifecycle.CorrectedRunKeepsAgreement` | app/src/main/java/com/buddy/cyanglasses/MyApplication.kt:87-178 | that agreement holds after any run |
| `Lifecycle.CorrectedCommandIffReady` | app/src/main/java/com/buddy/cyanglasses/MainActivity.kt:247-256 | with the corrected ACL branch, on every run from process start, a pressed control sends its command iff the glasses are ready |
| `Lifecycle.ReadyOnlyFromDiscovery` | app/src/main/java/com/buddy/cyanglasses/MyApplication.kt:87-178 | the only stimulus that makes a non-ready state ready is service discovery |

## Left out

- UI: view bindings, Toasts, dialogs, colours, the debug log and its timestamps, RecyclerView adapters, `openMediaFile`, `loadSettings` and `updateUploadStatusUI`. They only present state; the gallery's status line is the one text kept.
- Vendor SDK internals (`LargeDataHandler`, `BleOperateManager`, `DeviceManager`, `BleScannerHelper`): calls are recorded in the trace, not executed. The SDK's own writes to `DeviceManager.deviceAddress` are not modelled; its initial value is a constructor input.
- `MyApplication.onCreate` (SDK set-up and receiver registration): configuration only.
- EventBus delivery: posts are recorded in the trace. The subscribers `MainActivity.onBluetoothEvent` (`UpdateConnectionUI`) and `DeviceScanActivity.onBluetoothEvent` are separate methods that the caller applies. In `Lifecycle`, `MainActivity`'s redraw is taken to happen at once, before the next stimulus.
- OkHttp: a request is recorded as enqueued. Its outcome is an input to `CompleteUpload`. Timeouts and the response-body stream are not modelled.
- Threading: `runOnUiThread`, `postDelayed` and `Handler` are not modelled.
  - The 2 s fallback and the 15 s timeout are methods the caller invokes (`RunPendingUpload`, `OnConnectionTimeout`).
  - The check-then-add race in `onLeScan` cannot occur here: the check and the add are one step.
- Clock: `System.currentTimeMillis()` is the `now` parameter.
- Filesystem:
  - directories and files are records, and the three directories are an input sequence; that the first and third are the same directory is not built into `LoadMediaFiles` and `OnDeleteConfirmed`, but `Gallery.GalleryListsDcimTwice` states what it does to them;
  - the outcome of `delete()` is the `deletable` field while the file is on disk, and failure once an earlier entry for the same path removed it;
  - `OnDeleteConfirmed` reloads from `dirsAfter`, an input not tied to the deletes, so the model does not state that a successfully deleted file is missing from the reloaded list;
  - writing the test JPEG is the `writeFailure` input;
  - file sizes appear only in log lines.
- Exceptions from vendor calls appear only where the app reacts to them (`dispatchThrows`, `unbindThrows`). An exception while building a request is `buildFailure`. The try/catch around the notification decoder guards only logging.
- The `Build.VERSION.SDK_INT >= O` test before decoding is taken as satisfied.
- A null listener is the `notify = false` parameter. Listener calls are then not recorded.
- Telemetry commands that only display their responses (`syncTime`, `getBattery`, `getVersion`, `getMediaCount`, `downloadMedia`, `showDownloadInstructions`, the battery callback) are left out: they change no modelled state. The controls that send them are part of `MainScreen.ConnectionUi`. In `Lifecycle`, a press of any control, these included, is recorded as one `GlassesControl` call: it stands for whatever SDK command the control sends (`glassesControl`, `syncTime`, `syncBattery`, `syncDeviceInfo`), since the property proved is only about its order after `initEnable`.
- Permission requests and the Bluetooth-enable intent: platform interaction.
- The getters `getLastUploadTime` and `isUploading` are not separate members: the model reads the fields directly.
- `lowercase()` is modelled on ASCII letters. Every extension and scheme compared against is ASCII, and no non-ASCII character lowercases into one of their letters, so the classifications are unaffected.
- `PhotoUploadManager.HttpUrlsValidate`:
  - it does not model the URL handler's own parse errors (a malformed port, for example), so such http(s) strings validate in the model;
  - protocol letters are ASCII only, where Java also accepts other Unicode letters and digits after the first character.
- Kotlin `Long`/`Int` widths: the model does no arithmetic that could wrap. Times and RSSI are only compared, and the counters are bounded by list sizes.
- test_backend.py (a Flask test server) and app/build.gradle.kts (build configuration) are not part of this model.

## Findings

| source | as written | input that shows it | evidently intended | confidence | as-written member | corrected member |
|---|---|---|---|---|---|---|
| app/src/main/java/com/buddy/cyanglasses/SettingsActivity.kt:70-94 | `testConnection` validates the endpoint typed in the field, but `uploadPhoto` posts to the endpoint in the store | nothing saved yet (stored endpoint https://httpbin.org/post), typed https://example.com/upload, test file written: the test request goes to https://httpbin.org/post | the test request goes to the endpoint that was typed and validated | not executed; medium | `Settings.TestConnectionIgnoresTypedEndpoint` | `Settings.TestConnection` |
| app/src/main/java/com/buddy/cyanglasses/MyApplication.kt:166-170 | an ACL disconnect clears `isConnected` and `isReady` but posts no `BluetoothEvent`, so `MainActivity` is not redrawn and its controls keep the enabled state they had | service discovery (controls drawn enabled), then `ACTION_ACL_DISCONNECTED`, then Take Photo pressed: `glassesControl` is called while `isReady` is false | post `BluetoothEvent(false)` as the adapter-off branch does, so that the controls follow `isReady` as `updateConnectionUI` intends | not executed; medium (if the SDK's own disconnect callback also fires, it posts the event and redraws) | `Lifecycle.StaleControlsAfterAclDisconnect` | `Lifecycle.CorrectedCommandIffReady` |
