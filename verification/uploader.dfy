/** PhotoAutoUploader.kt: finds the newest photo in the camera directories and
    uploads it, at most once per photo. The singleton's two fields are kept in
    a class; what it hands to the HTTP client and what it reports to the
    listener are recorded as sequences on the same object. */
module PhotoAutoUploader {
  import opened Wrappers
  import opened Text
  import opened Files
  import opened PhotoUploadManager

  /** `isImageFile`: the lowercased extension is jpg, jpeg or png. */
  predicate IsImageFile(name: string) {
    var ext := Lower(Extension(name));
    ext == "jpg" || ext == "jpeg" || ext == "png"
  }

  /** A file named `base.ext` is an image iff its extension, lowercased, is one
      of the three; a name without a dot never is. */
  lemma IsImageFileByExtension(base: string, ext: string)
    requires '.' !in ext
    ensures IsImageFile(base + "." + ext) <==> Lower(ext) in {"jpg", "jpeg", "png"}
  {
    ExtensionOfJoined(base, ext);
  }

  lemma NoDotIsNotImage(name: string)
    requires '.' !in name
    ensures !IsImageFile(name)
  {
    assert Extension(name) == "";
    assert Lower("") == "";
  }

  /** The entries `findNewestPhoto` considers, in the order it meets them. */
  predicate IsCandidate(f: FileEntry) {
    f.isFile && IsImageFile(f.name)
  }

  function ImagesIn(entries: seq<FileEntry>): seq<FileEntry> {
    if entries == [] then []
    else
      var last := entries[|entries| - 1];
      ImagesIn(entries[..|entries| - 1]) + (if IsCandidate(last) then [last] else [])
  }

  function Candidates(dirs: seq<Directory>): seq<FileEntry> {
    if dirs == [] then [] else Candidates(dirs[..|dirs| - 1]) + ImagesIn(EntriesOf(dirs[|dirs| - 1]))
  }

  /** `(newestPhoto, newestTime)` after visiting `cands` with the strict `>` test. */
  function Scan(cands: seq<FileEntry>): (Option<FileEntry>, int) {
    if cands == [] then (None, 0)
    else
      var prev := Scan(cands[..|cands| - 1]);
      var f := cands[|cands| - 1];
      if f.lastModified > prev.1 then (Some(f), f.lastModified) else prev
  }

  function NewestPhoto(dirs: seq<Directory>): Option<FileEntry> {
    Scan(Candidates(dirs)).0
  }

  /** What the scan finds: a file strictly newer than every candidate met
      before it and at least as new as every later one, never one whose
      modification time is <= 0; nothing exactly when no candidate is newer
      than time 0. */
  lemma {:induction false} ScanFindsFirstNewest(cands: seq<FileEntry>)
    ensures var (p, t) := Scan(cands);
      && t >= 0
      && (p.None? ==> t == 0)
      && (p.Some? ==> t == p.value.lastModified && t > 0)
      && (forall c :: 0 <= c < |cands| ==> cands[c].lastModified <= t)
      && (p.Some? ==> exists i :: 0 <= i < |cands| && cands[i] == p.value
                       && forall j :: 0 <= j < i ==> cands[j].lastModified < t)
  {
    if cands != [] {
      var init := cands[..|cands| - 1];
      ScanFindsFirstNewest(init);
      var (p0, t0) := Scan(init);
      var f := cands[|cands| - 1];
      assert forall c :: 0 <= c < |init| ==> cands[c] == init[c];
      if f.lastModified > t0 {
        assert cands[|cands| - 1] == f;
      } else if p0.Some? {
        var i :| 0 <= i < |init| && init[i] == p0.value && forall j :: 0 <= j < i ==> init[j].lastModified < t0;
        assert cands[i] == p0.value;
      }
    }
  }

  lemma ImagesInStep(files: seq<FileEntry>, k: nat)
    requires k < |files|
    ensures ImagesIn(files[..k + 1]) == ImagesIn(files[..k]) + (if IsCandidate(files[k]) then [files[k]] else [])
  {
    assert files[..k + 1][..k] == files[..k];
  }

  lemma SeenStep(before: seq<FileEntry>, files: seq<FileEntry>, k: nat)
    requires k < |files|
    ensures before + ImagesIn(files[..k + 1])
         == before + ImagesIn(files[..k]) + (if IsCandidate(files[k]) then [files[k]] else [])
  {
    ImagesInStep(files, k);
    var extra := if IsCandidate(files[k]) then [files[k]] else [];
    assert before + (ImagesIn(files[..k]) + extra) == before + ImagesIn(files[..k]) + extra;
  }

  lemma CandidatesStep(dirs: seq<Directory>, d: nat)
    requires d < |dirs|
    ensures Candidates(dirs[..d + 1]) == Candidates(dirs[..d]) + ImagesIn(EntriesOf(dirs[d]))
  {
    assert dirs[..d + 1][..d] == dirs[..d];
  }

  lemma ScanStep(seen: seq<FileEntry>, f: FileEntry)
    ensures Scan(seen + [f]) == if f.lastModified > Scan(seen).1 then (Some(f), f.lastModified) else Scan(seen)
  {
    assert (seen + [f])[..|seen|] == seen;
  }

  /** What `NewestPhoto` finds, stated over the candidates of the directories. */
  lemma NewestPhotoIsNewest(dirs: seq<Directory>)
    ensures var newest := NewestPhoto(dirs);
      && (newest.Some? ==> newest.value in Candidates(dirs) && newest.value.lastModified > 0)
      && (newest.Some? ==> forall c :: c in Candidates(dirs) ==> c.lastModified <= newest.value.lastModified)
      && (newest.None? <==> forall c :: c in Candidates(dirs) ==> c.lastModified <= 0)
  {
    ScanFindsFirstNewest(Candidates(dirs));
  }

  /** The inner loop of `findNewestPhoto`: one directory's listing, continuing
      the scan of the candidates met before it. */
  method ScanListing(files: seq<FileEntry>, ghost before: seq<FileEntry>, newest0: Option<FileEntry>, time0: int)
    returns (newest: Option<FileEntry>, newestTime: int)
    requires (newest0, time0) == Scan(before)
    ensures (newest, newestTime) == Scan(before + ImagesIn(files))
  {
    newest, newestTime := newest0, time0;
    ghost var seen := before;
    var k := 0;
    while k < |files|
      invariant 0 <= k <= |files|
      invariant seen == before + ImagesIn(files[..k])
      invariant (newest, newestTime) == Scan(seen)
    {
      var file := files[k];
      SeenStep(before, files, k);
      if file.isFile && IsImageFile(file.name) {
        ScanStep(seen, file);
        if file.lastModified > newestTime {
          newestTime := file.lastModified;
          newest := Some(file);
        }
        seen := seen + [file];
      }
      k := k + 1;
    }
    assert files[..k] == files;
  }

  /** `findNewestPhoto`: walks the directories in order, skipping those that
      are missing, not directories or unlistable, and keeps the first image
      file with the largest modification time above 0. */
  method FindNewestPhoto(dirs: seq<Directory>) returns (newest: Option<FileEntry>)
    ensures newest == NewestPhoto(dirs)
    ensures newest.Some? ==> newest.value in Candidates(dirs) && newest.value.lastModified > 0
    ensures newest.Some? ==> forall c :: c in Candidates(dirs) ==> c.lastModified <= newest.value.lastModified
    ensures newest.None? <==> forall c :: c in Candidates(dirs) ==> c.lastModified <= 0
  {
    newest := None;
    var newestTime := 0;
    var d := 0;
    while d < |dirs|
      invariant 0 <= d <= |dirs|
      invariant (newest, newestTime) == Scan(Candidates(dirs[..d]))
    {
      var dir := dirs[d];
      CandidatesStep(dirs, d);
      if dir.Listed? && dir.listing.Some? {
        assert EntriesOf(dir) == dir.listing.value;
        newest, newestTime := ScanListing(dir.listing.value, Candidates(dirs[..d]), newest, newestTime);
      } else {
        assert ImagesIn(EntriesOf(dir)) == [];
        assert Candidates(dirs[..d]) + [] == Candidates(dirs[..d]);
      }
      d := d + 1;
    }
    assert dirs[..d] == dirs;
    NewestPhotoIsNewest(dirs);
  }

  datatype ListenerEvent =
    | UploadStarted(filename: string)
    | UploadProgress(filename: string, message: string)
    | UploadSuccess(filename: string, responseBody: Option<string>)
    | UploadFailed(filename: string, error: string)

  /** An upload handed to the HTTP client whose callback has not yet run. */
  datatype InFlight = InFlight(filename: string, notify: bool, request: HttpRequest)

  /** How `onPhotoTaken` ended. */
  datatype Attempt =
    | AlreadyUploading
    | NotConfigured
    | NoPhotoFound
    | NoNewPhoto(filename: string)
    | Started(filename: string)

  /** `listener?.…`: a call reaches a listener only when there is one. */
  function Tell(notify: bool, e: ListenerEvent): seq<ListenerEvent> {
    if notify then [e] else []
  }

  /** The listener call the completion callback makes. */
  function Completion(filename: string, args: CallbackArgs): (e: ListenerEvent)
    ensures args.success ==> e == UploadSuccess(filename, args.responseBody)
    ensures !args.success ==> e.UploadFailed? && e.filename == filename
    ensures !args.success && args.error.None? ==> e.error == "Unknown error"
    ensures !args.success && args.error.Some? ==> e.error == args.error.value
  {
    if args.success then UploadSuccess(filename, args.responseBody)
    else UploadFailed(filename, args.error.GetOr("Unknown error"))
  }

  /** The listener calls made between setting `isUploading` and returning:
      start, progress, and the callback if `uploadPhoto` called back at once. */
  function DispatchEvents(filename: string, notify: bool, s: Submission): seq<ListenerEvent> {
    Tell(notify, UploadStarted(filename)) + Tell(notify, UploadProgress(filename, "Uploading..."))
    + (if s.Immediate? then Tell(notify, Completion(filename, s.args)) else [])
  }

  class Uploader {
    var lastUploadTime: int
    var isUploading: bool
    /** Requests enqueued with the HTTP client, callback still pending. */
    var inFlight: seq<InFlight>
    /** Every request ever handed to the HTTP client. */
    var sent: seq<HttpRequest>
    /** Every listener call, in order. */
    var delivered: seq<ListenerEvent>

    constructor()
      ensures lastUploadTime == 0 && !isUploading
      ensures inFlight == [] && sent == [] && delivered == []
      ensures SingleUpload()
    {
      lastUploadTime := 0;
      isUploading := false;
      inFlight := [];
      sent := [];
      delivered := [];
    }

    /** Through `onPhotoTaken` alone there is never more than one upload in
        flight, and `isUploading` says whether there is one. */
    ghost predicate SingleUpload()
      reads this
    {
      |inFlight| <= 1 && (isUploading <==> |inFlight| == 1)
    }

    /** The completion callback: always clears `isUploading`; only success
        moves `lastUploadTime`, to the current time. */
    method Finish(filename: string, notify: bool, args: CallbackArgs, now: int)
      modifies this
      ensures !isUploading
      ensures lastUploadTime == if args.success then now else old(lastUploadTime)
      ensures delivered == old(delivered) + Tell(notify, Completion(filename, args))
      ensures inFlight == old(inFlight) && sent == old(sent)
    {
      isUploading := false;
      if args.success {
        lastUploadTime := now;
        delivered := delivered + Tell(notify, UploadSuccess(filename, args.responseBody));
      } else {
        delivered := delivered + Tell(notify, UploadFailed(filename, args.error.GetOr("Unknown error")));
      }
    }

    /** The private `uploadPhoto`: marks an upload in progress, tells the
        listener, then either calls back at once or enqueues the request. */
    method UploadPhoto(prefs: SharedPreferences, file: FileEntry, notify: bool, now: int, buildFailure: Option<Exception>)
      modifies this
      ensures var s := PhotoUploadManager.UploadPhoto(prefs, file, now, buildFailure);
        && isUploading == s.Enqueued?
        && lastUploadTime == old(lastUploadTime)
        && delivered == old(delivered) + DispatchEvents(file.name, notify, s)
        && inFlight == old(inFlight) + (if s.Enqueued? then [InFlight(file.name, notify, s.request)] else [])
        && sent == old(sent) + (if s.Enqueued? then [s.request] else [])
    {
      var s := PhotoUploadManager.UploadPhoto(prefs, file, now, buildFailure);
      ghost var before := delivered;
      isUploading := true;
      var filename := file.name;
      var started := Tell(notify, UploadStarted(filename)) + Tell(notify, UploadProgress(filename, "Uploading..."));
      delivered := delivered + started;
      match s
      case Immediate(args) =>
        Finish(filename, notify, args, now);
        assert delivered == before + (started + Tell(notify, Completion(filename, args)));
      case Enqueued(request) =>
        inFlight := inFlight + [InFlight(filename, notify, request)];
        sent := sent + [request];
        assert delivered == before + (started + []);
    }

    /** `onPhotoTaken`: the four guards in order (upload in progress, no
        endpoint, no photo, photo not newer than the last upload), then the
        upload. Only the last case can reach the network. */
    method OnPhotoTaken(prefs: SharedPreferences, dirs: seq<Directory>, notify: bool, now: int, buildFailure: Option<Exception>)
      returns (attempt: Attempt)
      modifies this
      ensures old(isUploading) ==> attempt == AlreadyUploading
      ensures !old(isUploading) && !IsEndpointConfigured(prefs) ==> attempt == NotConfigured
      ensures !old(isUploading) && IsEndpointConfigured(prefs) && NewestPhoto(dirs).None? ==> attempt == NoPhotoFound
      ensures !old(isUploading) && IsEndpointConfigured(prefs) && NewestPhoto(dirs).Some? ==>
        var f := NewestPhoto(dirs).value;
        attempt == if f.lastModified <= old(lastUploadTime) then NoNewPhoto(f.name) else Started(f.name)
      ensures attempt == AlreadyUploading ==> delivered == old(delivered)
      ensures attempt == NotConfigured ==>
        delivered == old(delivered) + Tell(notify, UploadFailed("none", "Backend API not configured. Go to Settings."))
      ensures attempt == NoPhotoFound ==>
        delivered == old(delivered) + Tell(notify, UploadFailed("none", "No photo found to upload"))
      ensures attempt.NoNewPhoto? ==>
        delivered == old(delivered) + Tell(notify, UploadFailed(attempt.filename, "No new photo to upload"))
      ensures !attempt.Started? ==>
        isUploading == old(isUploading) && inFlight == old(inFlight) && sent == old(sent)
      ensures attempt.Started? ==>
        var f := NewestPhoto(dirs).value;
        var s := PhotoUploadManager.UploadPhoto(prefs, f, now, buildFailure);
        && isUploading == s.Enqueued?
        && delivered == old(delivered) + DispatchEvents(f.name, notify, s)
        && inFlight == old(inFlight) + (if s.Enqueued? then [InFlight(f.name, notify, s.request)] else [])
        && sent == old(sent) + (if s.Enqueued? then [s.request] else [])
      ensures lastUploadTime == old(lastUploadTime)
      ensures old(SingleUpload()) ==> SingleUpload()
    {
      if isUploading {
        return AlreadyUploading;
      }
      if !IsEndpointConfigured(prefs) {
        delivered := delivered + Tell(notify, UploadFailed("none", "Backend API not configured. Go to Settings."));
        return NotConfigured;
      }
      var newestPhoto := FindNewestPhoto(dirs);
      if newestPhoto.None? {
        delivered := delivered + Tell(notify, UploadFailed("none", "No photo found to upload"));
        return NoPhotoFound;
      }
      var photo := newestPhoto.value;
      if photo.lastModified <= lastUploadTime {
        delivered := delivered + Tell(notify, UploadFailed(photo.name, "No new photo to upload"));
        return NoNewPhoto(photo.name);
      }
      UploadPhoto(prefs, photo, notify, now, buildFailure);
      attempt := Started(photo.name);
    }

    /** `uploadSpecificPhoto`: only checks that the file exists; it skips the
        in-progress, configuration and dedup guards. */
    method UploadSpecificPhoto(prefs: SharedPreferences, file: FileEntry, notify: bool, now: int, buildFailure: Option<Exception>)
      returns (started: bool)
      modifies this
      ensures started == file.present
      ensures !started ==>
        && delivered == old(delivered) + Tell(notify, UploadFailed(file.name, "File not found"))
        && isUploading == old(isUploading) && inFlight == old(inFlight) && sent == old(sent)
      ensures started ==>
        var s := PhotoUploadManager.UploadPhoto(prefs, file, now, buildFailure);
        && isUploading == s.Enqueued?
        && delivered == old(delivered) + DispatchEvents(file.name, notify, s)
        && inFlight == old(inFlight) + (if s.Enqueued? then [InFlight(file.name, notify, s.request)] else [])
        && sent == old(sent) + (if s.Enqueued? then [s.request] else [])
      ensures lastUploadTime == old(lastUploadTime)
    {
      if !file.present {
        delivered := delivered + Tell(notify, UploadFailed(file.name, "File not found"));
        return false;
      }
      UploadPhoto(prefs, file, notify, now, buildFailure);
      started := true;
    }

    /** The HTTP client finishes the `k`-th pending request: its outcome is
        classified and the completion callback runs. */
    method CompleteUpload(k: nat, outcome: HttpOutcome, now: int)
      requires k < |inFlight|
      modifies this
      ensures inFlight == old(inFlight[..k] + inFlight[k + 1..])
      ensures !isUploading
      ensures sent == old(sent)
      ensures var args := ClassifyResponse(outcome);
        && lastUploadTime == (if args.success then now else old(lastUploadTime))
        && delivered == old(delivered) + Tell(old(inFlight[k].notify), Completion(old(inFlight[k].filename), args))
      ensures old(SingleUpload()) ==> SingleUpload()
    {
      var pending := inFlight[k];
      inFlight := inFlight[..k] + inFlight[k + 1..];
      Finish(pending.filename, pending.notify, ClassifyResponse(outcome), now);
    }

    /** `resetLastUploadTime`. */
    method ResetLastUploadTime()
      modifies this
      ensures lastUploadTime == 0
      ensures isUploading == old(isUploading) && inFlight == old(inFlight)
      ensures sent == old(sent) && delivered == old(delivered)
    {
      lastUploadTime := 0;
    }
  }
}
