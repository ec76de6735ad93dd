/** GalleryActivity.kt: the media downloaded from the glasses, found in the
    app's media directories, classified by extension and listed newest first. */
module Gallery {
  import opened Wrappers
  import opened Text
  import opened Sorting
  import opened Files
  import PhotoAutoUploader

  datatype MediaType = Image | Video | Audio

  /** `MediaFile`. */
  datatype MediaFile = MediaFile(file: FileEntry, kind: MediaType)

  /** The `when` over the lowercased extension; other extensions are dropped. */
  function Classify(name: string): Option<MediaType> {
    var ext := Lower(Extension(name));
    if ext in {"jpg", "jpeg", "png"} then Some(Image)
    else if ext in {"mp4", "3gp", "mov"} then Some(Video)
    else if ext in {"mp3", "wav", "aac", "m4a"} then Some(Audio)
    else None
  }

  /** A file named `base.ext` is classified by `ext` alone, in any case. */
  lemma ClassifyByExtension(base: string, ext: string)
    requires '.' !in ext
    ensures Classify(base + "." + ext) == Some(Image) <==> Lower(ext) in {"jpg", "jpeg", "png"}
    ensures Classify(base + "." + ext) == Some(Video) <==> Lower(ext) in {"mp4", "3gp", "mov"}
    ensures Classify(base + "." + ext) == Some(Audio) <==> Lower(ext) in {"mp3", "wav", "aac", "m4a"}
  {
    ExtensionOfJoined(base, ext);
  }

  /** The gallery shows as images exactly the files the uploader treats as
      photos. */
  lemma GalleryImagesAreUploaderImages(base: string, ext: string)
    requires '.' !in ext
    ensures Classify(base + "." + ext) == Some(Image) <==> PhotoAutoUploader.IsImageFile(base + "." + ext)
  {
    ClassifyByExtension(base, ext);
    PhotoAutoUploader.IsImageFileByExtension(base, ext);
  }

  function MediaIn(entries: seq<FileEntry>): seq<MediaFile> {
    if entries == [] then []
    else
      var f := entries[|entries| - 1];
      var kind := Classify(f.name);
      MediaIn(entries[..|entries| - 1]) + (if f.isFile && kind.Some? then [MediaFile(f, kind.value)] else [])
  }

  /** The media files of the directories, in the order they are listed. */
  function MediaInDirs(dirs: seq<Directory>): seq<MediaFile> {
    if dirs == [] then [] else MediaInDirs(dirs[..|dirs| - 1]) + MediaIn(EntriesOf(dirs[|dirs| - 1]))
  }

  /** Every listed media file is a regular file of a scanned directory, with
      the type its extension gives. */
  lemma {:induction false} MediaInDirsSound(dirs: seq<Directory>, m: MediaFile)
    requires m in MediaInDirs(dirs)
    ensures m.file.isFile && Classify(m.file.name) == Some(m.kind)
    ensures exists i :: 0 <= i < |dirs| && m.file in EntriesOf(dirs[i])
  {
    var init := dirs[..|dirs| - 1];
    if m in MediaInDirs(init) {
      MediaInDirsSound(init, m);
      var i :| 0 <= i < |init| && m.file in EntriesOf(init[i]);
      assert dirs[i] == init[i];
    } else {
      MediaInSound(EntriesOf(dirs[|dirs| - 1]), m);
    }
  }

  lemma {:induction false} MediaInSound(entries: seq<FileEntry>, m: MediaFile)
    requires m in MediaIn(entries)
    ensures m.file.isFile && Classify(m.file.name) == Some(m.kind) && m.file in entries
  {
    var init := entries[..|entries| - 1];
    if m in MediaIn(init) {
      MediaInSound(init, m);
    }
  }

  /** Conversely, every regular file of a scanned directory with a known
      extension is listed. */
  lemma {:induction false} MediaInDirsComplete(dirs: seq<Directory>, i: nat, e: FileEntry)
    requires i < |dirs| && e in EntriesOf(dirs[i]) && e.isFile && Classify(e.name).Some?
    ensures MediaFile(e, Classify(e.name).value) in MediaInDirs(dirs)
  {
    var init := dirs[..|dirs| - 1];
    if i < |dirs| - 1 {
      assert init[i] == dirs[i];
      MediaInDirsComplete(init, i, e);
    } else {
      MediaInComplete(EntriesOf(dirs[i]), e);
    }
  }

  lemma {:induction false} MediaInComplete(entries: seq<FileEntry>, e: FileEntry)
    requires e in entries && e.isFile && Classify(e.name).Some?
    ensures MediaFile(e, Classify(e.name).value) in MediaIn(entries)
  {
    var init := entries[..|entries| - 1];
    if e != entries[|entries| - 1] {
      assert e in init;
      MediaInComplete(init, e);
    }
  }

  function LastModified(m: MediaFile): int {
    m.file.lastModified
  }

  const NO_MEDIA_TEXT: string := "No media files found.\n" + "Download media from your glasses first."
  const FOUND_SUFFIX: string := " file(s) found"

  /** The status line: the empty-gallery message exactly when there is
      nothing, otherwise the count, which reads back as the number of files. */
  function StatusText(n: nat): (s: string)
    ensures s == NO_MEDIA_TEXT <==> n == 0
    ensures n > 0 ==>
      && |s| > |FOUND_SUFFIX| && s[|s| - |FOUND_SUFFIX|..] == FOUND_SUFFIX
      && var count := s[..|s| - |FOUND_SUFFIX|];
         (forall i :: 0 <= i < |count| ==> '0' <= count[i] <= '9') && DecimalValue(count) == n
  {
    if n == 0 then NO_MEDIA_TEXT
    else
      var count := NatToString(n);
      var s := count + FOUND_SUFFIX;
      assert s[..|s| - |FOUND_SUFFIX|] == count;
      assert s[|s| - |FOUND_SUFFIX|..] == FOUND_SUFFIX;
      assert s[0] == count[0] && NO_MEDIA_TEXT[0] == 'N';
      NatToStringRoundTrip(n);
      s
  }

  /** The paths the confirmed delete removes, going through the list in
      order: `delete()` succeeds on a deletable file that is still on disk,
      so a file listed twice is removed by its first entry only. */
  function DeletedPaths(files: seq<MediaFile>): set<string> {
    if files == [] then {}
    else
      var gone := DeletedPaths(files[..|files| - 1]);
      var f := files[|files| - 1].file;
      if f.deletable && f.path !in gone then gone + {f.path} else gone
  }

  /** How many of the `delete()` calls succeed: one per file removed. */
  function DeletedCount(files: seq<MediaFile>): (n: nat)
    ensures n == |DeletedPaths(files)|
    ensures n <= |files|
  {
    if files == [] then 0
    else
      var f := files[|files| - 1].file;
      DeletedCount(files[..|files| - 1]) + (if f.deletable && f.path !in DeletedPaths(files[..|files| - 1]) then 1 else 0)
  }

  /** A path is removed exactly when some entry for it is deletable. */
  lemma {:induction false} DeletedPathsAre(files: seq<MediaFile>, p: string)
    ensures p in DeletedPaths(files) <==> exists m :: m in files && m.file.deletable && m.file.path == p
  {
    if files != [] {
      var init := files[..|files| - 1];
      var last := files[|files| - 1];
      DeletedPathsAre(init, p);
      if exists m :: m in init && m.file.deletable && m.file.path == p {
        var m :| m in init && m.file.deletable && m.file.path == p;
        assert m in files;
      }
      if exists m :: m in files && m.file.deletable && m.file.path == p {
        var m :| m in files && m.file.deletable && m.file.path == p;
        if m != last {
          assert m in init;
        }
      }
    }
  }

  predicate AllDeletable(files: seq<MediaFile>) {
    forall i :: 0 <= i < |files| ==> files[i].file.deletable
  }

  predicate PathsDistinct(files: seq<MediaFile>) {
    forall i, j :: 0 <= i < j < |files| ==> files[i].file.path != files[j].file.path
  }

  /** No file of the list has path `p`. */
  predicate PathNotListed(files: seq<MediaFile>, p: string) {
    forall i :: 0 <= i < |files| ==> files[i].file.path != p
  }

  lemma AllDeletableSnoc(init: seq<MediaFile>, m: MediaFile)
    ensures AllDeletable(init + [m]) <==> AllDeletable(init) && m.file.deletable
  {
    var files := init + [m];
    assert forall i :: 0 <= i < |init| ==> files[i] == init[i];
    assert files[|init|] == m;
  }

  lemma PathsDistinctSnoc(init: seq<MediaFile>, m: MediaFile)
    ensures PathsDistinct(init + [m]) <==> PathsDistinct(init) && PathNotListed(init, m.file.path)
  {
    var files := init + [m];
    assert forall i :: 0 <= i < |init| ==> files[i] == init[i];
    assert files[|init|] == m;
  }

  /** When every file is deletable, a path is still on disk exactly when no
      file has it. */
  lemma NotDeletedIffNotListed(init: seq<MediaFile>, p: string)
    requires AllDeletable(init)
    ensures p !in DeletedPaths(init) <==> PathNotListed(init, p)
  {
    DeletedPathsAre(init, p);
    if !PathNotListed(init, p) {
      var i :| 0 <= i < |init| && init[i].file.path == p;
      assert init[i] in init;
    } else {
      forall m | m in init && m.file.deletable ensures m.file.path != p {
        var i :| 0 <= i < |init| && init[i] == m;
      }
    }
  }

  /** Every `delete()` succeeds exactly when every file is deletable and no
      file is listed twice. */
  lemma {:induction false} DeletedCountAllIff(files: seq<MediaFile>)
    ensures DeletedCount(files) == |files| <==> AllDeletable(files) && PathsDistinct(files)
  {
    if files != [] {
      var init := files[..|files| - 1];
      var m := files[|files| - 1];
      assert files == init + [m];
      DeletedCountAllIff(init);
      AllDeletableSnoc(init, m);
      PathsDistinctSnoc(init, m);
      if AllDeletable(init) {
        NotDeletedIffNotListed(init, m.file.path);
      }
    }
  }

  /** The number of successful deletes does not depend on the order of the
      list. */
  lemma DeletedCountPermutation(a: seq<MediaFile>, b: seq<MediaFile>)
    requires multiset(a) == multiset(b)
    ensures DeletedCount(a) == DeletedCount(b)
  {
    forall p | true ensures p in DeletedPaths(a) <==> p in DeletedPaths(b) {
      DeletedPathsAre(a, p);
      DeletedPathsAre(b, p);
      forall m ensures m in a <==> m in b {
        assert m in a <==> m in multiset(a);
        assert m in b <==> m in multiset(b);
      }
    }
    assert DeletedPaths(a) == DeletedPaths(b);
  }

  /** `File(getExternalFilesDir(null), "DCIM")` and `getExternalFilesDir("DCIM")`
      name the same directory, so the first and third directories of
      `loadMediaFiles` have the same listing: every media file there is
      listed, and offered for deletion, twice, while the second `delete()`
      on it fails, so the confirmed delete removes only as many files as the
      two distinct directories hold. */
  lemma GalleryListsDcimTwice(dcim: Directory, dcim1: Directory)
    ensures var listed := SortDescending(MediaInDirs([dcim, dcim1, dcim]), LastModified);
      var once := MediaIn(EntriesOf(dcim)) + MediaIn(EntriesOf(dcim1));
      && |listed| == 2 * |MediaIn(EntriesOf(dcim))| + |MediaIn(EntriesOf(dcim1))|
      && DeletedCount(listed) == DeletedCount(once)
  {
    var a, b := MediaIn(EntriesOf(dcim)), MediaIn(EntriesOf(dcim1));
    var all := MediaInDirs([dcim, dcim1, dcim]);
    ThreeDirectories(dcim, dcim1, dcim);
    var listed := SortDescending(all, LastModified);
    SortDescendingPermutes(all, LastModified);
    assert |listed| == |multiset(listed)| == |multiset(all)| == |all|;
    DeletedCountPermutation(listed, all);
    SecondCopyDeletesNothing(a, b);
  }

  lemma ThreeDirectories(d0: Directory, d1: Directory, d2: Directory)
    ensures MediaInDirs([d0, d1, d2]) == MediaIn(EntriesOf(d0)) + MediaIn(EntriesOf(d1)) + MediaIn(EntriesOf(d2))
  {
    var dirs := [d0, d1, d2];
    assert dirs[..2] == [d0, d1] && [d0, d1][..1] == [d0] && [d0][..0] == [];
    assert MediaInDirs([d0]) == MediaIn(EntriesOf(d0)) by {
      assert MediaInDirs([d0]) == [] + MediaIn(EntriesOf(d0));
    }
  }

  /** Files listed a second time add no successful delete. */
  lemma SecondCopyDeletesNothing(a: seq<MediaFile>, b: seq<MediaFile>)
    ensures DeletedCount(a + b + a) == DeletedCount(a + b)
  {
    forall p | true ensures p in DeletedPaths(a + b + a) <==> p in DeletedPaths(a + b) {
      DeletedPathsAre(a + b + a, p);
      DeletedPathsAre(a + b, p);
    }
    assert DeletedPaths(a + b + a) == DeletedPaths(a + b);
  }

  /** The answer to the delete-all button. */
  datatype DeletePrompt = NothingToDelete | ConfirmDelete(count: nat)

  /** The confirmed delete's counting loop: `deleted` goes up once per
      `delete()` that succeeds; `removed` is what has left the disk so far. */
  method CountDeleted(files: seq<MediaFile>) returns (deleted: nat)
    ensures deleted == DeletedCount(files)
    ensures deleted <= |files|
  {
    deleted := 0;
    var removed: set<string> := {};
    var k := 0;
    while k < |files|
      invariant 0 <= k <= |files|
      invariant deleted == DeletedCount(files[..k])
      invariant removed == DeletedPaths(files[..k])
    {
      assert files[..k + 1][..k] == files[..k];
      var file := files[k].file;
      if file.deletable && file.path !in removed {
        removed := removed + {file.path};
        deleted := deleted + 1;
      }
      k := k + 1;
    }
    assert files[..k] == files;
  }

  /** The inner loop of `loadMediaFiles`: one directory's listing. */
  method CollectListing(files: seq<FileEntry>) returns (media: seq<MediaFile>)
    ensures media == MediaIn(files)
  {
    media := [];
    var k := 0;
    while k < |files|
      invariant 0 <= k <= |files|
      invariant media == MediaIn(files[..k])
    {
      var file := files[k];
      assert files[..k + 1][..k] == files[..k];
      if file.isFile {
        var kind := Classify(file.name);
        if kind.Some? {
          media := media + [MediaFile(file, kind.value)];
        }
      }
      k := k + 1;
    }
    assert files[..k] == files;
  }

  /** The nested loop of `loadMediaFiles`: directories in order, skipping
      the missing, non-directory and unlistable ones, then their regular
      files with a known extension, in listing order. */
  method CollectMedia(dirs: seq<Directory>) returns (found: seq<MediaFile>)
    ensures found == MediaInDirs(dirs)
  {
    found := [];
    var d := 0;
    while d < |dirs|
      invariant 0 <= d <= |dirs|
      invariant found == MediaInDirs(dirs[..d])
    {
      var dir := dirs[d];
      assert dirs[..d + 1][..d] == dirs[..d];
      if dir.Listed? && dir.listing.Some? {
        var media := CollectListing(dir.listing.value);
        found := found + media;
      } else {
        assert MediaIn(EntriesOf(dir)) == [];
        assert found + [] == found;
      }
      d := d + 1;
    }
    assert dirs[..d] == dirs;
  }


  class GalleryActivity {
    var mediaFiles: seq<MediaFile>
    var status: string

    constructor()
      ensures mediaFiles == []
    {
      mediaFiles := [];
      status := "";
    }

    /** `loadMediaFiles`: rebuilds the list from scratch, so no entry of an
        earlier load survives, then sorts it newest first (stably) and sets
        the status line. */
    method LoadMediaFiles(dirs: seq<Directory>)
      modifies this
      ensures mediaFiles == SortDescending(MediaInDirs(dirs), LastModified)
      ensures SortedDescending(mediaFiles, LastModified)
      ensures multiset(mediaFiles) == multiset(MediaInDirs(dirs))
      ensures status == StatusText(|mediaFiles|)
    {
      mediaFiles := [];
      var found := CollectMedia(dirs);
      SortDescendingSorted(found, LastModified);
      SortDescendingPermutes(found, LastModified);
      mediaFiles := SortDescending(found, LastModified);
      status := StatusText(|mediaFiles|);
    }

    /** `deleteAllMedia`: nothing to do on an empty list; otherwise the user is
        asked to confirm deleting all of them. */
    method DeleteAllMedia() returns (prompt: DeletePrompt)
      ensures prompt == NothingToDelete <==> mediaFiles == []
      ensures prompt.ConfirmDelete? ==> prompt.count == |mediaFiles|
    {
      if mediaFiles == [] {
        return NothingToDelete;
      }
      prompt := ConfirmDelete(|mediaFiles|);
    }

    /** The confirmed delete: counts the successful deletions, then reloads
        from the directories as they are afterwards. */
    method OnDeleteConfirmed(dirsAfter: seq<Directory>) returns (deleted: nat)
      modifies this
      ensures deleted == DeletedCount(old(mediaFiles))
      ensures mediaFiles == SortDescending(MediaInDirs(dirsAfter), LastModified)
      ensures status == StatusText(|mediaFiles|)
    {
      deleted := CountDeleted(mediaFiles);
      LoadMediaFiles(dirsAfter);
    }
  }
}
