/** The per-domain downloader: the file lock, the size limits, the choice of
    the download folder and of a free file name, the check for a file that
    is already there, the classification of download errors, the retry
    wrapper and the queue loop. */
module Download {
  import opened Common
  import opened FileSystem
  import opened UrlObjects

  // ---------------------------------------------------------------------
  // FileLock
  // ---------------------------------------------------------------------

  /** `list.remove(x)` on a list that holds `x`: the first occurrence goes. */
  function RemoveFirst<T(==)>(s: seq<T>, x: T): (r: seq<T>)
    ensures x !in s ==> r == s
  {
    if |s| == 0 then s
    else if s[0] == x then s[1..]
    else [s[0]] + RemoveFirst(s[1..], x)
  }

  /** Exactly the first occurrence goes: what comes before it and what
      comes after it are kept in order. */
  lemma {:induction false} RemoveFirstAt<T>(s: seq<T>, x: T)
    requires x in s
    ensures RemoveFirst(s, x) == s[..FirstIndex(s, x)] + s[FirstIndex(s, x) + 1..]
  {
    if s[0] == x {
      assert FirstIndex(s, x) == 0;
      assert s[..0] + s[1..] == s[1..];
    } else {
      var t := s[1..];
      assert x in t by {
        assert s == [s[0]] + t;
      }
      var i := FirstIndex(t, x);
      assert FirstIndex(s, x) == i + 1;
      calc {
        RemoveFirst(s, x);
        [s[0]] + RemoveFirst(t, x);
        { RemoveFirstAt(t, x); }
        [s[0]] + (t[..i] + t[i + 1..]);
        ([s[0]] + t[..i]) + t[i + 1..];
        { assert s[..i + 1] == [s[0]] + t[..i]; assert s[i + 2..] == t[i + 1..]; }
        s[..i + 1] + s[i + 2..];
      }
    }
  }

  /** Removing an element that is there loses one copy of it and nothing
      else. */
  lemma RemoveFirstShape<T>(s: seq<T>, x: T)
    requires x in s
    ensures |RemoveFirst(s, x)| == |s| - 1
    ensures multiset(RemoveFirst(s, x)) == multiset(s) - multiset{x}
  {
    RemoveFirstAt(s, x);
    var i := FirstIndex(s, x);
    var before, after := s[..i], s[i + 1..];
    assert RemoveFirst(s, x) == before + after;
    assert s == before + [x] + after;
    DropOne(before, x, after);
  }

  /** Taking one element out of the middle of a list. */
  lemma DropOne<T>(before: seq<T>, x: T, after: seq<T>)
    ensures |before + after| == |before + [x] + after| - 1
    ensures multiset(before + after) == multiset(before + [x] + after) - multiset{x}
  {
    assert multiset(before + [x] + after) == multiset(before) + multiset{x} + multiset(after);
  }

  /** Removing what was just appended, and was not there before, restores
      the list. */
  lemma {:induction false} AddRemoveRoundTrip<T>(s: seq<T>, x: T)
    requires x !in s
    ensures RemoveFirst(s + [x], x) == s
  {
    if |s| > 0 {
      assert (s + [x])[1..] == s[1..] + [x];
      AddRemoveRoundTrip(s[1..], x);
    }
  }

  /** The names of the files being written, as a list. */
  class FileLock {
    var lockedFiles: seq<string>

    constructor ()
      ensures lockedFiles == []
    {
      lockedFiles := [];
    }

    /** `check_lock` */
    predicate CheckLock(filename: string)
      reads this
    {
      filename in lockedFiles
    }

    /** `add_lock`: appends, even a name that is already there. */
    method AddLock(filename: string)
      modifies this
      ensures lockedFiles == old(lockedFiles) + [filename]
      ensures CheckLock(filename)
    {
      lockedFiles := lockedFiles + [filename];
    }

    /** `remove_lock`: `ok` is false where `list.remove` raises. */
    method RemoveLock(filename: string) returns (ok: bool)
      modifies this
      ensures ok == old(CheckLock(filename))
      ensures lockedFiles == RemoveFirst(old(lockedFiles), filename)
    {
      ok := filename in lockedFiles;
      lockedFiles := RemoveFirst(lockedFiles, filename);
    }
  }

  // ---------------------------------------------------------------------
  // check_filesize_limits
  // ---------------------------------------------------------------------

  /** The `File_Size_Limits` settings; 0 means "no limit". */
  datatype SizeLimits = SizeLimits(maxVideo: int, minVideo: int, maxImage: int, minImage: int,
                                   maxOther: int, minOther: int)

  /** The three checks `check_filesize_limits` makes for one category. */
  predicate WithinBounds(size: int, lo: int, hi: int) {
    if hi != 0 && lo != 0 && (size < lo || size > hi) then false
    else if size < lo then false
    else if hi != 0 && size > hi then false
    else true
  }

  /** The (minimum, maximum) of the category the extension falls in. */
  function CategoryBounds(ext: string, formats: FileFormats, limits: SizeLimits): (int, int) {
    if ext in formats.images then (limits.minImage, limits.maxImage)
    else if ext in formats.videos then (limits.minVideo, limits.maxVideo)
    else (limits.minOther, limits.maxOther)
  }

  /** `check_filesize_limits` */
  predicate WithinLimits(size: int, ext: string, formats: FileFormats, limits: SizeLimits) {
    var b := CategoryBounds(ext, formats, limits);
    WithinBounds(size, b.0, b.1)
  }

  /** A size passes exactly when it reaches the minimum and, unless the
      maximum is 0, stays within the maximum; images are checked first,
      then videos, then everything else. */
  lemma WithinLimitsMeaning(size: int, ext: string, formats: FileFormats, limits: SizeLimits)
    ensures ext in formats.images ==>
      (WithinLimits(size, ext, formats, limits) <==>
       size >= limits.minImage && (limits.maxImage == 0 || size <= limits.maxImage))
    ensures ext !in formats.images && ext in formats.videos ==>
      (WithinLimits(size, ext, formats, limits) <==>
       size >= limits.minVideo && (limits.maxVideo == 0 || size <= limits.maxVideo))
    ensures ext !in formats.images && ext !in formats.videos ==>
      (WithinLimits(size, ext, formats, limits) <==>
       size >= limits.minOther && (limits.maxOther == 0 || size <= limits.maxOther))
  {
  }

  // ---------------------------------------------------------------------
  // get_download_dir
  // ---------------------------------------------------------------------

  /** `folder` lies strictly under `root`. */
  predicate StrictlyUnder(folder: Path, root: Path) {
    |root| < |folder| && folder[..|root|] == root
  }

  /** The folder reached after `k` steps to the parent. */
  function Ancestor(folder: Path, k: nat): (r: Path)
    ensures |folder| >= k ==> r == folder[..|folder| - k]
    ensures |folder| < k ==> r == []
  {
    if k == 0 then folder else Ancestor(Parent(folder), k - 1)
  }

  /** Walking up from a folder that is not strictly under the root never
      meets a folder whose parent is the root (except the root "/" itself,
      which is its own parent), so the flattening loop does not end. */
  lemma NoExitOutsideRoot(folder: Path, root: Path, k: nat)
    requires !StrictlyUnder(folder, root) && !(folder == [] && root == [])
    ensures Parent(Ancestor(folder, k)) != root
  {
  }

  // ---------------------------------------------------------------------
  // iterate_filename
  // ---------------------------------------------------------------------

  /** `f"{stem} ({n}){ext}"` */
  function Candidate(stem: string, n: nat, ext: string): string {
    stem + " (" + NatToString(n) + ")" + ext
  }

  /** Different counters give different names. */
  lemma CandidateInjective(stem: string, n: nat, m: nat, ext: string)
    requires Candidate(stem, n, ext) == Candidate(stem, m, ext)
    ensures n == m
  {
    var a, b := NatToString(n), NatToString(m);
    var c := Candidate(stem, n, ext);
    var p := |stem| + 2;
    assert c == (stem + " (") + a + (")" + ext);
    assert Candidate(stem, m, ext) == (stem + " (") + b + (")" + ext);
    assert |a| == |b|;
    assert a == c[p..p + |a|] == b;
    NatToStringInjective(n, m);
  }

  /** A name is free when no file in the folder has it and the history
      does not know it. */
  predicate NameFree(folder: Path, name: string, files: map<Path, nat>, history: set<string>) {
    folder + [name] !in files && name !in history
  }

  /** `Path.stat().st_size == media_item.filesize` */
  predicate HasSize(files: map<Path, nat>, p: Path, size: Option<int>) {
    p in files && size == Some(files[p])
  }

  // ---------------------------------------------------------------------
  // Error classification
  // ---------------------------------------------------------------------

  const TooManyRequests: int := 429
  const BadGateway: int := 502
  const ServiceUnavailable: int := 503

  /** What `download` does with a caught error: give up on the file, or
      raise `DownloadFailure` with the status for `retry` to see. */
  datatype Verdict = GiveUp(status: int) | RaiseFailure(status: int)

  /** The status-based decision of the second `except` clause; a missing
      status is raised as 1. */
  function Classify(status: Option<int>, is4xx: int -> bool, webServerIsDown: int): (v: Verdict)
  {
    match status
    case None => RaiseFailure(1)
    case Some(s) =>
      if is4xx(s) && s != TooManyRequests then GiveUp(s)
      else if s == ServiceUnavailable || s == BadGateway || s == webServerIsDown then GiveUp(s)
      else RaiseFailure(s)
  }

  /** An error is given up on exactly when it is a client error other than
      429, or 502, 503 or "web server is down"; everything else is handed
      to `retry` with its own status (1 when it has none). */
  lemma ClassifyMeaning(status: Option<int>, is4xx: int -> bool, webServerIsDown: int)
    ensures Classify(status, is4xx, webServerIsDown).GiveUp? <==>
      status.Some? && ((is4xx(status.value) && status.value != TooManyRequests)
                       || status.value in {BadGateway, ServiceUnavailable, webServerIsDown})
    ensures Classify(status, is4xx, webServerIsDown).status == (if status.Some? then status.value else 1)
    ensures status == Some(TooManyRequests) && TooManyRequests != webServerIsDown ==>
      Classify(status, is4xx, webServerIsDown) == RaiseFailure(TooManyRequests)
  {
  }

  /** `getattr(e, "status", 1)` */
  function StatusOr1(status: Option<int>): int {
    if status.Some? then status.value else 1
  }

  // ---------------------------------------------------------------------
  // Timeouts
  // ---------------------------------------------------------------------

  /** The status `download` raises after a timeout that made progress;
      `retry` does not count it as an attempt. */
  const TimeoutProgress: int := 999

  /** The timeout branch of `download` as written.  The presence test looks
      up the partial file's name while the sizes are stored under the item's
      file name.  Returns the new size table and the status raised; `None`
      stands for the `KeyError` the lookup raises when the partial file's
      name is a key but the item's name is not. */
  function TimeoutAsWritten(sizes: map<string, nat>, partialName: string, filename: string,
                            size: nat, status: Option<int>): (map<string, nat>, Option<int>)
  {
    if partialName !in sizes then (sizes[filename := size], Some(TimeoutProgress))
    else if filename !in sizes then (sizes, None)
    else if sizes[filename] < size then (sizes[filename := size], Some(TimeoutProgress))
    else (sizes, Some(StatusOr1(status)))
  }

  /** As written, whenever no key is a ".part" name every timeout is
      reported as progress, whatever the partial file's size. */
  lemma TimeoutAsWrittenAlwaysProgress(sizes: map<string, nat>, filename: string,
                                       size: nat, status: Option<int>)
    requires forall k :: k in sizes ==> k != PartialName(filename)
    ensures TimeoutAsWritten(sizes, PartialName(filename), filename, size, status).1 == Some(TimeoutProgress)
  {
  }

  /** Two timeouts of "a.jpg" with no byte written in between: as written,
      the second is again reported as progress. */
  lemma TimeoutStallExample()
    ensures var first := TimeoutAsWritten(map[], "a.jpg.part", "a.jpg", 100, None);
      && first == (map["a.jpg" := 100], Some(TimeoutProgress))
      && TimeoutAsWritten(first.0, "a.jpg.part", "a.jpg", 100, None).1 == Some(TimeoutProgress)
      && TimeoutIntended(first.0, "a.jpg", 100, None).1 == 1
  {
    var first := TimeoutAsWritten(map[], "a.jpg.part", "a.jpg", 100, None);
    assert "a.jpg.part" !in first.0;
  }

  /** The timeout branch as intended: the item's own entry is looked up. */
  function TimeoutIntended(sizes: map<string, nat>, filename: string, size: nat,
                           status: Option<int>): (r: (map<string, nat>, int))
    ensures r.1 == TimeoutProgress <==>
      (filename !in sizes || sizes[filename] < size || StatusOr1(status) == TimeoutProgress)
    ensures r.0 == if filename !in sizes || sizes[filename] < size then sizes[filename := size] else sizes
    ensures filename in r.0 && r.0[filename] >= size
  {
    if filename !in sizes || sizes[filename] < size then (sizes[filename := size], TimeoutProgress)
    else (sizes, StatusOr1(status))
  }

  /** A timeout that follows another with no new bytes is not progress:
      it raises its own status. */
  lemma TimeoutStallCounts(sizes: map<string, nat>, filename: string, size: nat,
                           status: Option<int>, status': Option<int>)
    ensures var first := TimeoutIntended(sizes, filename, size, status);
      TimeoutIntended(first.0, filename, size, status').1 == StatusOr1(status')
  {
  }

  // ---------------------------------------------------------------------
  // The retry wrapper
  // ---------------------------------------------------------------------

  /** How one call of the wrapped `download` ended: it returned, it raised
      `DownloadFailure` with a status, or it raised any other exception. */
  datatype Outcome = Returned | Failed(status: int) | Crashed

  /** `current_attempt` after one outcome: a failure other than 999 counts. */
  function Bump(attempt: int, o: Outcome): int {
    if o.Failed? && o.status != TimeoutProgress then attempt + 1 else attempt
  }

  /** `current_attempt` once `retry` has seen the first `k` outcomes. */
  function AttemptAfter(outcomes: seq<Outcome>, k: nat, a0: int): (a: int)
    requires k <= |outcomes|
    ensures a0 <= a <= a0 + k
  {
    if k == 0 then a0 else Bump(AttemptAfter(outcomes, k - 1, a0), outcomes[k - 1])
  }

  /** `retry` stops after the outcome at index `k`: it returned or crashed,
      or the failure count reached the limit (`>=` with the limit on, `==`
      with it disabled). */
  predicate StopsAt(outcomes: seq<Outcome>, k: nat, a0: int, limitDisabled: bool, limit: int)
    requires k < |outcomes|
  {
    var a := AttemptAfter(outcomes, k + 1, a0);
    !outcomes[k].Failed? || (if limitDisabled then a == limit else a >= limit)
  }

  /** With the limit on, `retry` never counts more failures than the limit
      allows (one more when it starts at or above it). */
  lemma AttemptsBounded(outcomes: seq<Outcome>, k: nat, a0: int, limit: int)
    requires k < |outcomes|
    requires forall j :: 0 <= j < k ==> !StopsAt(outcomes, j, a0, false, limit)
    ensures AttemptAfter(outcomes, k + 1, a0) <= (if a0 < limit then limit else a0 + 1)
  {
    if k > 0 {
      assert !StopsAt(outcomes, k - 1, a0, false, limit);
    }
  }

  /** Disabling the limit changes nothing while the count starts below it:
      the same outcomes make `retry` stop at the same call. */
  lemma DisabledLimitStopsAlike(outcomes: seq<Outcome>, k: nat, a0: int, limit: int)
    requires a0 < limit && k < |outcomes|
    requires forall j :: 0 <= j < k ==> !StopsAt(outcomes, j, a0, false, limit)
    ensures forall j :: 0 <= j <= k ==>
      (StopsAt(outcomes, j, a0, true, limit) <==> StopsAt(outcomes, j, a0, false, limit))
  {
    forall j | 0 <= j <= k
      ensures StopsAt(outcomes, j, a0, true, limit) <==> StopsAt(outcomes, j, a0, false, limit)
    {
      if j > 0 {
        assert !StopsAt(outcomes, j - 1, a0, false, limit);
      }
      assert AttemptAfter(outcomes, j, a0) < limit;
    }
  }

  /** With the limit disabled and the count already past it, only a return
      or a crash ends the retries. */
  lemma PastDisabledLimitOnlyReturnStops(outcomes: seq<Outcome>, k: nat, a0: int, limit: int)
    requires a0 > limit && k < |outcomes|
    ensures StopsAt(outcomes, k, a0, true, limit) <==> !outcomes[k].Failed?
  {
  }

  // ---------------------------------------------------------------------
  // Download results
  // ---------------------------------------------------------------------

  /** How `download` ended: skipped by the pre-checks, found already on
      disk, downloaded, given up on with a status, or raising
      `DownloadFailure` with a status for `retry`. */
  datatype DownloadResult = Skipped | AlreadyDownloaded | Completed | GaveUpOn(status: int) | Raised(status: int)

  /** What `retry` sees of a call. */
  function AsOutcome(r: DownloadResult): Outcome {
    if r.Raised? then Failed(r.status) else Returned
  }

  /** The client's transfer into the partial file: it ran to the end, or
      timed out, or failed with an error, after writing `bytes` bytes. */
  datatype Transfer = Finished(bytes: nat) | TimedOut(bytes: nat, status: Option<int>) | Errored(bytes: nat, status: Option<int>)

  /** Where a transfer into `partial` resumes: the partial file's size, or
      the start when there is none. */
  function ResumePoint(files: map<Path, nat>, partial: Path): nat {
    if partial in files then files[partial] else 0
  }

  /** The file sizes after the client wrote `bytes` bytes from `resume`:
      the partial file exists afterwards when it did before or something
      was written. */
  function AfterWrite(files: map<Path, nat>, partial: Path, resume: nat, bytes: nat): map<Path, nat> {
    if partial in files || bytes > 0 then files[partial := resume + bytes] else files
  }

  /** The files after a finished transfer: the partial file, `size` bytes
      long, has been renamed to the complete file. */
  function AfterFinish(files: map<Path, nat>, complete: Path, partial: Path, size: nat): map<Path, nat> {
    (files - {partial})[complete := size]
  }

  /** The files after a transfer into `partial` from `resume`: renamed to
      the complete file when it finished, left in place otherwise. */
  function AfterTransfer(files: map<Path, nat>, complete: Path, partial: Path, resume: nat, transfer: Transfer): map<Path, nat> {
    if transfer.Finished? then AfterFinish(files, complete, partial, resume + transfer.bytes)
    else AfterWrite(files, partial, resume, transfer.bytes)
  }

  // ---------------------------------------------------------------------
  // The downloader
  // ---------------------------------------------------------------------

  /** The configuration the downloader reads. */
  datatype Settings = Settings(
    blockSubFolders: bool,
    downloadRoot: Path,
    formats: FileFormats,
    limits: SizeLimits,
    attemptLimitDisabled: bool,
    downloadAttempts: int,
    is4xx: int -> bool,
    webServerIsDown: int)

  /** Every candidate below `n` is taken. */
  predicate AllTaken(folder: Path, stem: string, ext: string, n: nat, files: map<Path, nat>, history: set<string>) {
    forall k :: 1 <= k < n ==> !NameFree(folder, Candidate(stem, k, ext), files, history)
  }

  /** The name `iterate_filename` settles on and the number it carries. */
  predicate LeastFreeCandidate(folder: Path, stem: string, ext: string, n: nat, name: string,
                               files: map<Path, nat>, history: set<string>)
  {
    && n >= 1 && name == Candidate(stem, n, ext)
    && NameFree(folder, name, files, history)
    && AllTaken(folder, stem, ext, n, files, history)
  }

  class Downloader {
    const settings: Settings
    const fileLock: FileLock
    /** The local filesystem. */
    const disk: Disk
    /** The names the download history already holds. */
    const historyNames: set<string>
    var complete: bool
    var unfinishedCount: int
    var processedItems: seq<Url>
    /** `_current_attempt_filesize`: the partial file's size at the last
        timeout, by file name. */
    var attemptSizes: map<string, nat>

    constructor (settings: Settings, disk: Disk, historyNames: set<string>)
      ensures this.settings == settings && this.disk == disk && this.historyNames == historyNames
      ensures fresh(fileLock) && fileLock.lockedFiles == []
      ensures complete && unfinishedCount == 0 && processedItems == [] && attemptSizes == map[]
    {
      this.settings := settings;
      this.disk := disk;
      this.historyNames := historyNames;
      fileLock := new FileLock();
      complete := true;
      unfinishedCount := 0;
      processedItems := [];
      attemptSizes := map[];
    }

    /** `get_download_dir`: with sub-folders blocked, walks up to the folder
        directly below the download root and stores it in the item. */
    method GetDownloadDir(item: MediaItem) returns (folder: Path)
      requires settings.blockSubFolders ==>
        StrictlyUnder(item.downloadFolder, settings.downloadRoot)
        || (item.downloadFolder == [] && settings.downloadRoot == [])
      modifies item`downloadFolder
      ensures item.downloadFolder == folder
      ensures !settings.blockSubFolders ==> folder == old(item.downloadFolder)
      ensures settings.blockSubFolders ==>
        && Parent(folder) == settings.downloadRoot
        && |folder| <= |old(item.downloadFolder)| && folder == old(item.downloadFolder)[..|folder|]
    {
      folder := item.downloadFolder;
      if settings.blockSubFolders {
        var root := settings.downloadRoot;
        while Parent(folder) != root
          invariant StrictlyUnder(folder, root) || (folder == [] && root == [])
          invariant |folder| <= |old(item.downloadFolder)| && folder == old(item.downloadFolder)[..|folder|]
          decreases |folder|
        {
          folder := Parent(folder);
        }
        item.downloadFolder := folder;
      }
    }

    /** `iterate_filename`: the least n >= 1 whose "stem (n)ext" is neither
        on disk in the item's folder nor in the history. */
    method IterateFilename(completeFile: Path, item: MediaItem) returns (newComplete: Path, newPartial: Path, ghost n: nat)
      modifies item`filename
      ensures LeastFreeCandidate(item.downloadFolder, FileStem(FileName(completeFile)), item.ext, n,
                                 item.filename, disk.files, historyNames)
      ensures newComplete == item.downloadFolder + [item.filename]
      ensures newPartial == PartialFile(item.downloadFolder, item.filename)
    {
      var stem := FileStem(FileName(completeFile));
      var folder, ext := item.downloadFolder, item.ext;
      var files := disk.files;
      ghost var blocked := Names(files.Keys) + historyNames;
      ghost var seen: set<string> := {};
      var iteration := 1;
      while !NameFree(folder, Candidate(stem, iteration, ext), files, historyNames)
        invariant iteration >= 1
        invariant AllTaken(folder, stem, ext, iteration, files, historyNames)
        invariant seen <= blocked
        invariant forall x :: x in seen ==> exists k :: 1 <= k < iteration && x == Candidate(stem, k, ext)
        decreases |blocked - seen|
      {
        var c := Candidate(stem, iteration, ext);
        NewCandidate(stem, ext, iteration, seen);
        BlockedName(folder, c, files, historyNames);
        SeenGrows(seen, blocked, c);
        TakenStep(folder, stem, ext, iteration, files, historyNames);
        SeenStep(stem, ext, iteration, seen);
        seen := seen + {c};
        iteration := iteration + 1;
      }
      n := iteration;
      item.filename := Candidate(stem, iteration, ext);
      newComplete := folder + [item.filename];
      newPartial := PartialFile(folder, item.filename);
    }

    /** The size check of `get_final_file_info` passes: either a size was
        already known, or the server's size is within the configured limits. */
    predicate SizeAccepted(expected: Option<int>, remoteSize: int, ext: string) {
      !SizeUnknown(expected) || WithinLimits(remoteSize, ext, settings.formats, settings.limits)
    }

    /** `get_final_file_info`: decides whether the file still has to be
        downloaded and under which name, consulting the disk, the size
        limits and the name the history recorded for the item. */
    method GetFinalFileInfo(completeFile: Path, partialFile: Path, item: MediaItem,
                            downloaded: Option<string>, remoteSize: int)
      returns (complete: Path, partial: Path, proceed: bool)
      requires completeFile == item.downloadFolder + [item.filename]
      requires partialFile == PartialFile(item.downloadFolder, item.filename)
      modifies item`filesize, item`filename, item`downloadFilename, disk
      ensures var unknown := SizeUnknown(old(item.filesize));
        item.filesize == if unknown then Some(remoteSize) else old(item.filesize)
      ensures !SizeAccepted(old(item.filesize), remoteSize, item.ext) ==>
        && !proceed && complete == completeFile && partial == partialFile
        && disk.files == old(disk.files) && item.filename == old(item.filename)
        && item.downloadFilename == old(item.downloadFilename)
      ensures SizeAccepted(old(item.filesize), remoteSize, item.ext) ==>
        && complete == item.downloadFolder + [item.filename]
        && partial == PartialFile(item.downloadFolder, item.filename)
        && item.downloadFilename == Some(item.filename)
      ensures SizeAccepted(old(item.filesize), remoteSize, item.ext)
              && completeFile !in old(disk.files) && partialFile !in old(disk.files) ==>
        proceed && complete == completeFile && disk.files == old(disk.files)
      ensures SizeAccepted(old(item.filesize), remoteSize, item.ext)
              && HasSize(old(disk.files), completeFile, item.filesize) ==>
        !proceed && complete == completeFile && disk.files == old(disk.files)
      ensures proceed ==> complete !in disk.files || partial in disk.files
      ensures SizeAccepted(old(item.filesize), remoteSize, item.ext) && !proceed ==>
        HasSize(disk.files, complete, item.filesize)
      ensures proceed ==> disk.files == old(disk.files)
      ensures disk.files == old(disk.files)
              || (partial in old(disk.files) && disk.files == (old(disk.files) - {partial})[complete := old(disk.files)[partial]])
    {
      var expected := item.filesize;
      complete, partial, proceed := completeFile, partialFile, true;
      ghost var pass := 0;
      while true
        invariant 0 <= pass <= 1 && proceed
        invariant complete == item.downloadFolder + [item.filename]
        invariant partial == PartialFile(item.downloadFolder, item.filename)
        invariant pass == 0 ==> complete == completeFile && partial == partialFile && item.filename == old(item.filename)
        invariant pass == 1 ==> downloaded.Some? && downloaded.value != "" && item.filename == downloaded.value
        invariant pass == 1 ==> item.filesize == (if SizeUnknown(expected) then Some(remoteSize) else expected)
        invariant pass == 1 ==> SizeAccepted(expected, remoteSize, item.ext)
        invariant pass == 1 ==> completeFile in disk.files || partialFile in disk.files
        invariant pass == 1 ==> !HasSize(disk.files, completeFile, item.filesize)
        invariant pass == 0 ==> item.filesize == expected
        invariant disk.files == old(disk.files) && item.downloadFilename == old(item.downloadFilename)
        decreases 1 - pass
      {
        var sizeOk := CheckSize(item, expected, remoteSize);
        if !sizeOk {
          proceed := false;
          return;
        }
        if complete !in disk.files && partial !in disk.files {
          break;
        }
        if HasSize(disk.files, complete, item.filesize) {
          proceed := false;
          break;
        }
        var switched;
        complete, partial, proceed, switched := SettleExisting(complete, partial, item, downloaded);
        if !switched {
          break;
        }
        pass := 1;
      }
      assert FileName(complete) == item.filename;
      item.downloadFilename := Some(FileName(complete));
    }

    /** The size check opening each pass of `get_final_file_info`: without
        a known size the server's size is taken and checked against the
        limits. */
    method CheckSize(item: MediaItem, expected: Option<int>, remoteSize: int) returns (ok: bool)
      modifies item`filesize
      ensures item.filesize == if SizeUnknown(expected) then Some(remoteSize) else old(item.filesize)
      ensures ok <==> SizeAccepted(expected, remoteSize, item.ext)
    {
      ok := true;
      if SizeUnknown(expected) {
        item.filesize := Some(remoteSize);
        ok := WithinLimits(remoteSize, item.ext, settings.formats, settings.limits);
      }
    }

    /** The rest of a pass of `get_final_file_info`, once a file of that
        name is known to be there without the expected size: consult the
        name the history recorded.  `switched` tells that the item takes
        the recorded name and the loop runs again. */
    method SettleExisting(completeFile: Path, partialFile: Path, item: MediaItem, downloaded: Option<string>)
      returns (complete: Path, partial: Path, proceed: bool, switched: bool)
      requires completeFile == item.downloadFolder + [item.filename]
      requires partialFile == PartialFile(item.downloadFolder, item.filename)
      requires completeFile in disk.files || partialFile in disk.files
      requires !HasSize(disk.files, completeFile, item.filesize)
      modifies item`filename, disk
      ensures complete == item.downloadFolder + [item.filename]
      ensures partial == PartialFile(item.downloadFolder, item.filename)
      ensures switched <==> downloaded.Some? && downloaded.value != "" && old(item.filename) != downloaded.value
      ensures switched ==> proceed && item.filename == downloaded.value && disk.files == old(disk.files)
      ensures !switched && proceed ==> complete !in disk.files || partial in disk.files
      ensures !switched && !proceed ==> HasSize(disk.files, complete, item.filesize)
      ensures proceed ==> disk.files == old(disk.files)
      ensures disk.files == old(disk.files)
              || (partial in old(disk.files) && disk.files == (old(disk.files) - {partial})[complete := old(disk.files)[partial]])
    {
      complete, partial, proceed, switched := completeFile, partialFile, true, false;
      if downloaded.None? || downloaded.value == "" {
        ghost var n;
        complete, partial, n := IterateFilename(complete, item);
        return;
      }
      if item.filename == downloaded.value {
        if partial in disk.files {
          if HasSize(disk.files, partial, item.filesize) {
            proceed := false;
            var _ := disk.Rename(partial, complete);
            assert HasSize(disk.files, complete, item.filesize);
          }
        } else if complete in disk.files {
          if HasSize(disk.files, complete, item.filesize) {
            proceed := false;
          } else {
            ghost var n;
            complete, partial, n := IterateFilename(complete, item);
          }
        }
        return;
      }
      item.filename := downloaded.value;
      complete := item.downloadFolder + [item.filename];
      partial := PartialFile(item.downloadFolder, item.filename);
      switched := true;
    }

    /** The result of the second `except` clause for an error with this
        status. */
    function ErrorResult(status: Option<int>): (r: DownloadResult)
      ensures r.GaveUpOn? || r.Raised?
      ensures r.status == StatusOr1(status)
      ensures r.GaveUpOn? <==> Classify(status, settings.is4xx, settings.webServerIsDown).GiveUp?
    {
      match Classify(status, settings.is4xx, settings.webServerIsDown)
      case GiveUp(s) => GaveUpOn(s)
      case RaiseFailure(s) => Raised(s)
    }

    /** What the two `except` clauses make of a transfer that did not
        finish, given the size records before and after and the files
        afterwards: an error is given up on or raised by its status; a
        timeout raises, and when the partial file is there its size is
        recorded first, raising the no-count status 999 when it grew. */
    predicate UnfinishedResult(r: DownloadResult, transfer: Transfer, sizes: map<string, nat>,
                               sizes': map<string, nat>, files: map<Path, nat>, partial: Path, filename: string)
    {
      && (transfer.Errored? ==> sizes' == sizes && r == ErrorResult(transfer.status))
      && (transfer.TimedOut? ==>
            if partial in files then
              var t := TimeoutIntended(sizes, filename, files[partial], transfer.status);
              sizes' == t.0 && r == Raised(t.1)
            else sizes' == sizes && r == Raised(StatusOr1(transfer.status)))
    }

    /** The part of `download` after the existence check: the client's
        transfer into the partial file from the resume point, the rename
        to the complete file, and the two `except` clauses.  The lock taken
        under `lockName` is released on every path. */
    method Fetch(item: MediaItem, lockName: string, complete: Path, partial: Path, transfer: Transfer)
      returns (r: DownloadResult, resume: nat, range: string)
      requires fileLock.CheckLock(lockName)
      requires partial != complete
      modifies disk, fileLock, this`attemptSizes
      ensures fileLock.lockedFiles == RemoveFirst(old(fileLock.lockedFiles), lockName)
      ensures resume == ResumePoint(old(disk.files), partial)
      ensures range == RangeHeader(resume)
      ensures disk.files == AfterTransfer(old(disk.files), complete, partial, resume, transfer)
      ensures transfer.Finished? ==>
        && r == Completed && attemptSizes == old(attemptSizes)
        && complete in disk.files && partial !in disk.files
      ensures !transfer.Finished? ==>
        UnfinishedResult(r, transfer, old(attemptSizes), attemptSizes, disk.files, partial, item.filename)
    {
      resume := if partial in disk.files then disk.files[partial] else 0;
      range := RangeHeader(resume);
      if transfer.Finished? {
        var size := resume + transfer.bytes;
        assert AfterTransfer(old(disk.files), complete, partial, resume, transfer)
            == AfterFinish(old(disk.files), complete, partial, size);
        TransferFinished(lockName, complete, partial, size);
        r := Completed;
      } else {
        assert AfterTransfer(old(disk.files), complete, partial, resume, transfer)
            == AfterWrite(old(disk.files), partial, resume, transfer.bytes);
        r := TransferFailed(item, lockName, partial, resume, transfer);
      }
    }

    /** A transfer that ran to the end: the partial file, now `size` bytes
        long, becomes the complete file, and the lock is released. */
    method TransferFinished(lockName: string, complete: Path, partial: Path, size: nat)
      requires fileLock.CheckLock(lockName)
      requires partial != complete
      modifies disk, fileLock
      ensures fileLock.lockedFiles == RemoveFirst(old(fileLock.lockedFiles), lockName)
      ensures disk.files == AfterFinish(old(disk.files), complete, partial, size)
      ensures complete in disk.files && partial !in disk.files
    {
      ghost var files := disk.files;
      assert files[partial := size] - {partial} == files - {partial};
      disk.Write(partial, size);
      var _ := disk.Rename(partial, complete);
      var _ := fileLock.RemoveLock(lockName);
    }

    /** The two `except` clauses of `download` after a transfer that did
        not finish: release the lock, then give up on the file or raise
        `DownloadFailure`, after the timeout bookkeeping when the partial
        file is there. */
    method TransferFailed(item: MediaItem, lockName: string, partial: Path, resume: nat, transfer: Transfer)
      returns (r: DownloadResult)
      requires !transfer.Finished?
      requires fileLock.CheckLock(lockName)
      requires resume == (if partial in disk.files then disk.files[partial] else 0)
      modifies disk, fileLock, this`attemptSizes
      ensures fileLock.lockedFiles == RemoveFirst(old(fileLock.lockedFiles), lockName)
      ensures disk.files == AfterWrite(old(disk.files), partial, resume, transfer.bytes)
      ensures UnfinishedResult(r, transfer, old(attemptSizes), attemptSizes, disk.files, partial, item.filename)
    {
      if partial in disk.files || transfer.bytes > 0 {
        disk.Write(partial, resume + transfer.bytes);
      }
      var _ := fileLock.RemoveLock(lockName);
      if transfer.Errored? {
        r := ErrorResult(transfer.status);
      } else if partial in disk.files {
        var code := RecordTimeout(item.filename, disk.files[partial], transfer.status);
        r := Raised(code);
      } else {
        r := Raised(StatusOr1(transfer.status));
      }
    }

    /** The size bookkeeping of the timeout branch, looking up the item's
        own entry; returns the status to raise. */
    method RecordTimeout(filename: string, size: nat, status: Option<int>) returns (code: int)
      modifies this`attemptSizes
      ensures (attemptSizes, code) == TimeoutIntended(old(attemptSizes), filename, size, status)
    {
      if filename !in attemptSizes || attemptSizes[filename] < size {
        attemptSizes := attemptSizes[filename := size];
        code := TimeoutProgress;
      } else {
        code := StatusOr1(status);
      }
    }

    /** `download`, without the `retry` wrapper.  `canDownload` is the
        outcome of `check_file_can_download`, `downloaded` the name the
        history holds for the item, `remoteSize` the size the server
        reports and `transfer` what the client's transfer does. */
    method Download(item: MediaItem, canDownload: bool, downloaded: Option<string>,
                    remoteSize: int, transfer: Transfer)
      returns (r: DownloadResult, ghost complete: Path, ghost partial: Path, ghost proceed: bool,
               ghost resume: nat)
      requires settings.blockSubFolders ==>
        StrictlyUnder(item.downloadFolder, settings.downloadRoot)
        || (item.downloadFolder == [] && settings.downloadRoot == [])
      requires !fileLock.CheckLock(item.filename)
      modifies item`downloadFolder, item`currentAttempt, item`filesize, item`filename,
               item`downloadFilename, disk, fileLock, this`attemptSizes
      ensures fileLock.lockedFiles == old(fileLock.lockedFiles)
      ensures !canDownload ==> r == Skipped && disk.files == old(disk.files)
      ensures canDownload ==>
        item.currentAttempt == if old(item.currentAttempt).None? then Some(1) else old(item.currentAttempt)
      ensures canDownload && SizeAccepted(old(item.filesize), remoteSize, item.ext) ==>
        complete == item.downloadFolder + [item.filename]
      ensures r == AlreadyDownloaded <==> canDownload && !proceed
      ensures r == AlreadyDownloaded && SizeAccepted(old(item.filesize), remoteSize, item.ext) ==>
        HasSize(disk.files, complete, item.filesize)
      ensures r == Completed <==> canDownload && proceed && transfer.Finished?
      ensures r == Completed ==> complete in disk.files && partial !in disk.files
      ensures r.GaveUpOn? ==>
        transfer.Errored? && Classify(transfer.status, settings.is4xx, settings.webServerIsDown) == GiveUp(r.status)
      ensures canDownload && proceed ==> resume == ResumePoint(old(disk.files), partial)
      ensures canDownload && proceed ==> disk.files == AfterTransfer(old(disk.files), complete, partial, resume, transfer)
      ensures canDownload && proceed && !transfer.Finished? ==>
        UnfinishedResult(r, transfer, old(attemptSizes), attemptSizes, disk.files, partial, item.filename)
      ensures !(canDownload && proceed && transfer.TimedOut?) ==> attemptSizes == old(attemptSizes)
      ensures AsOutcome(r).Failed? ==> canDownload && proceed && !transfer.Finished?
      ensures canDownload && !proceed ==>
        || disk.files == old(disk.files)
        || (partial in old(disk.files) && disk.files == AfterFinish(old(disk.files), complete, partial, old(disk.files)[partial]))
    {
      if !canDownload {
        return Skipped, [], [], false, 0;
      }
      r, complete, partial, proceed, resume := Attempt(item, downloaded, remoteSize, transfer);
    }

    /** `download` once `check_file_can_download` has allowed it: lock the
        file, count the attempt, locate the file and conclude. */
    method Attempt(item: MediaItem, downloaded: Option<string>, remoteSize: int, transfer: Transfer)
      returns (r: DownloadResult, ghost complete: Path, ghost partial: Path, ghost proceed: bool,
               ghost resume: nat)
      requires settings.blockSubFolders ==>
        StrictlyUnder(item.downloadFolder, settings.downloadRoot)
        || (item.downloadFolder == [] && settings.downloadRoot == [])
      requires !fileLock.CheckLock(item.filename)
      modifies item`downloadFolder, item`currentAttempt, item`filesize, item`filename,
               item`downloadFilename, disk, fileLock, this`attemptSizes
      ensures fileLock.lockedFiles == old(fileLock.lockedFiles)
      ensures item.currentAttempt == if old(item.currentAttempt).None? then Some(1) else old(item.currentAttempt)
      ensures SizeAccepted(old(item.filesize), remoteSize, item.ext) ==>
        complete == item.downloadFolder + [item.filename]
      ensures r == AlreadyDownloaded <==> !proceed
      ensures r == AlreadyDownloaded && SizeAccepted(old(item.filesize), remoteSize, item.ext) ==>
        HasSize(disk.files, complete, item.filesize)
      ensures r == Completed <==> proceed && transfer.Finished?
      ensures r == Completed ==> complete in disk.files && partial !in disk.files
      ensures r.GaveUpOn? ==>
        transfer.Errored? && Classify(transfer.status, settings.is4xx, settings.webServerIsDown) == GiveUp(r.status)
      ensures proceed ==> resume == ResumePoint(old(disk.files), partial)
      ensures proceed ==> disk.files == AfterTransfer(old(disk.files), complete, partial, resume, transfer)
      ensures proceed && !transfer.Finished? ==>
        UnfinishedResult(r, transfer, old(attemptSizes), attemptSizes, disk.files, partial, item.filename)
      ensures !(proceed && transfer.TimedOut?) ==> attemptSizes == old(attemptSizes)
      ensures AsOutcome(r).Failed? ==> proceed && !transfer.Finished?
      ensures !proceed ==>
        || disk.files == old(disk.files)
        || (partial in old(disk.files) && disk.files == AfterFinish(old(disk.files), complete, partial, old(disk.files)[partial]))
    {
      var lockName, completeFile, partialFile, go := Locate(item, downloaded, remoteSize);
      AddRemoveRoundTrip(old(fileLock.lockedFiles), lockName);
      complete, partial, proceed := completeFile, partialFile, go;
      r, resume := Conclude(item, lockName, completeFile, partialFile, go, transfer);
    }

    /** The opening of `download`: the download folder, the lock on the
        file name, the attempt counter and `get_final_file_info`. */
    method Locate(item: MediaItem, downloaded: Option<string>, remoteSize: int)
      returns (lockName: string, complete: Path, partial: Path, proceed: bool)
      requires settings.blockSubFolders ==>
        StrictlyUnder(item.downloadFolder, settings.downloadRoot)
        || (item.downloadFolder == [] && settings.downloadRoot == [])
      modifies item`downloadFolder, item`currentAttempt, item`filesize, item`filename,
               item`downloadFilename, disk, fileLock
      ensures lockName == old(item.filename)
      ensures fileLock.lockedFiles == old(fileLock.lockedFiles) + [lockName]
      ensures item.currentAttempt == if old(item.currentAttempt).None? then Some(1) else old(item.currentAttempt)
      ensures SizeAccepted(old(item.filesize), remoteSize, item.ext) ==>
        complete == item.downloadFolder + [item.filename]
      ensures proceed ==> partial != complete && disk.files == old(disk.files)
      ensures !proceed && SizeAccepted(old(item.filesize), remoteSize, item.ext) ==>
        HasSize(disk.files, complete, item.filesize)
      ensures !proceed ==>
        || disk.files == old(disk.files)
        || (partial in old(disk.files) && disk.files == AfterFinish(old(disk.files), complete, partial, old(disk.files)[partial]))
    {
      var folder := GetDownloadDir(item);
      lockName := item.filename;
      fileLock.AddLock(lockName);
      if item.currentAttempt.None? {
        item.currentAttempt := Some(1);
      }
      ghost var attempt := item.currentAttempt;
      assert attempt == if old(item.currentAttempt).None? then Some(1) else old(item.currentAttempt);
      complete, partial, proceed := GetFinalFileInfo(folder + [item.filename], PartialFile(folder, item.filename),
                                                     item, downloaded, remoteSize);
      assert item.currentAttempt == attempt;
      PartialFileDistinct(item.downloadFolder, item.filename);
    }

    /** The end of `download` once the file is located: fetch it when the
        existence check lets the download proceed, otherwise release the
        lock and report the file as already downloaded. */
    method Conclude(item: MediaItem, lockName: string, complete: Path, partial: Path, proceed: bool,
                    transfer: Transfer)
      returns (r: DownloadResult, resume: nat)
      requires fileLock.CheckLock(lockName)
      requires proceed ==> partial != complete
      modifies disk, fileLock, this`attemptSizes
      ensures fileLock.lockedFiles == RemoveFirst(old(fileLock.lockedFiles), lockName)
      ensures !proceed ==>
        && r == AlreadyDownloaded && disk.files == old(disk.files) && attemptSizes == old(attemptSizes)
      ensures proceed ==> r != AlreadyDownloaded && resume == ResumePoint(old(disk.files), partial)
      ensures proceed ==> disk.files == AfterTransfer(old(disk.files), complete, partial, resume, transfer)
      ensures proceed && transfer.Finished? ==>
        && r == Completed && attemptSizes == old(attemptSizes)
        && complete in disk.files && partial !in disk.files
      ensures proceed && !transfer.Finished? ==>
        UnfinishedResult(r, transfer, old(attemptSizes), attemptSizes, disk.files, partial, item.filename)
    {
      if proceed {
        var range;
        r, resume, range := Fetch(item, lockName, complete, partial, transfer);
      } else {
        var _ := fileLock.RemoveLock(lockName);
        r, resume := AlreadyDownloaded, 0;
      }
    }

    /** The `retry` wrapper around `download`: `outcomes[k]` is how the
        call numbered `k` ends.  Returns the number of calls made and
        whether the item was counted as failed. */
    method Retry(item: MediaItem, outcomes: seq<Outcome>) returns (calls: nat, failed: bool)
      requires item.currentAttempt.Some?
      requires exists k :: 0 <= k < |outcomes| && StopsAt(outcomes, k, item.currentAttempt.value,
                                                          settings.attemptLimitDisabled, settings.downloadAttempts)
      modifies item`currentAttempt
      ensures 1 <= calls <= |outcomes|
      ensures StopsAt(outcomes, calls - 1, old(item.currentAttempt).value,
                      settings.attemptLimitDisabled, settings.downloadAttempts)
      ensures forall j :: 0 <= j < calls - 1 ==>
        !StopsAt(outcomes, j, old(item.currentAttempt).value, settings.attemptLimitDisabled, settings.downloadAttempts)
      ensures item.currentAttempt == Some(AttemptAfter(outcomes, calls, old(item.currentAttempt).value))
      ensures failed <==> !outcomes[calls - 1].Returned?
    {
      var limitDisabled, limit := settings.attemptLimitDisabled, settings.downloadAttempts;
      var attempt := item.currentAttempt.value;
      ghost var a0 := attempt;
      calls := 0;
      while true
        invariant calls < |outcomes|
        invariant attempt == AttemptAfter(outcomes, calls, a0)
        invariant item.currentAttempt == Some(attempt)
        invariant forall j :: 0 <= j < calls ==> !StopsAt(outcomes, j, a0, limitDisabled, limit)
        decreases |outcomes| - calls
      {
        var o := outcomes[calls];
        calls := calls + 1;
        match o
        case Returned =>
          return calls, false;
        case Crashed =>
          return calls, true;
        case Failed(status) =>
          if status != TimeoutProgress {
            attempt := attempt + 1;
            item.currentAttempt := Some(attempt);
          }
          if !limitDisabled {
            if attempt >= limit {
              return calls, true;
            }
          } else if attempt == limit {
            return calls, true;
          }
      }
    }

    /** One pass of `run_loop` for the item taken from the queue: `raised`
        tells whether the wrapped `download` let an exception out, and
        `queueEmpty` whether the queue was empty at the check.  Returns
        whether the item was handed to `download`. */
    method TakeItem(item: MediaItem, raised: bool, queueEmpty: bool) returns (handed: bool)
      modifies this`complete, this`unfinishedCount, this`processedItems, item`currentAttempt
      ensures item.currentAttempt == Some(0)
      ensures handed <==> item.url !in old(processedItems)
      ensures processedItems == if handed then old(processedItems) + [item.url] else old(processedItems)
      ensures unfinishedCount == old(unfinishedCount)
      ensures complete <==>
        queueEmpty && (if handed && raised then old(unfinishedCount) + 1 == 0 else old(unfinishedCount) == 0)
    {
      complete := false;
      unfinishedCount := unfinishedCount + 1;
      item.currentAttempt := Some(0);
      handed := item.url !in processedItems;
      if handed {
        processedItems := processedItems + [item.url];
        if raised {
          if unfinishedCount == 0 && queueEmpty {
            complete := true;
          }
          unfinishedCount := unfinishedCount - 1;
          return;
        }
      }
      unfinishedCount := unfinishedCount - 1;
      if unfinishedCount == 0 && queueEmpty {
        complete := true;
      }
    }

    /** One turn of `run_loop`, for the item at position `i`: the loop
        invariants of `RunLoop` carry over to the next position. */
    method RunStep(items: seq<MediaItem>, i: nat, item: MediaItem, raised: bool, queueEmpty: bool,
                   ghost base: seq<Url>, handed: seq<Url>) returns (handed': seq<Url>)
      requires i < |items| && item == items[i]
      requires processedItems == AppendNew(base, UrlsOf(items[..i])) && processedItems == base + handed
      requires forall u :: u in handed ==> u !in base
      requires forall k :: 0 <= k < i ==> items[k].currentAttempt == Some(0)
      modifies this`complete, this`unfinishedCount, this`processedItems, item`currentAttempt
      ensures processedItems == AppendNew(base, UrlsOf(items[..i + 1])) && processedItems == base + handed'
      ensures forall u :: u in handed' ==> u !in base
      ensures unfinishedCount == old(unfinishedCount)
      ensures forall k :: 0 <= k <= i ==> items[k].currentAttempt == Some(0)
      ensures old(unfinishedCount) != 0 && old(unfinishedCount) != -1 ==> !complete
    {
      var h := TakeItem(item, raised, queueEmpty);
      handed' := if h then handed + [item.url] else handed;
      UrlsOfSnoc(items, i);
      AppendNewSnoc(base, UrlsOf(items[..i]), items[i].url);
    }

    /** `run_loop` over the items the queue yields, in order; `raised[k]`
        and `queueEmpty[k]` play the parts they play in `TakeItem`.
        Returns the URLs handed to `download`. */
    method RunLoop(items: seq<MediaItem>, raised: seq<bool>, queueEmpty: seq<bool>) returns (handed: seq<Url>)
      requires |raised| == |items| && |queueEmpty| == |items|
      modifies this`complete, this`unfinishedCount, this`processedItems, items`currentAttempt
      ensures processedItems == AppendNew(old(processedItems), UrlsOf(items))
      ensures |old(processedItems)| <= |processedItems|
      ensures processedItems == old(processedItems) + handed
      ensures NoDuplicates(old(processedItems)) ==> NoDuplicates(processedItems)
      ensures forall u :: u in handed ==> u !in old(processedItems)
      ensures unfinishedCount == old(unfinishedCount)
      ensures forall k :: 0 <= k < |items| ==> items[k].currentAttempt == Some(0)
      ensures |items| > 0 && old(unfinishedCount) != 0 && old(unfinishedCount) != -1 ==> !complete
    {
      handed := [];
      var i := 0;
      while i < |items|
        invariant 0 <= i <= |items|
        invariant processedItems == AppendNew(old(processedItems), UrlsOf(items[..i]))
        invariant processedItems == old(processedItems) + handed
        invariant forall u :: u in handed ==> u !in old(processedItems)
        invariant unfinishedCount == old(unfinishedCount)
        invariant forall k :: 0 <= k < i ==> items[k].currentAttempt == Some(0)
        invariant i > 0 && old(unfinishedCount) != 0 && old(unfinishedCount) != -1 ==> !complete
      {
        handed := RunStep(items, i, items[i], raised[i], queueEmpty[i], old(processedItems), handed);
        i := i + 1;
      }
      assert items[..i] == items;
      AppendNewProperties(old(processedItems), UrlsOf(items));
    }
  }

  /** The URLs of a list of items. */
  function UrlsOf(items: seq<MediaItem>): (r: seq<Url>)
    ensures |r| == |items|
  {
    if |items| == 0 then [] else UrlsOf(items[..|items| - 1]) + [items[|items| - 1].url]
  }

  /** The URL at each position is the item's at that position. */
  lemma {:induction false} UrlsOfAt(items: seq<MediaItem>, k: nat)
    requires k < |items|
    ensures UrlsOf(items)[k] == items[k].url
  {
    if k < |items| - 1 {
      UrlsOfAt(items[..|items| - 1], k);
    }
  }

  /** One more item adds its URL at the end. */
  lemma UrlsOfSnoc(items: seq<MediaItem>, i: nat)
    requires i < |items|
    ensures UrlsOf(items[..i + 1]) == UrlsOf(items[..i]) + [items[i].url]
  {
    assert items[..i + 1][..i] == items[..i];
  }

  /** `expected_size` is falsy: no integer size, or 0. */
  predicate SizeUnknown(size: Option<int>) {
    size.None? || size == Some(0)
  }

  /** The last components of a set of paths. */
  ghost function Names(paths: set<Path>): set<string> {
    set p | p in paths && |p| > 0 :: p[|p| - 1]
  }

  /** A name that is not free is in the folder's listing or the history. */
  lemma BlockedName(folder: Path, c: string, files: map<Path, nat>, history: set<string>)
    requires !NameFree(folder, c, files, history)
    ensures c in Names(files.Keys) + history
  {
    if folder + [c] in files {
      assert (folder + [c])[|folder + [c]| - 1] == c;
    }
  }

  /** The next candidate has not been tried yet. */
  lemma NewCandidate(stem: string, ext: string, n: nat, seen: set<string>)
    requires forall x :: x in seen ==> exists k :: 1 <= k < n && x == Candidate(stem, k, ext)
    ensures Candidate(stem, n, ext) !in seen
  {
    if Candidate(stem, n, ext) in seen {
      var k :| 1 <= k < n && Candidate(stem, n, ext) == Candidate(stem, k, ext);
      CandidateInjective(stem, k, n, ext);
    }
  }

  /** Trying one more blocked name leaves fewer untried ones. */
  lemma SeenGrows(seen: set<string>, blocked: set<string>, c: string)
    requires c in blocked && c !in seen
    ensures |blocked - (seen + {c})| < |blocked - seen|
  {
    assert blocked - seen == (blocked - (seen + {c})) + {c};
  }

  lemma TakenStep(folder: Path, stem: string, ext: string, n: nat, files: map<Path, nat>, history: set<string>)
    requires AllTaken(folder, stem, ext, n, files, history)
    requires !NameFree(folder, Candidate(stem, n, ext), files, history)
    ensures AllTaken(folder, stem, ext, n + 1, files, history)
  {
  }

  lemma SeenStep(stem: string, ext: string, n: nat, seen: set<string>)
    requires n >= 1
    requires forall x :: x in seen ==> exists k :: 1 <= k < n && x == Candidate(stem, k, ext)
    ensures forall x :: x in seen + {Candidate(stem, n, ext)} ==> exists k :: 1 <= k < n + 1 && x == Candidate(stem, k, ext)
  {
    forall x | x in seen + {Candidate(stem, n, ext)}
      ensures exists k :: 1 <= k < n + 1 && x == Candidate(stem, k, ext)
    {
      if x in seen {
        var k :| 1 <= k < n && x == Candidate(stem, k, ext);
        assert 1 <= k < n + 1 && x == Candidate(stem, k, ext);
      } else {
        assert 1 <= n < n + 1 && x == Candidate(stem, n, ext);
      }
    }
  }
}
