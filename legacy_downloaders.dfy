/** The older downloader of `utils/downloaders.py`: one `Downloader` per
    album, which names each file from its URL, skips excluded extensions,
    resumes a ".part" file with a `Range` header, renames it when the
    transfer ends, and retries failed transfers through the `retry`
    wrapper. */
module LegacyDownload {
  import opened Common
  import opened FileSystem

  // ---------------------------------------------------------------------
  // Configuration
  // ---------------------------------------------------------------------

  /** The four `exclude_*` flags. */
  datatype Exclusions = Exclusions(videos: bool, images: bool, audio: bool, other: bool)

  /** The helpers the module imports, as values: `FILE_FORMATS`,
      `MAX_FILENAME_LENGTH`, `sanitize`, and the history's
      `sql_check_existing(filename, size)`. */
  datatype Tools = Tools(
    formats: FileFormats,
    maxFilenameLength: nat,
    sanitize: string -> string,
    alreadyStored: (string, nat) -> bool)

  /** What every downloader of one run shares: the download folder, the
      attempt limit and whether it is disabled, the exclusions and the
      helpers. */
  datatype Config = Config(
    folder: Path,
    attempts: int,
    disableAttemptLimit: bool,
    exclude: Exclusions,
    tools: Tools)

  /** `self.folder / self.title` */
  function AlbumFolder(c: Config, title: string): Path {
    c.folder + [title]
  }

  // ---------------------------------------------------------------------
  // Extensions and exclusions
  // ---------------------------------------------------------------------

  /** `'.' + filename.split('.')[-1].lower()` */
  function ExtOf(filename: string): string {
    "." + Lower(AfterLast(filename, '.'))
  }

  /** The extension is listed in one of the four tables. */
  predicate KnownExt(ext: string, f: FileFormats) {
    ext in f.images || ext in f.videos || ext in f.audio || ext in f.other
  }

  /** The four "Skip based on CLI arg" checks, in the order the source makes
      them. */
  function Excluded(ext: string, f: FileFormats, x: Exclusions): (r: bool)
    ensures r ==> KnownExt(ext, f)
    ensures x == Exclusions(false, false, false, false) ==> !r
  {
    (x.videos && ext in f.videos) || (x.images && ext in f.images)
    || (x.audio && ext in f.audio) || (x.other && ext in f.other)
  }

  // ---------------------------------------------------------------------
  // The file name `download_and_store` derives from the URL
  // ---------------------------------------------------------------------

  /** Everything before the first "v=", when the name has one. */
  function CutAtVersion(name: string): (r: string)
    ensures |r| <= |name| && r == name[..|r|]
    ensures !IsSubstring("v=", r)
    ensures IsSubstring("v=", name) ==> StartsWith(name[|r|..], "v=")
    ensures !IsSubstring("v=", name) ==> r == name
  {
    if IsSubstring("v=", name) then
      BeforeFirstExcludes(name, "v=");
      BeforeFirstThenSep(name, "v=");
      BeforeFirst(name, "v=")
    else name
  }

  /** A name longer than `maxLen` keeps its first `maxLen` characters,
      followed by a dot and the text after its last dot. */
  function Truncate(name: string, maxLen: nat): string {
    if |name| > maxLen then name[..maxLen] + "." + AfterLast(name, '.') else name
  }

  /** The name of the file a link is saved as. */
  function NormalizedName(urlName: string, t: Tools): string {
    Truncate(CutAtVersion(t.sanitize(urlName)), t.maxFilenameLength)
  }

  /** Truncation leaves short names alone and keeps the extension of long
      ones, so it never changes how a file is classified. */
  lemma TruncateKeepsExtension(name: string, maxLen: nat)
    ensures |name| <= maxLen ==> Truncate(name, maxLen) == name
    ensures |name| > maxLen ==>
      var r := Truncate(name, maxLen);
      |r| == maxLen + 1 + |AfterLast(name, '.')| && r[..maxLen] == name[..maxLen] && r[maxLen] == '.'
    ensures AfterLast(Truncate(name, maxLen), '.') == AfterLast(name, '.')
    ensures ExtOf(Truncate(name, maxLen)) == ExtOf(name)
  {
    if |name| > maxLen {
      AfterLastAppended(name[..maxLen], '.', AfterLast(name, '.'));
    }
  }

  /** A long name without any dot counts as its own extension, so its
      "truncated" form repeats the whole name after the cut. */
  lemma TruncateWithoutDot(name: string, maxLen: nat)
    requires '.' !in name && |name| > maxLen
    ensures Truncate(name, maxLen) == name[..maxLen] + "." + name
    ensures |Truncate(name, maxLen)| > |name|
  {
    assert AfterLast(name, '.') == name;
  }

  // ---------------------------------------------------------------------
  // What the server answers, and what a call comes to
  // ---------------------------------------------------------------------

  /** The answer to the request made for a file whose extension is not
      listed: an HTTP error (with its status, if any), a response without a
      usable `Content-Disposition` file name, or that file name. */
  datatype NameReply = NameRefused(code: Option<int>) | NoDisposition | Named(name: string)

  /** How the body transfer ends: every byte, or `bytes` bytes and then a
      payload, connection or timeout error. */
  datatype Body = Whole(bytes: nat) | Cut(bytes: nat)

  /** The answer to the download request: an error raised before any byte
      (with its status code, if the error has one), or a response with its
      `Content-Type` and `Content-Length` headers and its body. */
  datatype Reply =
    | Refused(code: Option<int>)
    | Served(contentType: Option<string>, contentLength: Option<nat>, body: Body)

  /** How one call of `download_file` ends.  `Failure` is the
      `FailureException` that the `retry` wrapper catches; `Crashed` is any
      other exception, which passes through it; the rest are returns. */
  datatype FileOutcome =
    | Skipped        // the extension is excluded
    | NameTaken      // the Content-Disposition name is already on disk
    | NotAFile       // the server answered with text or HTML
    | InHistory      // the history already holds a file of that name and size
    | Saved          // transferred and renamed
    | ClientError(code: int)  // a 4xx status: logged and returned
    | Failure
    | Crashed

  /** The `except` clause of `download_file`: a 4xx status returns, every
      other error (including one without a status) becomes a failure. */
  function ErrorOutcome(code: Option<int>): (r: FileOutcome)
    ensures r.ClientError? <==> code.Some? && 400 <= code.value < 500
    ensures r.ClientError? ==> r.code == code.value
    ensures !r.ClientError? ==> r == Failure
  {
    if code.Some? && 400 <= code.value < 500 then ClientError(code.value) else Failure
  }

  /** A text or HTML content type (compared in lower case). */
  predicate IsPage(contentType: string) {
    IsSubstring("text", Lower(contentType)) || IsSubstring("html", Lower(contentType))
  }

  // ---------------------------------------------------------------------
  // One call of `download_file`, as a function of the disk
  // ---------------------------------------------------------------------

  /** The size of the ".part" file, or 0 when there is none. */
  function ResumePoint(files: map<Path, nat>, partial: Path): nat {
    if partial in files then files[partial] else 0
  }

  /** The `Range` header of the download request: sent only when a ".part"
      file exists. */
  function RangeFor(files: map<Path, nat>, partial: Path): (r: Option<string>)
    ensures r.Some? <==> partial in files
    ensures r.Some? ==> ParseRange(r.value) == Some(ResumePoint(files, partial))
  {
    if partial in files then
      RangeHeaderRoundTrip(files[partial]);
      Some(RangeHeader(files[partial]))
    else None
  }

  /** `rename_file`: the ".part" file is dropped when the complete file is
      already there, and becomes it otherwise. */
  function AfterRename(files: map<Path, nat>, complete: Path, partial: Path): map<Path, nat>
    requires partial in files
  {
    if complete in files then files - {partial} else (files - {partial})[complete := files[partial]]
  }

  /** Renaming keeps an existing complete file, removes the ".part" file and
      touches nothing else. */
  lemma AfterRenameShape(files: map<Path, nat>, complete: Path, partial: Path)
    requires partial in files && partial != complete
    ensures var r := AfterRename(files, complete, partial);
      complete in r && partial !in r
      && r[complete] == (if complete in files then files[complete] else files[partial])
      && forall p :: p != complete && p != partial ==>
           (p in r <==> p in files) && (p in files ==> r[p] == files[p])
  {
  }

  /** The download request and the transfer, once the name is settled and
      the extension is not excluded. */
  function TransferStep(c: Config, title: string, files: map<Path, nat>, name: string, reply: Reply): (FileOutcome, map<Path, nat>)
  {
    var complete := AlbumFolder(c, title) + [name];
    var partial := PartialFile(AlbumFolder(c, title), name);
    var resume := ResumePoint(files, partial);
    match reply
    case Refused(code) => (ErrorOutcome(code), files)
    case Served(contentType, contentLength, body) =>
      if contentType.None? then (Crashed, files)
      else if IsPage(contentType.value) then (NotAFile, files)
      else if c.tools.alreadyStored(name, (if contentLength.Some? then contentLength.value else 0) + resume)
      then (InHistory, files)
      else
        var written := files[partial := resume + body.bytes];
        if body.Cut? then (Failure, written)
        else (Saved, AfterRename(written, complete, partial))
  }

  /** The name a call works under: the given one for a listed extension,
      the sanitized `Content-Disposition` name otherwise. */
  function CallName(c: Config, filename: string, nameReply: NameReply): string {
    if !KnownExt(ExtOf(filename), c.tools.formats) && nameReply.Named? then c.tools.sanitize(nameReply.name)
    else filename
  }

  /** One call of `download_file`: its outcome and the files afterwards. */
  function FileStep(c: Config, title: string, files: map<Path, nat>, filename: string, nameReply: NameReply, reply: Reply): (FileOutcome, map<Path, nat>)
  {
    var ext := ExtOf(filename);
    var known := KnownExt(ext, c.tools.formats);
    if !known && nameReply.NameRefused? then (ErrorOutcome(nameReply.code), files)
    else if !known && nameReply.NoDisposition? then (Crashed, files)
    else
      var name := CallName(c, filename, nameReply);
      if !known && AlbumFolder(c, title) + [name] in files then (NameTaken, files)
      else if Excluded(ext, c.tools.formats, c.exclude) then (Skipped, files)
      else TransferStep(c, title, files, name, reply)
  }

  /** A call changes at most the complete file and the ".part" file of the
      name it works under. */
  lemma FileStepFrame(c: Config, title: string, files: map<Path, nat>, filename: string, nameReply: NameReply, reply: Reply)
    ensures var name := CallName(c, filename, nameReply);
      var files' := FileStep(c, title, files, filename, nameReply, reply).1;
      forall p :: p != AlbumFolder(c, title) + [name] && p != PartialFile(AlbumFolder(c, title), name) ==>
        (p in files' <==> p in files) && (p in files ==> files'[p] == files[p])
  {
  }

  /** Once the name is settled and the extension is not excluded, a call is
      the download request and the transfer. */
  lemma FileStepIsTransfer(c: Config, title: string, files: map<Path, nat>, filename: string, nameReply: NameReply, reply: Reply)
    requires KnownExt(ExtOf(filename), c.tools.formats) || nameReply.Named?
    requires FileStep(c, title, files, filename, nameReply, reply).0 !in {NameTaken, Skipped}
    ensures FileStep(c, title, files, filename, nameReply, reply) == TransferStep(c, title, files, CallName(c, filename, nameReply), reply)
  {
  }

  /** A saved transfer wrote the whole body after the resumed bytes and
      renamed the ".part" file. */
  lemma TransferSaved(c: Config, title: string, files: map<Path, nat>, name: string, reply: Reply)
    requires TransferStep(c, title, files, name, reply).0 == Saved
    ensures reply.Served? && reply.body.Whole?
    ensures var partial := PartialFile(AlbumFolder(c, title), name);
      TransferStep(c, title, files, name, reply).1
      == AfterRename(files[partial := ResumePoint(files, partial) + reply.body.bytes], AlbumFolder(c, title) + [name], partial)
  {
  }

  /** A saved file is complete on disk and its ".part" file is gone; a file
      that was not there before holds the resumed bytes plus the new ones. */
  lemma {:induction false} SavedShape(c: Config, title: string, files: map<Path, nat>, filename: string, nameReply: NameReply, reply: Reply)
    requires FileStep(c, title, files, filename, nameReply, reply).0 == Saved
    ensures var name := CallName(c, filename, nameReply);
      var complete := AlbumFolder(c, title) + [name];
      var partial := PartialFile(AlbumFolder(c, title), name);
      var files' := FileStep(c, title, files, filename, nameReply, reply).1;
      reply.Served? && reply.body.Whole?
      && complete in files' && partial !in files'
      && files'[complete] == (if complete in files then files[complete] else ResumePoint(files, partial) + reply.body.bytes)
  {
    var name := CallName(c, filename, nameReply);
    var complete := AlbumFolder(c, title) + [name];
    var partial := PartialFile(AlbumFolder(c, title), name);
    FileStepIsTransfer(c, title, files, filename, nameReply, reply);
    TransferSaved(c, title, files, name, reply);
    assert partial != complete by {
      assert |partial[|partial| - 1]| == |name| + 5;
    }
    AfterRenameShape(files[partial := ResumePoint(files, partial) + reply.body.bytes], complete, partial);
  }

  /** A transfer cut short keeps what it received: once the name is known,
      a failure leaves the ".part" file grown by the bytes that arrived, so
      the next attempt asks for the rest. */
  lemma {:induction false} CutKeepsPartial(c: Config, title: string, files: map<Path, nat>, filename: string, nameReply: NameReply, contentType: string, contentLength: Option<nat>, bytes: nat)
    requires KnownExt(ExtOf(filename), c.tools.formats) || nameReply.Named?
    requires FileStep(c, title, files, filename, nameReply, Served(Some(contentType), contentLength, Cut(bytes))).0 == Failure
    ensures var name := CallName(c, filename, nameReply);
      var partial := PartialFile(AlbumFolder(c, title), name);
      var files' := FileStep(c, title, files, filename, nameReply, Served(Some(contentType), contentLength, Cut(bytes))).1;
      partial in files' && ResumePoint(files', partial) == ResumePoint(files, partial) + bytes
      && RangeFor(files', partial) == Some(RangeHeader(ResumePoint(files, partial) + bytes))
  {
    var reply := Served(Some(contentType), contentLength, Cut(bytes));
    var name := CallName(c, filename, nameReply);
    var partial := PartialFile(AlbumFolder(c, title), name);
    FileStepIsTransfer(c, title, files, filename, nameReply, reply);
    var files' := files[partial := ResumePoint(files, partial) + bytes];
    assert TransferStep(c, title, files, name, reply) == (Failure, files');
  }

  /** An extension the tables do not list is never excluded: such a file is
      always requested, whatever the flags say. */
  lemma UnknownNeverSkipped(c: Config, title: string, files: map<Path, nat>, filename: string, nameReply: NameReply, reply: Reply)
    requires !KnownExt(ExtOf(filename), c.tools.formats)
    ensures FileStep(c, title, files, filename, nameReply, reply).0 != Skipped
  {
  }

  /** With a listed extension and no exclusion, the history is consulted
      with the announced length plus the bytes already on disk. */
  lemma {:induction false} HistoryUsesTotal(c: Config, title: string, files: map<Path, nat>, filename: string, nameReply: NameReply, contentType: string, contentLength: Option<nat>, body: Body)
    requires KnownExt(ExtOf(filename), c.tools.formats)
    requires !Excluded(ExtOf(filename), c.tools.formats, c.exclude) && !IsPage(contentType)
    ensures var partial := PartialFile(AlbumFolder(c, title), filename);
      var total := (if contentLength.Some? then contentLength.value else 0) + ResumePoint(files, partial);
      FileStep(c, title, files, filename, nameReply, Served(Some(contentType), contentLength, body)).0 == InHistory
      <==> c.tools.alreadyStored(filename, total)
  {
    var partial := PartialFile(AlbumFolder(c, title), filename);
    var total := (if contentLength.Some? then contentLength.value else 0) + ResumePoint(files, partial);
    var r := FileStep(c, title, files, filename, nameReply, Served(Some(contentType), contentLength, body));
    assert CallName(c, filename, nameReply) == filename;
    if !c.tools.alreadyStored(filename, total) {
      if body.Whole? {
        assert r.0 == Saved;
      } else {
        assert r.0 == Failure;
      }
    }
  }

  // ---------------------------------------------------------------------
  // The `retry` wrapper
  // ---------------------------------------------------------------------

  /** How a retried call ends: its outcome, the files, how many calls it
      took, and the downloader's `current_attempt` and `attempts` after it. */
  datatype RetryEnd = RetryEnd(outcome: FileOutcome, files: map<Path, nat>, calls: nat, current: int, attempts: int)

  /** The wrapper's give-up test. */
  predicate GivesUp(disabled: bool, current: int, attempts: int) {
    !disabled && current >= attempts - 1
  }

  /** The wrapper with its counter advancing: each caught failure adds one
      to `current_attempt`.  Call `k` gets `names[k]` and `replies[k]`;
      `None` when the replies run out before the wrapper returns. */
  function RetryRun(c: Config, title: string, files: map<Path, nat>, filename: string, names: seq<NameReply>, replies: seq<Reply>, current: int): (r: Option<RetryEnd>)
    requires |names| == |replies|
    ensures r.Some? ==> 1 <= r.value.calls <= |replies| && r.value.attempts == c.attempts
    ensures r.Some? ==> r.value.current == current + r.value.calls - 1
    ensures r.Some? ==> r.value.outcome != Failure || GivesUp(c.disableAttemptLimit, r.value.current, c.attempts)
    decreases |replies|
  {
    if |replies| == 0 then None
    else
      var step := FileStep(c, title, files, filename, names[0], replies[0]);
      if step.0 != Failure || GivesUp(c.disableAttemptLimit, current, c.attempts) then
        Some(RetryEnd(step.0, step.1, 1, current, c.attempts))
      else
        match RetryRun(c, title, step.1, filename, names[1..], replies[1..], current + 1)
        case None => None
        case Some(e) => Some(e.(calls := e.calls + 1))
  }

  /** The wrapper as written: a caught failure adds one to `attempts` and
      leaves `current_attempt` where it was. */
  function RetryRunAsWritten(c: Config, title: string, files: map<Path, nat>, filename: string, names: seq<NameReply>, replies: seq<Reply>, current: int, attempts: int): (r: Option<RetryEnd>)
    requires |names| == |replies|
    ensures r.Some? ==> 1 <= r.value.calls <= |replies|
    ensures r.Some? ==> r.value.current == current && r.value.attempts == attempts + r.value.calls - 1
    ensures r.Some? ==> r.value.outcome != Failure || GivesUp(c.disableAttemptLimit, current, r.value.attempts)
    decreases |replies|
  {
    if |replies| == 0 then None
    else
      var step := FileStep(c, title, files, filename, names[0], replies[0]);
      if step.0 != Failure || GivesUp(c.disableAttemptLimit, current, attempts) then
        Some(RetryEnd(step.0, step.1, 1, current, attempts))
      else
        match RetryRunAsWritten(c, title, step.1, filename, names[1..], replies[1..], current, attempts + 1)
        case None => None
        case Some(e) => Some(e.(calls := e.calls + 1))
  }

  /** After a failure the wrapper does not give up on, the rest of the run
      is the run from the next answer with `attempts` one higher. */
  lemma AsWrittenAfterFailure(c: Config, title: string, files: map<Path, nat>, filename: string, names: seq<NameReply>, replies: seq<Reply>, current: int, attempts: int)
    requires |names| == |replies| && |replies| > 0
    requires FileStep(c, title, files, filename, names[0], replies[0]).0 == Failure
    requires !GivesUp(c.disableAttemptLimit, current, attempts)
    requires RetryRunAsWritten(c, title, files, filename, names, replies, current, attempts).Some?
    ensures var files' := FileStep(c, title, files, filename, names[0], replies[0]).1;
      var rest := RetryRunAsWritten(c, title, files', filename, names[1..], replies[1..], current, attempts + 1);
      rest.Some?
      && RetryRunAsWritten(c, title, files, filename, names, replies, current, attempts).value
         == rest.value.(calls := rest.value.calls + 1)
  {
  }

  /** The most calls the limit allows from a given counter value. */
  function MaxCalls(attempts: int, current: int): nat {
    if attempts - current > 1 then attempts - current else 1
  }

  /** With the limit on, the wrapper returns or raises within `MaxCalls`
      calls, whatever the server answers. */
  lemma {:induction false} RetryGivesUpInTime(c: Config, title: string, files: map<Path, nat>, filename: string, names: seq<NameReply>, replies: seq<Reply>, current: int)
    requires |names| == |replies| && !c.disableAttemptLimit
    requires |replies| >= MaxCalls(c.attempts, current)
    ensures RetryRun(c, title, files, filename, names, replies, current).Some?
    ensures RetryRun(c, title, files, filename, names, replies, current).value.calls <= MaxCalls(c.attempts, current)
    decreases |replies|
  {
    var step := FileStep(c, title, files, filename, names[0], replies[0]);
    if step.0 != Failure || GivesUp(c.disableAttemptLimit, current, c.attempts) {
      assert RetryRun(c, title, files, filename, names, replies, current).value.calls == 1;
    } else {
      assert c.attempts - current > 1;
      RetryGivesUpInTime(c, title, step.1, filename, names[1..], replies[1..], current + 1);
      var e := RetryRun(c, title, step.1, filename, names[1..], replies[1..], current + 1).value;
      assert RetryRun(c, title, files, filename, names, replies, current) == Some(e.(calls := e.calls + 1));
    }
  }

  /** A file with a listed, not excluded extension whose request always
      fails without a status code. */
  predicate AlwaysFails(c: Config, filename: string, replies: seq<Reply>) {
    KnownExt(ExtOf(filename), c.tools.formats)
    && !Excluded(ExtOf(filename), c.tools.formats, c.exclude)
    && forall k :: 0 <= k < |replies| ==> replies[k] == Refused(None)
  }

  /** As written, a wrapper that starts at least two attempts below its
      limit never gives up on a failing file: however many failures are
      supplied, they are all used up. */
  lemma {:induction false} AsWrittenNeverGivesUp(c: Config, title: string, files: map<Path, nat>, filename: string, names: seq<NameReply>, replies: seq<Reply>, current: int, attempts: int)
    requires |names| == |replies| && AlwaysFails(c, filename, replies)
    requires attempts >= current + 2
    ensures RetryRunAsWritten(c, title, files, filename, names, replies, current, attempts).None?
    decreases |replies|
  {
    if |replies| > 0 {
      assert replies[0] == Refused(None);
      assert FileStep(c, title, files, filename, names[0], replies[0]) == (Failure, files);
      assert AlwaysFails(c, filename, replies[1..]) by {
        forall k | 0 <= k < |replies[1..]| ensures replies[1..][k] == Refused(None) {
          assert replies[1..][k] == replies[k + 1];
        }
      }
      AsWrittenNeverGivesUp(c, title, files, filename, names[1..], replies[1..], current, attempts + 1);
    }
  }

  /** With the counter advancing, the same failing file is given up after
      exactly the calls left below the limit. */
  lemma {:induction false} CorrectedGivesUpAtLimit(c: Config, title: string, files: map<Path, nat>, filename: string, names: seq<NameReply>, replies: seq<Reply>, current: int)
    requires |names| == |replies| && AlwaysFails(c, filename, replies)
    requires !c.disableAttemptLimit && current < c.attempts && |replies| >= c.attempts - current
    ensures RetryRun(c, title, files, filename, names, replies, current)
      == Some(RetryEnd(Failure, files, c.attempts - current, c.attempts - 1, c.attempts))
    decreases |replies|
  {
    assert replies[0] == Refused(None);
    assert FileStep(c, title, files, filename, names[0], replies[0]) == (Failure, files);
    if current < c.attempts - 1 {
      assert AlwaysFails(c, filename, replies[1..]) by {
        forall k | 0 <= k < |replies[1..]| ensures replies[1..][k] == Refused(None) {
          assert replies[1..][k] == replies[k + 1];
        }
      }
      CorrectedGivesUpAtLimit(c, title, files, filename, names[1..], replies[1..], current + 1);
    }
  }

  // ---------------------------------------------------------------------
  // The downloader
  // ---------------------------------------------------------------------

  /** One album's downloader.  The disk and the history helper are shared
      by every downloader of a run. */
  class Downloader {
    const config: Config
    const title: string
    const maxWorkers: int
    /** `album_obj.link_pairs`: each file's URL with its referer. */
    const links: seq<(Url, Url)>
    const disk: Disk
    /** `attempts`: starts at the configured limit and, as written, is what
        the `retry` wrapper raises after each failure. */
    var attempts: int
    /** `current_attempt`: set to 0 and, as written, never changed. */
    var currentAttempt: int

    constructor (config: Config, title: string, maxWorkers: int, links: seq<(Url, Url)>, disk: Disk)
      ensures this.config == config && this.title == title && this.maxWorkers == maxWorkers
      ensures this.links == links && this.disk == disk
      ensures attempts == config.attempts && currentAttempt == 0
    {
      this.config := config;
      this.title := title;
      this.maxWorkers := maxWorkers;
      this.links := links;
      this.disk := disk;
      attempts := config.attempts;
      currentAttempt := 0;
    }

    /** `rename_file` */
    method RenameFile(filename: string)
      requires PartialFile(AlbumFolder(config, title), filename) in disk.files
      modifies disk
      ensures disk.files == AfterRename(old(disk.files), AlbumFolder(config, title) + [filename], PartialFile(AlbumFolder(config, title), filename))
    {
      var complete := AlbumFolder(config, title) + [filename];
      var partial := PartialFile(AlbumFolder(config, title), filename);
      if disk.Exists(complete) {
        var _ := disk.Remove(partial);
      } else {
        var _ := disk.Rename(partial, complete);
      }
    }

    /** The download request and the transfer under a settled name; also
        returns the `Range` header the request carried. */
    method Transfer(name: string, reply: Reply) returns (r: FileOutcome, range: Option<string>)
      modifies disk
      ensures (r, disk.files) == TransferStep(config, title, old(disk.files), name, reply)
      ensures range == RangeFor(old(disk.files), PartialFile(AlbumFolder(config, title), name))
    {
      var partial := PartialFile(AlbumFolder(config, title), name);
      var resume := 0;
      range := None;
      if disk.Exists(partial) {
        resume := disk.files[partial];
        range := Some(RangeHeader(resume));
      }
      assert resume == ResumePoint(old(disk.files), partial);
      match reply
      case Refused(code) =>
        r := ErrorOutcome(code);
      case Served(contentType, contentLength, body) =>
        if contentType.None? {
          r := Crashed;
          return;
        }
        if IsPage(contentType.value) {
          r := NotAFile;
          return;
        }
        var total := (if contentLength.Some? then contentLength.value else 0) + resume;
        if config.tools.alreadyStored(name, total) {
          r := InHistory;
          return;
        }
        disk.Write(partial, resume + body.bytes);
        ghost var written := disk.files;
        if body.Cut? {
          r := Failure;
          return;
        }
        RenameFile(name);
        assert disk.files == AfterRename(written, AlbumFolder(config, title) + [name], partial);
        r := Saved;
    }

    /** `download_file`, one call. */
    method DownloadFile(filename: string, nameReply: NameReply, reply: Reply) returns (r: FileOutcome)
      modifies disk
      ensures (r, disk.files) == FileStep(config, title, old(disk.files), filename, nameReply, reply)
    {
      var ext := ExtOf(filename);
      var name := filename;
      if !KnownExt(ext, config.tools.formats) {
        match nameReply
        case NameRefused(code) =>
          return ErrorOutcome(code);
        case NoDisposition =>
          return Crashed;
        case Named(raw) =>
          name := config.tools.sanitize(raw);
          if disk.Exists(AlbumFolder(config, title) + [name]) {
            return NameTaken;
          }
      }
      if Excluded(ext, config.tools.formats, config.exclude) {
        return Skipped;
      }
      var range;
      r, range := Transfer(name, reply);
    }

    /** `download_file` under the `retry` wrapper as written: each caught
        failure raises `attempts`.  Call `k` gets `names[k]` and
        `replies[k]`, and the wrapper must return or raise within them. */
    method Retry(filename: string, names: seq<NameReply>, replies: seq<Reply>) returns (r: FileOutcome, calls: nat)
      requires |names| == |replies|
      requires RetryRunAsWritten(config, title, disk.files, filename, names, replies, currentAttempt, attempts).Some?
      modifies disk, this`attempts
      ensures var e := RetryRunAsWritten(config, title, old(disk.files), filename, names, replies, currentAttempt, old(attempts)).value;
        r == e.outcome && calls == e.calls && disk.files == e.files && attempts == e.attempts
    {
      ghost var goal := RetryRunAsWritten(config, title, disk.files, filename, names, replies, currentAttempt, attempts).value;
      var k := 0;
      while true
        invariant 0 <= k <= |replies|
        invariant RetryRunAsWritten(config, title, disk.files, filename, names[k..], replies[k..], currentAttempt, attempts).Some?
        invariant var e := RetryRunAsWritten(config, title, disk.files, filename, names[k..], replies[k..], currentAttempt, attempts).value;
          goal == e.(calls := e.calls + k)
        decreases |replies| - k
      {
        var done;
        r, done := RetryCall(filename, names, replies, k, goal);
        if done {
          calls := k + 1;
          return;
        }
        k := k + 1;
      }
    }

    /** One pass of the wrapper's loop, call `k`: `done` when the wrapper
        returns or raises, with the run's end state; otherwise the rest of
        the run starts at call `k + 1` with `attempts` one higher. */
    method RetryCall(filename: string, names: seq<NameReply>, replies: seq<Reply>, k: nat, ghost goal: RetryEnd)
      returns (r: FileOutcome, done: bool)
      requires |names| == |replies| && k <= |replies|
      requires RetryRunAsWritten(config, title, disk.files, filename, names[k..], replies[k..], currentAttempt, attempts).Some?
      requires var e := RetryRunAsWritten(config, title, disk.files, filename, names[k..], replies[k..], currentAttempt, attempts).value;
        goal == e.(calls := e.calls + k)
      modifies disk, this`attempts
      ensures k < |replies|
      ensures done ==> r == goal.outcome && goal.calls == k + 1 && disk.files == goal.files && attempts == goal.attempts
      ensures !done ==> attempts == old(attempts) + 1
      ensures !done ==>
        RetryRunAsWritten(config, title, disk.files, filename, names[k + 1..], replies[k + 1..], currentAttempt, attempts).Some?
      ensures !done ==>
        var e := RetryRunAsWritten(config, title, disk.files, filename, names[k + 1..], replies[k + 1..], currentAttempt, attempts).value;
        goal == e.(calls := e.calls + (k + 1))
    {
      assert names[k..][0] == names[k] && replies[k..][0] == replies[k];
      assert names[k..][1..] == names[k + 1..] && replies[k..][1..] == replies[k + 1..];
      ghost var files := disk.files;
      r := DownloadFile(filename, names[k], replies[k]);
      if r != Failure || GivesUp(config.disableAttemptLimit, currentAttempt, attempts) {
        return r, true;
      }
      AsWrittenAfterFailure(config, title, files, filename, names[k..], replies[k..], currentAttempt, attempts);
      attempts := attempts + 1;
      done := false;
    }

    /** `download_and_store` for one link: derive the name, and download
        under the wrapper unless the complete file is already there.  Any
        exception is logged and swallowed; `r` is `None` when nothing was
        requested. */
    method DownloadAndStore(url: Url, names: seq<NameReply>, replies: seq<Reply>) returns (filename: string, r: Option<FileOutcome>)
      requires |names| == |replies|
      requires AlbumFolder(config, title) + [NormalizedName(Name(url), config.tools)] !in disk.files ==>
        RetryRunAsWritten(config, title, disk.files, NormalizedName(Name(url), config.tools), names, replies, currentAttempt, attempts).Some?
      modifies disk, this`attempts
      ensures filename == NormalizedName(Name(url), config.tools)
      ensures r.None? <==> AlbumFolder(config, title) + [filename] in old(disk.files)
      ensures r.None? ==> disk.files == old(disk.files) && attempts == old(attempts)
      ensures r.Some? ==>
        var e := RetryRunAsWritten(config, title, old(disk.files), filename, names, replies, currentAttempt, old(attempts)).value;
        r.value == e.outcome && disk.files == e.files && attempts == e.attempts
    {
      filename := config.tools.sanitize(Name(url));
      filename := CutAtVersion(filename);
      filename := Truncate(filename, config.tools.maxFilenameLength);
      if disk.Exists(AlbumFolder(config, title) + [filename]) {
        r := None;
      } else {
        var outcome, _ := Retry(filename, names, replies);
        r := Some(outcome);
      }
    }
  }

  // ---------------------------------------------------------------------
  // `get_downloaders`
  // ---------------------------------------------------------------------

  /** An album of the cascade: its title and its link pairs. */
  datatype Album = Album(title: string, links: seq<(Url, Url)>)

  /** A domain of the cascade with its albums, in dictionary order. */
  datatype Domain = Domain(name: string, albums: seq<Album>)

  /** The worker count of a domain: the thread setting, or the CPU count
      when it is 0, capped at 2 for any domain containing "bunkr". */
  function WorkersFor(domain: string, threads: int, cpus: nat): (r: int)
    ensures var base := if threads != 0 then threads else cpus;
      r <= base
      && (IsSubstring("bunkr", domain) ==> r <= 2 && (base <= 2 ==> r == base))
      && (!IsSubstring("bunkr", domain) ==> r == base)
  {
    var base := if threads != 0 then threads else cpus;
    if IsSubstring("bunkr", domain) && base > 2 then 2 else base
  }

  /** The downloader `get_downloaders` builds for one album. */
  datatype Job = Job(title: string, workers: int, links: seq<(Url, Url)>)

  /** One job per album of a domain, in order. */
  function DomainJobs(d: Domain, threads: int, cpus: nat): (r: seq<Job>)
    ensures |r| == |d.albums|
  {
    seq(|d.albums|, k requires 0 <= k < |d.albums| =>
      Job(d.albums[k].title, WorkersFor(d.name, threads, cpus), d.albums[k].links))
  }

  /** The jobs of every domain, domain after domain. */
  function Plan(domains: seq<Domain>, threads: int, cpus: nat): seq<Job>
    decreases |domains|
  {
    if |domains| == 0 then []
    else Plan(domains[..|domains| - 1], threads, cpus) + DomainJobs(domains[|domains| - 1], threads, cpus)
  }

  /** The plan of two runs of domains is the plan of the first followed by
      the plan of the second: each domain contributes its albums as one
      contiguous block, in order. */
  lemma {:induction false} PlanConcat(a: seq<Domain>, b: seq<Domain>, threads: int, cpus: nat)
    ensures Plan(a + b, threads, cpus) == Plan(a, threads, cpus) + Plan(b, threads, cpus)
    decreases |b|
  {
    if |b| == 0 {
      assert a + b == a;
    } else {
      var b', last := b[..|b| - 1], b[|b| - 1];
      assert (a + b)[..|a + b| - 1] == a + b';
      assert (a + b)[|a + b| - 1] == last;
      assert Plan(a + b, threads, cpus) == Plan(a + b', threads, cpus) + DomainJobs(last, threads, cpus);
      assert Plan(b, threads, cpus) == Plan(b', threads, cpus) + DomainJobs(last, threads, cpus);
      PlanConcat(a, b', threads, cpus);
    }
  }

  /** Every job of a domain whose name contains "bunkr" runs on at most two
      workers. */
  lemma BunkrCapped(d: Domain, threads: int, cpus: nat)
    requires IsSubstring("bunkr", d.name)
    ensures forall k :: 0 <= k < |DomainJobs(d, threads, cpus)| ==> DomainJobs(d, threads, cpus)[k].workers <= 2
  {
  }

  /** The downloader `d` was built for job `j`. */
  ghost predicate BuiltFor(d: Downloader, j: Job, c: Config, disk: Disk) {
    d.config == c && d.title == j.title && d.maxWorkers == j.workers && d.links == j.links && d.disk == disk
  }

  /** `get_downloaders`: a fresh downloader per album of the cascade, in
      iteration order, each with its domain's worker count. */
  method GetDownloaders(domains: seq<Domain>, c: Config, threads: int, cpus: nat, disk: Disk) returns (ds: seq<Downloader>)
    ensures |ds| == |Plan(domains, threads, cpus)|
    ensures forall k :: 0 <= k < |ds| ==> BuiltFor(ds[k], Plan(domains, threads, cpus)[k], c, disk)
    ensures forall k :: 0 <= k < |ds| ==> fresh(ds[k])
  {
    ds := [];
    var i := 0;
    while i < |domains|
      invariant 0 <= i <= |domains|
      invariant |ds| == |Plan(domains[..i], threads, cpus)|
      invariant forall k :: 0 <= k < |ds| ==> BuiltFor(ds[k], Plan(domains[..i], threads, cpus)[k], c, disk)
      invariant forall k :: 0 <= k < |ds| ==> fresh(ds[k])
    {
      var d := domains[i];
      var workers := WorkersFor(d.name, threads, cpus);
      ghost var before := ds;
      var j := 0;
      while j < |d.albums|
        invariant 0 <= j <= |d.albums|
        invariant |ds| == |before| + j
        invariant forall k :: 0 <= k < |before| ==> ds[k] == before[k]
        invariant forall k :: 0 <= k < j ==> BuiltFor(ds[|before| + k], DomainJobs(d, threads, cpus)[k], c, disk)
        invariant forall k :: 0 <= k < |ds| ==> fresh(ds[k])
      {
        var downloader := new Downloader(c, d.albums[j].title, workers, d.albums[j].links, disk);
        ds := ds + [downloader];
        j := j + 1;
      }
      assert domains[..i + 1][..i] == domains[..i];
      assert domains[..i + 1][i] == d;
      i := i + 1;
    }
    assert domains[..|domains|] == domains;
  }
}
