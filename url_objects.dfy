/** The two work items of the newer scraper: `ScrapeItem`, a page still to
    be resolved together with the folder title accumulated on the way to it,
    and `MediaItem`, a resolved file whose download-time fields start unset.
    A field the source initialises with `field(init=False)` and later tests
    with `isinstance(..., Field)` is an `Option` here, `None` meaning unset. */
module UrlObjects {
  import opened Common
  import opened FileSystem

  /** The value of a `ScrapeItem` at one moment.  The queue and the download
      hand-off receive items that nothing mutates afterwards, so they are
      recorded by value. */
  datatype ScrapeData = ScrapeData(
    url: Url,
    parentTitle: string,
    partOfAlbum: bool,
    possibleDatetime: Option<int>,
    retry: bool,
    retryPath: Option<Path>)

  // ---------------------------------------------------------------------
  // Title accumulation
  // ---------------------------------------------------------------------

  /** `parent_title` after `add_to_parent_title(title)`; `sanitizeFolder`
      stands for the helper of that name, which is not part of this model. */
  function AddedTitle(parentTitle: string, title: string, retry: bool,
                      sanitizeFolder: string -> string): string
  {
    if title == "" || retry then parentTitle
    else
      var t := sanitizeFolder(title);
      if parentTitle != "" then parentTitle + "/" + t else t
  }

  /** The folder levels a title names: "" names none, otherwise the pieces
      between the "/" separators. */
  function Segments(title: string): seq<string> {
    if title == "" then [] else SplitOn(title, '/')
  }

  /** Adding a title appends exactly one folder level, its sanitised form,
      provided the sanitiser yields a non-empty name without "/". */
  lemma AddedTitleAppendsLevel(parentTitle: string, title: string,
                               sanitizeFolder: string -> string)
    requires title != ""
    requires sanitizeFolder(title) != "" && '/' !in sanitizeFolder(title)
    ensures Segments(AddedTitle(parentTitle, title, false, sanitizeFolder))
         == Segments(parentTitle) + [sanitizeFolder(title)]
  {
    var t := sanitizeFolder(title);
    SplitOnNoSeparator(t, '/');
    if parentTitle != "" {
      assert parentTitle + "/" + t == parentTitle + ['/'] + t;
      SplitOnConcat(parentTitle, '/', t);
    }
  }

  /** `parent_title` after `add_to_parent_title` is called once per title. */
  function AddedTitles(parentTitle: string, titles: seq<string>, retry: bool,
                       sanitizeFolder: string -> string): string
  {
    if |titles| == 0 then parentTitle
    else AddedTitle(AddedTitles(parentTitle, titles[..|titles| - 1], retry, sanitizeFolder),
                    titles[|titles| - 1], retry, sanitizeFolder)
  }

  /** The folder levels that the non-empty titles contribute. */
  function SanitizedLevels(titles: seq<string>, sanitizeFolder: string -> string): seq<string> {
    if |titles| == 0 then []
    else
      var t := titles[|titles| - 1];
      SanitizedLevels(titles[..|titles| - 1], sanitizeFolder)
        + (if t == "" then [] else [sanitizeFolder(t)])
  }

  /** On a retry item no sequence of titles changes the title. */
  lemma {:induction false} RetryTitleFixed(parentTitle: string, titles: seq<string>,
                                           sanitizeFolder: string -> string)
    ensures AddedTitles(parentTitle, titles, true, sanitizeFolder) == parentTitle
  {
    if |titles| > 0 {
      RetryTitleFixed(parentTitle, titles[..|titles| - 1], sanitizeFolder);
    }
  }

  /** Otherwise every non-empty title adds one level, in call order. */
  lemma {:induction false} AddedTitlesAppendLevels(parentTitle: string, titles: seq<string>,
                                                   sanitizeFolder: string -> string)
    requires forall k :: 0 <= k < |titles| && titles[k] != "" ==>
      sanitizeFolder(titles[k]) != "" && '/' !in sanitizeFolder(titles[k])
    ensures Segments(AddedTitles(parentTitle, titles, false, sanitizeFolder))
         == Segments(parentTitle) + SanitizedLevels(titles, sanitizeFolder)
  {
    if |titles| > 0 {
      var init := titles[..|titles| - 1];
      var t := titles[|titles| - 1];
      AddedTitlesAppendLevels(parentTitle, init, sanitizeFolder);
      if t != "" {
        AddedTitleAppendsLevel(AddedTitles(parentTitle, init, false, sanitizeFolder), t, sanitizeFolder);
      }
    }
  }

  // ---------------------------------------------------------------------
  // ScrapeItem
  // ---------------------------------------------------------------------

  class ScrapeItem {
    var url: Url
    var parentTitle: string
    var partOfAlbum: bool
    var possibleDatetime: Option<int>
    var retry: bool
    var retryPath: Option<Path>

    constructor (url: Url, parentTitle: string, partOfAlbum: bool := false,
                 possibleDatetime: Option<int> := None, retry: bool := false,
                 retryPath: Option<Path> := None)
      ensures Snapshot() == ScrapeData(url, parentTitle, partOfAlbum, possibleDatetime, retry, retryPath)
    {
      this.url := url;
      this.parentTitle := parentTitle;
      this.partOfAlbum := partOfAlbum;
      this.possibleDatetime := possibleDatetime;
      this.retry := retry;
      this.retryPath := retryPath;
    }

    function Snapshot(): ScrapeData
      reads this
    {
      ScrapeData(url, parentTitle, partOfAlbum, possibleDatetime, retry, retryPath)
    }

    /** `add_to_parent_title`: only `parent_title` may change. */
    method AddToParentTitle(title: string, sanitizeFolder: string -> string)
      modifies this`parentTitle
      ensures parentTitle == AddedTitle(old(parentTitle), title, retry, sanitizeFolder)
      ensures title == "" || retry ==> parentTitle == old(parentTitle)
      ensures Snapshot() == old(Snapshot()).(parentTitle := parentTitle)
    {
      if title == "" || retry {
        return;
      }
      var t := sanitizeFolder(title);
      parentTitle := if parentTitle != "" then parentTitle + "/" + t else t;
    }
  }

  /** A new item built with only the two required arguments has the
      documented defaults. */
  method NewScrapeItem(url: Url, parentTitle: string) returns (item: ScrapeItem)
    ensures item.url == url && item.parentTitle == parentTitle
    ensures !item.partOfAlbum && item.possibleDatetime == None
    ensures !item.retry && item.retryPath == None
  {
    item := new ScrapeItem(url, parentTitle);
  }

  // ---------------------------------------------------------------------
  // MediaItem
  // ---------------------------------------------------------------------

  class MediaItem {
    /** `url`, `referer`, `ext` and `originalFilename` are never reassigned
        once the item is built. */
    const url: Url
    const referer: Url
    var downloadFolder: Path
    var filename: string
    const ext: string
    var downloadFilename: Option<string>
    const originalFilename: string
    /** A Unix timestamp. */
    var datetime: Option<int>
    var filesize: Option<int>
    var currentAttempt: Option<int>
    var downloadTaskId: Option<nat>

    constructor (url: Url, referer: Url, downloadFolder: Path, filename: string,
                 ext: string, originalFilename: string)
      ensures this.url == url && this.referer == referer
      ensures this.downloadFolder == downloadFolder && this.filename == filename
      ensures this.ext == ext && this.originalFilename == originalFilename
      ensures downloadFilename == None && datetime == None && filesize == None
      ensures currentAttempt == None && downloadTaskId == None
    {
      this.url := url;
      this.referer := referer;
      this.downloadFolder := downloadFolder;
      this.filename := filename;
      this.ext := ext;
      this.downloadFilename := None;
      this.originalFilename := originalFilename;
      this.datetime := None;
      this.filesize := None;
      this.currentAttempt := None;
      this.downloadTaskId := None;
    }
  }
}
