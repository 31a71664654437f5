/** The Rule34.xxx crawler: a tag listing enqueues its posts and its next
    page, a post hands its image and video to the downloader. */
module Rule34xxx {
  import opened Common
  import opened UrlObjects
  import opened Crawler

  const PrimaryBase: string := "https://rule34.xxx"

  /** What `tag` reads from a listing: the `href` of each post anchor in
      order (`None` for an anchor without one, where the loop raises), and
      the href of the "next" anchor when there is one that has it. */
  datatype TagPage = TagPage(links: seq<Option<string>>, next: Option<string>)

  /** An element `file` looks for: missing, present without a `src` (where
      `URL(None)` raises), or present with its `src`. */
  datatype Element = Absent | NoSrc | Src(src: string)

  /** What `file` reads from a post: the image and the video element. */
  datatype PostPage = PostPage(image: Element, video: Element)

  /** An href starting with "/" is on the primary domain. */
  function AbsoluteLink(href: string): (r: string)
    ensures StartsWith(href, "/") ==> r == PrimaryBase + href
    ensures !StartsWith(href, "/") ==> r == href
  {
    if StartsWith(href, "/") then PrimaryBase + href else href
  }

  /** The next listing page: a "?"-prefixed href keeps the current page and
      replaces its query, anything else is an absolute URL. */
  function NextPageUrl(current: Url, href: string, h: Helpers): (r: Url)
    ensures StartsWith(href, "?") ==>
      r.scheme == current.scheme && r.host == current.host && r.path == current.path
      && r.query == href[1..]
    ensures !StartsWith(href, "?") ==> r == h.parseUrl(href)
  {
    if StartsWith(href, "?") then current.(query := href[1..]) else h.parseUrl(href)
  }

  /** The item enqueued for one listing link. */
  function PostItem(origin: ScrapeData, href: string, title: string, h: Helpers): ScrapeData {
    h.createScrapeItem(origin, h.parseUrl(AbsoluteLink(href)), title, Some(true))
  }

  /** Everything `tag` enqueues for one listing: one item per post link, in
      order, up to the first anchor without an `href`; then, when every
      anchor had one, at most one next-page item, which has an empty title. */
  function TagItems(origin: ScrapeData, page: TagPage, title: string, h: Helpers): (r: seq<ScrapeData>)
    ensures var n := PresentPrefix(page.links);
      |r| == n + (if n == |page.links| && page.next.Some? then 1 else 0)
    ensures forall k :: 0 <= k < PresentPrefix(page.links) ==>
      r[k] == PostItem(origin, page.links[k].value, title, h)
    ensures PresentPrefix(page.links) == |page.links| && page.next.Some? ==>
      r[|r| - 1] == h.createScrapeItem(origin, NextPageUrl(origin.url, page.next.value, h), "", None)
  {
    var n := PresentPrefix(page.links);
    var posts := seq(n, k requires 0 <= k < n => PostItem(origin, page.links[k].value, title, h));
    if n < |page.links| || page.next.None? then posts
    else posts + [h.createScrapeItem(origin, NextPageUrl(origin.url, page.next.value, h), "", None)]
  }

  /** The file one element hands over: none when it is missing, its link
      when that has an extension; `None` when reading it raises. */
  function ElementFiles(e: Element, h: Helpers): (r: Option<seq<Url>>)
    ensures r.Some? <==> e.Absent? || (e.Src? && h.filenameAndExt(Name(h.parseUrl(e.src))).Some?)
    ensures r.Some? ==> r.value == (if e.Src? then [h.parseUrl(e.src)] else [])
  {
    match e
    case Absent => Some([])
    case NoSrc => None
    case Src(src) =>
      var link := h.parseUrl(src);
      if h.filenameAndExt(Name(link)).None? then None else Some([link])
  }

  /** Whether `file` reads the whole post: every element present has a
      `src` whose name has an extension. */
  predicate PostRead(page: PostPage, h: Helpers) {
    ElementFiles(page.image, h).Some? && ElementFiles(page.video, h).Some?
  }

  /** The files `file` hands over: the image's, then the video's, up to the
      first element whose reading raises. */
  function PostFiles(page: PostPage, h: Helpers): (r: seq<Url>)
    ensures |r| <= 2
    ensures forall k :: 0 <= k < |r| ==> h.filenameAndExt(Name(r[k])).Some?
    ensures page.image.Absent? && page.video.Absent? ==> r == []
  {
    match ElementFiles(page.image, h)
    case None => []
    case Some(image) =>
      match ElementFiles(page.video, h)
      case None => image
      case Some(video) => image + video
  }

  /** The link of every element that has a `src`, image first. */
  function SourceLinks(page: PostPage, h: Helpers): seq<Url> {
    (if page.image.Src? then [h.parseUrl(page.image.src)] else [])
    + (if page.video.Src? then [h.parseUrl(page.video.src)] else [])
  }

  /** The files handed over are the post's source links, all of them when
      the post is read in full and a prefix otherwise; the post is read in
      full exactly when no element lacks a `src` and no source lacks an
      extension. */
  lemma PostFilesMeaning(page: PostPage, h: Helpers)
    ensures PostFiles(page, h) <= SourceLinks(page, h)
    ensures PostRead(page, h) <==>
      && !page.image.NoSrc? && !page.video.NoSrc?
      && (page.image.Src? ==> h.filenameAndExt(Name(h.parseUrl(page.image.src))).Some?)
      && (page.video.Src? ==> h.filenameAndExt(Name(h.parseUrl(page.video.src))).Some?)
    ensures PostRead(page, h) ==> PostFiles(page, h) == SourceLinks(page, h)
  {
    var image := if page.image.Src? then [h.parseUrl(page.image.src)] else [];
    var video := if page.video.Src? then [h.parseUrl(page.video.src)] else [];
    assert SourceLinks(page, h) == image + video;
    assert image <= image + video;
  }

  /** What `tag` adds for the item `d`: the listing's items under the title
      made from the stripped `tags` value, with one failure when an anchor
      has no `href`; or only one failure when the page or the `tags` key is
      missing. */
  function TagOutcome(d: ScrapeData, page: Option<TagPage>, h: Helpers): (seq<ScrapeData>, seq<Failure>) {
    var tags := QueryGet(d.url, "tags");
    if page.None? || tags.None? then ([], [HandlerFailed(d.url)])
    else (TagItems(d, page.value, h.createTitle(Strip(tags.value), None, None), h),
          if PresentPrefix(page.value.links) < |page.value.links| then [HandlerFailed(d.url)] else [])
  }

  /** The hand-overs for `files`, each named after its own link. */
  function PostHandled(files: seq<Url>, d: ScrapeData, h: Helpers): seq<HandledFile>
    requires forall k :: 0 <= k < |files| ==> h.filenameAndExt(Name(files[k])).Some?
  {
    seq(|files|, k requires 0 <= k < |files| =>
      HandledFile(files[k], d, h.filenameAndExt(Name(files[k])).value.0, h.filenameAndExt(Name(files[k])).value.1))
  }

  /** What `file` adds for the item `d`: the post's files, and one failure
      when the page is missing or the post is not read in full. */
  function FileOutcome(d: ScrapeData, page: Option<PostPage>, h: Helpers): (seq<HandledFile>, seq<Failure>) {
    if page.None? then ([], [HandlerFailed(d.url)])
    else (PostHandled(PostFiles(page.value, h), d, h), if PostRead(page.value, h) then [] else [HandlerFailed(d.url)])
  }

  /** Handing over two runs of files is handing over the first, then the
      second. */
  lemma PostHandledConcat(a: seq<Url>, b: seq<Url>, d: ScrapeData, h: Helpers)
    requires forall k :: 0 <= k < |a| ==> h.filenameAndExt(Name(a[k])).Some?
    requires forall k :: 0 <= k < |b| ==> h.filenameAndExt(Name(b[k])).Some?
    ensures PostHandled(a + b, d, h) == PostHandled(a, d, h) + PostHandled(b, d, h)
  {
  }

  datatype Route = ToTag | ToFile | NoRoute

  class Rule34xxxCrawler {
    const ctx: ScrapeContext
    const helpers: Helpers
    var cookiesSet: bool

    constructor (ctx: ScrapeContext, helpers: Helpers)
      ensures this.ctx == ctx && this.helpers == helpers && !cookiesSet
    {
      this.ctx := ctx;
      this.helpers := helpers;
      cookiesSet := false;
    }

    /** `set_cookies`: asks for original-size images, once. */
    method SetCookies()
      modifies this`cookiesSet, ctx`cookies
      ensures cookiesSet
      ensures ctx.cookies == if old(cookiesSet) then old(ctx.cookies)
                             else old(ctx.cookies)[CookieKey(PrimaryBase, "resize-original") := "1"]
    {
      if cookiesSet {
        return;
      }
      ctx.UpdateCookie(PrimaryBase, "resize-original", "1");
      cookiesSet := true;
    }

    /** `tag`: the title comes from the stripped `tags` query value; a
        missing page or a missing `tags` key fails before anything is
        enqueued, an anchor without an `href` after the earlier posts. */
    method Tag(item: ScrapeItem, page: Option<TagPage>)
      modifies ctx`queue, ctx`failures
      ensures page.None? || QueryGet(item.url, "tags").None? ==>
        ctx.queue == old(ctx.queue) && ctx.failures == old(ctx.failures) + [HandlerFailed(item.url)]
      ensures page.Some? && QueryGet(item.url, "tags").Some? ==>
        var title := helpers.createTitle(Strip(QueryGet(item.url, "tags").value), None, None);
        && ctx.queue == old(ctx.queue) + TagItems(item.Snapshot(), page.value, title, helpers)
        && ctx.failures == old(ctx.failures)
             + (if PresentPrefix(page.value.links) < |page.value.links| then [HandlerFailed(item.url)] else [])
      ensures var o := TagOutcome(item.Snapshot(), page, helpers);
        ctx.queue == old(ctx.queue) + o.0 && ctx.failures == old(ctx.failures) + o.1
    {
      var tags := QueryGet(item.url, "tags");
      if page.None? || tags.None? {
        ctx.Fail(HandlerFailed(item.url));
        return;
      }
      var title := helpers.createTitle(Strip(tags.value), None, None);
      var stopped := EnqueueListing(item, page.value, title);
      if stopped {
        ctx.Fail(HandlerFailed(item.url));
      }
    }

    /** The body of `tag` once the title is known: the post links in
        order, then the next page; `stopped` when an anchor without an
        `href` raised before the loop's end. */
    method EnqueueListing(item: ScrapeItem, page: TagPage, title: string) returns (stopped: bool)
      modifies ctx`queue
      ensures ctx.queue == old(ctx.queue) + TagItems(item.Snapshot(), page, title, helpers)
      ensures stopped <==> PresentPrefix(page.links) < |page.links|
    {
      var links := page.links;
      ghost var items := TagItems(item.Snapshot(), page, title, helpers);
      var i := 0;
      while i < |links|
        invariant 0 <= i <= PresentPrefix(links)
        invariant ctx.queue == old(ctx.queue) + items[..i]
      {
        if links[i].None? {
          assert items[..i] == items;
          return true;
        }
        var link := helpers.parseUrl(AbsoluteLink(links[i].value));
        ctx.Put(helpers.createScrapeItem(item.Snapshot(), link, title, Some(true)));
        TakeOneMore(items, i);
        i := i + 1;
      }
      if page.next.Some? {
        var next := NextPageUrl(item.url, page.next.value, helpers);
        ctx.Put(helpers.createScrapeItem(item.Snapshot(), next, "", None));
      }
      assert ctx.queue == old(ctx.queue) + items;
      return false;
    }

    /** `file`: the image first, then the video. */
    method File(item: ScrapeItem, page: Option<PostPage>)
      modifies ctx`handled, ctx`failures
      ensures page.None? ==>
        ctx.handled == old(ctx.handled) && ctx.failures == old(ctx.failures) + [HandlerFailed(item.url)]
      ensures page.Some? ==>
        && ctx.handled == old(ctx.handled) + PostHandled(PostFiles(page.value, helpers), item.Snapshot(), helpers)
        && ctx.failures == old(ctx.failures) + (if PostRead(page.value, helpers) then [] else [HandlerFailed(item.url)])
      ensures var o := FileOutcome(item.Snapshot(), page, helpers);
        ctx.handled == old(ctx.handled) + o.0 && ctx.failures == old(ctx.failures) + o.1
    {
      if page.None? {
        ctx.Fail(HandlerFailed(item.url));
        return;
      }
      var ok := HandElement(item, page.value.image);
      if !ok {
        ctx.Fail(HandlerFailed(item.url));
        return;
      }
      ghost var image := ElementFiles(page.value.image, helpers).value;
      ok := HandElement(item, page.value.video);
      if !ok {
        assert image + [] == image;
        ctx.Fail(HandlerFailed(item.url));
        return;
      }
      PostHandledConcat(image, ElementFiles(page.value.video, helpers).value, item.Snapshot(), helpers);
    }

    /** One `if element:` block of `file`: a missing element hands over
        nothing, one with a `src` whose name has an extension hands over
        its link; `ok` is false where reading it raises. */
    method HandElement(item: ScrapeItem, e: Element) returns (ok: bool)
      modifies ctx`handled
      ensures ok <==> ElementFiles(e, helpers).Some?
      ensures ctx.handled == old(ctx.handled)
        + (if ok then PostHandled(ElementFiles(e, helpers).value, item.Snapshot(), helpers) else [])
    {
      match e
      case Absent =>
        return true;
      case NoSrc =>
        return false;
      case Src(src) =>
        var link := helpers.parseUrl(src);
        var name := helpers.filenameAndExt(Name(link));
        if name.None? {
          return false;
        }
        ctx.HandleFile(link, item, name.value.0, name.value.1);
        return true;
    }

    /** The branch of `fetch`: "tags" anywhere in the decoded query string
        selects a listing, otherwise "id" selects a post, otherwise the
        URL is counted as an unknown failure. */
    method Dispatch(item: ScrapeItem, tagPage: Option<TagPage>, postPage: Option<PostPage>)
      returns (route: Route)
      modifies ctx`queue, ctx`handled, ctx`failures
      ensures route == (if IsSubstring("tags", Unquote(item.url.query)) then ToTag
                        else if IsSubstring("id", Unquote(item.url.query)) then ToFile else NoRoute)
      ensures route != ToTag ==> ctx.queue == old(ctx.queue)
      ensures route != ToFile ==> ctx.handled == old(ctx.handled)
      ensures route == ToTag ==> var o := TagOutcome(item.Snapshot(), tagPage, helpers);
        ctx.queue == old(ctx.queue) + o.0 && ctx.failures == old(ctx.failures) + o.1
      ensures route == ToFile ==> var o := FileOutcome(item.Snapshot(), postPage, helpers);
        ctx.handled == old(ctx.handled) + o.0 && ctx.failures == old(ctx.failures) + o.1
      ensures route == NoRoute ==> ctx.failures == old(ctx.failures) + [UnknownUrl(item.url)]
    {
      var queryString := Unquote(item.url.query);
      if IsSubstring("tags", queryString) {
        route := ToTag;
        Tag(item, tagPage);
      } else if IsSubstring("id", queryString) {
        route := ToFile;
        File(item, postPage);
      } else {
        route := NoRoute;
        ctx.Fail(UnknownUrl(item.url));
      }
    }

    /** `fetch`: primes the cookies and dispatches the item, inside one
        progress task. */
    method Fetch(item: ScrapeItem, tagPage: Option<TagPage>, postPage: Option<PostPage>)
      returns (route: Route)
      requires ctx.Valid()
      modifies this`cookiesSet, ctx
      ensures ctx.Valid() && ctx.tasks == old(ctx.tasks)
      ensures cookiesSet
      ensures ctx.cookies == if old(cookiesSet) then old(ctx.cookies)
                             else old(ctx.cookies)[CookieKey(PrimaryBase, "resize-original") := "1"]
      ensures route == (if IsSubstring("tags", Unquote(item.url.query)) then ToTag
                        else if IsSubstring("id", Unquote(item.url.query)) then ToFile else NoRoute)
      ensures route != ToTag ==> ctx.queue == old(ctx.queue)
      ensures route != ToFile ==> ctx.handled == old(ctx.handled)
      ensures route == ToTag ==> var o := TagOutcome(item.Snapshot(), tagPage, helpers);
        ctx.queue == old(ctx.queue) + o.0 && ctx.failures == old(ctx.failures) + o.1
      ensures route == ToFile ==> var o := FileOutcome(item.Snapshot(), postPage, helpers);
        ctx.handled == old(ctx.handled) + o.0 && ctx.failures == old(ctx.failures) + o.1
      ensures route == NoRoute ==> ctx.failures == old(ctx.failures) + [UnknownUrl(item.url)]
    {
      var id := ctx.AddTask(item.url);
      SetCookies();
      route := Dispatch(item, tagPage, postPage);
      ctx.RemoveTask(id);
      TaskRoundTrip(old(ctx.tasks), id, item.url);
    }
  }
}
