/** The NSFW.XXX crawler of the older generation: a user's listing is read
    page by page until a page lists no posts, and each post hands its
    images and videos to a `DomainItem` under a folder title built from the
    model's name.  Pages are given as values: `None` is a request that
    raises, and the post page for a URL comes from the function `postPages`.
    A listing page is the `href` of each post anchor it selects; a
    non-empty page with an anchor lacking its `href` raises in
    `get_post_hrefs` before any post is visited, exactly as a page whose
    request raises, so it is given as `None` too. */
module NsfwXxx {
  import opened Common

  const Domain: string := "nsfw.xxx"
  const ModelTag: string := " (NSFW.XXX)"
  const UserPageQuery: string := "?nsfw[]=0&types[]=image&types[]=video&types[]=gallery&slider=1&jsload=1&user="

  /** The older `MediaItem(url, referer, complete, filename, ext)`. */
  datatype Media = Media(url: Url, referer: Url, complete: bool, filename: string, ext: string)

  /** The helpers outside the crawler, which are not part of this model:
      `make_title_safe`, `get_filename_and_ext` (`None` is
      `NoExtensionFailure`), `URL(text)`, and the database's
      `check_complete_singular` for a link. */
  datatype Tools = Tools(
    makeTitleSafe: string -> string,
    filenameAndExt: string -> Option<(string, string)>,
    parseUrl: string -> Url,
    complete: Url -> bool)

  /** What `get_post` reads from a post: the model's name and the post's
      text (`None` when the element is missing, which raises), and the
      `src` of every image, video source and gallery image, in that order
      (`None` when the attribute is missing, which raises when it is read). */
  datatype PostPage = PostPage(model: Option<string>, postName: Option<string>, sources: seq<Option<string>>)

  /** The older `DomainItem`; `add_media` is not part of this model, so its
      calls are recorded in order. */
  class DomainItem {
    const domain: string
    var media: seq<(string, Media)>

    constructor (domain: string)
      ensures this.domain == domain && media == []
    {
      this.domain := domain;
      media := [];
    }

    method AddMedia(title: string, m: Media)
      modifies this`media
      ensures media == old(media) + [(title, m)]
    {
      media := media + [(title, m)];
    }
  }

  // ---------------------------------------------------------------------
  // Titles and link filtering
  // ---------------------------------------------------------------------

  /** The folder of a post (`title` in `get_post`). */
  function PostTitle(model: string, postName: string, separatePosts: bool, t: Tools): string {
    var m := t.makeTitleSafe(model) + ModelTag;
    if separatePosts then m + "/" + t.makeTitleSafe(postName) else m
  }

  /** The folder is the safe model name tagged with the site, followed by
      "/" and the safe post name when posts are kept apart. */
  lemma PostTitleShape(model: string, postName: string, separatePosts: bool, t: Tools)
    ensures var r := PostTitle(model, postName, separatePosts, t);
      var m := t.makeTitleSafe(model) + ModelTag;
      && |m| <= |r| && r[..|m|] == m
      && m[|m| - |ModelTag|..] == ModelTag
      && (separatePosts ==> r[|m|..] == "/" + t.makeTitleSafe(postName))
      && (!separatePosts ==> r == m)
  {
    var m := t.makeTitleSafe(model) + ModelTag;
    assert m[|m| - |ModelTag|..] == ModelTag;
    if separatePosts {
      assert (m + "/" + t.makeTitleSafe(postName))[|m|..] == "/" + t.makeTitleSafe(postName);
    }
  }

  /** A link is kept unless its name mentions "-mobile" or ".webm" or has
      no extension. */
  predicate Kept(link: Url, t: Tools) {
    && !IsSubstring("-mobile", Name(link))
    && !IsSubstring(".webm", Name(link))
    && t.filenameAndExt(Name(link)).Some?
  }

  /** The media the first `n` sources of a post add, all under `title`. */
  function PostMedia(referer: Url, sources: seq<Option<string>>, n: nat, title: string, t: Tools): (r: seq<(string, Media)>)
    requires n <= |sources| && forall k :: 0 <= k < n ==> sources[k].Some?
    ensures |r| <= n
  {
    if n == 0 then []
    else
      var prev := PostMedia(referer, sources, n - 1, title, t);
      var link := t.parseUrl(sources[n - 1].value);
      if !Kept(link, t) then prev
      else
        var name := t.filenameAndExt(Name(link)).value;
        prev + [(title, Media(link, referer, t.complete(link), name.0, name.1))]
  }

  /** A link becomes a media entry exactly when it is one of the post's
      sources and passes the filter; every entry is under the post's title
      and refers back to the post. */
  lemma {:induction false} PostMediaMember(referer: Url, sources: seq<Option<string>>, n: nat, title: string,
                                           t: Tools, link: Url)
    requires n <= |sources| && forall k :: 0 <= k < n ==> sources[k].Some?
    ensures (exists e :: e in PostMedia(referer, sources, n, title, t) && e.1.url == link)
        <==> Kept(link, t) && exists k :: 0 <= k < n && t.parseUrl(sources[k].value) == link
    ensures forall e :: e in PostMedia(referer, sources, n, title, t) ==>
      e.0 == title && e.1.referer == referer && Kept(e.1.url, t)
  {
    if n > 0 {
      PostMediaMember(referer, sources, n - 1, title, t, link);
      var prev := PostMedia(referer, sources, n - 1, title, t);
      var r := PostMedia(referer, sources, n, title, t);
      if Kept(link, t) && t.parseUrl(sources[n - 1].value) == link {
        assert r[|r| - 1] in r && r[|r| - 1].1.url == link;
      }
      if !Kept(t.parseUrl(sources[n - 1].value), t) {
        assert r == prev;
      }
    }
  }

  /** The address of page `page` of a user's listing. */
  function UserPageUrl(page: nat, user: string): string {
    "https://nsfw.xxx/page/" + NatToString(page) + UserPageQuery + user
  }

  /** Different pages have different addresses. */
  lemma UserPageUrlInjective(p: nat, q: nat, user: string)
    requires UserPageUrl(p, user) == UserPageUrl(q, user)
    ensures p == q
  {
    var prefix := "https://nsfw.xxx/page/";
    var a := NatToString(p);
    var b := NatToString(q);
    var lp := prefix + a + UserPageQuery + user;
    var lq := prefix + b + UserPageQuery + user;
    assert |a| == |b|;
    assert a == lp[|prefix|..|prefix| + |a|];
    assert b == lq[|prefix|..|prefix| + |b|];
    NatToStringInjective(p, q);
  }

  // ---------------------------------------------------------------------
  // The user listing
  // ---------------------------------------------------------------------

  function ParsedLinks(hrefs: seq<string>, t: Tools): (r: seq<Url>)
    ensures |r| == |hrefs| && forall k :: 0 <= k < |hrefs| ==> r[k] == t.parseUrl(hrefs[k])
  {
    seq(|hrefs|, k requires 0 <= k < |hrefs| => t.parseUrl(hrefs[k]))
  }

  /** The media and the logged errors of one `get_post` call: a source
      without a `src` raises after the media of the sources before it. */
  function PostOutcome(url: Url, page: Option<PostPage>, separatePosts: bool, t: Tools): (seq<(string, Media)>, seq<Url>) {
    if page.None? || page.value.model.None? || page.value.postName.None? then ([], [url])
    else
      var p := page.value;
      var title := PostTitle(p.model.value, p.postName.value, separatePosts, t);
      var n := PresentPrefix(p.sources);
      (PostMedia(url, p.sources, n, title, t), if n < |p.sources| then [url] else [])
  }

  /** The outcome of `get_post` for the first `n` posts. */
  function PostsOutcome(posts: seq<Url>, n: nat, postPages: Url -> Option<PostPage>, separatePosts: bool,
                        t: Tools): (seq<(string, Media)>, seq<Url>)
    requires n <= |posts|
  {
    if n == 0 then ([], [])
    else
      var prev := PostsOutcome(posts, n - 1, postPages, separatePosts, t);
      var o := PostOutcome(posts[n - 1], postPages(posts[n - 1]), separatePosts, t);
      (prev.0 + o.0, prev.1 + o.1)
  }

  /** The listing loop ends at a page that raises or lists no posts. */
  predicate ListingEnds(listings: seq<Option<seq<string>>>, k: nat)
    requires k < |listings|
  {
    listings[k].None? || |listings[k].value| == 0
  }

  predicate ListingStops(listings: seq<Option<seq<string>>>) {
    exists k :: 0 <= k < |listings| && ListingEnds(listings, k)
  }

  /** The index of the first page that ends the loop. */
  function FirstEnd(listings: seq<Option<seq<string>>>, from: nat): (n: nat)
    requires from <= |listings| && exists k :: from <= k < |listings| && ListingEnds(listings, k)
    ensures from <= n < |listings| && ListingEnds(listings, n)
    ensures forall k :: from <= k < n ==> !ListingEnds(listings, k)
    decreases |listings| - from
  {
    if ListingEnds(listings, from) then from else FirstEnd(listings, from + 1)
  }

  /** The post links a listing page yields (none for a page that raises). */
  function ListedPosts(listing: Option<seq<string>>, t: Tools): seq<Url> {
    if listing.None? then [] else Dedup(ParsedLinks(listing.value, t))
  }

  /** The outcome of visiting the posts of the first `n` listing pages. */
  function ListingsOutcome(listings: seq<Option<seq<string>>>, n: nat, postPages: Url -> Option<PostPage>,
                           separatePosts: bool, t: Tools): (seq<(string, Media)>, seq<Url>)
    requires n <= |listings|
  {
    if n == 0 then ([], [])
    else
      var prev := ListingsOutcome(listings, n - 1, postPages, separatePosts, t);
      var posts := ListedPosts(listings[n - 1], t);
      var o := PostsOutcome(posts, |posts|, postPages, separatePosts, t);
      (prev.0 + o.0, prev.1 + o.1)
  }

  /** The links `get_post_hrefs` returns: every href once, no duplicates,
      in the order of their first occurrence. */
  lemma PostHrefsOnce(hrefs: seq<string>, t: Tools)
    ensures var links := Dedup(ParsedLinks(hrefs, t));
      && NoDuplicates(links)
      && (forall x :: x in links <==> exists k :: 0 <= k < |hrefs| && t.parseUrl(hrefs[k]) == x)
      && forall i, j :: 0 <= i < j < |links| ==>
           FirstIndex(ParsedLinks(hrefs, t), links[i]) < FirstIndex(ParsedLinks(hrefs, t), links[j])
  {
    var parsed := ParsedLinks(hrefs, t);
    DedupOrder(parsed);
    forall x
      ensures x in Dedup(parsed) <==> exists k :: 0 <= k < |hrefs| && t.parseUrl(hrefs[k]) == x
    {
      AppendNewMember([], parsed, x);
      if x in parsed {
        var k :| 0 <= k < |parsed| && parsed[k] == x;
        assert t.parseUrl(hrefs[k]) == x;
      }
    }
  }

  /** The first page that ends the loop is the one `FirstEnd` names. */
  lemma EndIsFirst(listings: seq<Option<seq<string>>>, i: nat)
    requires ListingStops(listings) && i <= FirstEnd(listings, 0) && i < |listings| && ListingEnds(listings, i)
    ensures i == FirstEnd(listings, 0)
  {
  }

  class NsfwXxxCrawler {
    const separatePosts: bool
    const tools: Tools
    /** The URLs logged as "Error" by the exception handlers. */
    var errors: seq<Url>

    constructor (separatePosts: bool, tools: Tools)
      ensures this.separatePosts == separatePosts && this.tools == tools && errors == []
    {
      this.separatePosts := separatePosts;
      this.tools := tools;
      errors := [];
    }

    /** `get_post_hrefs`: the list built by appending each parsed href that
        is not in it yet. */
    method PostHrefs(hrefs: seq<string>) returns (links: seq<Url>)
      ensures links == Dedup(ParsedLinks(hrefs, tools))
    {
      ghost var parsed := ParsedLinks(hrefs, tools);
      links := [];
      var i := 0;
      while i < |hrefs|
        invariant 0 <= i <= |hrefs|
        invariant links == AppendNew([], parsed[..i])
      {
        var url := tools.parseUrl(hrefs[i]);
        assert parsed[..i + 1] == parsed[..i] + [url];
        assert parsed[..i + 1][..i] == parsed[..i];
        if url !in links {
          links := links + [url];
        }
        i := i + 1;
      }
      assert parsed[..i] == parsed;
    }

    /** `get_post`: a missing page, model name or post text raises before
        anything is added, and the error is logged. */
    method GetPost(url: Url, page: Option<PostPage>, domain: DomainItem)
      modifies domain`media, this`errors
      ensures var o := PostOutcome(url, page, separatePosts, tools);
        domain.media == old(domain.media) + o.0 && errors == old(errors) + o.1
    {
      if page.None? || page.value.model.None? || page.value.postName.None? {
        errors := errors + [url];
        return;
      }
      var p := page.value;
      var title := PostTitle(p.model.value, p.postName.value, separatePosts, tools);
      var raised := AddPostMedia(url, p.sources, title, domain);
      if raised {
        errors := errors + [url];
      }
    }

    /** The loop of `get_post` over the content elements. */
    method AddPostMedia(url: Url, sources: seq<Option<string>>, title: string, domain: DomainItem)
      returns (raised: bool)
      modifies domain`media
      ensures domain.media == old(domain.media) + PostMedia(url, sources, PresentPrefix(sources), title, tools)
      ensures raised <==> PresentPrefix(sources) < |sources|
    {
      raised := false;
      var i := 0;
      while i < |sources|
        invariant 0 <= i <= PresentPrefix(sources)
        invariant domain.media == old(domain.media) + PostMedia(url, sources, i, title, tools)
      {
        if sources[i].None? {
          return true;
        }
        var link := tools.parseUrl(sources[i].value);
        i := i + 1;
        if IsSubstring("-mobile", Name(link)) || IsSubstring(".webm", Name(link)) {
          continue;
        }
        var complete := tools.complete(link);
        var name := tools.filenameAndExt(Name(link));
        if name.None? {
          continue;
        }
        domain.AddMedia(title, Media(link, url, complete, name.value.0, name.value.1));
      }
    }

    /** The `for post in posts` loop of `get_user`. */
    method VisitPosts(posts: seq<Url>, postPages: Url -> Option<PostPage>, domain: DomainItem)
      modifies domain`media, this`errors
      ensures domain.media == old(domain.media) + PostsOutcome(posts, |posts|, postPages, separatePosts, tools).0
      ensures errors == old(errors) + PostsOutcome(posts, |posts|, postPages, separatePosts, tools).1
    {
      var i := 0;
      while i < |posts|
        invariant 0 <= i <= |posts|
        invariant domain.media == old(domain.media) + PostsOutcome(posts, i, postPages, separatePosts, tools).0
        invariant errors == old(errors) + PostsOutcome(posts, i, postPages, separatePosts, tools).1
      {
        VisitNext(posts, i, postPages, domain, old(domain.media), old(errors));
        i := i + 1;
      }
    }

    /** One turn of the loop over the posts: post `i` is visited after the
        first `i`. */
    method VisitNext(posts: seq<Url>, i: nat, postPages: Url -> Option<PostPage>, domain: DomainItem,
                     ghost media: seq<(string, Media)>, ghost logged: seq<Url>)
      requires i < |posts|
      requires domain.media == media + PostsOutcome(posts, i, postPages, separatePosts, tools).0
      requires errors == logged + PostsOutcome(posts, i, postPages, separatePosts, tools).1
      modifies domain`media, this`errors
      ensures domain.media == media + PostsOutcome(posts, i + 1, postPages, separatePosts, tools).0
      ensures errors == logged + PostsOutcome(posts, i + 1, postPages, separatePosts, tools).1
    {
      var post := posts[i];
      var page := postPages(post);
      ghost var prev := PostsOutcome(posts, i, postPages, separatePosts, tools);
      ghost var o := PostOutcome(post, page, separatePosts, tools);
      assert PostsOutcome(posts, i + 1, postPages, separatePosts, tools) == (prev.0 + o.0, prev.1 + o.1);
      GetPost(post, page, domain);
      ConcatAssoc(media, prev.0, o.0);
      ConcatAssoc(logged, prev.1, o.1);
    }

    /** One listing page of `get_user`: a page that raises is logged, a
        page without posts ends the loop, otherwise its posts are visited. */
    method ListingPage(url: Url, listing: Option<seq<string>>, postPages: Url -> Option<PostPage>,
                       domain: DomainItem, ghost listings: seq<Option<seq<string>>>, ghost n: nat,
                       ghost baseMedia: seq<(string, Media)>, ghost baseErrors: seq<Url>)
      returns (stop: bool)
      requires ListingStops(listings) && n <= FirstEnd(listings, 0) && listings[n] == listing
      requires var o := ListingsOutcome(listings, n, postPages, separatePosts, tools);
        domain.media == baseMedia + o.0 && errors == baseErrors + o.1
      modifies domain`media, this`errors
      ensures stop == ListingEnds(listings, n)
      ensures stop ==> var last := FirstEnd(listings, 0);
        && n == last
        && var o := ListingsOutcome(listings, last, postPages, separatePosts, tools);
           && domain.media == baseMedia + o.0
           && (listings[last].Some? ==> errors == baseErrors + o.1)
           && (listings[last].None? ==> errors == baseErrors + o.1 + [url])
      ensures !stop ==> n < FirstEnd(listings, 0) && var o := ListingsOutcome(listings, n + 1, postPages, separatePosts, tools);
        domain.media == baseMedia + o.0 && errors == baseErrors + o.1
    {
      if listing.None? {
        EndIsFirst(listings, n);
        errors := errors + [url];
        return true;
      }
      if |listing.value| == 0 {
        EndIsFirst(listings, n);
        return true;
      }
      var posts := PostHrefs(listing.value);
      ghost var prev := ListingsOutcome(listings, n, postPages, separatePosts, tools);
      ghost var o := PostsOutcome(posts, |posts|, postPages, separatePosts, tools);
      VisitPosts(posts, postPages, domain);
      assert ListingsOutcome(listings, n + 1, postPages, separatePosts, tools) == (prev.0 + o.0, prev.1 + o.1);
      ConcatAssoc(baseMedia, prev.0, o.0);
      ConcatAssoc(baseErrors, prev.1, o.1);
      return false;
    }

    /** `get_user`: requests pages 1, 2, ... and stops at the first page
        that lists no posts; a page that raises is logged and also stops it. */
    method GetUser(url: Url, listings: seq<Option<seq<string>>>, postPages: Url -> Option<PostPage>,
                   domain: DomainItem) returns (requested: seq<string>)
      requires ListingStops(listings)
      modifies domain`media, this`errors
      ensures var last := FirstEnd(listings, 0);
        && |requested| == last + 1
        && (forall k :: 0 <= k < |requested| ==> requested[k] == UserPageUrl(k + 1, Name(url)))
        && var o := ListingsOutcome(listings, last, postPages, separatePosts, tools);
           && domain.media == old(domain.media) + o.0
           && (listings[last].Some? ==> errors == old(errors) + o.1)
           && (listings[last].None? ==> errors == old(errors) + o.1 + [url])
    {
      ghost var last := FirstEnd(listings, 0);
      var page := 1;
      requested := [];
      while true
        invariant 1 <= page <= last + 1
        invariant |requested| == page - 1
        invariant forall k :: 0 <= k < page - 1 ==> requested[k] == UserPageUrl(k + 1, Name(url))
        invariant var o := ListingsOutcome(listings, page - 1, postPages, separatePosts, tools);
          domain.media == old(domain.media) + o.0 && errors == old(errors) + o.1
        decreases last + 1 - page
      {
        var stop;
        stop, requested := UserPage(url, listings, page, requested, postPages, domain, old(domain.media), old(errors));
        if stop {
          return;
        }
        page := page + 1;
      }
    }

    /** One iteration of the `get_user` loop: request page `page`. */
    method UserPage(url: Url, listings: seq<Option<seq<string>>>, page: nat, requested: seq<string>,
                    postPages: Url -> Option<PostPage>, domain: DomainItem,
                    ghost baseMedia: seq<(string, Media)>, ghost baseErrors: seq<Url>)
      returns (stop: bool, requested': seq<string>)
      requires ListingStops(listings) && 1 <= page <= FirstEnd(listings, 0) + 1
      requires |requested| == page - 1
      requires forall k :: 0 <= k < page - 1 ==> requested[k] == UserPageUrl(k + 1, Name(url))
      requires var o := ListingsOutcome(listings, page - 1, postPages, separatePosts, tools);
        domain.media == baseMedia + o.0 && errors == baseErrors + o.1
      modifies domain`media, this`errors
      ensures |requested'| == page
      ensures forall k :: 0 <= k < page ==> requested'[k] == UserPageUrl(k + 1, Name(url))
      ensures stop ==> var last := FirstEnd(listings, 0);
        && page == last + 1
        && var o := ListingsOutcome(listings, last, postPages, separatePosts, tools);
           && domain.media == baseMedia + o.0
           && (listings[last].Some? ==> errors == baseErrors + o.1)
           && (listings[last].None? ==> errors == baseErrors + o.1 + [url])
      ensures !stop ==> page < FirstEnd(listings, 0) + 1 && var o := ListingsOutcome(listings, page, postPages, separatePosts, tools);
        domain.media == baseMedia + o.0 && errors == baseErrors + o.1
    {
      var pageUrl := UserPageUrl(page, Name(url));
      requested' := requested + [pageUrl];
      assert requested'[page - 1] == pageUrl;
      stop := ListingPage(url, listings[page - 1], postPages, domain, listings, page - 1, baseMedia, baseErrors);
    }

    /** `fetch`: a "user" path part selects the listing, anything else is a
        single post; the result is a new `DomainItem` for the site. */
    method Fetch(url: Url, listings: seq<Option<seq<string>>>, postPages: Url -> Option<PostPage>)
      returns (domain: DomainItem, toUser: bool)
      requires "user" in Parts(url) ==> ListingStops(listings)
      modifies this`errors
      ensures fresh(domain) && domain.domain == Domain
      ensures toUser == ("user" in Parts(url))
      ensures !toUser ==>
        var o := PostOutcome(url, postPages(url), separatePosts, tools);
        domain.media == o.0 && errors == old(errors) + o.1
      ensures toUser ==>
        var last := FirstEnd(listings, 0);
        var o := ListingsOutcome(listings, last, postPages, separatePosts, tools);
        && domain.media == o.0
        && errors == old(errors) + o.1 + (if listings[last].None? then [url] else [])
    {
      domain := new DomainItem(Domain);
      toUser := "user" in Parts(url);
      if toUser {
        var requested := GetUser(url, listings, postPages, domain);
      } else {
        GetPost(url, postPages(url), domain);
      }
    }
  }
}
