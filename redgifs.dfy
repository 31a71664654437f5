/** The RedGifs crawler: a temporary API token obtained on first use, the
    paged listing of a user's gifs and the single-gif post.  The JSON
    answers of the API are given as values: a request that raises, or an
    answer without its "pages", "gif" or "token" key, is `None`. */
module RedGifs {
  import opened Common
  import opened UrlObjects
  import opened Crawler

  /** One gif of the API: its title when the key is present, its `urls`
      object (a `None` value is JSON null) and its `createDate`. */
  datatype Gif = Gif(title: Option<string>, urls: map<string, Option<string>>, createDate: int)

  /** One page of a user's listing: the page count it reports and its gifs. */
  datatype UserPage = UserPage(pages: int, gifs: seq<Gif>)

  /** `url.parts[-1].split(".")[0]`: the user or post id. */
  function ItemId(u: Url): (r: string)
    ensures '.' !in r
    ensures var last := LastPart(u);
      |r| <= |last| && r == last[..|r|] && (|r| < |last| ==> last[|r|] == '.')
  {
    SplitOnFirst(LastPart(u), '.');
    SplitOn(LastPart(u), '.')[0]
  }

  /** `gif["title"] if "title" in gif else "Loose Files"` */
  function TitlePart(g: Gif): string {
    if g.title.Some? then g.title.value else "Loose Files"
  }

  /** The link `user` takes: "hd" unless it is missing or null, then "sd". */
  function UserLink(urls: map<string, Option<string>>): (r: Option<string>)
    ensures "hd" in urls && urls["hd"].Some? ==> r == urls["hd"]
    ensures !("hd" in urls && urls["hd"].Some?) ==> r == (if "sd" in urls then urls["sd"] else None)
  {
    if "hd" in urls && urls["hd"].Some? then urls["hd"]
    else if "sd" in urls then urls["sd"] else None
  }

  /** The link `post` takes: "hd" whenever the key exists, even when null. */
  function PostLink(urls: map<string, Option<string>>): (r: Option<string>)
    ensures "hd" in urls ==> r == urls["hd"]
    ensures "hd" !in urls ==> r == (if "sd" in urls then urls["sd"] else None)
  {
    if "hd" in urls then urls["hd"]
    else if "sd" in urls then urls["sd"] else None
  }

  /** The two handlers choose the same link except for a null "hd", where
      `user` falls back to "sd" and `post` fails. */
  lemma LinkChoicesAgree(urls: map<string, Option<string>>)
    ensures UserLink(urls) != PostLink(urls) ==>
      "hd" in urls && urls["hd"].None? && PostLink(urls).None?
  {
  }

  /** The item and the hand-off after one gif: `part_of_album` and
      `possible_datetime` are set and the title is added; `None` when the
      link or its extension is missing, in which case nothing changed. */
  function GifStep(d: ScrapeData, g: Gif, link: Option<string>, h: Helpers): Option<(ScrapeData, HandledFile)> {
    if link.None? then None
    else
      var url := h.parseUrl(link.value);
      match h.filenameAndExt(Name(url))
      case None => None
      case Some(name) =>
        var title := h.createTitle(TitlePart(g), None, None);
        var d' := d.(partOfAlbum := true, possibleDatetime := Some(g.createDate),
                     parentTitle := AddedTitle(d.parentTitle, title, d.retry, h.sanitizeFolder));
        Some((d', HandledFile(url, d', name.0, name.1)))
  }

  /** The `user` loop over one page of gifs, from item `d`: the item at the
      end, the files handed over, and whether no gif failed. */
  function GifsRun(d: ScrapeData, gifs: seq<Gif>, h: Helpers): (ScrapeData, seq<HandledFile>, bool) {
    if |gifs| == 0 then (d, [], true)
    else
      var prev := GifsRun(d, gifs[..|gifs| - 1], h);
      if !prev.2 then prev
      else match GifStep(prev.0, gifs[|gifs| - 1], UserLink(gifs[|gifs| - 1].urls), h)
        case None => (prev.0, prev.1, false)
        case Some(step) => (step.0, prev.1 + [step.1], true)
  }

  /** The `user` loop over the pages answered so far. */
  function PagesRun(d: ScrapeData, pages: seq<Option<UserPage>>, h: Helpers): (ScrapeData, seq<HandledFile>, bool) {
    if |pages| == 0 then (d, [], true)
    else
      var prev := PagesRun(d, pages[..|pages| - 1], h);
      if !prev.2 then prev
      else match pages[|pages| - 1]
        case None => (prev.0, prev.1, false)
        case Some(p) =>
          var run := GifsRun(prev.0, p.gifs, h);
          (run.0, prev.1 + run.1, run.2)
  }

  /** A run that fails at page `page`, no later than the last page, is
      the run up to the last page. */
  lemma StoppedRun(d: ScrapeData, pages: seq<Option<UserPage>>, page: nat, last: nat, h: Helpers)
    requires 1 <= page <= last + 1 <= |pages|
    requires !PagesRun(d, pages[..page], h).2
    ensures PagesRun(d, pages[..page], h) == PagesRun(d, pages[..last + 1], h)
  {
    assert pages[..last + 1][..page] == pages[..page];
    PagesRunStuck(d, pages[..last + 1], page, h);
  }

  /** The page numbers 1..n, one more appended. */
  lemma CountingSnoc(n: nat)
    ensures seq(n, k => k + 1) + [n + 1] == seq(n + 1, k => k + 1)
  {
    var a, b := seq(n, k => k + 1) + [n + 1], seq(n + 1, k => k + 1);
    assert forall k :: 0 <= k < |a| ==> a[k] == b[k];
  }

  /** A failed page ends the loop: later pages change nothing. */
  lemma {:induction false} PagesRunStuck(d: ScrapeData, pages: seq<Option<UserPage>>, i: nat, h: Helpers)
    requires i <= |pages| && !PagesRun(d, pages[..i], h).2
    ensures PagesRun(d, pages, h) == PagesRun(d, pages[..i], h)
  {
    if i < |pages| {
      assert pages[..|pages| - 1][..i] == pages[..i];
      PagesRunStuck(d, pages[..|pages| - 1], i, h);
    } else {
      assert pages[..i] == pages;
    }
  }

  /** What `post` does with its answer from item `d`: the item after the
      gif and the file handed over, `None` when it fails. */
  function PostOutcome(d: ScrapeData, answer: Option<Gif>, h: Helpers): Option<(ScrapeData, HandledFile)> {
    if answer.None? then None else GifStep(d, answer.value, PostLink(answer.value.urls), h)
  }

  /** The loop stops after the answer to page `n + 1` when that request
      fails or reports no more than `n + 1` pages. */
  predicate StopsAt(pages: seq<Option<UserPage>>, n: nat)
    requires n < |pages|
  {
    pages[n].None? || pages[n].value.pages <= n + 1
  }

  predicate Stops(pages: seq<Option<UserPage>>) {
    exists n :: 0 <= n < |pages| && StopsAt(pages, n)
  }

  /** The index of the last page `user` requests. */
  function LastPage(pages: seq<Option<UserPage>>, from: nat): (n: nat)
    requires from <= |pages| && exists n :: from <= n < |pages| && StopsAt(pages, n)
    ensures from <= n < |pages| && StopsAt(pages, n)
    ensures forall k :: from <= k < n ==> !StopsAt(pages, k)
    decreases |pages| - from
  {
    if StopsAt(pages, from) then from else LastPage(pages, from + 1)
  }

  /** The titles the gifs contribute, in order. */
  function GifTitles(gifs: seq<Gif>, h: Helpers): (r: seq<string>)
    ensures |r| == |gifs|
  {
    seq(|gifs|, k requires 0 <= k < |gifs| => h.createTitle(TitlePart(gifs[k]), None, None))
  }

  /** A failed gif ends the page: later gifs change nothing. */
  lemma {:induction false} GifsRunStuck(d: ScrapeData, gifs: seq<Gif>, i: nat, h: Helpers)
    requires i <= |gifs| && !GifsRun(d, gifs[..i], h).2
    ensures GifsRun(d, gifs, h) == GifsRun(d, gifs[..i], h)
  {
    if i < |gifs| {
      assert gifs[..|gifs| - 1][..i] == gifs[..i];
      GifsRunStuck(d, gifs[..|gifs| - 1], i, h);
    } else {
      assert gifs[..i] == gifs;
    }
  }

  /** One file per gif handled, all of them when none failed; the item
      keeps its URL and retry flag. */
  lemma {:induction false} GifsRunShape(d: ScrapeData, gifs: seq<Gif>, h: Helpers)
    ensures var run := GifsRun(d, gifs, h);
      && |run.1| <= |gifs| && (run.2 <==> |run.1| == |gifs|)
      && run.0.url == d.url && run.0.retry == d.retry
  {
    if |gifs| > 0 {
      GifsRunShape(d, gifs[..|gifs| - 1], h);
    }
  }

  lemma GifTitlesPrefix(gifs: seq<Gif>, m: nat, h: Helpers)
    requires m <= |gifs|
    ensures GifTitles(gifs, h)[..m] == GifTitles(gifs[..m], h)
  {
  }

  /** After a run the item carries the titles of the gifs handled, and the
      date of the last of them. */
  lemma GifsRunItem(d: ScrapeData, gifs: seq<Gif>, h: Helpers)
    ensures var run := GifsRun(d, gifs, h);
      && |run.1| <= |gifs|
      && run.0.parentTitle == AddedTitles(d.parentTitle, GifTitles(gifs[..|run.1|], h), d.retry, h.sanitizeFolder)
      && (|run.1| > 0 ==> run.0.partOfAlbum && run.0.possibleDatetime == Some(gifs[|run.1| - 1].createDate))
  {
    GifsRunShape(d, gifs, h);
    GifsRunTitle(d, gifs, h);
    GifsRunDate(d, gifs, h);
  }

  lemma {:induction false} GifsRunTitle(d: ScrapeData, gifs: seq<Gif>, h: Helpers)
    requires |GifsRun(d, gifs, h).1| <= |gifs|
    ensures var run := GifsRun(d, gifs, h);
      run.0.parentTitle == AddedTitles(d.parentTitle, GifTitles(gifs[..|run.1|], h), d.retry, h.sanitizeFolder)
  {
    if |gifs| > 0 {
      var n := |gifs| - 1;
      var init := gifs[..n];
      GifsRunShape(d, init, h);
      GifsRunTitle(d, init, h);
      var prev := GifsRun(d, init, h);
      if prev.2 && GifStep(prev.0, gifs[n], UserLink(gifs[n].urls), h).Some? {
        assert |prev.1| == n;
        assert init[..|prev.1|] == init;
        var titles := GifTitles(gifs, h);
        GifTitlesPrefix(gifs, n, h);
        assert titles[..n] == GifTitles(init, h);
        assert gifs[..n + 1] == gifs;
        assert AddedTitles(d.parentTitle, titles, d.retry, h.sanitizeFolder)
            == AddedTitle(prev.0.parentTitle, titles[n], d.retry, h.sanitizeFolder);
      } else {
        assert gifs[..|prev.1|] == init[..|prev.1|];
      }
    }
  }

  lemma {:induction false} GifsRunDate(d: ScrapeData, gifs: seq<Gif>, h: Helpers)
    requires |GifsRun(d, gifs, h).1| <= |gifs|
    ensures var run := GifsRun(d, gifs, h);
      |run.1| > 0 ==> run.0.partOfAlbum && run.0.possibleDatetime == Some(gifs[|run.1| - 1].createDate)
  {
    if |gifs| > 0 {
      var n := |gifs| - 1;
      var init := gifs[..n];
      GifsRunShape(d, init, h);
      GifsRunDate(d, init, h);
      var prev := GifsRun(d, init, h);
      if !(prev.2 && GifStep(prev.0, gifs[n], UserLink(gifs[n].urls), h).Some?) {
        assert |prev.1| > 0 ==> gifs[|prev.1| - 1] == init[|prev.1| - 1];
      }
    }
  }

  /** The k-th file handed over records the item as it is after gif k. */
  lemma {:induction false} GifsRunFile(d: ScrapeData, gifs: seq<Gif>, h: Helpers, k: nat)
    requires k < |GifsRun(d, gifs, h).1|
    ensures k < |gifs|
    ensures var upto := GifsRun(d, gifs[..k + 1], h);
      upto.2 && GifsRun(d, gifs, h).1[k].origin == upto.0
  {
    GifsRunShape(d, gifs, h);
    var n := |gifs| - 1;
    var init := gifs[..n];
    GifsRunShape(d, init, h);
    var prev := GifsRun(d, init, h);
    if k < |prev.1| {
      GifsRunFile(d, init, h, k);
      assert gifs[..k + 1] == init[..k + 1];
    } else {
      assert gifs[..k + 1] == gifs;
    }
  }

  /** The `user` quirk: every gif adds its title to the same item, so the
      k-th file handed over sits under the titles of the first k + 1 gifs,
      with the k-th gif's date. */
  lemma GifsRunTitles(d: ScrapeData, gifs: seq<Gif>, h: Helpers, k: nat)
    requires k < |GifsRun(d, gifs, h).1|
    ensures k < |gifs|
    ensures var origin := GifsRun(d, gifs, h).1[k].origin;
      && origin.parentTitle == AddedTitles(d.parentTitle, GifTitles(gifs[..k + 1], h), d.retry, h.sanitizeFolder)
      && origin.partOfAlbum && origin.possibleDatetime == Some(gifs[k].createDate)
  {
    GifsRunFile(d, gifs, h, k);
    var prefix := gifs[..k + 1];
    GifsRunItem(d, prefix, h);
    GifsRunShape(d, prefix, h);
    assert prefix[..k + 1] == prefix;
  }

  class RedGifsCrawler {
    const ctx: ScrapeContext
    const helpers: Helpers
    var token: string
    var headers: map<string, string>

    constructor (ctx: ScrapeContext, helpers: Helpers)
      ensures this.ctx == ctx && this.helpers == helpers
      ensures token == "" && headers == map[]
    {
      this.ctx := ctx;
      this.helpers := helpers;
      token := "";
      headers := map[];
    }

    /** `manage_token`: `answer` is the token of the temporary-auth answer,
        `None` when that request raises. */
    method ManageToken(answer: Option<string>) returns (ok: bool)
      modifies this`token, this`headers
      ensures ok == answer.Some?
      ensures ok ==> token == answer.value && headers == map["Authorization" := "Bearer " + token]
      ensures !ok ==> token == old(token) && headers == old(headers)
    {
      if answer.None? {
        return false;
      }
      token := answer.value;
      headers := map["Authorization" := "Bearer " + token];
      return true;
    }

    /** `post`: one gif, "hd" whenever present. */
    method Post(item: ScrapeItem, answer: Option<Gif>) returns (postId: string)
      modifies item`partOfAlbum, item`possibleDatetime, item`parentTitle, ctx`handled, ctx`failures
      ensures var step := PostOutcome(old(item.Snapshot()), answer, helpers);
        && (step.None? ==>
              item.Snapshot() == old(item.Snapshot()) && ctx.handled == old(ctx.handled)
              && ctx.failures == old(ctx.failures) + [HandlerFailed(item.url)])
        && (step.Some? ==>
              item.Snapshot() == step.value.0 && ctx.handled == old(ctx.handled) + [step.value.1]
              && ctx.failures == old(ctx.failures))
      ensures postId == ItemId(item.url)
    {
      postId := ItemId(item.url);
      if answer.None? {
        ctx.Fail(HandlerFailed(item.url));
        return;
      }
      var g := answer.value;
      var title := helpers.createTitle(TitlePart(g), None, None);
      var link := PostLink(g.urls);
      if link.None? {
        ctx.Fail(HandlerFailed(item.url));
        return;
      }
      var url := helpers.parseUrl(link.value);
      var name := helpers.filenameAndExt(Name(url));
      if name.None? {
        ctx.Fail(HandlerFailed(item.url));
        return;
      }
      item.partOfAlbum := true;
      item.possibleDatetime := Some(g.createDate);
      item.AddToParentTitle(title, helpers.sanitizeFolder);
      ctx.HandleFile(url, item, name.value.0, name.value.1);
    }

    /** One page of the `user` loop. */
    method UserGifs(item: ScrapeItem, gifs: seq<Gif>) returns (ok: bool)
      modifies item`partOfAlbum, item`possibleDatetime, item`parentTitle, ctx`handled
      ensures var run := GifsRun(old(item.Snapshot()), gifs, helpers);
        item.Snapshot() == run.0 && ctx.handled == old(ctx.handled) + run.1 && ok == run.2
    {
      ghost var d := item.Snapshot();
      var i := 0;
      while i < |gifs|
        invariant 0 <= i <= |gifs|
        invariant var run := GifsRun(d, gifs[..i], helpers);
          item.Snapshot() == run.0 && ctx.handled == old(ctx.handled) + run.1 && run.2
      {
        var g := gifs[i];
        assert gifs[..i + 1][..i] == gifs[..i];
        var title := helpers.createTitle(TitlePart(g), None, None);
        var link := UserLink(g.urls);
        if link.None? {
          GifsRunStuck(d, gifs, i + 1, helpers);
          return false;
        }
        var url := helpers.parseUrl(link.value);
        var name := helpers.filenameAndExt(Name(url));
        if name.None? {
          GifsRunStuck(d, gifs, i + 1, helpers);
          return false;
        }
        item.partOfAlbum := true;
        item.possibleDatetime := Some(g.createDate);
        item.AddToParentTitle(title, helpers.sanitizeFolder);
        ctx.HandleFile(url, item, name.value.0, name.value.1);
        i := i + 1;
      }
      assert gifs[..i] == gifs;
      return true;
    }

    /** `user`: requests pages 1, 2, ... while the page number does not
        exceed the page count of the latest answer.  `pages[k]` is the
        answer to page `k + 1`. */
    method User(item: ScrapeItem, pages: seq<Option<UserPage>>) returns (userId: string, requested: seq<nat>)
      requires Stops(pages)
      modifies item`partOfAlbum, item`possibleDatetime, item`parentTitle, ctx`handled, ctx`failures
      ensures |requested| >= 1 && requested == seq(|requested|, k => k + 1)
      ensures |requested| <= LastPage(pages, 0) + 1
      ensures var run := PagesRun(old(item.Snapshot()), pages[..|requested|], helpers);
        && item.Snapshot() == run.0
        && ctx.handled == old(ctx.handled) + run.1
        && ctx.failures == old(ctx.failures) + (if run.2 then [] else [HandlerFailed(item.url)])
        && (run.2 ==> |requested| == LastPage(pages, 0) + 1)
      ensures var run := PagesRun(old(item.Snapshot()), pages[..|requested|], helpers);
        !run.2 ==> PagesRun(old(item.Snapshot()), pages[..|requested| - 1], helpers).2
      ensures PagesRun(old(item.Snapshot()), pages[..|requested|], helpers)
           == PagesRun(old(item.Snapshot()), pages[..LastPage(pages, 0) + 1], helpers)
      ensures userId == ItemId(item.url)
    {
      userId := ItemId(item.url);
      ghost var d := item.Snapshot();
      ghost var last := LastPage(pages, 0);
      var page := 1;
      var total := 1;
      requested := [];
      while page <= total
        invariant 1 <= page <= last + 2
        invariant page <= last + 1 ==> page <= total
        invariant page == last + 2 ==> total < page
        invariant requested == seq(page - 1, k => k + 1)
        invariant var run := PagesRun(d, pages[..page - 1], helpers);
          item.Snapshot() == run.0 && ctx.handled == old(ctx.handled) + run.1 && run.2
        invariant ctx.failures == old(ctx.failures)
        decreases last + 2 - page
      {
        CountingSnoc(page - 1);
        requested := requested + [page];
        var stop;
        stop, total := RequestUserPage(item, pages, page, d, old(ctx.handled));
        if stop {
          StoppedRun(d, pages, page, last, helpers);
          return;
        }
        if page - 1 < last {
          assert !StopsAt(pages, page - 1);
        }
        page := page + 1;
      }
      assert |requested| == last + 1;
    }

    /** One pass of `user`'s loop: the answer to page `page` is handled,
        or its failure is recorded.  Returns whether the handler ends here
        and the page count the answer reports. */
    method RequestUserPage(item: ScrapeItem, pages: seq<Option<UserPage>>, page: nat,
                           ghost d: ScrapeData, ghost baseHandled: seq<HandledFile>)
      returns (stop: bool, total: int)
      requires 1 <= page <= |pages|
      requires var run := PagesRun(d, pages[..page - 1], helpers);
        item.Snapshot() == run.0 && ctx.handled == baseHandled + run.1 && run.2
      modifies item`partOfAlbum, item`possibleDatetime, item`parentTitle, ctx`handled, ctx`failures
      ensures var run := PagesRun(d, pages[..page], helpers);
        && item.Snapshot() == run.0 && ctx.handled == baseHandled + run.1
        && (stop <==> !run.2)
      ensures stop ==> ctx.failures == old(ctx.failures) + [HandlerFailed(item.url)]
      ensures !stop ==> ctx.failures == old(ctx.failures) && pages[page - 1].Some? && total == pages[page - 1].value.pages
    {
      var answer := pages[page - 1];
      assert pages[..page][..page - 1] == pages[..page - 1];
      if answer.None? {
        ctx.Fail(HandlerFailed(item.url));
        return true, 0;
      }
      total := answer.value.pages;
      var ok := UserGifs(item, answer.value.gifs);
      ConcatAssoc(baseHandled, PagesRun(d, pages[..page - 1], helpers).1,
                  GifsRun(PagesRun(d, pages[..page - 1], helpers).0, answer.value.gifs, helpers).1);
      if !ok {
        ctx.Fail(HandlerFailed(item.url));
        return true, total;
      }
      stop := false;
    }

    /** `fetch`: obtains a token if there is none yet, then routes on a
        "users" path part.  The token request is outside the error-handling
        wrapper: when it raises, `fetch` raises and its progress task stays
        open. */
    method Fetch(item: ScrapeItem, tokenAnswer: Option<string>, pages: seq<Option<UserPage>>,
                 answer: Option<Gif>) returns (toUser: bool, raised: bool)
      requires ctx.Valid()
      requires "users" in Parts(item.url) ==> Stops(pages)
      modifies this`token, this`headers, ctx
      modifies item`partOfAlbum, item`possibleDatetime, item`parentTitle
      ensures ctx.Valid()
      ensures raised <==> old(token) == "" && tokenAnswer.None?
      ensures old(token) != "" ==> token == old(token) && headers == old(headers)
      ensures old(token) == "" && tokenAnswer.Some? ==>
        token == tokenAnswer.value && headers == map["Authorization" := "Bearer " + token]
      ensures !raised ==> ctx.tasks == old(ctx.tasks) && toUser == ("users" in Parts(item.url))
      ensures raised ==> |ctx.tasks| == |old(ctx.tasks)| + 1 && ctx.handled == old(ctx.handled)
      ensures raised ==> ctx.failures == old(ctx.failures) && item.Snapshot() == old(item.Snapshot())
      ensures !raised && toUser ==>
        var run := PagesRun(old(item.Snapshot()), pages[..LastPage(pages, 0) + 1], helpers);
        && item.Snapshot() == run.0 && ctx.handled == old(ctx.handled) + run.1
        && ctx.failures == old(ctx.failures) + (if run.2 then [] else [HandlerFailed(item.url)])
      ensures !raised && !toUser ==>
        match PostOutcome(old(item.Snapshot()), answer, helpers)
        case None =>
          item.Snapshot() == old(item.Snapshot()) && ctx.handled == old(ctx.handled)
          && ctx.failures == old(ctx.failures) + [HandlerFailed(item.url)]
        case Some(step) =>
          item.Snapshot() == step.0 && ctx.handled == old(ctx.handled) + [step.1]
          && ctx.failures == old(ctx.failures)
    {
      toUser := "users" in Parts(item.url);
      var id := ctx.AddTask(item.url);
      if token == "" {
        var ok := ManageToken(tokenAnswer);
        if !ok {
          return toUser, true;
        }
      }
      if toUser {
        var _, _ := User(item, pages);
      } else {
        var _ := Post(item, answer);
      }
      ctx.RemoveTask(id);
      TaskRoundTrip(old(ctx.tasks), id, item.url);
      raised := false;
    }
  }
}
