/** The Scrolller crawler: a subreddit is read through the GraphQL endpoint,
    page after page, each request carrying the iterator the previous answer
    returned.  The answers are given as values: a falsy answer is `Empty`,
    and a request that raises, or an answer without the keys that lead to
    the items, is `Raised`. */
module Scrolller {
  import opened Common
  import opened UrlObjects
  import opened Crawler

  const ApiUrl: string := "https://api.scrolller.com/api/v2/graphql"

  /** One child of the listing: the URLs of its `mediaSources`, lowest
      resolution first. */
  datatype Post = Post(mediaSources: seq<string>)

  /** One answer: `Empty` when the request yields nothing, `Raised` when
      the request or the lookup of the items raises, otherwise the
      children's items and the iterator for the next request. */
  datatype Answer = Empty | Raised | Children(items: seq<Post>, cursor: Option<string>)

  /** The GraphQL variables of one request. */
  datatype Variables = Variables(url: string, cursor: Option<string>)

  /** The highest-resolution source of every item that has one, in order. */
  function MediaLinks(items: seq<Post>): (r: seq<string>)
    ensures |r| <= |items|
  {
    if |items| == 0 then []
    else
      var p := items[|items| - 1];
      MediaLinks(items[..|items| - 1])
        + (if |p.mediaSources| == 0 then [] else [p.mediaSources[|p.mediaSources| - 1]])
  }

  /** The inner loop over one answer's items, for item `d`: the files handed
      over and whether no link lacked an extension (which raises and ends
      the handler). */
  function ItemsRun(d: ScrapeData, items: seq<Post>, h: Helpers): (seq<HandledFile>, bool) {
    if |items| == 0 then ([], true)
    else
      var prev := ItemsRun(d, items[..|items| - 1], h);
      var p := items[|items| - 1];
      if !prev.1 || |p.mediaSources| == 0 then prev
      else
        var url := h.parseUrl(p.mediaSources[|p.mediaSources| - 1]);
        match h.filenameAndExt(Name(url))
        case None => (prev.0, false)
        case Some(name) => (prev.0 + [HandledFile(url, d, name.0, name.1)], true)
  }

  /** The files handed over are the media links in order, all of them when
      none failed, each recorded with the same item. */
  lemma {:induction false} ItemsRunLinks(d: ScrapeData, items: seq<Post>, h: Helpers)
    ensures var run := ItemsRun(d, items, h);
      && |run.0| <= |MediaLinks(items)|
      && (run.1 ==> |run.0| == |MediaLinks(items)|)
      && forall k :: 0 <= k < |run.0| ==>
           run.0[k].link == h.parseUrl(MediaLinks(items)[k]) && run.0[k].origin == d
  {
    if |items| > 0 {
      ItemsRunLinks(d, items[..|items| - 1], h);
    }
  }

  /** The iterator sent with request `k`: none with the first, afterwards
      the one the previous answer returned. */
  function IteratorSent(answers: seq<Answer>, k: nat): Option<string>
    requires k <= |answers|
  {
    if k == 0 || !answers[k - 1].Children? then None else answers[k - 1].cursor
  }

  /** The loop ends after answer `k` when it is empty or raised, has no
      items, repeats the iterator just sent, or, after the first request,
      has no iterator. */
  predicate StopsAt(answers: seq<Answer>, k: nat)
    requires k < |answers|
  {
    || !answers[k].Children?
    || |answers[k].items| == 0
    || answers[k].cursor == IteratorSent(answers, k)
    || (k > 0 && answers[k].cursor.None?)
  }

  predicate Stops(answers: seq<Answer>) {
    exists k :: 0 <= k < |answers| && StopsAt(answers, k)
  }

  /** The index of the last request the loop makes when nothing fails. */
  function LastRequest(answers: seq<Answer>, from: nat): (n: nat)
    requires from <= |answers| && exists k :: from <= k < |answers| && StopsAt(answers, k)
    ensures from <= n < |answers| && StopsAt(answers, n)
    ensures forall k :: from <= k < n ==> !StopsAt(answers, k)
    decreases |answers| - from
  {
    if StopsAt(answers, from) then from else LastRequest(answers, from + 1)
  }

  /** The loop over the first `n` answers, for item `d`: the files handed
      over and whether nothing raised (no request, and no link without an
      extension). */
  function AnswersRun(d: ScrapeData, answers: seq<Answer>, n: nat, h: Helpers): (seq<HandledFile>, bool)
    requires n <= |answers|
  {
    if n == 0 then ([], true)
    else
      var prev := AnswersRun(d, answers, n - 1, h);
      var a := answers[n - 1];
      if !prev.1 || a.Empty? then prev
      else if a.Raised? then (prev.0, false)
      else
        var run := ItemsRun(d, a.items, h);
        (prev.0 + run.0, run.1)
  }

  /** A failed answer ends the loop: later answers change nothing. */
  lemma {:induction false} AnswersRunStuck(d: ScrapeData, answers: seq<Answer>, i: nat, n: nat, h: Helpers)
    requires i <= n <= |answers| && !AnswersRun(d, answers, i, h).1
    ensures AnswersRun(d, answers, n, h) == AnswersRun(d, answers, i, h)
    decreases n
  {
    if n > i {
      AnswersRunStuck(d, answers, i, n - 1, h);
    }
  }

  /** The variables of the first `n` requests. */
  function RequestsSent(url: string, answers: seq<Answer>, n: nat): (r: seq<Variables>)
    requires n <= |answers|
    ensures |r| == n
    ensures forall k :: 0 <= k < n ==> r[k] == Variables(url, IteratorSent(answers, k))
  {
    seq(n, k requires 0 <= k < n => Variables(url, IteratorSent(answers, k)))
  }

  /** The first answer the loop stops at is the last one requested. */
  /** The loop's last iteration `i`, whether it stops the loop by failing
      or at the stopping answer, leaves the run as the complete one. */
  lemma RunEnds(d: ScrapeData, answers: seq<Answer>, i: nat, h: Helpers)
    requires Stops(answers) && i <= LastRequest(answers, 0)
    requires !AnswersRun(d, answers, i + 1, h).1 || StopsAt(answers, i)
    ensures AnswersRun(d, answers, i + 1, h).1 ==> i + 1 == LastRequest(answers, 0) + 1
    ensures AnswersRun(d, answers, i + 1, h) == AnswersRun(d, answers, LastRequest(answers, 0) + 1, h)
  {
    var last := LastRequest(answers, 0);
    if AnswersRun(d, answers, i + 1, h).1 {
      StopIsLast(answers, i);
    } else {
      AnswersRunStuck(d, answers, i + 1, last + 1, h);
    }
  }

  lemma StopIsLast(answers: seq<Answer>, i: nat)
    requires Stops(answers) && i <= LastRequest(answers, 0) && i < |answers| && StopsAt(answers, i)
    ensures i == LastRequest(answers, 0)
  {
  }

  /** Every request after the first carries an iterator, and never the one
      the request before it carried. */
  lemma RequestsAdvance(answers: seq<Answer>, k: nat)
    requires Stops(answers) && 1 <= k <= LastRequest(answers, 0)
    ensures IteratorSent(answers, k).Some?
    ensures IteratorSent(answers, k) != IteratorSent(answers, k - 1)
  {
    assert !StopsAt(answers, k - 1);
  }

  class ScrolllerCrawler {
    const ctx: ScrapeContext
    const helpers: Helpers

    constructor (ctx: ScrapeContext, helpers: Helpers)
      ensures this.ctx == ctx && this.helpers == helpers
    {
      this.ctx := ctx;
      this.helpers := helpers;
    }

    /** The `for item in items` loop of one answer. */
    method PageItems(item: ScrapeItem, items: seq<Post>) returns (ok: bool)
      modifies ctx`handled
      ensures var run := ItemsRun(item.Snapshot(), items, helpers);
        ctx.handled == old(ctx.handled) + run.0 && ok == run.1
    {
      ghost var d := item.Snapshot();
      var i := 0;
      while i < |items|
        invariant 0 <= i <= |items|
        invariant var run := ItemsRun(d, items[..i], helpers);
          ctx.handled == old(ctx.handled) + run.0 && run.1
      {
        assert items[..i + 1][..i] == items[..i];
        var sources := items[i].mediaSources;
        if |sources| > 0 {
          var url := helpers.parseUrl(sources[|sources| - 1]);
          var name := helpers.filenameAndExt(Name(url));
          if name.None? {
            assert !ItemsRun(d, items[..i + 1], helpers).1;
            ItemsRunStuck(d, items, i + 1, helpers);
            return false;
          }
          ctx.HandleFile(url, item, name.value.0, name.value.1);
        }
        i := i + 1;
      }
      assert items[..i] == items;
      return true;
    }

    /** `subreddit`: the title is added and the item marked as part of an
        album once, before any request; then the request loop runs. */
    method Subreddit(item: ScrapeItem, answers: seq<Answer>) returns (requests: seq<Variables>)
      requires Stops(answers)
      modifies item`parentTitle, item`partOfAlbum, ctx`handled, ctx`failures
      ensures item.Snapshot() == old(item.Snapshot()).(
        parentTitle := AddedTitle(old(item.parentTitle), helpers.createTitle(LastPart(item.url), None, None),
                                  item.retry, helpers.sanitizeFolder),
        partOfAlbum := true)
      ensures 1 <= |requests| <= LastRequest(answers, 0) + 1
      ensures forall k :: 0 <= k < |requests| ==>
        requests[k] == Variables("/r/" + LastPart(item.url), IteratorSent(answers, k))
      ensures var run := AnswersRun(item.Snapshot(), answers, |requests|, helpers);
        && ctx.handled == old(ctx.handled) + run.0
        && ctx.failures == old(ctx.failures) + (if run.1 then [] else [HandlerFailed(item.url)])
        && (run.1 ==> |requests| == LastRequest(answers, 0) + 1)
      ensures !AnswersRun(item.Snapshot(), answers, |requests|, helpers).1 ==>
        AnswersRun(item.Snapshot(), answers, |requests| - 1, helpers).1
      ensures var run := AnswersRun(item.Snapshot(), answers, LastRequest(answers, 0) + 1, helpers);
        && ctx.handled == old(ctx.handled) + run.0
        && ctx.failures == old(ctx.failures) + (if run.1 then [] else [HandlerFailed(item.url)])
    {
      var subreddit := LastPart(item.url);
      var title := helpers.createTitle(subreddit, None, None);
      item.AddToParentTitle(title, helpers.sanitizeFolder);
      item.partOfAlbum := true;
      var ok;
      requests, ok := Requests(item, answers, "/r/" + subreddit);
      if !ok {
        ctx.Fail(HandlerFailed(item.url));
      }
    }

    /** The `while True` loop of `subreddit`: one request per iteration,
        with the iterator of the previous answer; `ok` is false when a
        request, or a link without an extension, raised. */
    method Requests(item: ScrapeItem, answers: seq<Answer>, url: string) returns (requests: seq<Variables>, ok: bool)
      requires Stops(answers)
      modifies ctx`handled
      ensures 1 <= |requests| <= LastRequest(answers, 0) + 1
      ensures |requests| <= |answers| && requests == RequestsSent(url, answers, |requests|)
      ensures var run := AnswersRun(item.Snapshot(), answers, |requests|, helpers);
        && ctx.handled == old(ctx.handled) + run.0
        && ok == run.1
        && (ok ==> |requests| == LastRequest(answers, 0) + 1)
      ensures !ok ==> AnswersRun(item.Snapshot(), answers, |requests| - 1, helpers).1
      ensures AnswersRun(item.Snapshot(), answers, |requests|, helpers)
           == AnswersRun(item.Snapshot(), answers, LastRequest(answers, 0) + 1, helpers)
    {
      ghost var d := item.Snapshot();
      ghost var last := LastRequest(answers, 0);
      var cursor: Option<string> := None;
      var iterations := 0;
      requests := [];
      while true
        invariant 0 <= iterations <= last
        invariant |requests| == iterations
        invariant requests == RequestsSent(url, answers, iterations)
        invariant cursor == IteratorSent(answers, iterations)
        invariant var run := AnswersRun(d, answers, iterations, helpers);
          ctx.handled == old(ctx.handled) + run.0 && run.1
        decreases last - iterations
      {
        requests := requests + [Variables(url, cursor)];
        assert requests == RequestsSent(url, answers, iterations + 1);
        var stop;
        stop, ok, cursor := Round(item, answers[iterations], cursor, iterations, answers, old(ctx.handled));
        if stop {
          RunEnds(d, answers, iterations, helpers);
          return;
        }
        iterations := iterations + 1;
      }
    }

    /** One iteration of the loop: post the request, hand over the answer's
        files, and decide whether to go on.  `iterations` is the number of
        iterations already completed. */
    method Round(item: ScrapeItem, data: Answer, cursor: Option<string>, iterations: nat,
                 ghost answers: seq<Answer>, ghost base: seq<HandledFile>)
      returns (stop: bool, ok: bool, next: Option<string>)
      requires iterations < |answers| && data == answers[iterations]
      requires cursor == IteratorSent(answers, iterations)
      requires var run := AnswersRun(item.Snapshot(), answers, iterations, helpers);
        ctx.handled == base + run.0 && run.1
      modifies ctx`handled
      ensures var run := AnswersRun(item.Snapshot(), answers, iterations + 1, helpers);
        ctx.handled == base + run.0 && ok == run.1
      ensures stop == (!ok || StopsAt(answers, iterations))
      ensures !stop ==> next == IteratorSent(answers, iterations + 1)
    {
      if data.Empty? {
        return true, true, cursor;
      }
      if data.Raised? {
        return true, false, cursor;
      }
      ok := PageItems(item, data.items);
      if !ok {
        return true, false, cursor;
      }
      var prev := cursor;
      next := data.cursor;
      if |data.items| == 0 || next == prev {
        return true, true, next;
      }
      if iterations > 0 && next.None? {
        return true, true, next;
      }
      stop := false;
    }

    /** `fetch`: an "r" path part selects a subreddit, anything else is
        logged as unsupported. */
    method Fetch(item: ScrapeItem, answers: seq<Answer>) returns (toSubreddit: bool)
      requires ctx.Valid()
      requires "r" in Parts(item.url) ==> Stops(answers)
      modifies ctx, item`parentTitle, item`partOfAlbum
      ensures ctx.Valid() && ctx.tasks == old(ctx.tasks)
      ensures toSubreddit == ("r" in Parts(item.url))
      ensures !toSubreddit ==>
        && ctx.failures == old(ctx.failures) + [Unsupported(item.url)]
        && ctx.handled == old(ctx.handled) && ctx.queue == old(ctx.queue)
        && item.Snapshot() == old(item.Snapshot())
      ensures ctx.queue == old(ctx.queue) && ctx.cookies == old(ctx.cookies)
      ensures toSubreddit ==>
        var d := old(item.Snapshot()).(
          parentTitle := AddedTitle(old(item.parentTitle), helpers.createTitle(LastPart(item.url), None, None),
                                    item.retry, helpers.sanitizeFolder),
          partOfAlbum := true);
        var run := AnswersRun(d, answers, LastRequest(answers, 0) + 1, helpers);
        && item.Snapshot() == d
        && ctx.handled == old(ctx.handled) + run.0
        && ctx.failures == old(ctx.failures) + (if run.1 then [] else [HandlerFailed(item.url)])
    {
      var id := ctx.AddTask(item.url);
      toSubreddit := "r" in Parts(item.url);
      if toSubreddit {
        var requests := Subreddit(item, answers);
      } else {
        ctx.Fail(Unsupported(item.url));
      }
      ctx.RemoveTask(id);
      TaskRoundTrip(old(ctx.tasks), id, item.url);
    }
  }

  /** A failed item ends the answer: later items change nothing. */
  lemma {:induction false} ItemsRunStuck(d: ScrapeData, items: seq<Post>, i: nat, h: Helpers)
    requires i <= |items| && !ItemsRun(d, items[..i], h).1
    ensures ItemsRun(d, items, h) == ItemsRun(d, items[..i], h)
  {
    if i < |items| {
      assert items[..|items| - 1][..i] == items[..i];
      ItemsRunStuck(d, items[..|items| - 1], i, h);
    } else {
      assert items[..i] == items;
    }
  }
}
