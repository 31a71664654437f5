/** What the newer crawlers share through their base class: the scrape
    queue, the download hand-off (`handle_file`), the progress tracker, the
    failure log kept by the error-handling wrapper, and the client's cookie
    jar.  The site crawlers of this model hold one `ScrapeContext` and change
    it only through the methods below.  The helper functions that live
    outside the crawlers (title creation, folder sanitising, filename
    splitting, URL parsing) are not part of this model: a crawler receives
    them as the function values of a `Helpers` record and nothing is assumed
    about them. */
module Crawler {
  import opened Common
  import opened UrlObjects

  datatype Helpers = Helpers(
    /** `sanitize_folder` */
    sanitizeFolder: string -> string,
    /** `create_title(title, album_id, thread_id)` */
    createTitle: (string, Option<string>, Option<string>) -> string,
    /** `get_filename_and_ext(name)`; `None` is `NoExtensionFailure`. */
    filenameAndExt: string -> Option<(string, string)>,
    /** `URL(text)` */
    parseUrl: string -> Url,
    /** `create_scrape_item(item, url, title[, part_of_album])`; `None` when
        the last argument is omitted. */
    createScrapeItem: (ScrapeData, Url, string, Option<bool>) -> ScrapeData,
    formats: FileFormats)

  /** One `handle_file(link, scrape_item, filename, ext)` call, with the item
      as it was at the time of the call. */
  datatype HandledFile = HandledFile(link: Url, origin: ScrapeData, filename: string, ext: string)

  datatype Failure =
    | HandlerFailed(url: Url)   // an exception caught by the error-handling wrapper
    | UnknownUrl(url: Url)      // "Scrape Failed: Unknown URL Path", counted as "Unknown"
    | Unsupported(url: Url)     // logged as not supported by the crawler

  /** A cookie is identified by the URL it is scoped to and its name. */
  datatype CookieKey = CookieKey(scope: string, name: string)

  class ScrapeContext {
    var queue: seq<ScrapeData>
    var handled: seq<HandledFile>
    var failures: seq<Failure>
    /** The scraping progress tasks that are still open. */
    var tasks: map<nat, Url>
    var nextTaskId: nat
    var cookies: map<CookieKey, string>

    /** Task identifiers are never reused. */
    ghost predicate Valid()
      reads this`tasks, this`nextTaskId
    {
      forall id :: id in tasks ==> id < nextTaskId
    }

    constructor ()
      ensures Valid()
      ensures queue == [] && handled == [] && failures == []
      ensures tasks == map[] && cookies == map[]
    {
      queue := [];
      handled := [];
      failures := [];
      tasks := map[];
      nextTaskId := 0;
      cookies := map[];
    }

    /** `scraping_progress.add_task(url)` */
    method AddTask(url: Url) returns (id: nat)
      requires Valid()
      modifies this`tasks, this`nextTaskId
      ensures Valid()
      ensures id !in old(tasks) && tasks == old(tasks)[id := url]
    {
      id := nextTaskId;
      tasks := tasks[id := url];
      nextTaskId := nextTaskId + 1;
    }

    /** `scraping_progress.remove_task(id)` */
    method RemoveTask(id: nat)
      requires Valid()
      modifies this`tasks
      ensures Valid()
      ensures tasks == old(tasks) - {id}
    {
      tasks := tasks - {id};
    }

    /** `scraper_queue.put(item)` */
    method Put(item: ScrapeData)
      modifies this`queue
      ensures queue == old(queue) + [item]
    {
      queue := queue + [item];
    }

    /** `handle_file(link, scrape_item, filename, ext)` */
    method HandleFile(link: Url, item: ScrapeItem, filename: string, ext: string)
      modifies this`handled
      ensures handled == old(handled) + [HandledFile(link, item.Snapshot(), filename, ext)]
    {
      handled := handled + [HandledFile(link, item.Snapshot(), filename, ext)];
    }

    method Fail(failure: Failure)
      modifies this`failures
      ensures failures == old(failures) + [failure]
    {
      failures := failures + [failure];
    }

    /** `cookies.update_cookies({name: value}, response_url=scope)` */
    method UpdateCookie(scope: string, name: string, value: string)
      modifies this`cookies
      ensures cookies == old(cookies)[CookieKey(scope, name) := value]
    {
      cookies := cookies[CookieKey(scope, name) := value];
    }
  }

  /** Opening a task and closing the same task leaves the open tasks as they
      were: the pairing every `fetch` relies on. */
  lemma TaskRoundTrip(tasks: map<nat, Url>, id: nat, url: Url)
    requires id !in tasks
    ensures tasks[id := url] - {id} == tasks
  {
    assert tasks[id := url] - {id} == tasks;
  }
}
