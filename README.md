# Cyberdrop-DL: the scraping and download bookkeeping, in Dafny

Cyberdrop-DL is a bulk downloader. A crawler per site turns a URL into
scrape items. These are folder-titled work items that can spawn further
items or hand files to the downloader. The downloader writes each file
to disk and resumes from a partial `.part` file. It names files so they
do not collide, and it retries failed transfers under an attempt limit.

This project models the decision and bookkeeping code of two
generations of the program, one module per source file:

| module | file | what it holds |
|---|---|---|
| `Common` | common.dfy | `Option`, the parts of Python `str` and yarl `URL` that the code reads, `Range` header formatting, order-preserving de-duplication |
| `FileSystem` | filesystem.dfy | the local disk as a `Disk` object over a map from paths to file sizes, with rename, write and remove |
| `UrlObjects` | url_objects.dfy | the `ScrapeItem` and `MediaItem` work items; the `add_to_parent_title` title composition |
| `Crawler` | crawler.dfy | what the newer crawlers share through their base class: the scrape queue, the `handle_file` hand-off, progress tasks, the failure log, the cookie jar |
| `Bunkrr` | bunkrr.dfy | the Bunkrr crawler: CDN link rewriting, the date parser, DDoS-Guard cookies, dispatch, album children, the filename fallback |
| `Rule34xxx` | rule34xxx.dfy | the Rule34.xxx crawler: dispatch on the query, tag listings with the next page, post files, the cookie |
| `RedGifs` | redgifs.dfy | the RedGifs crawler: the token, the paged user listing, the single post, the hd/sd choice |
| `Scrolller` | scrolller.dfy | the Scrolller crawler: the iterator-driven subreddit pagination and the media-source choice |
| `SupportedDomains` | supported_domains.dfy | the constant host, forum and DDoS-Guard tables, with their consistency |
| `Download` | downloader.dfy | the newer per-domain downloader: file lock, size limits, folder flattening, free-name search, existing-file checks, error classification, the `retry` wrapper, the queue loop |
| `LegacyDownload` | legacy_downloaders.dfy | the older downloader: filename normalisation, extension and exclusion filters, resume and rename, the `retry` counter, worker selection, `get_downloaders` |
| `NsfwXxx` | nsfwxxx.dfy | the older NSFW.XXX crawler: user pages, post de-duplication, link filtering, folder titles |

**Imperative and pure code.** Code that mutates objects is modelled as
classes whose methods carry `modifies` clauses. This covers:
- the items, the file lock and the downloaders;
- the crawlers' cookie flags, tokens and queues.

Each such method states its new state in terms of a specification function
of the old state. The properties the source promises are then proved about
those functions. Loops stay loops with invariants: the retry wrappers, the
pagination loops, the free-name search, the folder walk, the queue loop and
`get_downloaders`.

**What the network and the helpers become.**
- Everything the network answers is an input value, and a run of answers is
  a sequence. Most failures a handler catches have an input case: `None`
  for a page, a card's link or date, a listing anchor's `href` or a post's
  `src`, `NoSrc` for a Rule34.xxx element without one, `Raised` for a
  Scrolller answer, and an empty host for a relative link. The failures
  that no input case represents are listed under "Left out".
- Helpers that live elsewhere in the program are function values or
  constants. Nothing is assumed about them: `sanitize`, `sanitize_folder`,
  `create_title`, `get_filename_and_ext`, `FILE_FORMATS`,
  `MAX_FILENAME_LENGTH`, `is_4xx_client_error` and `URL` parsing.

**Two fields kept as written.** The older `retry` wrapper increments
`attempts` and never `current_attempt`. The class `LegacyDownload.Downloader`
keeps both fields exactly as written: `attempts` grows with each caught
failure and `current_attempt` stays at its initial 0. A corrected retry
function is proved alongside it (see Findings).

## Model

| member | source | states |
|---|---|---|
| UrlObjects.ScrapeItem.constructor | cyberdrop_dl/utils/dataclasses/url_objects.py:28-35 | the new item holds the given url, parent title, album flag, date, retry flag and retry path |
| UrlObjects.NewScrapeItem | cyberdrop_dl/utils/dataclasses/url_objects.py:28-35 | constructing with only url and title gives the defaults: not part of an album, no date, not a retry, no retry path |
| UrlObjects.ScrapeItem.AddToParentTitle | cyberdrop_dl/utils/dataclasses/url_objects.py:37-42 | an empty title or a retry item leaves the title unchanged; otherwise the sanitised title is appended after "/", or becomes the title when there was none; no other field changes |
| UrlObjects.AddedTitleAppendsLevel | cyberdrop_dl/utils/dataclasses/url_objects.py:41-42 | on a non-retry item, adding a title whose sanitised form is a single non-empty folder name adds exactly that one folder level |
| UrlObjects.RetryTitleFixed | cyberdrop_dl/utils/dataclasses/url_objects.py:39-40 | on a retry item, any number of added titles leave the parent title unchanged |
| UrlObjects.AddedTitlesAppendLevels | cyberdrop_dl/utils/dataclasses/url_objects.py:37-42 | a series of titles adds one folder level per non-empty title, in order |
| UrlObjects.MediaItem.constructor | cyberdrop_dl/utils/dataclasses/url_objects.py:13-24 | url, referer, folder, filename, ext and original filename are stored as given; download filename, datetime, size, attempt and task id start unset |
| FileSystem.Parent | cyberdrop_dl/downloader/downloader.py:227 | the parent of a path drops its last component; the root is its own parent |
| FileSystem.PartialName | cyberdrop_dl/downloader/downloader.py:338 | the partial file of a name is that name followed by ".part" |
| FileSystem.PartialFileDistinct | cyberdrop_dl/downloader/downloader.py:338 | the partial file is never the complete file it stands for |
| FileSystem.Disk.Rename | cyberdrop_dl/utils/downloaders.py:202 | renaming succeeds exactly when the source exists; the target then holds the source's size and the source is gone; otherwise nothing changes |
| FileSystem.Disk.Write | cyberdrop_dl/utils/downloaders.py:174-176 | after writing, the path holds the new size and no other file changes |
| FileSystem.Disk.Remove | cyberdrop_dl/utils/downloaders.py:200 | the path is gone, no other file changes, and the result says whether it existed |
| Crawler.ScrapeContext.AddTask | cyberdrop_dl/scraper/crawlers/bunkrr_crawler.py:33 | a progress task gets an identifier not in use and is recorded under it |
| Crawler.ScrapeContext.RemoveTask | cyberdrop_dl/scraper/crawlers/bunkrr_crawler.py:45 | that progress task is closed and every other open one remains |
| Crawler.TaskRoundTrip | cyberdrop_dl/scraper/crawlers/bunkrr_crawler.py:33-45 | adding a task with a fresh identifier and then removing it restores the open tasks |
| Crawler.ScrapeContext.Put | cyberdrop_dl/scraper/crawlers/bunkrr_crawler.py:68 | the item is appended to the scrape queue |
| Crawler.ScrapeContext.HandleFile | cyberdrop_dl/scraper/crawlers/bunkrr_crawler.py:83 | the file is handed over with the item's state at the time of the call |
| Crawler.ScrapeContext.Fail | cyberdrop_dl/scraper/crawlers/rule34xxx_crawler.py:37-38 | the failure is appended to the failure log |
| Crawler.ScrapeContext.UpdateCookie | cyberdrop_dl/scraper/crawlers/rule34xxx_crawler.py:94 | the cookie of that name in that scope takes the value, and no other cookie changes |
| Bunkrr.ImageHost | cyberdrop_dl/scraper/crawlers/bunkrr_crawler.py:114 | a host changes exactly when its first label is "cdn" followed only by digits, and then "cdn" becomes "i" |
| Bunkrr.GetStreamLink | cyberdrop_dl/scraper/crawlers/bunkrr_crawler.py:102-111 | a URL whose host is not a CDN host, or whose name has no suffix, comes back unchanged |
| Bunkrr.StreamLinkByCategory | cyberdrop_dl/scraper/crawlers/bunkrr_crawler.py:109-118 | a CDN URL with an image suffix keeps its path and gets the image host; a video becomes bunkrr.su/v/<name>; anything else becomes bunkrr.su/d/<name> |
| Bunkrr.BunkrrHostsPassThrough | cyberdrop_dl/scraper/crawlers/bunkrr_crawler.py:104-107 | every <label>.bunkrr.<tld> host passes through unchanged, since the pattern admits only "bunk" and "bunkr" |
| Bunkrr.PrimaryHostNotCdn | cyberdrop_dl/scraper/crawlers/bunkrr_crawler.py:23 | the primary domain bunkrr.su is not a CDN host |
| Bunkrr.LabelStartingWithI | cyberdrop_dl/scraper/crawlers/bunkrr_crawler.py:104 | no host label beginning with "i", such as a rewritten image host, matches the CDN pattern |
| Bunkrr.ImageHostIdempotent | cyberdrop_dl/scraper/crawlers/bunkrr_crawler.py:114 | rewriting an image host twice gives the same host as rewriting it once |
| Bunkrr.GetStreamLinkIdempotent | cyberdrop_dl/scraper/crawlers/bunkrr_crawler.py:102-120 | resolving an already resolved link changes nothing, so `album` and `fetch` may both apply it |
| Bunkrr.ParseDatetime | cyberdrop_dl/scraper/crawlers/bunkrr_crawler.py:122-125 | a text parses only when its six fields are digit groups separated as in "HH:MM:SS DD/MM/YYYY" and name a real time and date; the result is then its UTC epoch seconds |
| Bunkrr.Groups | cyberdrop_dl/scraper/crawlers/bunkrr_crawler.py:122-125 | a text cut at one space, two colons and two slashes yields exactly six groups |
| Bunkrr.LayoutGroups | cyberdrop_dl/scraper/crawlers/bunkrr_crawler.py:122-125 | digit groups written in the "HH:MM:SS DD/MM/YYYY" layout cut back into the same groups |
| Bunkrr.GroupsLayout | cyberdrop_dl/scraper/crawlers/bunkrr_crawler.py:122-125 | the groups of a text, written in the layout again, give back the text |
| Bunkrr.ParseLayout | cyberdrop_dl/scraper/crawlers/bunkrr_crawler.py:122-125 | six digit groups in the layout parse exactly when they name a real time and date, and then to its UTC timestamp |
| Bunkrr.ParsedShape | cyberdrop_dl/scraper/crawlers/bunkrr_crawler.py:122-125 | conversely, a text that parses is six digit groups in that layout, and its value is their UTC timestamp |
| Bunkrr.Pad2 | cyberdrop_dl/scraper/crawlers/bunkrr_crawler.py:122-125 | two zero-padded digits that read back as the number |
| Bunkrr.Pad4 | cyberdrop_dl/scraper/crawlers/bunkrr_crawler.py:122-125 | four zero-padded digits that read back as the number |
| Bunkrr.FormatRoundTrip | cyberdrop_dl/scraper/crawlers/bunkrr_crawler.py:122-125 | every valid time and date of a four-digit year, written as "HH:MM:SS DD/MM/YYYY", parses back to its own UTC timestamp |
| Bunkrr.LeapByDivisors | cyberdrop_dl/scraper/crawlers/bunkrr_crawler.py:124 | a year has 366 days exactly when the Gregorian divisibility rule makes it a leap year |
| Bunkrr.DaysBeforeYearCounts | cyberdrop_dl/scraper/crawlers/bunkrr_crawler.py:125 | the closed formula for days before a year equals the sum of the lengths of the years before it |
| Bunkrr.DaysBeforeMonthCounts | cyberdrop_dl/scraper/crawlers/bunkrr_crawler.py:125 | the days before a month equal the sum of the lengths of the earlier months of that year |
| Bunkrr.DaysSinceEpochCounts | cyberdrop_dl/scraper/crawlers/bunkrr_crawler.py:125 | the day number counts every day from 1970-01-01 to the date |
| Bunkrr.EpochSecondsSplit | cyberdrop_dl/scraper/crawlers/bunkrr_crawler.py:125 | the epoch seconds divided by 86400 give the day number, and the remainder gives the time of day |
| Bunkrr.ParseDatetimeExample | cyberdrop_dl/scraper/crawlers/bunkrr_crawler.py:122-125 | "14:30:00 05/03/2021" is 1614954600 |
| Bunkrr.PrimedCookies | cyberdrop_dl/scraper/crawlers/bunkrr_crawler.py:134-139 | each of the three DDoS-Guard cookies is set in the *.bunkrr.su scope exactly when its setting is non-empty, to that setting; every other cookie keeps its value and no other cookie appears |
| Bunkrr.BunkrrCrawler.constructor | cyberdrop_dl/scraper/crawlers/bunkrr_crawler.py:21-27 | a new crawler has not set its cookies |
| Bunkrr.BunkrrCrawler.SetCookies | cyberdrop_dl/scraper/crawlers/bunkrr_crawler.py:129-141 | the first call primes the cookie jar and later calls change nothing; the flag is set afterwards |
| Bunkrr.AlbumChildren | cyberdrop_dl/scraper/crawlers/bunkrr_crawler.py:59-68 | an album never yields more children than it has cards |
| Bunkrr.CardDate | cyberdrop_dl/scraper/crawlers/bunkrr_crawler.py:62-64 | a card is read only when it has both a date and a link, and its timestamp is then its parsed date |
| Bunkrr.CardRead | cyberdrop_dl/scraper/crawlers/bunkrr_crawler.py:61-67 | a card is handled exactly when it is read and its resolved link has a host for `get_stream_link` to match; its timestamp is then its parsed date |
| Bunkrr.AlbumChildrenEnd | cyberdrop_dl/scraper/crawlers/bunkrr_crawler.py:59-68 | the children stop exactly at the first card whose handling raises |
| Bunkrr.AlbumChildrenAt | cyberdrop_dl/scraper/crawlers/bunkrr_crawler.py:59-68 | the children stop at the first card whose handling raises; before that, card i yields child i |
| Bunkrr.AlbumChildrenElements | cyberdrop_dl/scraper/crawlers/bunkrr_crawler.py:59-68 | every child comes from the card at its own position, which was handled in full |
| Bunkrr.AlbumChildrenShape | cyberdrop_dl/scraper/crawlers/bunkrr_crawler.py:62-68 | each child is part of an album, under the album's title, with its card's parsed date, not a retry, and its link already resolved |
| Bunkrr.FileNameChoice | cyberdrop_dl/scraper/crawlers/bunkrr_crawler.py:78-81 | the name comes from the link when it has an extension, else from the page URL, and fails only when neither has one |
| Bunkrr.BunkrrCrawler.Album | cyberdrop_dl/scraper/crawlers/bunkrr_crawler.py:47-68 | without a page, a title or an album id, one failure is logged and nothing changes; otherwise the album title is added and the children are enqueued, with a failure logged when a card whose date, link or link host is missing or malformed stops the loop |
| Bunkrr.BunkrrCrawler.EnqueueChildren | cyberdrop_dl/scraper/crawlers/bunkrr_crawler.py:59-68 | the queue grows by exactly the album's children, and the result says whether a card was left out |
| Bunkrr.BunkrrCrawler.EnqueueCard | cyberdrop_dl/scraper/crawlers/bunkrr_crawler.py:60-68 | one card enqueues its child, or stops the loop when its handling raises |
| Bunkrr.BunkrrCrawler.EnqueueChild | cyberdrop_dl/scraper/crawlers/bunkrr_crawler.py:63-68 | the child item is appended to the queue exactly when the resolved link has a host; otherwise nothing is enqueued |
| Bunkrr.BunkrrCrawler.FilePage | cyberdrop_dl/scraper/crawlers/bunkrr_crawler.py:70-98 | the last download anchor is handed over under the chosen name; a missing anchor or name logs a failure instead |
| Bunkrr.BunkrrCrawler.Dispatch | cyberdrop_dl/scraper/crawlers/bunkrr_crawler.py:38-43 | "a" in the path goes to the album, else "v" to the video page, else to the file page; the album route leaves the title, queue and failures of the album outcome and hands over no file, and the others leave the files and failures of the file-page outcome and enqueue nothing |
| Bunkrr.BunkrrCrawler.Fetch | cyberdrop_dl/scraper/crawlers/bunkrr_crawler.py:31-45 | the item's URL is resolved first and the cookies are set once; then the album or file-page outcome of the resolved item is what the crawler leaves behind, and the progress tasks end as they began |
| Rule34xxx.AbsoluteLink | cyberdrop_dl/scraper/crawlers/rule34xxx_crawler.py:54-55 | an href starting with "/" is prefixed with https://rule34.xxx; any other is kept |
| Rule34xxx.NextPageUrl | cyberdrop_dl/scraper/crawlers/rule34xxx_crawler.py:64-67 | a "?" href keeps the current scheme, host and path and replaces the query; any other is parsed as an absolute URL |
| Rule34xxx.TagItems | cyberdrop_dl/scraper/crawlers/rule34xxx_crawler.py:51-69 | one item per listing link in order, under the tag title, up to the first anchor without an `href`; when every anchor has one, at most one next-page item with an empty title |
| Rule34xxx.ElementFiles | cyberdrop_dl/scraper/crawlers/rule34xxx_crawler.py:77-85 | an element is read exactly when it is missing or has a `src` whose name has an extension; it then hands over nothing or its link |
| Rule34xxx.PostFiles | cyberdrop_dl/scraper/crawlers/rule34xxx_crawler.py:76-85 | at most two files, each with an extension; none when the post has neither image nor video |
| Rule34xxx.PostFilesMeaning | cyberdrop_dl/scraper/crawlers/rule34xxx_crawler.py:76-85 | the files handed over are a prefix of the post's source links, image first, and all of them when the post is read in full; it is read in full exactly when no element lacks a `src` and every source has an extension |
| Rule34xxx.PostHandledConcat | cyberdrop_dl/scraper/crawlers/rule34xxx_crawler.py:76-85 | handing over the image's files and then the video's is handing over both in that order |
| Rule34xxx.Rule34xxxCrawler.constructor | cyberdrop_dl/scraper/crawlers/rule34xxx_crawler.py:17-22 | a new crawler has not set its cookie |
| Rule34xxx.Rule34xxxCrawler.SetCookies | cyberdrop_dl/scraper/crawlers/rule34xxx_crawler.py:89-96 | the first call sets resize-original=1 for https://rule34.xxx and later calls change nothing |
| Rule34xxx.Rule34xxxCrawler.Tag | cyberdrop_dl/scraper/crawlers/rule34xxx_crawler.py:42-69 | with a page and a tags value, the items of the listing are enqueued under the title made from the decoded and stripped tags, and an anchor without an `href` logs one failure after the posts before it; otherwise one failure is logged and nothing is enqueued |
| Rule34xxx.Rule34xxxCrawler.EnqueueListing | cyberdrop_dl/scraper/crawlers/rule34xxx_crawler.py:51-69 | the queue grows by exactly the listing's items, and the result says whether an anchor without an `href` stopped the loop |
| Rule34xxx.Rule34xxxCrawler.File | cyberdrop_dl/scraper/crawlers/rule34xxx_crawler.py:71-85 | the image and then the video are handed over with their names, up to the first element without a `src` or an extension, which logs one failure; a missing page logs one failure |
| Rule34xxx.Rule34xxxCrawler.HandElement | cyberdrop_dl/scraper/crawlers/rule34xxx_crawler.py:77-85 | one element hands over its file exactly when it is read, and reports whether reading it raised |
| Rule34xxx.Rule34xxxCrawler.Dispatch | cyberdrop_dl/scraper/crawlers/rule34xxx_crawler.py:32-38 | "tags" in the decoded query string goes to the listing, else "id" to the post, else an unknown-URL failure; each route adds its handler's outcome and leaves the other's output alone |
| Rule34xxx.Rule34xxxCrawler.Fetch | cyberdrop_dl/scraper/crawlers/rule34xxx_crawler.py:26-40 | "tags" in the decoded query string goes to the listing, else "id" to the post, else an unknown-URL failure; the listing route enqueues the tag outcome, the post route hands over the post outcome, and no route touches the other's output; the cookie is set once and the progress tasks end as they began |
| RedGifs.ItemId | cyberdrop_dl/scraper/crawlers/redgifs_crawler.py:43 | the id is the last path part up to, and not including, its first "." |
| RedGifs.UserLink | cyberdrop_dl/scraper/crawlers/redgifs_crawler.py:58-61 | the hd link unless it is missing or null, then the sd link |
| RedGifs.PostLink | cyberdrop_dl/scraper/crawlers/redgifs_crawler.py:83-86 | the hd link whenever the key exists, even null, else the sd link |
| RedGifs.LinkChoicesAgree | cyberdrop_dl/scraper/crawlers/redgifs_crawler.py:58-86 | the two choices differ only for a null hd link, where the post handler has no link |
| RedGifs.LastPage | cyberdrop_dl/scraper/crawlers/redgifs_crawler.py:45-68 | the last page requested is the first whose answer fails or reports no more pages than its own number |
| RedGifs.PagesRunStuck | cyberdrop_dl/scraper/crawlers/redgifs_crawler.py:45-68 | once a page fails, the later pages change nothing |
| RedGifs.StoppedRun | cyberdrop_dl/scraper/crawlers/redgifs_crawler.py:45-68 | a run that fails at a page before the last is the run up to the last page |
| RedGifs.GifsRunShape | cyberdrop_dl/scraper/crawlers/redgifs_crawler.py:52-67 | a page hands over at most one file per gif, all of them when none fails, and keeps the item's url and retry flag |
| RedGifs.GifsRunStuck | cyberdrop_dl/scraper/crawlers/redgifs_crawler.py:52-67 | once a gif fails, the later gifs change nothing |
| RedGifs.GifsRunItem | cyberdrop_dl/scraper/crawlers/redgifs_crawler.py:52-67 | after the gifs handled so far, the one item carries one added title per gif, is part of an album, and has the last gif's date |
| RedGifs.GifsRunTitle | cyberdrop_dl/scraper/crawlers/redgifs_crawler.py:64-67 | after the gifs handled so far, the item's title carries the title of each of them in order |
| RedGifs.GifsRunDate | cyberdrop_dl/scraper/crawlers/redgifs_crawler.py:64-67 | after at least one gif, the item has the date of the last gif handled |
| RedGifs.GifsRunFile | cyberdrop_dl/scraper/crawlers/redgifs_crawler.py:52-67 | the k-th file is handed over with the item as it stood right after gif k |
| RedGifs.GifsRunTitles | cyberdrop_dl/scraper/crawlers/redgifs_crawler.py:64-67 | the k-th file's item carries the titles of gifs 1 to k, is part of an album, and has gif k's date |
| RedGifs.RedGifsCrawler.constructor | cyberdrop_dl/scraper/crawlers/redgifs_crawler.py:17-22 | a new crawler has an empty token and no headers |
| RedGifs.RedGifsCrawler.ManageToken | cyberdrop_dl/scraper/crawlers/redgifs_crawler.py:96-101 | an answered token is stored and the headers become exactly {"Authorization": "Bearer " + token}; a failed request changes nothing |
| RedGifs.RedGifsCrawler.Post | cyberdrop_dl/scraper/crawlers/redgifs_crawler.py:70-92 | a gif with a usable link updates the item and hands over its file; otherwise one failure is logged and nothing else changes; the id read is that of the item's URL |
| RedGifs.RedGifsCrawler.UserGifs | cyberdrop_dl/scraper/crawlers/redgifs_crawler.py:52-67 | the item and the files handed over are those of the run over the page's gifs |
| RedGifs.RedGifsCrawler.User | cyberdrop_dl/scraper/crawlers/redgifs_crawler.py:40-68 | pages 1, 2, ... are requested, never past the last page and never past the first failing page; the item and the files are the run up to the last page, and a failure is logged when it fails |
| RedGifs.RedGifsCrawler.RequestUserPage | cyberdrop_dl/scraper/crawlers/redgifs_crawler.py:47-51 | one more page extends the run, and the loop stops when the run fails |
| RedGifs.RedGifsCrawler.Fetch | cyberdrop_dl/scraper/crawlers/redgifs_crawler.py:26-38 | a token is requested only while none is held, and a failed token request leaves a progress task open and changes nothing else; otherwise "users" in the path leaves the item and files of the listing run, and any other path the outcome of the single post |
| Scrolller.MediaLinks | cyberdrop_dl/scraper/crawlers/scrolller_crawler.py:92-97 | at most one link per item |
| Scrolller.ItemsRunLinks | cyberdrop_dl/scraper/crawlers/scrolller_crawler.py:92-97 | the files handed over are the last media source of each item that has one, in order, all of them when none fails |
| Scrolller.ItemsRunStuck | cyberdrop_dl/scraper/crawlers/scrolller_crawler.py:92-97 | once an item fails, the later items change nothing |
| Scrolller.AnswersRunStuck | cyberdrop_dl/scraper/crawlers/scrolller_crawler.py:85-107 | once an answer fails, the later answers change nothing |
| Scrolller.LastRequest | cyberdrop_dl/scraper/crawlers/scrolller_crawler.py:85-107 | the last request is the first answer that is empty, has no items, repeats the iterator, or has no iterator after the first request |
| Scrolller.RequestsSent | cyberdrop_dl/scraper/crawlers/scrolller_crawler.py:82-100 | request k carries the subreddit path and the iterator of the answer before it (none for the first) |
| Scrolller.StopIsLast | cyberdrop_dl/scraper/crawlers/scrolller_crawler.py:102-107 | no answer before the last request stops the loop |
| Scrolller.RunEnds | cyberdrop_dl/scraper/crawlers/scrolller_crawler.py:102-107 | the iteration that stops the loop, by failing or at the stopping answer, leaves the same run as running to the last request; a run still going there ends exactly at the last request |
| Scrolller.RequestsAdvance | cyberdrop_dl/scraper/crawlers/scrolller_crawler.py:99-105 | every request after the first carries an iterator, and never the one sent just before |
| Scrolller.ScrolllerCrawler.constructor | cyberdrop_dl/scraper/crawlers/scrolller_crawler.py:18-22 | the crawler works on the given context and helpers |
| Scrolller.ScrolllerCrawler.PageItems | cyberdrop_dl/scraper/crawlers/scrolller_crawler.py:92-97 | the files handed over are the run over the answer's items |
| Scrolller.ScrolllerCrawler.Subreddit | cyberdrop_dl/scraper/crawlers/scrolller_crawler.py:38-109 | the title is added and the album flag set once; the requests are those sent, each for "/r/<name>", never past the last request and never past the first failing answer; the files and failures are those of the run up to the last request |
| Scrolller.ScrolllerCrawler.Requests | cyberdrop_dl/scraper/crawlers/scrolller_crawler.py:82-109 | the loop sends exactly the requests up to the stop, or up to the first failing answer, and the files are those of the run up to the stop |
| Scrolller.ScrolllerCrawler.Round | cyberdrop_dl/scraper/crawlers/scrolller_crawler.py:86-109 | one round extends the run by one answer, stops exactly at a stop condition or failure, and otherwise passes on the answer's iterator |
| Scrolller.ScrolllerCrawler.Fetch | cyberdrop_dl/scraper/crawlers/scrolller_crawler.py:26-36 | "r" in the path adds the title, sets the album flag and hands over the files of the subreddit run, logging a failure when it fails; otherwise the URL is logged as unsupported and nothing else changes; the progress tasks end as they began |
| SupportedDomains.HostPositions | cyberdrop_dl/utils/dataclasses/supported_domains.py:8-16 | each host sits at a position no other host shares |
| SupportedDomains.HostsDistinct | cyberdrop_dl/utils/dataclasses/supported_domains.py:8-16 | no host is listed twice |
| SupportedDomains.ForumsDistinct | cyberdrop_dl/utils/dataclasses/supported_domains.py:18-24 | no forum and no DDoS-Guard domain is listed twice |
| SupportedDomains.ForumsMapKeys | cyberdrop_dl/utils/dataclasses/supported_domains.py:18-22 | the forum map has exactly the listed forums as keys |
| SupportedDomains.DdosGuardMapKeys | cyberdrop_dl/utils/dataclasses/supported_domains.py:24-25 | the DDoS-Guard map has exactly the listed domains as keys, each starting with "." |
| SupportedDomains.DdosGuardHostsSupported | cyberdrop_dl/utils/dataclasses/supported_domains.py:8-25 | every DDoS-Guard domain maps to a supported host |
| SupportedDomains.ForumHostsSupported | cyberdrop_dl/utils/dataclasses/supported_domains.py:8-22 | every forum maps to a supported host except "nudostar", for which only "nudostar.com" and "nudostar.tv" are listed |
| Download.RemoveFirstAt | cyberdrop_dl/downloader/downloader.py:113 | removing a present entry takes out exactly its first occurrence |
| Download.RemoveFirstShape | cyberdrop_dl/downloader/downloader.py:113 | removing a present entry shortens the list by one and takes one copy out of its multiset |
| Download.AddRemoveRoundTrip | cyberdrop_dl/downloader/downloader.py:107-113 | adding an absent lock and removing it restores the list |
| Download.FileLock.constructor | cyberdrop_dl/downloader/downloader.py:100-101 | a new lock holds no file |
| Download.FileLock.AddLock | cyberdrop_dl/downloader/downloader.py:107-109 | the file is appended and is then locked |
| Download.FileLock.RemoveLock | cyberdrop_dl/downloader/downloader.py:111-113 | the first occurrence goes and the rest stay in order; failure is reported exactly when the file was not locked |
| Download.WithinLimitsMeaning | cyberdrop_dl/downloader/downloader.py:188-221 | the size passes exactly when it is at least the minimum and, if a maximum is set, at most the maximum, for images, videos or other by extension |
| Download.Ancestor | cyberdrop_dl/downloader/downloader.py:227-228 | walking up k times drops the last k components |
| Download.NoExitOutsideRoot | cyberdrop_dl/downloader/downloader.py:227-228 | from a folder not strictly under the root, no ancestor has the root as its parent, so the walk cannot end |
| Download.CandidateInjective | cyberdrop_dl/downloader/downloader.py:293 | different numbers give different candidate names |
| Download.ClassifyMeaning | cyberdrop_dl/downloader/downloader.py:390-423 | an error is given up on exactly for a client error other than 429, or 502, 503 or "web server is down"; all else is raised with its status, 1 when it has none |
| Download.TimeoutAsWrittenAlwaysProgress | cyberdrop_dl/downloader/downloader.py:372-381 | as written, while no size is stored under a ".part" name, every timeout is reported as progress |
| Download.TimeoutStallExample | cyberdrop_dl/downloader/downloader.py:372-381 | two timeouts with no byte written in between: as written the second is progress again; as intended it counts |
| Download.TimeoutIntended | cyberdrop_dl/downloader/downloader.py:372-381 | a timeout is progress exactly when the file is new or has grown since the last one; the stored size never shrinks |
| Download.TimeoutStallCounts | cyberdrop_dl/downloader/downloader.py:372-381 | with the intended lookup, a second timeout without growth raises its own status and so counts as an attempt |
| Download.AttemptAfter | cyberdrop_dl/downloader/downloader.py:42-43 | each outcome adds at most one attempt |
| Download.AttemptsBounded | cyberdrop_dl/downloader/downloader.py:45-60 | with the limit on, the count never passes the limit, or one above the start when it began at or over it |
| Download.DisabledLimitStopsAlike | cyberdrop_dl/downloader/downloader.py:45-75 | while the count is below the limit, disabling the limit does not change where the retries stop |
| Download.PastDisabledLimitOnlyReturnStops | cyberdrop_dl/downloader/downloader.py:61-75 | with the limit disabled and the count past it, only a return or a crash stops the retries |
| Download.Downloader.constructor | cyberdrop_dl/downloader/downloader.py:117-132 | a new downloader is complete, with an empty lock, no unfinished items, no processed URLs and no stored sizes |
| Download.Downloader.GetDownloadDir | cyberdrop_dl/downloader/downloader.py:223-230 | without flattening the folder is kept; with it, the result is the ancestor-or-self whose parent is the root, stored in the item |
| Download.Downloader.IterateFilename | cyberdrop_dl/downloader/downloader.py:289-300 | the name chosen is "<stem> (n)<ext>" for the least n >= 1 that is free on disk and in the history; the item gets it and the partial file is its ".part" |
| Download.Downloader.CheckSize | cyberdrop_dl/downloader/downloader.py:251-256 | an unknown size is fetched into the item, and the result is the size-limit test |
| Download.Downloader.GetFinalFileInfo | cyberdrop_dl/downloader/downloader.py:245-287 | a size outside the limits means no download and no change; otherwise no file on disk means proceed under the same names, a complete file of the expected size means skip, and the final name is recorded as the download filename; the only disk change is completing a partial file, and none when it proceeds |
| Download.Downloader.SettleExisting | cyberdrop_dl/downloader/downloader.py:265-284 | a different name in the history switches the item to it; otherwise a matching partial file is completed, or a complete file is kept, or a fresh name is chosen |
| Download.Downloader.ErrorResult | cyberdrop_dl/downloader/downloader.py:390-423 | a caught error gives up exactly when the classification says so, carrying its status, 1 when it has none |
| Download.Downloader.RecordTimeout | cyberdrop_dl/downloader/downloader.py:372-381 | the size table and the raised status follow the intended timeout bookkeeping |
| Download.Downloader.Fetch | cyberdrop_dl/downloader/downloader.py:350-423 | the resume point is the partial file's size and the Range header is the one for it; a finished transfer leaves the complete file and no partial one, an unfinished one keeps the bytes in the partial file with the error classified or the timeout recorded; the lock is released on every path |
| Download.Downloader.TransferFinished | cyberdrop_dl/downloader/downloader.py:357-366 | the partial file becomes the complete file and the lock is released |
| Download.Downloader.TransferFailed | cyberdrop_dl/downloader/downloader.py:368-423 | the bytes written stay in the partial file, the lock is released, and the error is classified or the timeout recorded |
| Download.Downloader.Download | cyberdrop_dl/downloader/downloader.py:316-423 | the lock is left as found; a skipped item changes no file; an unset attempt counter becomes 1, and a counter already set (the queue loop sets 0) is kept; the result is already-downloaded exactly when the checks say the file is there, completed exactly when they proceed and the transfer finishes; the disk after a transfer is the finished or partial file, an unfinished transfer is raised or given up as classified, and only such a transfer makes the retry outcome a failure |
| Download.Downloader.Attempt | cyberdrop_dl/downloader/downloader.py:323-423 | the same outcome as `download` once the item may be downloaded |
| Download.Downloader.Locate | cyberdrop_dl/downloader/downloader.py:323-340 | the lock is taken on the file name, an unset attempt counter becomes 1 while a counter already set (the queue loop sets 0) is kept, and the final file info decides; going on leaves the disk as it was and names a partial file distinct from the complete one |
| Download.Downloader.Conclude | cyberdrop_dl/downloader/downloader.py:343-423 | not going on releases the lock and reports already-downloaded with no change; going on is the transfer from the partial file's size |
| Download.Downloader.Retry | cyberdrop_dl/downloader/downloader.py:30-95 | the wrapper stops at the first outcome that returns, crashes, or reaches the attempt limit; the attempt count is that of the outcomes seen |
| Download.Downloader.TakeItem | cyberdrop_dl/downloader/downloader.py:143-170 | the attempt resets to 0; a URL is handed over exactly when it was not processed, and is then recorded; the unfinished count returns to its value; completion follows the queue state |
| Download.Downloader.RunStep | cyberdrop_dl/downloader/downloader.py:143-170 | one item extends the processed URLs by its URL when new and keeps the unfinished count |
| Download.Downloader.RunLoop | cyberdrop_dl/downloader/downloader.py:140-170 | the processed URLs become the old ones followed by each new URL once, in order, so a duplicate-free list stays duplicate-free; every item's attempt is reset to 0 and the unfinished count is unchanged |
| Download.UrlsOfAt | cyberdrop_dl/downloader/downloader.py:148 | position k of the URL list is item k's URL |
| Common.AfterLast | cyberdrop_dl/utils/downloaders.py:116 | the text after the last occurrence of the character, or all of it when there is none |
| Common.SplitOnFirst | cyberdrop_dl/scraper/crawlers/redgifs_crawler.py:43 | the first piece of a split is the text before the first separator |
| Common.FileStem | cyberdrop_dl/downloader/downloader.py:293 | stem followed by suffix gives back the name |
| Common.RangeHeaderRoundTrip | cyberdrop_dl/utils/downloaders.py:150 | the Range header for a resume point reads back as that point |
| Common.JoinSplit | cyberdrop_dl/scraper/crawlers/bunkrr_crawler.py:124 | joining the pieces of a split at the separator gives back the text |
| Common.Unquote | cyberdrop_dl/scraper/crawlers/rule34xxx_crawler.py:48 | decoding a query key or value never makes it longer |
| Common.UnquoteQuote | cyberdrop_dl/scraper/crawlers/rule34xxx_crawler.py:48 | decoding undoes the form encoding of any text of characters below 256 |
| Common.QueryGetEncoded | cyberdrop_dl/scraper/crawlers/rule34xxx_crawler.py:48 | a query of one field key=<encoded value> reads back the value decoded, so "?tags=big+hat" gives "big hat" |
| Common.QueryPairsSingle | cyberdrop_dl/scraper/crawlers/rule34xxx_crawler.py:48 | a query of one field without "&" is that one pair, with key and value decoded |
| Common.AppendNewProperties | cyberdrop_dl/downloader/downloader.py:148-149 | appending the new entries of a list keeps the old entries in front and creates no duplicate |
| Common.AppendNewMember | cyberdrop_dl/downloader/downloader.py:148-149 | an entry ends up in the list exactly when it was there already or was offered |
| Common.DedupOrder | cyberdrop_dl/crawlers/NSFWXXXCrawler.py:53-59 | de-duplication leaves no duplicate and keeps the order of first occurrence |
| LegacyDownload.Excluded | cyberdrop_dl/utils/downloaders.py:126-141 | only a known extension can be excluded, and with every exclusion flag off nothing is |
| LegacyDownload.CutAtVersion | cyberdrop_dl/utils/downloaders.py:217-218 | the name is cut right before its first "v=", so the result is a prefix free of "v="; a name without "v=" is kept |
| LegacyDownload.TruncateKeepsExtension | cyberdrop_dl/utils/downloaders.py:219-221 | a short name is kept; a long one becomes its first MAX_FILENAME_LENGTH characters, ".", and the text after its last dot, so the extension is preserved |
| LegacyDownload.TruncateWithoutDot | cyberdrop_dl/utils/downloaders.py:219-221 | a long name without a dot gets itself appended after the cut and ".", and becomes longer than before |
| LegacyDownload.ErrorOutcome | cyberdrop_dl/utils/downloaders.py:183-191 | an error code in [400, 500) ends quietly with that code; any other error is raised for a retry |
| LegacyDownload.RangeFor | cyberdrop_dl/utils/downloaders.py:143-150 | a Range header is sent exactly when the partial file exists, and it reads back as the partial file's size |
| LegacyDownload.AfterRenameShape | cyberdrop_dl/utils/downloaders.py:193-202 | afterwards the complete file exists and the partial does not; an existing complete file keeps its size, otherwise it takes the partial's; nothing else changes |
| LegacyDownload.FileStepFrame | cyberdrop_dl/utils/downloaders.py:116-191 | one download attempt touches only the file's complete and partial paths |
| LegacyDownload.FileStepIsTransfer | cyberdrop_dl/utils/downloaders.py:116-152 | a known or named file that is neither taken nor excluded goes on to the transfer under its name |
| LegacyDownload.TransferSaved | cyberdrop_dl/utils/downloaders.py:152-179 | a saved transfer had a whole body, appended to the partial file, which was then renamed |
| LegacyDownload.SavedShape | cyberdrop_dl/utils/downloaders.py:169-202 | after a save the complete file exists and the partial does not; the complete file holds the resumed and received bytes unless it existed already |
| LegacyDownload.CutKeepsPartial | cyberdrop_dl/utils/downloaders.py:143-191 | a body cut short grows the partial file by the bytes received, so the next attempt asks for the range from the new size |
| LegacyDownload.UnknownNeverSkipped | cyberdrop_dl/utils/downloaders.py:116-141 | a file whose extension is in no category is never skipped by the exclusion flags |
| LegacyDownload.HistoryUsesTotal | cyberdrop_dl/utils/downloaders.py:158-163 | the history check uses Content-Length (0 when absent) plus the resume point |
| LegacyDownload.RetryRunAsWritten | cyberdrop_dl/utils/downloaders.py:28-41 | as written, each retry adds one to the attempt limit and the attempt counter never moves; a failure ends the run only by giving up |
| LegacyDownload.AsWrittenAfterFailure | cyberdrop_dl/utils/downloaders.py:34-40 | as written, a failure that does not give up is followed by the same run from the next answer with the limit one higher |
| LegacyDownload.AsWrittenNeverGivesUp | cyberdrop_dl/utils/downloaders.py:35-39 | as written, when every call fails and the counter starts two or more below the limit, the wrapper never gives up |
| LegacyDownload.RetryRun | cyberdrop_dl/utils/downloaders.py:28-41 | corrected: each retry adds one to the attempt counter under a fixed limit; a failure ends the run only by giving up |
| LegacyDownload.RetryGivesUpInTime | cyberdrop_dl/utils/downloaders.py:35-37 | corrected: with the limit on, the run ends within max(limit - counter, 1) calls |
| LegacyDownload.CorrectedGivesUpAtLimit | cyberdrop_dl/utils/downloaders.py:35-37 | corrected: when every call fails, the run gives up after exactly limit - counter calls |
| LegacyDownload.Downloader.constructor | cyberdrop_dl/utils/downloaders.py:73-95 | the settings are stored, attempts starts at the configured limit and the counter at 0 |
| LegacyDownload.Downloader.RenameFile | cyberdrop_dl/utils/downloaders.py:193-204 | the files become those of the rename rule |
| LegacyDownload.Downloader.Transfer | cyberdrop_dl/utils/downloaders.py:143-179 | the outcome and the files are those of the transfer step, and the Range header is the one the partial file calls for |
| LegacyDownload.Downloader.DownloadFile | cyberdrop_dl/utils/downloaders.py:99-191 | the outcome and the files are those of one download attempt |
| LegacyDownload.Downloader.Retry | cyberdrop_dl/utils/downloaders.py:28-41 | the outcome, the calls made, the files and the attempt limit are those of the as-written retry run |
| LegacyDownload.Downloader.RetryCall | cyberdrop_dl/utils/downloaders.py:28-41 | one call either ends the run with its outcome, files and counter, or is a caught failure after which the run goes on from the next answer with `attempts` one higher |
| LegacyDownload.Downloader.DownloadAndStore | cyberdrop_dl/utils/downloaders.py:206-234 | the name is normalised; an existing complete file means no download and no change; otherwise the result is the retry run's |
| LegacyDownload.WorkersFor | cyberdrop_dl/utils/downloaders.py:269-271 | the thread setting, or the CPU count when it is 0, capped at 2 for "bunkr" domains and kept for the others |
| LegacyDownload.DomainJobs | cyberdrop_dl/utils/downloaders.py:272-278 | one downloader per album of the domain |
| LegacyDownload.PlanConcat | cyberdrop_dl/utils/downloaders.py:268-278 | the downloaders for two runs of domains are those of the first followed by those of the second |
| LegacyDownload.BunkrCapped | cyberdrop_dl/utils/downloaders.py:270-271 | every downloader of a "bunkr" domain has at most two workers |
| LegacyDownload.GetDownloaders | cyberdrop_dl/utils/downloaders.py:254-279 | exactly one fresh downloader per (domain, album) in order, each built with that album's title, links and worker count |
| NsfwXxx.DomainItem.constructor | cyberdrop_dl/crawlers/NSFWXXXCrawler.py:18 | a new domain item has the domain's name and no media |
| NsfwXxx.DomainItem.AddMedia | cyberdrop_dl/crawlers/NSFWXXXCrawler.py:85 | the media entry is appended under its title |
| NsfwXxx.PostTitleShape | cyberdrop_dl/crawlers/NSFWXXXCrawler.py:64-84 | the folder is the safe model name ending in " (NSFW.XXX)", followed by "/" and the safe post name exactly when posts are kept apart |
| NsfwXxx.PostMedia | cyberdrop_dl/crawlers/NSFWXXXCrawler.py:71-85 | a post yields at most one entry per source |
| Common.PresentPrefix | cyberdrop_dl/crawlers/NSFWXXXCrawler.py:71-72 | the entries read before the first missing one, which ends the loop: all present, and the next one missing |
| NsfwXxx.PostMediaMember | cyberdrop_dl/crawlers/NSFWXXXCrawler.py:71-85 | a link becomes an entry exactly when it is a source without "-mobile" or ".webm" in its name and with an extension; every entry is under the post's title and refers back to the post |
| NsfwXxx.UserPageUrlInjective | cyberdrop_dl/crawlers/NSFWXXXCrawler.py:33 | different page numbers give different listing addresses |
| NsfwXxx.PostHrefsOnce | cyberdrop_dl/crawlers/NSFWXXXCrawler.py:53-59 | every href appears once, with no duplicates, in order of first occurrence |
| NsfwXxx.FirstEnd | cyberdrop_dl/crawlers/NSFWXXXCrawler.py:31-46 | the loop ends at the first page that raises or lists no posts |
| NsfwXxx.EndIsFirst | cyberdrop_dl/crawlers/NSFWXXXCrawler.py:40-41 | no earlier page ends the loop |
| NsfwXxx.NsfwXxxCrawler.constructor | cyberdrop_dl/crawlers/NSFWXXXCrawler.py:12-15 | the crawler keeps the separate-posts setting and starts with no logged errors |
| NsfwXxx.NsfwXxxCrawler.PostHrefs | cyberdrop_dl/crawlers/NSFWXXXCrawler.py:53-59 | the links are the parsed hrefs de-duplicated in first-occurrence order |
| NsfwXxx.NsfwXxxCrawler.GetPost | cyberdrop_dl/crawlers/NSFWXXXCrawler.py:61-90 | a post adds its filtered media under its folder title; a missing page, model or post name, or a missing `src`, logs the URL |
| NsfwXxx.NsfwXxxCrawler.AddPostMedia | cyberdrop_dl/crawlers/NSFWXXXCrawler.py:71-85 | the media added are the filtered sources read before the first missing `src`, in order, and the result says whether one was missing |
| NsfwXxx.NsfwXxxCrawler.VisitPosts | cyberdrop_dl/crawlers/NSFWXXXCrawler.py:44-45 | visiting posts adds each post's outcome in order |
| NsfwXxx.NsfwXxxCrawler.VisitNext | cyberdrop_dl/crawlers/NSFWXXXCrawler.py:44-45 | visiting one more post adds that post's outcome after those of the posts before it |
| NsfwXxx.NsfwXxxCrawler.ListingPage | cyberdrop_dl/crawlers/NSFWXXXCrawler.py:32-46 | a page stops the loop exactly when it ends the listing, logging the URL if it raised; otherwise its posts are visited |
| NsfwXxx.NsfwXxxCrawler.UserPage | cyberdrop_dl/crawlers/NSFWXXXCrawler.py:32-46 | page p is requested at the address for p, and the loop stops exactly at the first ending page |
| NsfwXxx.NsfwXxxCrawler.GetUser | cyberdrop_dl/crawlers/NSFWXXXCrawler.py:29-51 | pages 1 to the first ending page are requested in order; the media are those of the pages before it, and a raising page logs the user URL |
| NsfwXxx.NsfwXxxCrawler.Fetch | cyberdrop_dl/crawlers/NSFWXXXCrawler.py:17-27 | a fresh nsfw.xxx domain item; "user" in the path gives it the media of the listing up to its first ending page, logging the URL when that page raised, and any other path gives it the media of the one post |

## Left out

- HTTP, HTML and JSON: requests, CSS selectors and DOM walking are not modelled. Their results are inputs, with an input case for most failures the handler catches; the ones without are listed below.
- Bunkrr.GetStreamLink: an item URL without a host makes `get_stream_link` raise in `fetch`, before any handler and outside the error-handling wrapper; the model's `Bunkrr.BunkrrCrawler.Fetch` treats it as a non-CDN host.
- Scrolller.Answer: an answer is empty, raised, or complete. An answer whose items are handled but whose "iterator" key is missing, or an item whose last media source has no "url", raises part-way in the source; the model has no input for these.
- RedGifs.Gif: a gif missing its "urls" or "createDate" key raises in the source; the model's gifs always have both, and only the hd and sd links inside "urls" may be missing.
- Common.Unquote: each "%XY" escape decodes to the character with that code. yarl decodes a run of escapes as UTF-8, so multi-byte characters in a query are not modelled.
- NsfwXxx: `get_db_path` and the completion check are not part of this model; an error they raise is not represented.
- Concurrency and pacing are not modelled, since their point is scheduling: `AsyncLimiter`, the semaphores, `download_session_limit`, `asyncio.sleep`, and `throttle` (cyberdrop_dl/utils/downloaders.py:44-69).
- The file-lock wait loop with its random sleep (cyberdrop_dl/downloader/downloader.py:330-331) is concurrency. `Download.Downloader.Download` therefore requires the file to be unlocked on entry.
- Logging, the progress bars, the statistics counters, the SQL history writes and `mkdir` are left out. The history is read through the `historyNames` set, the `downloaded` name and the `alreadyStored` predicate.
- `set_file_datetime`, `set_additional_headers` (the Pixeldrain basic-auth header) and the `MediaItem.download_task_id` progress bookkeeping are left out.
- `check_file_can_download` is not modelled. It reads free space, filetype settings and the mark-completed option, so `Download.Downloader.Download` receives its answer as the Boolean `canDownload`.
- `download_all` and `download_content` are left out. They run `download_and_store` for every link concurrently, and `LegacyDownload.Downloader.DownloadAndStore` models a single link.
- The base crawler, the error-handling wrapper, `create_title`, `sanitize`, `sanitize_folder`, `make_title_safe`, `get_filename_and_ext`, `create_scrape_item`, `is_4xx_client_error`, `FILE_FORMATS`, `MAX_FILENAME_LENGTH` and `CustomHTTPStatus` are not part of this model. They are parameters, and nothing is claimed about them.
- The content-disposition filename of `download_file` (cyberdrop_dl/utils/downloaders.py:117-123) is an input, `NameReply`, because it comes from a live response.
- Lowercasing is ASCII only, and so is the whitespace `Common.Strip` removes: Python's `str.strip()` also removes Unicode spaces such as U+00A0 and U+3000.
- Python's `strptime` is not matched in every form. `Bunkrr.ParseDatetime` accepts one or two digits per field and four for the year, and ASCII digits only (`Bunkrr.NumberField`, `Bunkrr.IsDigits`); `strptime`'s `\d` also matches other Unicode decimal digits, which `int()` converts. The padded-space forms and the run-of-whitespace matching of `strptime` are left out.
- The while-true loops are given their answers as finite sequences, with a precondition that the loop's stop condition occurs within them. These are `Download.Downloader.Retry`, `LegacyDownload.Downloader.Retry`, the RedGifs, Scrolller and NSFW.XXX pagination, and the legacy `DownloadAndStore`. A run that never stops (such as the legacy retry when every call fails, see Findings) is stated by the functions, not executed by the methods.
- Download.Downloader.GetDownloadDir: requires the folder to lie strictly under the download root when flattening is on, because the source loops forever otherwise. `Download.NoExitOutsideRoot` proves that.
- Download.Downloader.Fetch: follows the intended timeout bookkeeping (`Download.TimeoutIntended`), not the as-written key lookup. See Findings.
- Download.Downloader.Fetch: always releases the file lock. In the source an exception outside both `except` lists (cyberdrop_dl/downloader/downloader.py:368 and 385) leaves the lock held and reaches the `except Exception` of `retry`; such exceptions are not modelled, so `Download.Downloader.Download` also always ends with the locks it began with.
- Download.Downloader.GetFinalFileInfo: the sizes come from the disk map and the remote size is an input. Errors raised by `get_filesize` are not modelled.
- LegacyDownload.TransferStep: a body read error is the `Cut` body, and a malformed Content-Length is not modelled.
- The file defining the older `DomainItem` is not part of this model. `NsfwXxx.DomainItem.AddMedia` appends (title, media) in call order. The database's completion check is the uninterpreted function `complete`.

## Findings

| source | as written | input that shows it | evidently intended | confidence | as-written member | corrected member |
|---|---|---|---|---|---|---|
| cyberdrop_dl/downloader/downloader.py:372-381 | the timeout branch tests `partial_file.name` against a table whose keys are `media_item.filename`, so the test never finds an entry and every timeout is raised as 999, which `retry` does not count | two timeouts of "a.jpg" with the partial file at 100 bytes both times: the second is again reported as progress, so a stalled download is retried forever | look up the item's own entry, so a timeout without growth raises its own status and counts as an attempt | not executed | Download.TimeoutStallExample | Download.TimeoutStallCounts |
| cyberdrop_dl/utils/downloaders.py:35-39 | `retry` increments `self.attempts` (the limit) instead of `self.current_attempt`, so the test `current_attempt >= attempts - 1` can only move further away | attempts = 5, limit enabled, every call fails without a status: the wrapper never gives up | increment the counter, so the wrapper gives up after `attempts - current_attempt` failed calls | not executed | LegacyDownload.AsWrittenNeverGivesUp | LegacyDownload.CorrectedGivesUpAtLimit |
