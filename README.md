# Naver shopping review crawler, modelled in Dafny

This project models the deterministic core of `crawl.py`, a script that
collects the reviews of one product from Naver Shopping (`search.shopping`
catalog pages) or a Naver brand store (`brand.naver.com`). The script works
through Selenium. It reads the product's review count, derives how many
review pages to crawl, and runs one task per page on a process pool. Each
task opens a browser, clicks through the paginator to its page and reads
twenty reviews. The task retries until it succeeds or is blocked or
interrupted. Finally the script concatenates the pages in order.

Modules, one per part of the script:

- `Text` (`text.dfy`): `str.replace(pat, '')`, Python's `int(...)` on a
  string, the star parse `int(star.replace('평점', ''))` and the count parse
  `int(text.replace(',', ''))`, with round-trip lemmas.
- `Site` (`site.dfy`): the two URL patterns as a hand-written matcher,
  `URLAction`'s first-match choice of subdomain, `BLOCKED_URL` and the blocked
  test, and the review tab labels.
- `Navigation` (`navigation.dfy`): `goto_page`'s click plan as the pure
  function `Plan`. It also models the paginator that the slot numbers imply:
  on the first window, slots 1 to 10 are pages and slot 11 is "next". After
  the first move, slot 1 is "previous", slots 2 to 11 are pages and slot 12
  is "next". The module proves where each plan leads.
- `Browser` (`browser.dfy`): the Chrome session as a class `Driver`. It keeps
  a trace of navigations (`get`, clicks) and a flag saying whether the session
  is still running. A `World` value fixes in advance what the remote site
  does to the session: where `get` lands, the product name, the tabs, the
  visible review elements, and at most one fault. The fault is a Selenium
  error or a Ctrl-C, and it fires at a given browser interaction.
- `Session` (`session.dfy`): `load_webpage`, `goto_page` (a loop that clicks
  the plan into the trace), `crawl_review_items` and `_run`. `_run` is proved
  against the functions `AttemptOutcome`, `AttemptTrace` and `Releases`.
- `Discovery` (`discovery.dfy`): `get_info`, with its `for`-`else` tab
  search.
- `Crawl` (`crawl.dfy`): `run` (the retry loop), `run_all` (per-page
  namespace copies, then the ordered flatten) and the entry point (page
  count, page list, output path).

Some consequences the model makes explicit:

- `run` never returns for a page that always shows a number of reviews
  other than twenty (`ShortPageRetriedForever`). The count assertion fails on
  every attempt, and an `AssertionError` is retried. With no `--max-page`, the
  last page of a product whose count is below 2000 is such a page, if the site
  shows the remaining `num_review % 20` reviews on it. When the count is a
  multiple of twenty, the last page is one past the end, because the page
  count is `num_review // 20 + 1` and not a ceiling. From 1980 to 1999 the
  cap of 100 pages makes page 100, holding `num_review - 1980` reviews, the
  short one.
- `brand` is never blocked: its `BLOCKED_URL` entry is `None`, and no URL
  equals it.
- Without `--debug`, `_run` quits the browser on every exit except a Ctrl-C.
  `KeyboardInterrupt` is not an `Exception`, so `except Exception` lets it
  through. `get_info` quits the browser only when it succeeds.

What the code does and does not do:

- There is no shared, growing back-off counter. Both Selenium waits are fixed
  at 10 seconds.
- The page count is `num_review // 20 + 1` capped at 100, not a ceiling.
- The browser is not released on every exit path.
- A page number below 1 is not refused. `Plan` sends it to slot `p` like any
  page below 11.

`GotoPage` and `_run` click the plan as written, because the trace records
what the program does. The corrected plan in the findings below is proved
correct on its own.

## Model

| member | source | states |
|---|---|---|
| `Navigation.PlanBelowEleven` | crawl.py:122-123 | below page 11 the plan is one direct click, at slot `page_number` |
| `Navigation.PlanFromEleven` | crawl.py:124-131 | from page 11: exactly `(p-1)//10` window clicks come first, the first at slot 11 and the rest at slot 12; a trailing click at slot `p%10+1` follows if and only if `(p-1)%10 > 1` |
| `Navigation.PlanExamples` | crawl.py:121-131 | Plan(7)=[7], Plan(11)=[11], Plan(21)=[11,12], Plan(25)=[11,12,6], Plan(20)=[11,1] |
| `Navigation.PlanReaches` | crawl.py:121-131 | on the paginator the slot numbers imply, the plan always leads to some page, and that page is `p` exactly when `p < 11` or `p % 10` is neither 0 nor 2 |
| `Navigation.PlanElevenTwelveAlike` | crawl.py:124-131 | for every window `k >= 1`, pages `10k+1` and `10k+2` get the same clicks, whatever the paginator shows |
| `Navigation.PlanMissesTwelve` | crawl.py:130-131 | the plan for page 12 stops on page 11 |
| `Navigation.PlanMissesTwenty` | crawl.py:130-131 | the plan for page 20 ends with "previous window" and shows page 10 |
| `Navigation.CorrectedPlanReaches` | crawl.py:121-131 | the corrected plan shows page `p` for every `p >= 1`, in the window that holds it |
| `Navigation.CorrectedPlanAgrees` | crawl.py:130-131 | the corrected and the written plans are equal exactly when `p < 11` or `p % 10` is neither 0 nor 2 |
| `Session.GotoPage` | crawl.py:121-136 | appends the plan's clicks to the trace in order, stopping at the first click whose wait fails and raising its error; the session stays open |
| `Session.LoadWebpage` | crawl.py:190-193 | records the `get`; raises `BlockedException` exactly when the page lands on the subdomain's block URL |
| `Session.ExtractReviews` | crawl.py:149-157 | the loop yields exactly the records `ReviewRecords` specifies: `AssertionError` unless twenty elements are given, `ValueError` on the first star that does not parse, otherwise one record per element |
| `Session.ReviewRecordsMeaning` | crawl.py:149-157 | success if and only if there are twenty elements and every star parses; then twenty records in element order, each with the star `int(star.replace('평점',''))`, the date and the body; otherwise the error is `AssertionError` for a wrong count and `ValueError` for a bad star |
| `Session.CrawlReviewItems` | crawl.py:145-157 | a pending browser fault fails the wait for the review list; otherwise the result is that of the extraction |
| `Session.AttemptOnce` | crawl.py:105-118 | one attempt on a fresh browser: its result, its navigation trace (load, optional sort click, plan clicks, cut at a fault or after the block test) and whether it quit the browser are those `AttemptOutcome`, `AttemptTrace` and `Releases` give |
| `Session.ReturnedIsFullPage` | crawl.py:108-114 | an attempt that returns made every planned navigation and holds exactly twenty records, matching the visible elements one for one |
| `Session.BlockedExactly` | crawl.py:190-193 | an attempt raises `BlockedException` if and only if loading succeeded on the shopping subdomain and landed on `blocked.html`; brand is never blocked |
| `Session.ReleaseDiscipline` | crawl.py:113-117 | without debug the browser is quit on every outcome except a Ctrl-C; with debug only after a success |
| `Crawl.Run` | crawl.py:93-102 | the retry loop returns exactly what `RunSpec` gives for the successive attempts |
| `Crawl.RunFirstEnding` | crawl.py:93-102 | the first attempt that returns or is given up decides: its records, or `[]` for a block or a Ctrl-C |
| `Crawl.RunKeepsRetrying` | crawl.py:94-102 | while every attempt raises some other exception, `run` keeps retrying with no bound |
| `Crawl.RunPageSize` | crawl.py:93-102 | every page result has length 0 or 20 |
| `Crawl.ShortPageRetriedForever` | crawl.py:94-102 | a page that always shows a count other than twenty, unblocked and without faults, is retried forever |
| `Crawl.ArgsPerPage` | crawl.py:161-165 | one namespace copy per page, in page order, each equal to the original but for `page_number` |
| `Crawl.RunAll` | crawl.py:160-169 | the data set is `RunAllSpec`: the page results concatenated in submission order, or no result while some page is still retried |
| `Crawl.RunAllSize` | crawl.py:166-168 | the data set has twenty rows for each page not given up and no others |
| `Crawl.RunAllOrder` | crawl.py:166-168 | record `j` of the `i`-th submitted page sits right after the records of the pages submitted before it, whatever order the workers finish in |
| `Crawl.FlattenAt` | crawl.py:168 | the flatten keeps the lists in order and each list's elements in order |
| `Crawl.FlattenSize` | crawl.py:168 | when every page result is empty or full, the flattened list has twenty rows per full page |
| `Crawl.MaxPageDerived` | crawl.py:241-242 | with no page limit (absent or 0) and a non-negative count, the page count lies in 1..100; below the cap it is the page that holds review number `num_review` counted from 0; it is 100 exactly when the count is at least 1980 |
| `Crawl.MaxPageExamples` | crawl.py:241-242 | 0 reviews give 1 page, 39 give 2, 40 give 3; an explicit limit is kept |
| `Crawl.PageNumbers` | crawl.py:243 | the pages crawled are exactly 1, ..., `max_page` in ascending order, none when `max_page <= 0` |
| `Crawl.OutPath` | crawl.py:244 | a non-empty `--out-path` is used as given; otherwise the path is `out/<product name>.xlsx` |
| `Crawl.CrawlMain` | crawl.py:238-245 | the entry point ends as `CrawlSpec` says: a crash when `get_info` raises, otherwise the pages `1..max_page` crawled through `run_all` and written to the chosen path |
| `Discovery.SearchTabs` | crawl.py:176-184 | the tab search returns exactly what `ReviewCount` gives |
| `Discovery.ReviewCountFirstTab` | crawl.py:177-182 | the first tab whose text contains the review label decides the count, parsed with the commas removed |
| `Discovery.ReviewCountNoTab` | crawl.py:183-184 | when no tab carries the label, the search raises |
| `Discovery.ReviewCountGrouped` | crawl.py:178-180 | a review tab showing a count with thousands separators yields that count |
| `Discovery.GetInfo` | crawl.py:172-187 | `get_info`'s result is `InfoOutcome`; the browser is quit only when the count was read, and left running on every failure |
| `Site.UrlAction` | crawl.py:209-220 | the URL is kept unchanged with the subdomain of the first pattern, in dictionary order, that matches; `ArgumentError` exactly when none matches |
| `Site.MatchesIff` | crawl.py:23-26 | the matcher holds exactly when the prefix matches, with unescaped dots matching any character but a line feed, and some non-empty run of digits is followed by the end, a final line feed, `:`, `:` and a final line feed, or `?` and anything |
| `Site.PatternsDisjoint` | crawl.py:23-26 | no URL matches both patterns |
| `Site.DotAndColonQuirks` | crawl.py:24 | a URL with any character in place of a dot and a colon after the number is accepted |
| `Site.QueryAccepted` | crawl.py:25 | a query string after the product number is accepted |
| `Site.PathRefused` | crawl.py:24 | a path after the catalog number is refused |
| `Site.BlockedOnlyOnBlockPage` | crawl.py:83-86 | the blocked test holds exactly for the shopping subdomain on its `blocked.html` page |
| `Text.StarOfLabelled` | crawl.py:153 | a star text made of "평점" and a rating reads back as that rating |
| `Text.CountOfGrouped` | crawl.py:180 | a count printed with thousands separators reads back as that count once the commas are removed |
| `Text.ParseFormat` | crawl.py:153 | `int(str(n)) == n` for every natural number |
| `Text.ParseNegative` | crawl.py:153 | `int('-' + str(n)) == -n` |
| `Text.ParsePadded` | crawl.py:153 | white space around the digits does not change what `int` reads |
| `Text.DigitsValueDefined` | crawl.py:153 | a string has a decimal value exactly when all its characters are digits |
| `Text.RemoveAllAbsent` | crawl.py:153 | `replace` leaves a text unchanged when the pattern's first character does not occur in it |
| `Text.RemoveCharConcat` | crawl.py:180 | removing commas distributes over concatenation |

## Left out

- Selenium itself: element lookup by XPath, the XPath strings, the 10-second waits, Chrome options, headless mode, the driver path and window minimising. What the browser shows is the `World` value given to each session.
- One fault per session at most. It fires at a browser interaction or at the first read after the last one. A Ctrl-C outside the `try` of `_run` is not modelled, and neither is a failure to start Chrome. A lookup of the date or the body that fails after the review list was read is folded into that one fault.
- `multiprocessing.Pool` and `imap`: the pool is replaced by running the tasks one after another in submission order, which is the order `imap` hands results back in. `--cpu-count` has no effect in the model.
- `tqdm`, the pandas `DataFrame` and `to_excel`: the data set is the sequence of records, and the output is the path it would be written to.
- `argparse` wiring and the text of `URLAction`'s error message.
- `traceback.print_exc` and the log line of `run`.
- Python's `re` engine: the two patterns are modelled by a hand-written matcher for their exact shape.
- Text.ParseInt: models `int()` as ASCII white space, one sign and ASCII digits; underscores between digits and non-ASCII digits or white space, which `int()` also accepts, are not modelled.
- Crawl.Run: the unbounded retry is modelled over a finite list of attempts. `None` means every given attempt was retried and `run` is still going.
- An empty review list: Selenium's visibility wait treats an empty result as not yet satisfied and raises `TimeoutException`, while the model reports the count check's `AssertionError`. Both are retried, and the browser is quit unless `--debug` is set.
- `BaseException`s other than `KeyboardInterrupt` (such as `SystemExit`) are not modelled.
- The paginator's behaviour is not part of the program. `Navigation.Press` is the layout that the slot numbers of `goto_page` imply, and "previous window" is taken to show the last page of the previous window. It is used only to say where a plan leads.

## Findings

| source | as written | input that shows it | evidently intended | confidence | as-written member | corrected member |
|---|---|---|---|---|---|---|
| crawl.py:130 | the trailing click is made only when `(p-1) % 10 > 1`, so the second page of every later window gets no click | page 12 (also 22, 32, ...): `Plan(12) == [11]`, which stops on page 11, so page 11's reviews are stored as page 12; `PlanElevenTwelveAlike` shows without any paginator layout that pages `10k+1` and `10k+2` get the same clicks | click whenever `(p-1) % 10 > 0` | medium, not executed; the paginator layout is inferred from the slot numbers | `Navigation.PlanMissesTwelve` | `Navigation.CorrectedPlanReaches` |
| crawl.py:131 | the trailing slot is `p % 10 + 1`, which is 1 when `p` is a multiple of ten | page 20: `Plan(20) == [11, 1]`, and slot 1 is "previous window" once the window has moved | slot `(p-1) % 10 + 2`, which is 11 for page 20 | medium, not executed; the paginator layout is inferred from the slot numbers | `Navigation.PlanMissesTwenty` | `Navigation.CorrectedPlanReaches` |
