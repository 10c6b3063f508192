/**
 * One attempt at one page, `_run`: open a browser, load the product page,
 * give up if the site answered with its block page, switch to "most recent"
 * ordering if asked, click through the paginator to the page and read its
 * twenty reviews; release the browser on the way out as `_run` does.
 */
module Session {
  import opened Wrappers
  import opened Text
  import opened Site
  import opened Navigation
  import opened Browser

  /** `NUM_ITEMS_PER_PAGE`. */
  const ItemsPerPage: int := 20

  datatype SortMode = Ranking | Recent

  /**
   * The argument namespace. `url` and `subdomain` come from `URLAction`;
   * `pageNumber` is absent from the parsed arguments and set on each
   * per-page copy by `run_all`.
   */
  datatype Args = Args(
    url: string,
    subdomain: Subdomain,
    chromedriverPath: Option<string>,
    sortWith: SortMode,
    cpuCount: int,
    maxPage: Option<int>,
    outPath: Option<string>,
    debug: bool,
    pageNumber: Option<int>)

  /** One review row: `{'star': ..., 'date': ..., 'text': ...}`. */
  datatype Record = Record(star: int, date: string, text: string)

  /** What one attempt ends with: the page's records, or an exception. */
  datatype AttemptResult = Returned(items: seq<Record>) | Raised(error: Exc)

  // ---------------------------------------------------------------------
  // Specification of one attempt
  // ---------------------------------------------------------------------

  /** The clicks of a plan. */
  function PageClicks(plan: seq<int>): (r: seq<Event>)
    ensures |r| == |plan|
    ensures forall i :: 0 <= i < |plan| ==> r[i] == Click(PageSlot(plan[i]))
  {
    seq(|plan|, i requires 0 <= i < |plan| => Click(PageSlot(plan[i])))
  }

  function SortClicks(args: Args): seq<Event>
  {
    if args.sortWith == Recent then [Click(SortRecent)] else []
  }

  /** The navigations a successful attempt at page `p` makes, in order. */
  function Actions(args: Args, p: int): seq<Event>
  {
    [Load(args.url)] + SortClicks(args) + PageClicks(Plan(p))
  }

  /** The record of one review element, or `None` when its star text does not parse. */
  function ToRecord(e: ReviewTexts): Option<Record>
  {
    match StarOf(e.star)
    case None => None
    case Some(star) => Some(Record(star, e.date, e.text))
  }

  /** The per-element records, one for each visible review element. */
  function Candidates(elems: seq<ReviewTexts>): (os: seq<Option<Record>>)
    ensures |os| == |elems|
    ensures forall i :: 0 <= i < |elems| ==> os[i] == ToRecord(elems[i])
  {
    seq(|elems|, i requires 0 <= i < |elems| => ToRecord(elems[i]))
  }

  /** All the values, in order, if none is missing. */
  function Collect<T>(os: seq<Option<T>>): Option<seq<T>>
  {
    if os == [] then Some([])
    else match Collect(os[..|os| - 1])
      case None => None
      case Some(rs) =>
        match os[|os| - 1]
        case None => None
        case Some(r) => Some(rs + [r])
  }

  /**
   * The records of a page, or the exception `crawl_review_items` raises:
   * `AssertionError` unless exactly twenty elements are visible,
   * `ValueError` if some star text does not parse. (With no element at
   * all, Selenium's wait raises a timeout first; it is retried just the same.)
   */
  function ReviewRecords(elems: seq<ReviewTexts>): Result<seq<Record>, Exc>
  {
    if |elems| != ItemsPerPage then Failure(AssertionError)
    else match Collect(Candidates(elems))
      case None => Failure(ValueError)
      case Some(rs) => Success(rs)
  }

  /** What `_run` returns or raises for page `p` against world `w`. */
  function AttemptOutcome(args: Args, w: World, p: int): AttemptResult
  {
    if FiresWithin(w, 0, 1) then Raised(FaultError(w))
    else if IsBlocked(args.subdomain, w.landing) then Raised(BlockedException)
    else if w.fault.Some? then Raised(FaultError(w))
    else match ReviewRecords(w.reviews)
      case Success(items) => Returned(items)
      case Failure(e) => Raised(e)
  }

  /** The navigations `_run` makes for page `p` against world `w`. */
  function AttemptTrace(args: Args, w: World, p: int): seq<Event>
  {
    var acts := Actions(args, p);
    if !FiresWithin(w, 0, 1) && IsBlocked(args.subdomain, w.landing) then [Load(args.url)]
    else acts[..Completed(w, 0, |acts|)]
  }

  /**
   * Whether `_run` quits the browser: always after a success (before
   * returning), and after a failure only for an `Exception` when not
   * debugging. A `KeyboardInterrupt` passes `except Exception` by.
   */
  predicate Releases(args: Args, res: AttemptResult)
  {
    res.Returned? || (IsException(res.error) && !args.debug)
  }

  // ---------------------------------------------------------------------
  // The steps of an attempt
  // ---------------------------------------------------------------------

  /** `load_webpage`: `get` the URL and raise `BlockedException` on the block page. */
  method LoadWebpage(d: Driver, args: Args) returns (err: Option<Exc>)
    modifies d
    ensures d.open == old(d.open)
    ensures FiresWithin(d.world, |old(d.events)|, 1) ==>
      err == Some(FaultError(d.world)) && d.events == old(d.events)
    ensures !FiresWithin(d.world, |old(d.events)|, 1) ==>
      d.events == old(d.events) + [Load(args.url)]
      && err == (if IsBlocked(args.subdomain, d.world.landing) then Some(BlockedException) else None)
  {
    err := d.Act(Load(args.url));
    if err.None? && IsBlocked(args.subdomain, d.world.landing) {
      err := Some(BlockedException);
    }
  }

  /**
   * `goto_page`: click the plan's slots in order, stopping at the first
   * click that fails.
   */
  method GotoPage(d: Driver, p: int) returns (err: Option<Exc>)
    modifies d
    ensures d.open == old(d.open)
    ensures var cs := PageClicks(Plan(p)); var n := |old(d.events)|;
      && d.events == old(d.events) + cs[..Completed(d.world, n, |cs|)]
      && err == if FiresWithin(d.world, n, |cs|) then Some(FaultError(d.world)) else None
  {
    ghost var cs := PageClicks(Plan(p));
    ghost var n := |d.events|;
    if p < 11 {
      err := d.Act(Click(PageSlot(p)));
      return;
    }
    var windows := (p - 1) / WindowSize;
    assert Plan(p)[..windows] == WindowClicks(windows);
    var i := 0;
    while i < windows
      invariant 0 <= i <= windows
      invariant d.open == old(d.open)
      invariant !FiresWithin(d.world, n, i)
      invariant d.events == old(d.events) + cs[..i]
    {
      err := d.Act(Click(PageSlot(if i == 0 then 11 else 12)));
      if err.Some? {
        assert Completed(d.world, n, |cs|) == i;
        return;
      }
      assert cs[..i + 1] == cs[..i] + [cs[i]];
      i := i + 1;
    }
    if (p - 1) % WindowSize > 1 {
      err := d.Act(Click(PageSlot(p % WindowSize + 1)));
      if err.None? {
        assert cs[..windows + 1] == cs;
      }
    } else {
      err := None;
      assert cs[..windows] == cs;
    }
  }

  /**
   * The values are collected exactly when none is missing; they are then
   * one per entry, in order.
   */
  lemma {:induction false} CollectMeaning<T>(os: seq<Option<T>>)
    ensures Collect(os).Some? <==> forall i :: 0 <= i < |os| ==> os[i].Some?
    ensures Collect(os).Some? ==>
      |Collect(os).value| == |os|
      && forall i :: 0 <= i < |os| ==> Collect(os).value[i] == os[i].value
  {
    if os != [] {
      var init := os[..|os| - 1];
      CollectMeaning(init);
      assert forall i :: 0 <= i < |init| ==> init[i] == os[i];
    }
  }

  /** Once a prefix has a missing value, so has the whole sequence. */
  lemma {:induction false} CollectStopsAt<T>(os: seq<Option<T>>, i: nat)
    requires i <= |os| && Collect(os[..i]).None?
    ensures Collect(os).None?
    decreases |os| - i
  {
    if i < |os| {
      assert os[..i + 1][..i] == os[..i];
      CollectStopsAt(os, i + 1);
    } else {
      assert os[..i] == os;
    }
  }

  /**
   * What `crawl_review_items` makes of the visible elements: twenty records,
   * in element order, each with the parsed star and the element's date and
   * body; `AssertionError` for any other count; `ValueError` for a star
   * text that does not parse.
   */
  lemma ReviewRecordsMeaning(elems: seq<ReviewTexts>)
    ensures ReviewRecords(elems).Success? <==>
      |elems| == ItemsPerPage && forall i :: 0 <= i < |elems| ==> StarOf(elems[i].star).Some?
    ensures ReviewRecords(elems).Success? ==>
      |ReviewRecords(elems).value| == ItemsPerPage
      && forall i :: 0 <= i < |elems| ==>
           ReviewRecords(elems).value[i] == Record(StarOf(elems[i].star).value, elems[i].date, elems[i].text)
    ensures ReviewRecords(elems).Failure? ==>
      ReviewRecords(elems).error == if |elems| != ItemsPerPage then AssertionError else ValueError
  {
    CollectMeaning(Candidates(elems));
    forall i | 0 <= i < |elems|
      ensures ToRecord(elems[i]).Some? <==> StarOf(elems[i].star).Some?
      ensures ToRecord(elems[i]).Some? ==>
        ToRecord(elems[i]).value == Record(StarOf(elems[i].star).value, elems[i].date, elems[i].text)
    {
    }
  }

  /** The loop of `crawl_review_items`: check the count, then build one record per element, in order. */
  method ExtractReviews(elems: seq<ReviewTexts>) returns (r: Result<seq<Record>, Exc>)
    ensures r == ReviewRecords(elems)
  {
    if |elems| != ItemsPerPage {
      return Failure(AssertionError);
    }
    ghost var os := Candidates(elems);
    var items: seq<Record> := [];
    for i := 0 to |elems|
      invariant Collect(os[..i]) == Some(items)
    {
      assert os[..i + 1][..i] == os[..i];
      var item := ToRecord(elems[i]);
      if item.None? {
        CollectStopsAt(os, i + 1);
        return Failure(ValueError);
      }
      items := items + [item.value];
    }
    assert os[..|os|] == os;
    return Success(items);
  }

  /** `crawl_review_items`: wait for the review elements, then extract them. */
  method CrawlReviewItems(d: Driver) returns (r: Result<seq<Record>, Exc>)
    ensures d.world.fault.Some? && d.world.fault.value.at >= |d.events| ==> r == Failure(FaultError(d.world))
    ensures !(d.world.fault.Some? && d.world.fault.value.at >= |d.events|) ==> r == ReviewRecords(d.world.reviews)
  {
    var err := d.Read();
    if err.Some? {
      return Failure(err.value);
    }
    r := ExtractReviews(d.world.reviews);
  }

  /**
   * `_run`: one attempt at the page `args.pageNumber`, on a browser of its
   * own. Its result, its navigations and whether it released the browser
   * are those the specification functions above give.
   */
  method AttemptOnce(args: Args, w: World) returns (res: AttemptResult, d: Driver)
    requires args.pageNumber.Some?
    ensures fresh(d) && d.world == w
    ensures res == AttemptOutcome(args, w, args.pageNumber.value)
    ensures d.events == AttemptTrace(args, w, args.pageNumber.value)
    ensures d.open == !Releases(args, res)
  {
    var p := args.pageNumber.value;
    ghost var acts := Actions(args, p);
    ghost var sorts := SortClicks(args);
    ghost var cs := PageClicks(Plan(p));
    d := new Driver(w);
    var err := LoadWebpage(d, args);
    if err.None? && args.sortWith == Recent {
      err := d.Act(Click(SortRecent));
    }
    if err.None? {
      assert d.events == [Load(args.url)] + sorts;
      err := GotoPage(d, p);
      assert |[Load(args.url)] + sorts| == 1 + |sorts|;
      TraceSplit(w, [Load(args.url)] + sorts, cs);
    }
    var items: seq<Record> := [];
    if err.None? {
      var r := CrawlReviewItems(d);
      if r.Failure? {
        err := Some(r.error);
      } else {
        items := r.value;
      }
    }
    if err.None? {
      d.Quit();
      res := Returned(items);
    } else {
      if IsException(err.value) && !args.debug {
        d.Quit();
      }
      res := Raised(err.value);
    }
  }

  /** A fault that does not fire in the first part of a trace cuts the whole trace where it cuts the rest. */
  lemma TraceSplit(w: World, pre: seq<Event>, rest: seq<Event>)
    requires !FiresWithin(w, 0, |pre|)
    ensures (pre + rest)[..Completed(w, 0, |pre + rest|)] == pre + rest[..Completed(w, |pre|, |rest|)]
  {
  }

  // ---------------------------------------------------------------------
  // What one attempt guarantees
  // ---------------------------------------------------------------------

  /**
   * An attempt that returns has made every navigation of the page's plan and
   * holds exactly the twenty records of the visible elements, in order.
   */
  lemma ReturnedIsFullPage(args: Args, w: World, p: int, items: seq<Record>)
    requires AttemptOutcome(args, w, p) == Returned(items)
    ensures |items| == ItemsPerPage
    ensures forall i :: 0 <= i < |items| ==>
      StarOf(w.reviews[i].star) == Some(items[i].star)
      && items[i].date == w.reviews[i].date && items[i].text == w.reviews[i].text
    ensures AttemptTrace(args, w, p) == Actions(args, p)
  {
    ReviewRecordsMeaning(w.reviews);
  }

  /**
   * `BlockedException` is raised exactly when loading succeeded and landed
   * on the subdomain's block page; the brand site is never blocked.
   */
  lemma BlockedExactly(args: Args, w: World, p: int)
    ensures AttemptOutcome(args, w, p) == Raised(BlockedException) <==>
      !FiresWithin(w, 0, 1) && args.subdomain == Shopping
      && w.landing == "https://search.shopping.naver.com/blocked.html"
  {
    BlockedOnlyOnBlockPage(args.subdomain, w.landing);
  }

  /**
   * The release discipline of `_run`: without `--debug` the browser is quit
   * on every exit but a Ctrl-C; with it, only after a success.
   */
  lemma ReleaseDiscipline(args: Args, res: AttemptResult)
    ensures !args.debug ==> (Releases(args, res) <==> res != Raised(KeyboardInterrupt))
    ensures args.debug ==> (Releases(args, res) <==> res.Returned?)
  {
  }
}
