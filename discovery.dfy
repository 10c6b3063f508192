/**
 * `get_info`: one browser session, before any page is crawled, that reads
 * the product's name and its number of reviews from the review tab.
 */
module Discovery {
  import opened Wrappers
  import opened Text
  import opened Site
  import opened Browser
  import opened Session

  /** What `get_info` returns. */
  datatype Info = Info(productName: string, numReview: int)

  /** The count of a tab: `int(text.replace(',', ''))`, or `ValueError`. */
  function TabCount(t: Tab): Result<int, Exc>
  {
    match CountOf(t.countText)
    case Some(n) => Success(n)
    case None => Failure(ValueError)
  }

  /** The count of the first tab whose text contains the review label; `TabNotFound` if none does. */
  function ReviewCount(sd: Subdomain, tabs: seq<Tab>): Result<int, Exc>
  {
    if tabs == [] then Failure(TabNotFound)
    else if Contains(tabs[0].text, ReviewTabLabel(sd)) then TabCount(tabs[0])
    else ReviewCount(sd, tabs[1..])
  }

  /** The tab at `i` decides the count when it is the first to carry the label. */
  lemma {:induction false} ReviewCountFirstTab(sd: Subdomain, tabs: seq<Tab>, i: nat)
    requires i < |tabs| && Contains(tabs[i].text, ReviewTabLabel(sd))
    requires forall j :: 0 <= j < i ==> !Contains(tabs[j].text, ReviewTabLabel(sd))
    ensures ReviewCount(sd, tabs) == TabCount(tabs[i])
  {
    if i > 0 {
      ReviewCountFirstTab(sd, tabs[1..], i - 1);
    }
  }

  /** Without a labelled tab the search fails with `TabNotFound`. */
  lemma {:induction false} ReviewCountNoTab(sd: Subdomain, tabs: seq<Tab>)
    requires forall j :: 0 <= j < |tabs| ==> !Contains(tabs[j].text, ReviewTabLabel(sd))
    ensures ReviewCount(sd, tabs) == Failure(TabNotFound)
  {
    if tabs != [] {
      ReviewCountNoTab(sd, tabs[1..]);
    }
  }

  /** A review tab showing "1,234" yields 1234. */
  lemma ReviewCountGrouped(sd: Subdomain, text: string, n: nat)
    requires Contains(text, ReviewTabLabel(sd))
    ensures ReviewCount(sd, [Tab(text, Grouped(FormatInt(n)))]) == Success(n)
  {
    CountOfGrouped(n);
  }

  /** The `for`-`else` search of `get_info` over the tabs. */
  method SearchTabs(sd: Subdomain, tabs: seq<Tab>) returns (r: Result<int, Exc>)
    ensures r == ReviewCount(sd, tabs)
  {
    var i := 0;
    while i < |tabs|
      invariant 0 <= i <= |tabs|
      invariant ReviewCount(sd, tabs) == ReviewCount(sd, tabs[i..])
    {
      if Contains(tabs[i].text, ReviewTabLabel(sd)) {
        return TabCount(tabs[i]);
      }
      assert tabs[i..][1..] == tabs[i + 1..];
      i := i + 1;
    }
    return Failure(TabNotFound);
  }

  /** What `get_info` returns or raises against world `w`. */
  function InfoOutcome(args: Args, w: World): Result<Info, Exc>
  {
    if FiresWithin(w, 0, 1) then Failure(FaultError(w))
    else if IsBlocked(args.subdomain, w.landing) then Failure(BlockedException)
    else if w.fault.Some? then Failure(FaultError(w))
    else match ReviewCount(args.subdomain, w.tabs)
      case Success(n) => Success(Info(w.productName, n))
      case Failure(e) => Failure(e)
  }

  /**
   * `get_info`: load the page, read the product name and the tabs, and
   * parse the count of the review tab. The browser is quit only once the
   * count is read; on every failure it is left running.
   */
  method GetInfo(args: Args, w: World) returns (r: Result<Info, Exc>, d: Driver)
    ensures fresh(d) && d.world == w
    ensures r == InfoOutcome(args, w)
    ensures d.events == if FiresWithin(w, 0, 1) then [] else [Load(args.url)]
    ensures d.open <==> r.Failure?
  {
    d := new Driver(w);
    var err := LoadWebpage(d, args);
    if err.None? {
      err := d.Read();
    }
    if err.Some? {
      return Failure(err.value), d;
    }
    var count := SearchTabs(args.subdomain, w.tabs);
    if count.Failure? {
      return Failure(count.error), d;
    }
    d.Quit();
    r := Success(Info(w.productName, count.value));
  }
}
