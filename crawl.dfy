/**
 * The crawl as a whole: `run`, the retry loop around one page; `run_all`,
 * one task per page with results gathered in page order; and the script's
 * entry point, which derives the pages to crawl and the output path.
 */
module Crawl {
  import opened Wrappers
  import opened Site
  import opened Browser
  import opened Session
  import opened Discovery

  /** `MAX_NUM_PAGE`. */
  const MaxNumPage: int := 100

  // ---------------------------------------------------------------------
  // run: retry one page
  // ---------------------------------------------------------------------

  /** The exceptions after which `run` gives up the page: the block page and Ctrl-C. */
  predicate Abandons(e: Exc)
  {
    e == BlockedException || e == KeyboardInterrupt
  }

  /** Whether an attempt ends `run`'s loop. */
  predicate Ends(res: AttemptResult)
  {
    res.Returned? || Abandons(res.error)
  }

  /** What `run` returns once an attempt ends its loop: the records, or `[]` for a page given up. */
  function PageResult(res: AttemptResult): seq<Record>
  {
    if res.Returned? then res.items else []
  }

  /**
   * `run` against the worlds its successive attempts meet: the first attempt
   * that returns or is given up decides; every other exception is retried.
   * `None`: all the given attempts failed and `run` is still retrying, as it
   * has no bound on its attempts.
   */
  function RunSpec(args: Args, worlds: seq<World>): Option<seq<Record>>
    requires args.pageNumber.Some?
  {
    if worlds == [] then None
    else
      var res := AttemptOutcome(args, worlds[0], args.pageNumber.value);
      if Ends(res) then Some(PageResult(res)) else RunSpec(args, worlds[1..])
  }

  /** `run`: `_run` again and again until an attempt returns or is given up. */
  method Run(args: Args, worlds: seq<World>) returns (r: Option<seq<Record>>)
    requires args.pageNumber.Some?
    ensures r == RunSpec(args, worlds)
  {
    var i := 0;
    while i < |worlds|
      invariant 0 <= i <= |worlds|
      invariant RunSpec(args, worlds) == RunSpec(args, worlds[i..])
    {
      var res, _ := AttemptOnce(args, worlds[i]);
      if res.Returned? {
        return Some(res.items);
      } else if Abandons(res.error) {
        return Some([]);
      }
      assert worlds[i..][1..] == worlds[i + 1..];
      i := i + 1;
    }
    return None;
  }

  /** The attempt at `i` decides the page when every attempt before it was retried. */
  lemma {:induction false} RunFirstEnding(args: Args, worlds: seq<World>, i: nat)
    requires args.pageNumber.Some?
    requires i < |worlds| && Ends(AttemptOutcome(args, worlds[i], args.pageNumber.value))
    requires forall j :: 0 <= j < i ==> !Ends(AttemptOutcome(args, worlds[j], args.pageNumber.value))
    ensures RunSpec(args, worlds) == Some(PageResult(AttemptOutcome(args, worlds[i], args.pageNumber.value)))
  {
    if i > 0 {
      assert !Ends(AttemptOutcome(args, worlds[0], args.pageNumber.value));
      RunFirstEnding(args, worlds[1..], i - 1);
    }
  }

  /** While no attempt returns or is given up, `run` keeps retrying. */
  lemma {:induction false} RunKeepsRetrying(args: Args, worlds: seq<World>)
    requires args.pageNumber.Some?
    requires forall j :: 0 <= j < |worlds| ==> !Ends(AttemptOutcome(args, worlds[j], args.pageNumber.value))
    ensures RunSpec(args, worlds) == None
  {
    if worlds != [] {
      assert !Ends(AttemptOutcome(args, worlds[0], args.pageNumber.value));
      RunKeepsRetrying(args, worlds[1..]);
    }
  }

  /** A page result holds either nothing (given up) or a full page of twenty records. */
  lemma {:induction false} RunPageSize(args: Args, worlds: seq<World>)
    requires args.pageNumber.Some?
    requires RunSpec(args, worlds).Some?
    ensures |RunSpec(args, worlds).value| == 0 || |RunSpec(args, worlds).value| == ItemsPerPage
  {
    var res := AttemptOutcome(args, worlds[0], args.pageNumber.value);
    if res.Returned? {
      ReturnedIsFullPage(args, worlds[0], args.pageNumber.value, res.items);
    } else if !Abandons(res.error) {
      RunPageSize(args, worlds[1..]);
    }
  }

  /**
   * A page that always shows a number of reviews other than twenty (the
   * last, partly filled page of a product, say) fails the count assertion
   * on every attempt, so `run` never returns for it.
   */
  lemma ShortPageRetriedForever(args: Args, worlds: seq<World>)
    requires args.pageNumber.Some?
    requires forall j :: 0 <= j < |worlds| ==>
      worlds[j].fault.None? && !IsBlocked(args.subdomain, worlds[j].landing) && |worlds[j].reviews| != ItemsPerPage
    ensures RunSpec(args, worlds) == None
  {
    RunKeepsRetrying(args, worlds);
  }

  // ---------------------------------------------------------------------
  // run_all: one task per page, results in page order
  // ---------------------------------------------------------------------

  /** The per-page copies of the namespace `run_all` builds: the same but for `page_number`. */
  method ArgsPerPage(args: Args, pages: seq<int>) returns (argsList: seq<Args>)
    ensures |argsList| == |pages|
    ensures forall i :: 0 <= i < |pages| ==> argsList[i] == args.(pageNumber := Some(pages[i]))
  {
    argsList := [];
    for i := 0 to |pages|
      invariant |argsList| == i
      invariant forall j :: 0 <= j < i ==> argsList[j] == args.(pageNumber := Some(pages[j]))
    {
      var argsPage := args.(pageNumber := Some(pages[i]));
      argsList := argsList + [argsPage];
    }
  }

  /** `[r for reviews_1d in reviews_2d for r in reviews_1d]`. */
  function Flatten<T>(xss: seq<seq<T>>): seq<T>
  {
    if xss == [] then [] else Flatten(xss[..|xss| - 1]) + xss[|xss| - 1]
  }

  /** The total number of elements of the lists. */
  function TotalLength<T>(xss: seq<seq<T>>): nat
  {
    if xss == [] then 0 else TotalLength(xss[..|xss| - 1]) + |xss[|xss| - 1]|
  }

  lemma {:induction false} FlattenConcat<T>(a: seq<seq<T>>, b: seq<seq<T>>)
    ensures Flatten(a + b) == Flatten(a) + Flatten(b)
    decreases |b|
  {
    if b == [] {
      assert a + b == a;
    } else {
      var init, last := b[..|b| - 1], b[|b| - 1];
      assert (a + b)[..|a + b| - 1] == a + init;
      assert (a + b)[|a + b| - 1] == last;
      FlattenConcat(a, init);
      assert Flatten(b) == Flatten(init) + last;
    }
  }

  lemma {:induction false} FlattenLength<T>(xss: seq<seq<T>>)
    ensures |Flatten(xss)| == TotalLength(xss)
  {
    if xss != [] {
      FlattenLength(xss[..|xss| - 1]);
    }
  }

  /**
   * Element `j` of list `i` sits in the flattened list right after the
   * elements of the lists before it: the lists keep their order and their
   * elements keep theirs.
   */
  lemma FlattenAt<T>(xss: seq<seq<T>>, i: nat, j: nat)
    requires i < |xss| && j < |xss[i]|
    ensures TotalLength(xss[..i]) + j < |Flatten(xss)|
    ensures Flatten(xss)[TotalLength(xss[..i]) + j] == xss[i][j]
  {
    assert xss == xss[..i] + [xss[i]] + xss[i + 1..];
    FlattenConcat(xss[..i] + [xss[i]], xss[i + 1..]);
    FlattenConcat(xss[..i], [xss[i]]);
    assert Flatten([xss[i]]) == xss[i] by {
      assert [xss[i]][..0] == [];
    }
    FlattenLength(xss[..i]);
  }

  /** How many of the page results are full pages of twenty records. */
  function FullPages(xss: seq<seq<Record>>): nat
  {
    if xss == [] then 0
    else FullPages(xss[..|xss| - 1]) + (if |xss[|xss| - 1]| == ItemsPerPage then 1 else 0)
  }

  /** When every page result is empty or full, the data set has twenty rows per full page. */
  lemma {:induction false} FlattenSize(xss: seq<seq<Record>>)
    requires forall i :: 0 <= i < |xss| ==> |xss[i]| == 0 || |xss[i]| == ItemsPerPage
    ensures |Flatten(xss)| == ItemsPerPage * FullPages(xss)
  {
    if xss != [] {
      FlattenSize(xss[..|xss| - 1]);
    }
  }

  /** The result of page `i`'s `run`. */
  function PageRun(args: Args, pages: seq<int>, worlds: seq<seq<World>>, i: nat): Option<seq<Record>>
    requires |worlds| == |pages| && i < |pages|
  {
    RunSpec(args.(pageNumber := Some(pages[i])), worlds[i])
  }

  /**
   * `run_all`: the concatenation, in the order of `pages`, of each page's
   * `run`; `None` while some page is still retrying, since `imap` hands the
   * results over in order and waits for that page forever.
   */
  function RunAllSpec(args: Args, pages: seq<int>, worlds: seq<seq<World>>): Option<seq<Record>>
    requires |worlds| == |pages|
  {
    if forall i :: 0 <= i < |pages| ==> PageRun(args, pages, worlds, i).Some? then
      Some(Flatten(seq(|pages|, i requires 0 <= i < |pages| => PageRun(args, pages, worlds, i).value)))
    else None
  }

  /**
   * `run_all`, with the worker pool replaced by running the tasks one after
   * another in submission order; `worlds[i]` is what the attempts at
   * `pages[i]` meet.
   */
  method RunAll(args: Args, pages: seq<int>, worlds: seq<seq<World>>) returns (r: Option<seq<Record>>)
    requires |worlds| == |pages|
    ensures r == RunAllSpec(args, pages, worlds)
  {
    var argsList := ArgsPerPage(args, pages);
    var reviews2d: seq<seq<Record>> := [];
    for i := 0 to |argsList|
      invariant |reviews2d| == i
      invariant forall j :: 0 <= j < i ==> PageRun(args, pages, worlds, j) == Some(reviews2d[j])
    {
      var reviews := Run(argsList[i], worlds[i]);
      if reviews.None? {
        assert !PageRun(args, pages, worlds, i).Some?;
        return None;
      }
      reviews2d := reviews2d + [reviews.value];
    }
    assert reviews2d == seq(|pages|, i requires 0 <= i < |pages| => PageRun(args, pages, worlds, i).value);
    return Some(Flatten(reviews2d));
  }

  /** The per-page results `run_all` concatenates, in page order. */
  function PageResults(args: Args, pages: seq<int>, worlds: seq<seq<World>>): (rs: seq<seq<Record>>)
    requires |worlds| == |pages|
    requires forall i :: 0 <= i < |pages| ==> PageRun(args, pages, worlds, i).Some?
    ensures |rs| == |pages|
    ensures forall i :: 0 <= i < |pages| ==> PageRun(args, pages, worlds, i) == Some(rs[i])
  {
    seq(|pages|, i requires 0 <= i < |pages| => PageRun(args, pages, worlds, i).value)
  }

  /** The data set has twenty rows for each page not given up, and no others. */
  lemma RunAllSize(args: Args, pages: seq<int>, worlds: seq<seq<World>>)
    requires |worlds| == |pages|
    requires RunAllSpec(args, pages, worlds).Some?
    ensures |RunAllSpec(args, pages, worlds).value| == ItemsPerPage * FullPages(PageResults(args, pages, worlds))
  {
    var results := PageResults(args, pages, worlds);
    forall k | 0 <= k < |pages|
      ensures |results[k]| == 0 || |results[k]| == ItemsPerPage
    {
      assert PageRun(args, pages, worlds, k) == Some(results[k]);
      RunPageSize(args.(pageNumber := Some(pages[k])), worlds[k]);
    }
    assert RunAllSpec(args, pages, worlds).value == Flatten(results);
    FlattenSize(results);
  }

  /**
   * Record `j` of page `pages[i]` follows the records of the pages submitted
   * before it, whatever order the workers finish in.
   */
  lemma RunAllOrder(args: Args, pages: seq<int>, worlds: seq<seq<World>>, i: nat, j: nat)
    requires |worlds| == |pages|
    requires RunAllSpec(args, pages, worlds).Some?
    requires i < |pages| && j < |PageResults(args, pages, worlds)[i]|
    ensures var results := PageResults(args, pages, worlds);
      && TotalLength(results[..i]) + j < |RunAllSpec(args, pages, worlds).value|
      && RunAllSpec(args, pages, worlds).value[TotalLength(results[..i]) + j] == results[i][j]
  {
    var results := PageResults(args, pages, worlds);
    assert RunAllSpec(args, pages, worlds).value == Flatten(results);
    FlattenAt(results, i, j);
  }

  // ---------------------------------------------------------------------
  // The entry point
  // ---------------------------------------------------------------------

  /**
   * `args.max_page`, after the entry point has filled it in: when no page
   * limit is given (absent or 0), `num_review // 20 + 1` capped at 100.
   * Dafny's `/` agrees with Python's `//` for the positive divisor 20.
   */
  function MaxPage(maxPage: Option<int>, numReview: int): int
  {
    if maxPage.None? || maxPage.value == 0 then
      var derived := numReview / ItemsPerPage + 1;
      if derived < MaxNumPage then derived else MaxNumPage
    else maxPage.value
  }

  /**
   * Without a page limit and with a non-negative review count the page
   * count lies in 1..100, and below the cap it is the page holding review
   * number `num_review` counted from 0: one more page than needed when the
   * count is a multiple of twenty.
   */
  lemma MaxPageDerived(maxPage: Option<int>, numReview: int)
    requires maxPage.None? || maxPage.value == 0
    requires numReview >= 0
    ensures 1 <= MaxPage(maxPage, numReview) <= MaxNumPage
    ensures MaxPage(maxPage, numReview) < MaxNumPage ==>
      ItemsPerPage * (MaxPage(maxPage, numReview) - 1) <= numReview < ItemsPerPage * MaxPage(maxPage, numReview)
    ensures MaxPage(maxPage, numReview) == MaxNumPage <==> numReview >= ItemsPerPage * (MaxNumPage - 1)
  {
  }

  lemma MaxPageExamples()
    ensures MaxPage(None, 0) == 1
    ensures MaxPage(None, 39) == 2
    ensures MaxPage(None, 40) == 3
    ensures MaxPage(Some(0), 5000) == 100
    ensures MaxPage(Some(7), 5000) == 7
  {
  }

  /** `list(range(1, max_page + 1))`. */
  function PageNumbers(maxPage: int): (r: seq<int>)
    ensures |r| == if maxPage < 0 then 0 else maxPage
    ensures forall i :: 0 <= i < |r| ==> r[i] == i + 1
  {
    if maxPage <= 0 then [] else PageNumbers(maxPage - 1) + [maxPage]
  }

  /** `args.out_path if args.out_path else f'out/{product_name}.xlsx'`: an empty path counts as none. */
  function OutPath(outPath: Option<string>, productName: string): (path: string)
    ensures outPath.Some? && outPath.value != "" ==> path == outPath.value
    ensures outPath.None? || outPath.value == "" ==>
      |path| == |productName| + 9 && path[..4] == "out/" && path[4..|path| - 5] == productName
      && path[|path| - 5..] == ".xlsx"
  {
    if outPath.Some? && outPath.value != "" then outPath.value else "out/" + productName + ".xlsx"
  }

  /** How a run of the script ends. */
  datatype Finish =
    | Written(path: string, rows: seq<Record>)  // the data frame is saved to `path`
    | Crashed(error: Exc)                       // `get_info` raised: the script exits with the traceback
    | Retrying                                  // some page is still being retried

  /**
   * The script's entry point after argument parsing: `infoWorld` is what the
   * `get_info` session meets, `pageWorlds(p)` what the attempts at page `p`
   * meet.
   */
  function CrawlSpec(args: Args, infoWorld: World, pageWorlds: int -> seq<World>): Finish
  {
    match InfoOutcome(args, infoWorld)
    case Failure(e) => Crashed(e)
    case Success(info) =>
      var pages := PageNumbers(MaxPage(args.maxPage, info.numReview));
      var worlds := seq(|pages|, i requires 0 <= i < |pages| => pageWorlds(pages[i]));
      match RunAllSpec(args.(maxPage := Some(MaxPage(args.maxPage, info.numReview))), pages, worlds)
      case None => Retrying
      case Some(rows) => Written(OutPath(args.outPath, info.productName), rows)
  }

  method CrawlMain(args: Args, infoWorld: World, pageWorlds: int -> seq<World>) returns (f: Finish)
    ensures f == CrawlSpec(args, infoWorld, pageWorlds)
  {
    var info, _ := GetInfo(args, infoWorld);
    if info.Failure? {
      return Crashed(info.error);
    }
    var productName, numReview := info.value.productName, info.value.numReview;
    var args' := args;
    if args.maxPage.None? || args.maxPage.value == 0 {
      args' := args.(maxPage := Some(MaxPage(args.maxPage, numReview)));
    }
    var pages := PageNumbers(args'.maxPage.value);
    var worlds := seq(|pages|, i requires 0 <= i < |pages| => pageWorlds(pages[i]));
    var rows := RunAll(args', pages, worlds);
    if rows.None? {
      return Retrying;
    }
    f := Written(OutPath(args.outPath, productName), rows.value);
  }
}
