/**
 * The Chrome session the crawler drives. The browser and the remote site are
 * not modelled; what they do to one session is fixed in advance by a `World`
 * value: where loading the page lands, what the page shows, and an optional
 * fault (a Selenium error or a Ctrl-C) that interrupts the session. Every
 * navigation is recorded as an event on the driver's trace.
 */
module Browser {
  import opened Wrappers

  /** The buttons the crawler clicks: a paginator slot `a[index]`, or "sort by most recent". */
  datatype Button = PageSlot(index: int) | SortRecent

  /** One navigation of the browser: `get(url)` or a click. */
  datatype Event = Load(url: string) | Click(button: Button)

  /** The exceptions the crawler's control flow tells apart. */
  datatype Exc =
    | BlockedException    // the site redirected to its block page
    | KeyboardInterrupt   // Ctrl-C: a BaseException, not an Exception
    | AssertionError      // the review list did not hold 20 items
    | ValueError          // `int(...)` refused a text
    | WebDriverException  // a wait timed out, an element was missing or stale
    | TabNotFound         // no tab carries the review label

  /** Whether `except Exception` catches it. */
  predicate IsException(e: Exc)
  {
    e != KeyboardInterrupt
  }

  datatype FaultKind = Interrupt | SeleniumError

  function Raise(k: FaultKind): Exc
  {
    match k
    case Interrupt => KeyboardInterrupt
    case SeleniumError => WebDriverException
  }

  /**
   * A fault raised by the browser interaction numbered `at` (from 0); if the
   * session makes fewer interactions, it is raised by the first read of the
   * page after them.
   */
  datatype Fault = Fault(kind: FaultKind, at: nat)

  /** The three texts of one review element: star, date and body. */
  datatype ReviewTexts = ReviewTexts(star: string, date: string, text: string)

  /** One tab of the product page: its label and the text of its count element. */
  datatype Tab = Tab(text: string, countText: string)

  /** What the remote site shows one browser session. */
  datatype World = World(
    landing: string,            // `current_url` after `get`
    productName: string,
    tabs: seq<Tab>,
    reviews: seq<ReviewTexts>,  // the visible review elements once the page is reached
    fault: Option<Fault>)

  /** The fault fires at one of the `n` interactions numbered from `start`. */
  predicate FiresWithin(w: World, start: nat, n: nat)
  {
    w.fault.Some? && start <= w.fault.value.at < start + n
  }

  /** How many of `n` interactions numbered from `start` complete. */
  function Completed(w: World, start: nat, n: nat): (k: nat)
    ensures k <= n
    ensures k < n <==> FiresWithin(w, start, n)
  {
    if FiresWithin(w, start, n) then w.fault.value.at - start else n
  }

  function FaultError(w: World): Exc
    requires w.fault.Some?
  {
    Raise(w.fault.value.kind)
  }

  /** A Chrome session: the navigations it has made and whether it is still running. */
  class Driver {
    const world: World
    var events: seq<Event>
    var open: bool

    /** `open_chromedriver`: a new running session that has done nothing yet. */
    constructor (world: World)
      ensures this.world == world && events == [] && open
    {
      this.world := world;
      events := [];
      open := true;
    }

    /** A navigation: recorded, unless the world's fault fires at it. */
    method Act(e: Event) returns (err: Option<Exc>)
      modifies this
      ensures err == if FiresWithin(world, |old(events)|, 1) then Some(FaultError(world)) else None
      ensures events == if err.None? then old(events) + [e] else old(events)
      ensures open == old(open)
    {
      if FiresWithin(world, |events|, 1) {
        err := Some(FaultError(world));
      } else {
        err := None;
        events := events + [e];
      }
    }

    /** A read of the page (a wait for elements, an element's text): a fault not yet fired fires here. */
    method Read() returns (err: Option<Exc>)
      ensures err == if world.fault.Some? && world.fault.value.at >= |events| then Some(FaultError(world)) else None
    {
      if world.fault.Some? && world.fault.value.at >= |events| {
        err := Some(FaultError(world));
      } else {
        err := None;
      }
    }

    /** `quit()`: the session is released. */
    method Quit()
      modifies this
      ensures !open && events == old(events)
    {
      open := false;
    }
  }
}
