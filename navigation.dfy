/**
 * `goto_page`: which paginator buttons the crawler clicks to reach a page,
 * and where those clicks lead on the paginator the slot numbers imply.
 *
 * The paginator's buttons are addressed by position, `a[index]`. On the first
 * window, slots 1..10 are pages 1..10 and slot 11 is "next window". Once the
 * window has moved, slot 1 is "previous window", slots 2..11 are the ten pages
 * of the window and slot 12 is "next window".
 */
module Navigation {
  import opened Wrappers

  /** Number of page links the paginator shows at once. */
  const WindowSize: int := 10

  /** The "next window" clicks: the first at slot 11, every later one at slot 12. */
  function WindowClicks(n: nat): (r: seq<int>)
    ensures |r| == n
  {
    seq(n, i => if i == 0 then 11 else 12)
  }

  /**
   * The slots `goto_page` clicks, in order, for page `p`: one direct click
   * below page 11; otherwise `(p - 1) // 10` window clicks followed by a
   * direct click at slot `p % 10 + 1` when `(p - 1) % 10 > 1`.
   */
  function Plan(p: int): seq<int>
  {
    if p < 11 then [p]
    else WindowClicks((p - 1) / WindowSize)
         + (if (p - 1) % WindowSize > 1 then [p % WindowSize + 1] else [])
  }

  /** Pages 1..10 (and any smaller number) are one direct click at slot `p`. */
  lemma PlanBelowEleven(p: int)
    requires p < 11
    ensures Plan(p) == [p]
  {
  }

  /**
   * From page 11 on: exactly `(p - 1) // 10` window clicks come first, the
   * first at slot 11 and the rest at slot 12, and a trailing direct click at
   * slot `p % 10 + 1` follows if and only if `(p - 1) % 10 > 1`.
   */
  lemma PlanFromEleven(p: int)
    requires p >= 11
    ensures var k := (p - 1) / 10;
      && k >= 1
      && Plan(p)[0] == 11
      && (forall i :: 1 <= i < k ==> Plan(p)[i] == 12)
      && (|Plan(p)| == k + 1 <==> (p - 1) % 10 > 1)
      && (|Plan(p)| == k <==> (p - 1) % 10 <= 1)
      && ((p - 1) % 10 > 1 ==> Plan(p)[k] == p % 10 + 1)
  {
  }

  lemma PlanExamples()
    ensures Plan(7) == [7]
    ensures Plan(11) == [11]
    ensures Plan(21) == [11, 12]
    ensures Plan(25) == [11, 12, 6]
    ensures Plan(20) == [11, 1]
  {
  }

  // ---------------------------------------------------------------------
  // The paginator the slot numbers imply
  // ---------------------------------------------------------------------

  /** The paginator's state: the first page of the visible window and the page shown. */
  datatype View = View(first: int, current: int)

  /** A freshly loaded product page shows page 1 in the first window. */
  const Start: View := View(1, 1)

  /**
   * Clicking slot `slot`; `None` when no button sits there (the wait for a
   * clickable element then times out). "Previous window" is taken to show the
   * last page of the previous window.
   */
  function Press(v: View, slot: int): Option<View>
  {
    if v.first == 1 then
      if 1 <= slot <= 10 then Some(View(1, slot))
      else if slot == 11 then Some(View(11, 11))
      else None
    else
      if slot == 1 then Some(View(v.first - 10, v.first - 1))
      else if 2 <= slot <= 11 then Some(View(v.first, v.first + slot - 2))
      else if slot == 12 then Some(View(v.first + 10, v.first + 10))
      else None
  }

  /** Clicking a sequence of slots in order; `None` as soon as one is missing. */
  function Follow(v: View, slots: seq<int>): Option<View>
    decreases |slots|
  {
    if slots == [] then Some(v)
    else match Press(v, slots[0])
      case None => None
      case Some(w) => Follow(w, slots[1..])
  }

  lemma {:induction false} FollowConcat(v: View, a: seq<int>, b: seq<int>)
    ensures Follow(v, a + b) == match Follow(v, a) case None => None case Some(w) => Follow(w, b)
    decreases |a|
  {
    if a == [] {
      assert a + b == b;
    } else {
      assert (a + b)[1..] == a[1..] + b;
      match Press(v, a[0])
      case None =>
      case Some(w) => FollowConcat(w, a[1..], b);
    }
  }

  /** After `n` window clicks from the start the window begins at page `10 n + 1`, which is shown. */
  lemma {:induction false} FollowWindowClicks(n: nat)
    ensures Follow(Start, WindowClicks(n)) == Some(View(10 * n + 1, 10 * n + 1))
  {
    if n == 1 {
      assert WindowClicks(1) == [11];
    } else if n > 1 {
      FollowWindowClicks(n - 1);
      assert WindowClicks(n) == WindowClicks(n - 1) + [12];
      FollowConcat(Start, WindowClicks(n - 1), [12]);
    }
  }

  /**
   * Where the as-written plan leads: to page `p` for every page below 11 and
   * for every later page except those with `p % 10` equal to 0 or 2.
   */
  lemma PlanReaches(p: int)
    requires 1 <= p
    ensures Follow(Start, Plan(p)).Some?
    ensures Follow(Start, Plan(p)).value.current == p <==> p < 11 || (p % 10 != 0 && p % 10 != 2)
  {
    if p >= 11 {
      var k := (p - 1) / 10;
      FollowWindowClicks(k);
      if (p - 1) % 10 > 1 {
        FollowConcat(Start, WindowClicks(k), [p % 10 + 1]);
      } else {
        assert Plan(p) == WindowClicks(k);
      }
    }
  }

  /**
   * On any paginator, the first two pages of every later window get the same
   * clicks, so one of them is read from the wrong page.
   */
  lemma PlanElevenTwelveAlike(k: nat)
    requires k >= 1
    ensures Plan(10 * k + 1) == Plan(10 * k + 2)
  {
  }

  /** Page 12 is read from page 11: the trailing click is skipped. */
  lemma PlanMissesTwelve()
    ensures Follow(Start, Plan(12)) == Some(View(11, 11))
  {
    FollowWindowClicks(1);
    assert Plan(12) == WindowClicks(1);
  }

  /** For page 20 the trailing click lands on slot 1, "previous window". */
  lemma PlanMissesTwenty()
    ensures Follow(Start, Plan(20)) == Some(View(1, 10))
  {
    FollowWindowClicks(1);
    FollowConcat(Start, WindowClicks(1), [1]);
  }

  /**
   * The plan the slot layout calls for: the trailing click goes to slot
   * `(p - 1) % 10 + 2` whenever the target is not the window's first page.
   */
  function CorrectedPlan(p: int): seq<int>
  {
    if p < 11 then [p]
    else WindowClicks((p - 1) / WindowSize)
         + (if (p - 1) % WindowSize > 0 then [(p - 1) % WindowSize + 2] else [])
  }

  /** The corrected plan shows page `p` for every page number from 1 on. */
  lemma CorrectedPlanReaches(p: int)
    requires 1 <= p
    ensures Follow(Start, CorrectedPlan(p)) == Some(View(if p < 11 then 1 else p - (p - 1) % 10, p))
  {
    if p >= 11 {
      var k := (p - 1) / 10;
      FollowWindowClicks(k);
      if (p - 1) % 10 > 0 {
        FollowConcat(Start, WindowClicks(k), [(p - 1) % 10 + 2]);
      } else {
        assert CorrectedPlan(p) == WindowClicks(k);
      }
    }
  }

  /** The two plans differ exactly on pages from 11 on whose last digit is 0 or 2. */
  lemma CorrectedPlanAgrees(p: int)
    ensures CorrectedPlan(p) == Plan(p) <==> p < 11 || (p % 10 != 0 && p % 10 != 2)
  {
    if p >= 11 {
      var k := (p - 1) / 10;
      var w := WindowClicks(k);
      if p % 10 == 0 {
        assert |CorrectedPlan(p)| == |Plan(p)| == k + 1;
        assert CorrectedPlan(p)[k] == 11 != 1 == Plan(p)[k];
      } else if p % 10 == 2 {
        assert |CorrectedPlan(p)| == k + 1 != k == |Plan(p)|;
      }
    }
  }
}
