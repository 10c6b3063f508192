/**
 * What the crawler knows about the two shops it supports: the URL patterns
 * that pick a subdomain (`URL_PATTERNS`, `URLAction`), the page a blocked
 * client is redirected to (`BLOCKED_URL`, the test in `load_webpage`) and the
 * label of the review tab (`TEXT_REVIEW_TAB_DICT`).
 */
module Site {
  import opened Wrappers
  import opened Text

  datatype Subdomain = Shopping | Brand

  /** The keys of `URL_PATTERNS`, in the dictionary's order. */
  const PatternOrder: seq<Subdomain> := [Shopping, Brand]

  /**
   * The literal part of each pattern, in front of `[0-9]+(:?$|\?)`. Its dots
   * are not escaped in the pattern, so each stands for any character but a
   * line feed.
   */
  function Prefix(sd: Subdomain): string
  {
    match sd
    case Shopping => "https://search.shopping.naver.com/catalog/"
    case Brand => "https://brand.naver.com/pupping/products/"
  }

  /** One pattern character against one text character: an unescaped `.` matches all but `\n`. */
  predicate CharMatches(p: char, c: char)
  {
    if p == '.' then c != '\n' else c == p
  }

  predicate PrefixMatches(prefix: string, s: string)
  {
    |prefix| <= |s| && forall i :: 0 <= i < |prefix| ==> CharMatches(prefix[i], s[i])
  }

  /**
   * What may follow the digits for `(:?$|\?)` to match: `:?$` (an optional
   * colon, then the end or a final line feed, which `$` also accepts) or `\?`
   * (a question mark, then anything).
   */
  predicate TailMatches(t: string)
  {
    t == "" || t == "\n" || t == ":" || t == ":\n" || (t != "" && t[0] == '?')
  }

  /** The end of the run of digits that starts at `i`. */
  function DigitRunEnd(s: string, i: nat): (k: nat)
    requires i <= |s|
    ensures i <= k <= |s|
    ensures AllDigits(s[i..k])
    ensures k == |s| || !IsDigit(s[k])
    decreases |s| - i
  {
    if i < |s| && IsDigit(s[i]) then DigitRunEnd(s, i + 1) else i
  }

  /** `URL_PATTERNS[sd].match(url)` succeeds. */
  predicate Matches(sd: Subdomain, url: string)
  {
    var p := |Prefix(sd)|;
    PrefixMatches(Prefix(sd), url) && var k := DigitRunEnd(url, p); k > p && TailMatches(url[k..])
  }

  /** A maximal run of digits starting at `i` is the one `DigitRunEnd` finds. */
  lemma DigitRunUnique(s: string, i: nat, k: nat)
    requires i <= k <= |s|
    requires AllDigits(s[i..k])
    requires k == |s| || !IsDigit(s[k])
    ensures DigitRunEnd(s, i) == k
  {
    var e := DigitRunEnd(s, i);
    assert forall j :: i <= j < e ==> IsDigit(s[j]) by {
      forall j | i <= j < e ensures IsDigit(s[j]) { assert s[i..e][j - i] == s[j]; }
    }
    assert forall j :: i <= j < k ==> IsDigit(s[j]) by {
      forall j | i <= j < k ensures IsDigit(s[j]) { assert s[i..k][j - i] == s[j]; }
    }
  }

  lemma TailNotDigit(t: string)
    requires TailMatches(t)
    ensures t == [] || !IsDigit(t[0])
  {
  }

  /**
   * The matcher agrees with the regular expression read literally: some
   * non-empty run of digits after the prefix is followed by an accepted tail.
   */
  lemma MatchesIff(sd: Subdomain, url: string)
    ensures Matches(sd, url) <==>
      PrefixMatches(Prefix(sd), url)
      && exists k :: |Prefix(sd)| < k <= |url| && AllDigits(url[|Prefix(sd)|..k]) && TailMatches(url[k..])
  {
    var p := |Prefix(sd)|;
    if PrefixMatches(Prefix(sd), url) {
      if k :| p < k <= |url| && AllDigits(url[p..k]) && TailMatches(url[k..]) {
        TailNotDigit(url[k..]);
        assert k == |url| || url[k..][0] == url[k];
        DigitRunUnique(url, p, k);
      }
    }
  }

  /** The two patterns never both match, so their order decides nothing. */
  lemma PatternsDisjoint(url: string)
    ensures !(Matches(Shopping, url) && Matches(Brand, url))
  {
    if PrefixMatches(Prefix(Shopping), url) && PrefixMatches(Prefix(Brand), url) {
      assert CharMatches(Prefix(Shopping)[8], url[8]);
      assert CharMatches(Prefix(Brand)[8], url[8]);
    }
  }

  /** An unescaped dot matches any character, and a colon may end the URL. */
  lemma DotAndColonQuirks()
    ensures Matches(Shopping, "https://searchXshopping.naver.com/catalog/123:")
  {
    var u := "https://searchXshopping.naver.com/catalog/123:";
    assert DigitRunEnd(u, 42) == 45;
  }

  /** A query string may follow the product number. */
  lemma QueryAccepted()
    ensures Matches(Brand, "https://brand.naver.com/pupping/products/5?tab=review")
  {
    var u := "https://brand.naver.com/pupping/products/5?tab=review";
    assert DigitRunEnd(u, 41) == 42;
  }

  /** A path after the product number is refused. */
  lemma PathRefused()
    ensures !Matches(Shopping, "https://search.shopping.naver.com/catalog/123/reviews")
  {
    var u := "https://search.shopping.naver.com/catalog/123/reviews";
    assert DigitRunEnd(u, 42) == 45;
  }

  datatype ArgumentError = NoPatternMatches

  /** The URL argument as `URLAction` stores it on the namespace. */
  datatype Located = Located(url: string, subdomain: Subdomain)

  /**
   * `URLAction.__call__`: try the patterns in dictionary order and keep the
   * URL with the subdomain of the first that matches; raise `ArgumentError`
   * when none does.
   */
  method UrlAction(url: string) returns (r: Result<Located, ArgumentError>)
    ensures r.Success? ==> r.value.url == url && Matches(r.value.subdomain, url)
    ensures r.Success? ==> forall j :: 0 <= j < |PatternOrder| && PatternOrder[j] == r.value.subdomain ==>
      forall i :: 0 <= i < j ==> !Matches(PatternOrder[i], url)
    ensures r.Failure? <==> forall i :: 0 <= i < |PatternOrder| ==> !Matches(PatternOrder[i], url)
  {
    var i := 0;
    while i < |PatternOrder|
      invariant 0 <= i <= |PatternOrder|
      invariant forall j :: 0 <= j < i ==> !Matches(PatternOrder[j], url)
    {
      if Matches(PatternOrder[i], url) {
        return Success(Located(url, PatternOrder[i]));
      }
      i := i + 1;
    }
    return Failure(NoPatternMatches);
  }

  /** `BLOCKED_URL`: the shopping site's block page; the brand site has none. */
  function BlockedUrl(sd: Subdomain): Option<string>
  {
    match sd
    case Shopping => Some("https://search.shopping.naver.com/blocked.html")
    case Brand => None
  }

  /** `current_url == BLOCKED_URL[subdomain]`: a URL never equals `None`. */
  predicate IsBlocked(sd: Subdomain, currentUrl: string)
  {
    BlockedUrl(sd) == Some(currentUrl)
  }

  lemma BlockedOnlyOnBlockPage(sd: Subdomain, currentUrl: string)
    ensures IsBlocked(sd, currentUrl) <==>
      sd == Shopping && currentUrl == "https://search.shopping.naver.com/blocked.html"
  {
  }

  /** `TEXT_REVIEW_TAB_DICT`: "쇼핑몰리뷰" on the shopping site, "리뷰" on the brand site. */
  function ReviewTabLabel(sd: Subdomain): string
  {
    match sd
    case Shopping => "\U{C1FC}\U{D551}\U{BAB0}\U{B9AC}\U{BDF0}"
    case Brand => "\U{B9AC}\U{BDF0}"
  }
}
