/**
 * ProxyService.search: builds the search path from the resource type and the
 * request parameters, fetches the first page, and when that page has a next
 * link and no page limit of 1 applies, follows next links and gathers the
 * entries of every page fetched into one searchset bundle.
 *
 * The pages the upstream server would answer are given as a sequence: the
 * first is the answer to the search path, each further one the answer to the
 * previous page's next link.
 */
module ProxyService {
  import opened Wrappers
  import opened JavaStrings

  // ---------------------------------------------------------------------------
  // The search path

  /** One "key=value" element of paramsList, with no escaping. */
  function ParamString(p: (string, string)): string {
    p.0 + "=" + p.1
  }

  /** The request parameters in the map's iteration order, as key=value
      strings. */
  function ParamStrings(params: seq<(string, string)>): (r: seq<string>)
    ensures |r| == |params|
    ensures forall i :: 0 <= i < |params| ==> r[i] == ParamString(params[i])
  {
    seq(|params|, i requires 0 <= i < |params| => ParamString(params[i]))
  }

  /** resourceType + "?" + StringUtils.join(paramsList, "&"). */
  function QueryPath(resourceType: string, params: seq<(string, string)>): (path: string)
    ensures resourceType + "?" <= path
    ensures |params| >= 1 ==> |path| > |resourceType| + 1 && path[|resourceType| + 1..] == Join(ParamStrings(params), '&')
  {
    resourceType + "?" + Join(ParamStrings(params), '&')
  }

  /** The path-building loop of search. */
  method SearchPath(resourceType: string, params: seq<(string, string)>) returns (path: string)
    ensures path == QueryPath(resourceType, params)
  {
    var paramsList: seq<string> := [];
    for i := 0 to |params|
      invariant paramsList == ParamStrings(params[..i])
    {
      paramsList := paramsList + [params[i].0 + "=" + params[i].1];
    }
    assert params[..|params|] == params;
    path := resourceType + "?" + Join(paramsList, '&');
  }

  /** No parameters leave a trailing "?". */
  lemma QueryPathWithoutParams(resourceType: string)
    ensures QueryPath(resourceType, []) == resourceType + "?"
  {
  }

  predicate PlainText(s: string) {
    '&' !in s && '=' !in s
  }

  /** When no key or value holds '&' or '=', the query after "?" splits back
      into the parameters, in order: each '&'-piece is a key and its value
      around one '='. */
  lemma QueryPathRoundTrip(resourceType: string, params: seq<(string, string)>)
    requires |params| >= 1
    requires forall i :: 0 <= i < |params| ==> PlainText(params[i].0) && PlainText(params[i].1)
    ensures var path := QueryPath(resourceType, params);
            var pieces := Split(path[|resourceType| + 1..], '&');
            && |pieces| == |params|
            && forall i :: 0 <= i < |params| ==> Split(pieces[i], '=') == [params[i].0, params[i].1]
  {
    var strs := ParamStrings(params);
    var path := QueryPath(resourceType, params);
    assert path[|resourceType| + 1..] == Join(strs, '&');
    forall i | 0 <= i < |strs| ensures '&' !in strs[i] {
      assert strs[i] == params[i].0 + ['='] + params[i].1;
    }
    SplitJoin(strs, '&');
    forall i | 0 <= i < |params| ensures Split(strs[i], '=') == [params[i].0, params[i].1] {
      assert strs[i] == params[i].0 + ['='] + params[i].1;
      SplitAtFirstSeparator(params[i].0, params[i].1, '=');
      SplitWithoutSeparator(params[i].1, '=');
    }
  }

  // ---------------------------------------------------------------------------
  // Pages

  datatype BundleType = Searchset | OtherType(name: string)

  datatype Entry = Entry(fullUrl: string, resource: string)

  /** The parts of a Bundle that search reads or sets: its type, its total
      (getTotal() gives 0 when absent), its entries and its next link. */
  datatype Bundle = Bundle(bundleType: BundleType, total: int, entries: seq<Entry>, next: Option<string>)

  /** A finite chain of pages: every page but the last has a next link. */
  predicate IsPageChain(pages: seq<Bundle>) {
    && |pages| >= 1
    && (forall i :: 0 <= i < |pages| - 1 ==> pages[i].next.Some?)
    && pages[|pages| - 1].next.None?
  }

  /** The entries of the pages, in order. */
  function Flatten(pages: seq<Bundle>): seq<Entry> {
    if |pages| == 0 then [] else Flatten(pages[..|pages| - 1]) + pages[|pages| - 1].entries
  }

  function Min(a: int, b: int): int {
    if a <= b then a else b
  }

  function Max(a: int, b: int): int {
    if a <= b then b else a
  }

  /** How many pages search uses: one when the first page has no next link or
      the limit is 1; every page when there is no limit (null or 0); and
      otherwise pages up to the limit, but at least two, since the limit is
      checked only after the second page is in. */
  function PagesUsed(pages: seq<Bundle>, pageLimit: Option<int>): (n: nat)
    requires IsPageChain(pages)
    ensures 1 <= n <= |pages|
  {
    if |pages| == 1 || pageLimit == Some(1) then 1
    else if pageLimit.None? || pageLimit == Some(0) then |pages|
    else Min(|pages|, Max(2, pageLimit.value))
  }

  /** What search returns: the first page itself when only it is used, and
      otherwise a new searchset bundle holding the entries of the pages used
      and the first page's total. */
  function SearchResult(pages: seq<Bundle>, pageLimit: Option<int>): Bundle
    requires IsPageChain(pages)
  {
    if pages[0].next.None? || pageLimit == Some(1) then pages[0]
    else Bundle(Searchset, pages[0].total, Flatten(pages[..PagesUsed(pages, pageLimit)]), None)
  }

  /** The page-aggregation loop of search, over the pages the server answers. */
  method Search(pages: seq<Bundle>, pageLimit: Option<int>) returns (result: Bundle)
    requires IsPageChain(pages)
    ensures result == SearchResult(pages, pageLimit)
  {
    var bundle := pages[0];
    var total := bundle.total;
    if bundle.next.None? || pageLimit == Some(1) {
      return bundle;
    }
    var entryList := bundle.entries;
    var pagesIncorporated := 1;
    assert pages[..1] == [pages[0]];
    while bundle.next.Some?
      invariant 1 <= pagesIncorporated <= PagesUsed(pages, pageLimit)
      invariant bundle == pages[pagesIncorporated - 1]
      invariant entryList == Flatten(pages[..pagesIncorporated])
      invariant bundle.next.Some? ==> pagesIncorporated < PagesUsed(pages, pageLimit)
      decreases |pages| - pagesIncorporated
    {
      bundle := pages[pagesIncorporated];
      assert pages[..pagesIncorporated + 1][..pagesIncorporated] == pages[..pagesIncorporated];
      entryList := entryList + bundle.entries;
      pagesIncorporated := pagesIncorporated + 1;
      if pageLimit.Some? && pageLimit.value != 0 && pagesIncorporated >= pageLimit.value {
        break;
      }
    }
    return Bundle(Searchset, total, entryList, None);
  }

  /** A page limit of 1 or a first page without a next link gives the first
      page back unchanged. */
  lemma SinglePageUnchanged(pages: seq<Bundle>, pageLimit: Option<int>)
    requires IsPageChain(pages)
    requires |pages| == 1 || pageLimit == Some(1)
    ensures SearchResult(pages, pageLimit) == pages[0]
  {
  }

  /** Without a limit (null or 0) every page's entries are gathered, in
      fetch order. */
  lemma UnlimitedSearchGathersAllPages(pages: seq<Bundle>, pageLimit: Option<int>)
    requires IsPageChain(pages) && |pages| >= 2
    requires pageLimit.None? || pageLimit == Some(0)
    ensures SearchResult(pages, pageLimit).entries == Flatten(pages)
  {
    assert pages[..|pages|] == pages;
  }

  /** A limit of at least 2 bounds the pages used; they stop at the limit or
      at the last page, whichever comes first. */
  lemma LimitBoundsPagesUsed(pages: seq<Bundle>, limit: int)
    requires IsPageChain(pages) && limit >= 2
    ensures PagesUsed(pages, Some(limit)) <= limit
    ensures PagesUsed(pages, Some(limit)) == limit || PagesUsed(pages, Some(limit)) == |pages|
  {
  }

  /** A negative limit stops after the second page. */
  lemma NegativeLimitStopsAfterSecondPage(pages: seq<Bundle>, limit: int)
    requires IsPageChain(pages) && |pages| >= 2 && limit < 0
    ensures PagesUsed(pages, Some(limit)) == 2
    ensures SearchResult(pages, Some(limit)).entries == pages[0].entries + pages[1].entries
  {
    var two := pages[..2];
    assert two[..1] == [pages[0]] && two[1] == pages[1];
    assert [pages[0]][..0] == [];
    assert Flatten([pages[0]]) == pages[0].entries;
    assert Flatten(two) == Flatten(two[..1]) + pages[1].entries;
  }

  /** A composite bundle is a searchset with the first page's total, however
      many entries it gathers, and no next link. */
  lemma CompositeBundleShape(pages: seq<Bundle>, pageLimit: Option<int>)
    requires IsPageChain(pages) && |pages| >= 2 && pageLimit != Some(1)
    ensures var r := SearchResult(pages, pageLimit);
            r.bundleType == Searchset && r.total == pages[0].total && r.next.None?
  {
  }

  /** The gathered entries start with the first page's entries, and the
      pages used contribute a prefix of all the chain's entries. */
  lemma {:induction false} FlattenPrefix(pages: seq<Bundle>, n: nat)
    requires n <= |pages|
    ensures Flatten(pages[..n]) <= Flatten(pages)
    decreases |pages| - n
  {
    if n < |pages| {
      FlattenPrefix(pages, n + 1);
      assert pages[..n + 1][..n] == pages[..n];
    } else {
      assert pages[..n] == pages;
    }
  }

  /** A higher limit never gathers fewer entries. */
  lemma HigherLimitGathersMore(pages: seq<Bundle>, l1: int, l2: int)
    requires IsPageChain(pages) && |pages| >= 2
    requires 2 <= l1 <= l2
    ensures SearchResult(pages, Some(l1)).entries <= SearchResult(pages, Some(l2)).entries
  {
    var n1, n2 := PagesUsed(pages, Some(l1)), PagesUsed(pages, Some(l2));
    FlattenPrefix(pages[..n2], n1);
    assert pages[..n2][..n1] == pages[..n1];
  }
}
