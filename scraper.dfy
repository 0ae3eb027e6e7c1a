/**
 * The main script: load the search page, scroll it to the end, turn the
 * product cards into products, then look up each product's seller and
 * sort the products into those with and without seller details.
 */
module Scraper {
  import opened Wrappers
  import opened Python
  import opened Seqs
  import opened Markup
  import opened Cards
  import opened SellerTable
  import opened Driver
  import opened Enrichment

  const Query := "laptops"
  const MainUrl := "https://es.aliexpress.com/w/wholesale-" + Query + ".html"
  const CardClassComponent := "search-item-card-wrapper-gallery"
  const SelectorProductPopup := ".store-detail--title--qt8UBeq"
  const SelectorProduct := "comet-v2-popover-content"

  /** The card results the search page yields, or the exception reading it raises. */
  function Listing(pages: seq<Soup>): (r: Py<seq<CardResult>>)
    ensures pages == [] ==> r == Raise(WebDriverError)
    ensures r.Return? ==> |r.value| == |pages[0].FindAll(CardClassComponent)|
  {
    if pages == [] then Raise(WebDriverError) else CardResults(pages[0].FindAll(CardClassComponent))
  }

  /** The product urls, in product order. */
  function Urls(ps: seq<Product>): (r: seq<string>)
    ensures |r| == |ps| && forall i :: 0 <= i < |ps| ==> r[i] == ps[i].url
  {
    seq(|ps|, i requires 0 <= i < |ps| => ps[i].url)
  }

  /**
   * The seller lookups made one after another for `urls`, the exception
   * that stopped them, if any, and the session they leave.
   */
  datatype Lookups = Lookups(made: seq<SellerLookup>, crash: Option<Exception>, after: Session)

  /**
   * The seller-details loop on session `s`: one lookup per url, in order,
   * each on the session the previous one left, until a lookup raises.
   */
  function LookupAll(s: Session, urls: seq<string>): (l: Lookups)
    ensures |l.made| <= |urls|
    ensures l.crash.None? <==> |l.made| == |urls|
    decreases |urls|
  {
    if urls == [] then Lookups([], None, s)
    else
      var first := InfoSeller(s, urls[0], SelectorProduct);
      if first.result.Raise? then Lookups([], Some(first.result.exc), first.after)
      else
        var rest := LookupAll(first.after, urls[1..]);
        Lookups([first.result.value] + rest.made, rest.crash, rest.after)
  }

  /** Lookups `l`, made after the lookups `made`. */
  function After(made: seq<SellerLookup>, l: Lookups): Lookups {
    l.(made := made + l.made)
  }

  /**
   * One turn of the seller-details loop: when `run` is the lookups made
   * so far followed by the loop from url `index` on session `s`, and `l`
   * is the lookup for that url, `run` either stops with `l`'s exception
   * or goes on from the session `l` leaves.
   */
  lemma {:induction false} LookupAllNext(run: Lookups, made: seq<SellerLookup>, s: Session, urls: seq<string>, index: nat, l: Lookup)
    requires index < |urls|
    requires run == After(made, LookupAll(s, urls[index..]))
    requires l == InfoSeller(s, urls[index], SelectorProduct)
    ensures l.result.Raise? ==> run == Lookups(made, Some(l.result.exc), l.after)
    ensures l.result.Return? ==> run == After(made + [l.result.value], LookupAll(l.after, urls[index + 1..]))
  {
    var rest := urls[index..];
    assert rest[0] == urls[index] && rest[1..] == urls[index + 1..];
    if l.result.Return? {
      var tail := LookupAll(l.after, urls[index + 1..]);
      assert made + ([l.result.value] + tail.made) == (made + [l.result.value]) + tail.made;
    }
  }

  /** Session `s` once the search page has been read. */
  function SearchPageRead(s: Session): Session {
    s.(pages := if s.pages == [] then [] else s.pages[1..])
  }

  /** Session `s` once the search page has been scrolled to the end. */
  function PageScrolled(s: Session): Session {
    Scrolled(s, DefaultScrollStep, DefaultBottomThreshold)
  }

  /** The session the seller-details loop starts from: the search page loaded, scrolled and read. */
  function SearchStart(s: Session): Session {
    SearchPageRead(PageScrolled(Navigated(s, MainUrl)))
  }

  /**
   * The loop on a scripted browser, for two urls: the first page loads,
   * its seller element hovers and its popup parses; the second page load
   * raises. Both lookups are made, and every script is used up.
   */
  lemma TwoLookupsExample(u1: string, u2: string, page: Soup, details: map<string, string>)
    requires PopupTable(page, SelectorProduct) == Return(SellerLookup(true, details))
    ensures LookupAll(Session([Landed(u1), LoadRaises], [Hovered], [page], 0, [], []), [u1, u2])
         == Lookups([SellerLookup(true, details), SellerLookup(false, map[])], None, Session([], [], [], 0, [], []))
  {
    var s := Session([Landed(u1), LoadRaises], [Hovered], [page], 0, [], []);
    assert Redirects(s.loads, u1) == 0 && LoadsUsed(s.loads, u1) == 1;
    assert FailedFinds(s.finds) == 0 && HoverSucceeds(s.finds, DefaultRetry);
    assert FindsUsed(s.finds, DefaultRetry) == 1 && HoverPauses(s.finds, DefaultRetry) == 0;
    var one := InfoSeller(s, u1, SelectorProduct);
    assert one == Lookup(Return(SellerLookup(true, details)), Session([LoadRaises], [], [], 0, [], []));
    assert Redirects([LoadRaises], u2) == 0 && LoadsUsed([LoadRaises], u2) == 1;
    var two := InfoSeller(one.after, u2, SelectorProduct);
    assert two == Lookup(Return(SellerLookup(false, map[])), Session([], [], [], 0, [], []));
    assert [u1, u2][1..] == [u2] && [u2][1..] == [];
    assert LookupAll(one.after, [u2]) == Lookups([two.result.value], None, two.after);
  }

  /**
   * The same two lookups for two listed products: `first` ends up in
   * `data` with its details, and `second` goes to
   * `products_without_seller_info` untouched.
   */
  lemma ScriptedTwoProductsExample(first: Product, second: Product, page: Soup, details: map<string, string>)
    requires PopupTable(page, SelectorProduct) == Return(SellerLookup(true, details))
    ensures var run := LookupAll(Session([Landed(first.url), LoadRaises], [Hovered], [page], 0, [], []), Urls([first, second]));
      run.made == [SellerLookup(true, details), SellerLookup(false, map[])] && run.crash.None?
      && Completed([first, second], run.made) == [WithSellerInfo(first, details)]
      && Incomplete([first, second], run.made) == [second]
  {
    assert Urls([first, second]) == [first.url, second.url];
    TwoLookupsExample(first.url, second.url, page, details);
    TwoProductsExample(first, second, details);
  }

  /** The script's module-level lists. */
  class Script {
    var data: seq<Product>
    var productsWithoutSellerInfo: seq<Product>
    var ignoredCardsComponents: seq<CardResult>
    var products: seq<Product>

    constructor ()
      ensures data == [] && productsWithoutSellerInfo == [] && ignoredCardsComponents == [] && products == []
    {
      data, productsWithoutSellerInfo, ignoredCardsComponents, products := [], [], [], [];
    }

    /**
     * One run of the script on `driver`, after the start-up IP probe and
     * the module-level setup of the lists, which the constructor models.
     * `crash` is the exception that ends the script early, if any;
     * `listed` are the products taken from the search page and `lookups`
     * the seller lookups made for the first `|lookups|` of them.
     */
    method Run(driver: Browser) returns (crash: Option<Exception>, ghost listed: seq<Product>, ghost lookups: seq<SellerLookup>)
      requires data == [] && productsWithoutSellerInfo == [] && ignoredCardsComponents == [] && products == []
      modifies this, driver
      ensures var loaded := old(driver.loads) != [] && old(driver.loads)[0].Landed?;
        var scrolled := ReachesBottom(old(driver.readings), DefaultBottomThreshold);
        var listing := Listing(old(driver.pages));
        (!loaded ==> crash.None? && listed == [])
        && (loaded && !scrolled ==> crash == Some(WebDriverError) && listed == [])
        && (loaded && scrolled && listing.Raise? ==> crash == Some(listing.exc) && listed == [])
        && (loaded && scrolled && listing.Return? ==> listed == Kept(listing.value))
      ensures var loaded := old(driver.loads) != [] && old(driver.loads)[0].Landed?;
        var scrolled := ReachesBottom(old(driver.readings), DefaultBottomThreshold);
        var listing := Listing(old(driver.pages));
        var landed := Navigated(old(driver.State()), MainUrl);
        (!loaded ==> driver.State() == landed)
        && (loaded && !scrolled ==> driver.State() == PageScrolled(landed))
        && (loaded && scrolled && listing.Raise? ==> driver.State() == SearchPageRead(PageScrolled(landed)))
      ensures var loaded := old(driver.loads) != [] && old(driver.loads)[0].Landed?;
        var scrolled := ReachesBottom(old(driver.readings), DefaultBottomThreshold);
        var listing := Listing(old(driver.pages));
        loaded && scrolled && listing.Return? ==>
          var run := LookupAll(SearchStart(old(driver.State())), Urls(listed));
          lookups == run.made && crash == run.crash && driver.State() == run.after
      ensures forall j :: 0 <= j < |listed| ==> listed[j].sellerInfo.None?
      ensures |lookups| <= |listed|
      ensures crash.None? ==> |lookups| == |listed|
      ensures ignoredCardsComponents == []
      ensures listed == [] ==> data == [] && productsWithoutSellerInfo == [] && products == []
      ensures data == Completed(listed[..|lookups|], lookups)
      ensures productsWithoutSellerInfo == Incomplete(listed[..|lookups|], lookups)
      ensures products == Enriched(listed[..|lookups|], lookups) + listed[|lookups|..]
    {
      crash, listed, lookups := None, [], [];
      ghost var readings0, pages0, finds0 := driver.readings, driver.pages, driver.finds;
      ghost var landed := Navigated(driver.State(), MainUrl);
      var loaded := driver.NavigateTo(MainUrl);
      assert driver.readings == readings0 && driver.pages == pages0 && driver.finds == finds0;
      assert driver.State() == landed;
      if loaded {
        crash, listed, lookups := ScrapeSearchPage(driver);
      }
    }

    /**
     * The script once the search page has loaded: scroll it to the end,
     * list its products, then look up their sellers. Stops with
     * `WebDriverError` when the scroll gives up.
     */
    method ScrapeSearchPage(driver: Browser) returns (crash: Option<Exception>, ghost listed: seq<Product>, ghost lookups: seq<SellerLookup>)
      requires data == [] && productsWithoutSellerInfo == [] && ignoredCardsComponents == [] && products == []
      modifies this`data, this`productsWithoutSellerInfo, this`ignoredCardsComponents, this`products
      modifies driver`readings, driver`scrolls, driver`loads, driver`pauses, driver`finds, driver`pages
      ensures var scrolled := ReachesBottom(old(driver.readings), DefaultBottomThreshold);
        var listing := Listing(old(driver.pages));
        (!scrolled ==> crash == Some(WebDriverError) && listed == [])
        && (scrolled && listing.Raise? ==> crash == Some(listing.exc) && listed == [])
        && (scrolled && listing.Return? ==> listed == Kept(listing.value))
      ensures var scrolled := ReachesBottom(old(driver.readings), DefaultBottomThreshold);
        var listing := Listing(old(driver.pages));
        (!scrolled ==> driver.State() == PageScrolled(old(driver.State())))
        && (scrolled && listing.Raise? ==> driver.State() == SearchPageRead(PageScrolled(old(driver.State()))))
      ensures var scrolled := ReachesBottom(old(driver.readings), DefaultBottomThreshold);
        var listing := Listing(old(driver.pages));
        scrolled && listing.Return? ==>
          var run := LookupAll(SearchPageRead(PageScrolled(old(driver.State()))), Urls(listed));
          lookups == run.made && crash == run.crash && driver.State() == run.after
      ensures forall j :: 0 <= j < |listed| ==> listed[j].sellerInfo.None?
      ensures |lookups| <= |listed|
      ensures crash.None? ==> |lookups| == |listed|
      ensures ignoredCardsComponents == []
      ensures listed == [] ==> data == [] && productsWithoutSellerInfo == [] && products == []
      ensures data == Completed(listed[..|lookups|], lookups)
      ensures productsWithoutSellerInfo == Incomplete(listed[..|lookups|], lookups)
      ensures products == Enriched(listed[..|lookups|], lookups) + listed[|lookups|..]
    {
      crash, listed, lookups := None, [], [];
      ghost var pages0, finds0 := driver.pages, driver.finds;
      ghost var listing := Listing(pages0);
      ghost var scrolledPage := PageScrolled(driver.State());
      var scrolled := driver.ScrollEnd(DefaultScrollStep, DefaultBottomThreshold);
      assert driver.pages == pages0 && driver.finds == finds0;
      assert driver.State() == scrolledPage;
      if scrolled.Raise? {
        crash := Some(scrolled.exc);
      } else if scrolled.value {
        ghost var start := SearchPageRead(scrolledPage);
        crash := ListProducts(driver);
        assert listing.Return? ==> products == Kept(listing.value);
        if crash.None? {
          listed := products;
          assert driver.State() == start;
          crash, lookups := AddSellerDetails(driver, products);
        }
      }
    }

    /**
     * Reads the scrolled search page and splits its cards by status:
     * `products` gets the parsed cards' products in card order, and
     * `ignoredCardsComponents` what the exhausted `map` iterator still
     * yields, which is nothing. An exception while reading the page or a
     * card ends the script.
     */
    method ListProducts(driver: Browser) returns (crash: Option<Exception>)
      modifies this`products, this`ignoredCardsComponents, driver`pages
      ensures driver.pages == if old(driver.pages) == [] then [] else old(driver.pages)[1..]
      ensures var listing := Listing(old(driver.pages));
        listing.Raise? ==>
          crash == Some(listing.exc) && products == old(products) && ignoredCardsComponents == old(ignoredCardsComponents)
      ensures var listing := Listing(old(driver.pages));
        listing.Return? ==> crash.None? && products == Kept(listing.value) && ignoredCardsComponents == []
      ensures var listing := Listing(old(driver.pages));
        listing.Return? ==> |products| + |ignoredCardsComponents| == |listing.value| - |Dropped(listing.value)|
      ensures crash.None? ==> forall j :: 0 <= j < |products| ==> products[j].sellerInfo.None?
    {
      var mainSoup := driver.GetPageSoup();
      if mainSoup.Raise? {
        return Some(mainSoup.exc);
      }
      var cardsComponents := mainSoup.value.FindAll(CardClassComponent);
      // `map(card_to_dict, ...)` is a one-shot iterator: the first
      // comprehension reads it from `consumed` to the end, the second
      // finds nothing left to read.
      var consumed := 0;
      var statusCards := CardResults(cardsComponents[consumed..]);
      consumed := |cardsComponents|;
      if statusCards.Raise? {
        return Some(statusCards.exc);
      }
      products := Kept(statusCards.value);
      var rest := CardResults(cardsComponents[consumed..]);
      ignoredCardsComponents := Dropped(rest.value);
      ListedProductsFresh(cardsComponents);
      KeptDroppedPartition(statusCards.value);
      return None;
    }

    /**
     * The seller-details loop over `items`, the listed products: each
     * product's lookup sends it to `data`, with its details added in place,
     * or to `productsWithoutSellerInfo`. An exception from a lookup ends
     * the script; `lookups` are the lookups made until then.
     */
    method AddSellerDetails(driver: Browser, items: seq<Product>) returns (crash: Option<Exception>, ghost lookups: seq<SellerLookup>)
      requires data == [] && productsWithoutSellerInfo == [] && products == items
      modifies this`data, this`productsWithoutSellerInfo, this`products
      modifies driver`loads, driver`pauses, driver`finds, driver`pages
      ensures var run := LookupAll(old(driver.State()), Urls(items));
        lookups == run.made && crash == run.crash && driver.State() == run.after
      ensures |lookups| <= |items|
      ensures crash.None? <==> |lookups| == |items|
      ensures data == Completed(items[..|lookups|], lookups)
      ensures productsWithoutSellerInfo == Incomplete(items[..|lookups|], lookups)
      ensures products == Enriched(items[..|lookups|], lookups) + items[|lookups|..]
    {
      crash, lookups := None, [];
      ghost var urls := Urls(items);
      ghost var run := LookupAll(driver.State(), urls);
      for index := 0 to |items|
        invariant |lookups| == index
        invariant data == Completed(items[..index], lookups)
        invariant productsWithoutSellerInfo == Incomplete(items[..index], lookups)
        invariant products == Enriched(items[..index], lookups) + items[index..]
        invariant run == After(lookups, LookupAll(driver.State(), urls[index..]))
      {
        var product := items[index];
        ghost var before := driver.State();
        var r := driver.GetInfoSeller(product.url, SelectorProductPopup, SelectorProduct);
        LookupAllNext(run, lookups, before, urls, index, Lookup(r, driver.State()));
        if r.Raise? {
          crash := Some(r.exc);
          return;
        }
        Handle(items, index, lookups, r.value);
        lookups := lookups + [r.value];
      }
      assert urls[|items|..] == [] && lookups + [] == lookups;
      assert run == Lookups(lookups, None, driver.State());
    }

    /**
     * The loop body once the lookup `l` for product `index` is in: with
     * details, the product gets them in place in `products` and goes to
     * `data`; without, it goes to `productsWithoutSellerInfo`.
     */
    method Handle(items: seq<Product>, index: nat, ghost ls: seq<SellerLookup>, l: SellerLookup)
      requires index == |ls| < |items|
      requires data == Completed(items[..|ls|], ls)
      requires productsWithoutSellerInfo == Incomplete(items[..|ls|], ls)
      requires products == Enriched(items[..|ls|], ls) + items[|ls|..]
      modifies this`data, this`productsWithoutSellerInfo, this`products
      ensures data == Completed(items[..|ls| + 1], ls + [l])
      ensures productsWithoutSellerInfo == Incomplete(items[..|ls| + 1], ls + [l])
      ensures products == Enriched(items[..|ls| + 1], ls + [l]) + items[|ls| + 1..]
    {
      var product := items[index];
      var statusGetSellerInfo, infoSeller := l.ok, l.info;
      HandleNext(items, ls, l);
      EnrichNext(items, ls, l);
      if statusGetSellerInfo {
        product := WithSellerInfo(product, infoSeller);
        products := products[index := product];
        data := data + [product];
      } else {
        productsWithoutSellerInfo := productsWithoutSellerInfo + [product];
      }
    }
  }
}
