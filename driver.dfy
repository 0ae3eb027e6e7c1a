/**
 * The browser-driving helpers (`navigate_to`, `select_and_hover`,
 * `scroll_end`, `get_page_soup`, `get_info_seller`) over a browser whose
 * answers are scripted in advance.
 */
module Driver {
  import opened Wrappers
  import opened Python
  import opened Seqs
  import opened Markup
  import opened SellerTable

  /** One `driver.get(url)`: it raises, or the page loads and `driver.current_url` reads `currentUrl`. */
  datatype LoadOutcome = LoadRaises | Landed(currentUrl: string)

  /**
   * One `find_element` followed by the hover: it succeeds, the element is
   * not found (or the wait times out), or another driver error occurs.
   */
  datatype FindOutcome = Hovered | NotFound | DriverFault

  /** One reading of `document.body.scrollHeight` and `window.scrollY`. */
  datatype Reading = Reading(scrollHeight: int, scrollY: int)

  /** `window.scrollTo(x, y)`. */
  datatype ScrollCommand = ScrollTo(x: int, y: int)

  const DefaultRetry := 2
  const DefaultScrollStep := 1600
  const DefaultBottomThreshold := 1000

  /** The load succeeded but the browser ended somewhere else. */
  predicate Redirected(o: LoadOutcome, url: string) {
    o.Landed? && o.currentUrl != url
  }

  /** More than `bottomThreshold` pixels remain below the viewport. */
  predicate FarFromBottom(r: Reading, bottomThreshold: int) {
    r.scrollHeight - r.scrollY > bottomThreshold
  }

  /** The commands `scroll_end` issues for readings that were still far from the bottom. */
  function ScrollCommands(rs: seq<Reading>, scrollStep: int): seq<ScrollCommand> {
    seq(|rs|, i requires 0 <= i < |rs| => ScrollTo(rs[i].scrollY, rs[i].scrollY + scrollStep))
  }

  /** How many loads in a row end on another page than `url`: the redirects `navigate_to` retries. */
  function Redirects(loads: seq<LoadOutcome>, url: string): nat {
    LeadingCount(loads, (o: LoadOutcome) => Redirected(o, url))
  }

  /** How many scripted loads `navigate_to(url)` uses: the redirects and the load that ends them. */
  function LoadsUsed(loads: seq<LoadOutcome>, url: string): nat {
    Min(Redirects(loads, url) + 1, |loads|)
  }

  /** How many readings in a row are still far from the bottom: the steps `scroll_end` scrolls. */
  function ScrollSteps(readings: seq<Reading>, bottomThreshold: int): nat {
    LeadingCount(readings, (rd: Reading) => FarFromBottom(rd, bottomThreshold))
  }

  /** How many find attempts in a row fail. */
  function FailedFinds(finds: seq<FindOutcome>): nat {
    LeadingCount(finds, (f: FindOutcome) => !f.Hovered?)
  }

  /** Does a hover succeed within `retry` attempts on these find outcomes? */
  predicate HoverSucceeds(finds: seq<FindOutcome>, retry: int) {
    FailedFinds(finds) < |finds| && FailedFinds(finds) < retry
  }

  /** The operator pauses of `select_and_hover`: one after each failed attempt. */
  function HoverPauses(finds: seq<FindOutcome>, retry: int): nat {
    if HoverSucceeds(finds, retry) then FailedFinds(finds) else if retry < 0 then 0 else retry
  }

  /** How many scripted find outcomes `select_and_hover` uses. */
  function FindsUsed(finds: seq<FindOutcome>, retry: int): nat {
    if HoverSucceeds(finds, retry) then FailedFinds(finds) + 1 else Min(if retry < 0 then 0 else retry, |finds|)
  }

  /**
   * A browser session as a value: the scripted loads, finds, page reads
   * and scroll readings still to come, the operator pauses so far and the
   * scroll commands issued so far.
   */
  datatype Session = Session(loads: seq<LoadOutcome>, finds: seq<FindOutcome>, pages: seq<Soup>, pauses: nat,
                             readings: seq<Reading>, scrolls: seq<ScrollCommand>)

  /** Session `s` after `navigate_to(url)`: the loads it uses are gone, and each redirect cost a pause. */
  function Navigated(s: Session, url: string): Session {
    s.(loads := s.loads[LoadsUsed(s.loads, url)..], pauses := s.pauses + Redirects(s.loads, url))
  }

  /**
   * Session `s` after `scroll_end(scrollStep, bottomThreshold)`: one
   * command per reading still far from the bottom, and those readings and
   * the one that ends the scroll are gone.
   */
  function Scrolled(s: Session, scrollStep: int, bottomThreshold: int): Session {
    var k := ScrollSteps(s.readings, bottomThreshold);
    s.(scrolls := s.scrolls + ScrollCommands(s.readings[..k], scrollStep),
       readings := s.readings[Min(k + 1, |s.readings|)..])
  }

  /** What a seller lookup returns, and the session it leaves. */
  datatype Lookup = Lookup(result: Py<SellerLookup>, after: Session)

  /**
   * `get_info_seller(url)` on session `s`: load the page, hover the seller
   * element only after a load that returned true, then read the page and
   * parse its popup.
   */
  function InfoSeller(s: Session, url: string, selectorProduct: string): Lookup {
    var loaded := s.loads != [] && s.loads[0].Landed?;
    var afterLoad := Navigated(s, url);
    if !loaded then Lookup(Return(SellerLookup(false, map[])), afterLoad)
    else
      var afterHover := afterLoad.(finds := s.finds[FindsUsed(s.finds, DefaultRetry)..],
                                   pauses := afterLoad.pauses + HoverPauses(s.finds, DefaultRetry));
      if !HoverSucceeds(s.finds, DefaultRetry) then Lookup(Return(SellerLookup(false, map[])), afterHover)
      else if s.pages == [] then Lookup(Raise(WebDriverError), afterHover)
      else Lookup(PopupTable(s.pages[0], selectorProduct), afterHover.(pages := s.pages[1..]))
  }

  /**
   * A lookup gives `(False, {})` when the load fails, without trying to
   * hover, or when the hover fails, and reads no page then; otherwise it
   * gives the parse of the next page, or the driver error of a page read
   * that fails. It always uses at least one load while any remain, and
   * at most one page.
   */
  lemma InfoSellerOutcome(s: Session, url: string, selectorProduct: string)
    ensures var l := InfoSeller(s, url, selectorProduct);
      var loaded := s.loads != [] && s.loads[0].Landed?;
      var hovered := loaded && HoverSucceeds(s.finds, DefaultRetry);
      (!loaded ==> l.after.finds == s.finds)
      && (!hovered ==> l.result == Return(SellerLookup(false, map[])) && l.after.pages == s.pages)
      && (hovered && s.pages == [] ==> l.result == Raise(WebDriverError))
      && (hovered && s.pages != [] ==> l.result == PopupTable(s.pages[0], selectorProduct) && l.after.pages == s.pages[1..])
    ensures var l := InfoSeller(s, url, selectorProduct);
      (s.loads != [] ==> |l.after.loads| < |s.loads|) && |l.after.pages| + 1 >= |s.pages| && l.after.pauses >= s.pauses
  {
  }

  /** Do these readings reach the bottom before they run out? */
  predicate ReachesBottom(readings: seq<Reading>, bottomThreshold: int) {
    ScrollSteps(readings, bottomThreshold) < |readings|
  }

  /**
   * A browser session whose answers are scripted: the outcome of each
   * future load, find, scroll reading and page read, in order. Once a
   * script runs out the browser fails: a load or find raises, and so does
   * a reading or a page read. It also records the scroll commands it
   * received and how often the operator was asked to press return.
   */
  class Browser {
    var loads: seq<LoadOutcome>
    var finds: seq<FindOutcome>
    var readings: seq<Reading>
    var pages: seq<Soup>
    var scrolls: seq<ScrollCommand>
    var pauses: nat

    constructor (loads: seq<LoadOutcome>, finds: seq<FindOutcome>, readings: seq<Reading>, pages: seq<Soup>)
      ensures this.loads == loads && this.finds == finds
      ensures this.readings == readings && this.pages == pages
      ensures scrolls == [] && pauses == 0
    {
      this.loads, this.finds, this.readings, this.pages := loads, finds, readings, pages;
      scrolls, pauses := [], 0;
    }

    /** The browser's session, as a value. */
    function State(): Session
      reads this
    {
      Session(loads, finds, pages, pauses, readings, scrolls)
    }

    /**
     * `navigate_to`: false only when the first load raises. After a
     * redirect it pauses for the operator and loads again, ignoring what
     * that retry returns, so a load that lands anywhere gives true.
     */
    method NavigateTo(url: string) returns (loaded: bool)
      modifies this`loads, this`pauses
      decreases |loads|
      ensures loaded <==> old(loads) != [] && old(loads)[0].Landed?
      ensures pauses == old(pauses) + Redirects(old(loads), url)
      ensures loads == old(loads)[LoadsUsed(old(loads), url)..]
    {
      if loads == [] {
        return false;
      }
      var outcome := loads[0];
      loads := loads[1..];
      if outcome.LoadRaises? {
        return false;
      }
      if outcome.currentUrl != url {
        pauses := pauses + 1;
        var _ := NavigateTo(url);
      }
      return true;
    }

    /** One `find_element` and hover, taken from the script. */
    method FindAndHover(selector: string) returns (o: FindOutcome)
      modifies this`finds
      ensures old(finds) == [] ==> o == DriverFault && finds == []
      ensures old(finds) != [] ==> o == old(finds)[0] && finds == old(finds)[1..]
    {
      if finds == [] {
        return DriverFault;
      }
      o := finds[0];
      finds := finds[1..];
    }

    /**
     * `select_and_hover`: at most `retry` attempts, true at the first
     * hover, a pause after every failed attempt, and `None` (never
     * `False`) once the attempts are used up.
     */
    method SelectAndHover(selector: string, retry: int) returns (r: PyBool)
      modifies this`finds, this`pauses
      ensures r != PyFalse
      ensures r == PyTrue <==> HoverSucceeds(old(finds), retry)
      ensures pauses == old(pauses) + HoverPauses(old(finds), retry)
      ensures finds == old(finds)[FindsUsed(old(finds), retry)..]
    {
      var attempt := 0;
      while attempt < retry
        invariant 0 <= attempt && (attempt <= retry || attempt == 0)
        invariant forall j :: 0 <= j < attempt && j < |old(finds)| ==> !old(finds)[j].Hovered?
        invariant finds == old(finds)[Min(attempt, |old(finds)|)..]
        invariant pauses == old(pauses) + attempt
      {
        var outcome := FindAndHover(selector);
        if outcome.Hovered? {
          return PyTrue;
        }
        if attempt < retry {
          pauses := pauses + 1;
        } else {
          return PyFalse;
        }
        attempt := attempt + 1;
      }
      return PyNone;
    }

    /** One scroll reading, taken from the script. */
    method ReadScroll() returns (r: Py<Reading>)
      modifies this`readings
      ensures old(readings) == [] ==> r == Raise(WebDriverError) && readings == []
      ensures old(readings) != [] ==> r == Return(old(readings)[0]) && readings == old(readings)[1..]
    {
      if readings == [] {
        return Raise(WebDriverError);
      }
      r := Return(readings[0]);
      readings := readings[1..];
    }

    /**
     * `scroll_end`: scrolls one step per reading that is still more than
     * `bottomThreshold` from the bottom, and returns true at the first
     * reading within it; it never returns false.
     */
    method ScrollEnd(scrollStep: int, bottomThreshold: int) returns (r: Py<bool>)
      modifies this`readings, this`scrolls
      ensures r.Return? ==> r.value
      ensures r.Return? <==> ReachesBottom(old(readings), bottomThreshold)
      ensures r.Raise? ==> r.exc == WebDriverError
      ensures var k := ScrollSteps(old(readings), bottomThreshold);
        scrolls == old(scrolls) + ScrollCommands(old(readings)[..k], scrollStep)
        && readings == old(readings)[Min(k + 1, |old(readings)|)..]
      ensures State() == Scrolled(old(State()), scrollStep, bottomThreshold)
    {
      var reading := ReadScroll();
      if reading.Raise? {
        return Raise(reading.exc);
      }
      var height, positionHeight := reading.value.scrollHeight, reading.value.scrollY;
      ghost var i := 0;
      while height - positionHeight > bottomThreshold
        invariant 0 <= i < |old(readings)|
        invariant old(readings)[i] == Reading(height, positionHeight)
        invariant readings == old(readings)[i + 1..]
        invariant forall j :: 0 <= j < i ==> FarFromBottom(old(readings)[j], bottomThreshold)
        invariant scrolls == old(scrolls) + ScrollCommands(old(readings)[..i], scrollStep)
        decreases |readings|
      {
        scrolls := scrolls + [ScrollTo(positionHeight, positionHeight + scrollStep)];
        assert ScrollCommands(old(readings)[..i + 1], scrollStep)
            == ScrollCommands(old(readings)[..i], scrollStep) + [ScrollTo(positionHeight, positionHeight + scrollStep)];
        reading := ReadScroll();
        if reading.Raise? {
          return Raise(reading.exc);
        }
        height, positionHeight := reading.value.scrollHeight, reading.value.scrollY;
        i := i + 1;
      }
      return Return(true);
    }

    /** `get_page_soup`: the current page source, parsed; taken from the script. */
    method GetPageSoup() returns (r: Py<Soup>)
      modifies this`pages
      ensures old(pages) == [] ==> r == Raise(WebDriverError) && pages == []
      ensures old(pages) != [] ==> r == Return(old(pages)[0]) && pages == old(pages)[1..]
    {
      if pages == [] {
        return Raise(WebDriverError);
      }
      r := Return(pages[0]);
      pages := pages[1..];
    }

    /**
     * `get_info_seller`: load the product page, hover the seller element
     * (only after a load that returned true), read the page and parse the
     * popup. Any failure before the parse gives `(False, {})`; the parse's
     * own result, or its exception, is passed on.
     */
    method GetInfoSeller(url: string, selectorPopup: string, selectorProduct: string) returns (r: Py<SellerLookup>)
      modifies this`loads, this`pauses, this`finds, this`pages
      ensures Lookup(r, State()) == InfoSeller(old(State()), url, selectorProduct)
    {
      var loaded := NavigateTo(url);
      var hovered := PyFalse;
      if loaded {
        hovered := SelectAndHover(selectorPopup, DefaultRetry);
      }
      if loaded && hovered.Truthy() {
        var soupProduct := GetPageSoup();
        if soupProduct.Raise? {
          return Raise(soupProduct.exc);
        }
        var parsed := ParseProductPageToDict(soupProduct.value, selectorProduct);
        if parsed.Raise? {
          return Raise(parsed.exc);
        }
        var status, productDict := parsed.value.ok, parsed.value.info;
        return if status then Return(SellerLookup(true, productDict)) else Return(SellerLookup(false, map[]));
      } else {
        return Return(SellerLookup(false, map[]));
      }
    }
  }
}
