# AliExpress listing scraper — Dafny model

This project models the core of the AliExpress scraper in `aliexpress/`.
The script does four things:

1. It opens the search page for a query and scrolls it to the end.
2. It turns every product card on the page into a product record (name, price pair, absolute URL).
3. It visits each product page, hovers the seller element and parses the seller popup's table into a dictionary.
4. It sorts the products into those whose seller details were found (`data`) and those without (`products_without_seller_info`).

The browser and the HTML parser are not modelled. Their answers become values:

- A parsed page is a `Markup.Soup`. Each card has three optional fields (link href, name text, price text). Each popup has an optional table of rows, and each row is the list of its cells' texts.
- A browser session is a `Driver.Browser`, whose answers are scripted in advance as sequences:
  - what each page load does;
  - what each find-and-hover does;
  - what each scroll reading shows;
  - which page source each read returns.

  The helpers consume these answers in order. When a script runs out, the browser fails:
  - a load counts as raising;
  - a find counts as a failed attempt;
  - a scroll reading or a page read raises a driver error.

  `Browser.State()` is the whole browser as a `Driver.Session` value: these four scripts, the operator pauses so far and the scroll commands issued so far. `Navigated`, `Scrolled` and `InfoSeller` give the session after `navigate_to`, `scroll_end` and `get_info_seller`.

Python's exceptions are explicit. A call returns `Python.Py<T>`, which is `Return(value)` or `Raise(exc)`. The exceptions that can escape are:

- the `ValueError` of `float()` on a malformed number;
- the `ValueError` of unpacking a table row that does not have two cells;
- a driver error.

Module layout:

- `Wrappers`, `Python`: `Option`, the `Py` outcome, `PyBool`, and reading a `map` iterator to the end (`MapAll`).
- `Seqs`: prefix counts and the positions a comprehension keeps.
- `Text`: `str.strip()` and `str.replace(ch, "")`.
- `Price`: `extract_number`. The number is an exact decimal (`real`).
- `Markup`: the parsed HTML as values.
- `Cards`: `card_to_dict`, and the comprehensions that split card results by status.
- `SellerTable`: `parse_product_page_to_dict`, as a loop that fills the dictionary.
- `Driver`: `navigate_to`, `select_and_hover`, `scroll_end`, `get_page_soup` and `get_info_seller`, as methods of `Browser`.
- `Enrichment`: what the seller-details loop builds, as functions, with their properties.
- `Scraper`: the main script. A `Script` class holds the module-level lists; its constructor is their setup at lines 46-49, and `Run` executes lines 51-80 of the script. `LookupAll` is the seller-details loop as a function of the browser session it starts from.

Behaviour of the code that its docstrings or a first reading suggest otherwise, and that the model follows:

- `extract_number` returns `(False, None)` on no match, not `(False, 0.0)`. It does not catch the exception `float()` raises on a run such as `.` or `1.2.3`.
- `navigate_to` ignores the result of its retry after a redirect. A load that lands anywhere gives `True`.
- `select_and_hover` returns `None`, not `False`, when every attempt fails. Its `return False` branch cannot be reached, because `attempt < retry` always holds inside `range(0, retry)`.
- `scroll_end` never returns `False`. Each scroll goes to `(scrollY, scrollY + step)`, so the x coordinate is the old vertical position.
- `get_info_seller` does not turn a parse exception into `(False, {})`. An exception propagates and ends the script.
- `ignored_cards_components` is always empty. The `map` iterator of line 57 is used up by the comprehension of lines 59-61 before line 62 reads it.
- Table keys have their `:` removed after the cell text is stripped, so `"Store :"` gives the key `"Store "`.

## Model

| member | source | states |
|---|---|---|
| Python.MapAllInOrder | aliexpress/__main__.py:57-61 | Reading `map(f, xs)` to the end returns exactly when no call raises. It then yields each element's own result, in order. Otherwise it raises what the first raising element raises. |
| Seqs.IndicesPartition | aliexpress/__main__.py:71-77 | Splitting positions by a status flag, as the `if`/`else` on the lookup status does, gives two position lists that together are as many as the positions. |
| Seqs.IndicesDisjoint | aliexpress/__main__.py:71-77 | Every position goes to exactly one branch of that `if`/`else`. |
| Seqs.LeadingCountAll | aliexpress/selenium_utils.py:324 | When every element matches, the leading run of matches is the whole sequence. |
| Text.Strip | aliexpress/selenium_utils.py:323 | `strip()` gives a string no longer than the input. It is empty or has no whitespace (as Python's `isspace` defines it) at either end. A string without whitespace is unchanged. |
| Text.StripTrims | aliexpress/selenium_utils.py:323 | The result of `strip()` is one slice `s[lo..hi]` of the input, with only whitespace before `lo` and from `hi` on. With `Strip`'s own contract (no whitespace left at either end), this fixes the result. |
| Text.StripKeeps | aliexpress/selenium_utils.py:323 | Stripping adds no character and keeps every non-whitespace character. |
| Text.StripUnpadded | aliexpress/selenium_utils.py:297 | A string with no whitespace at either end is its own strip. |
| Text.RemoveAll | aliexpress/selenium_utils.py:323 | `replace(ch, "")` leaves no `ch`, never grows the string, and leaves a string without `ch` unchanged. |
| Text.RemoveAllKeeps | aliexpress/selenium_utils.py:323 | After `replace(ch, "")` a character occurs exactly when it occurred before and is not `ch`. |
| Text.RemoveAllAppend | aliexpress/selenium_utils.py:265 | Deleting a character from a concatenation deletes it from each part. |
| Price.Clean | aliexpress/selenium_utils.py:323 | `strip().replace(",", "")` leaves no comma and never grows the text. `CleanKeepsNumberChars` states which characters survive. |
| Price.CleanKeepsNumberChars | aliexpress/selenium_utils.py:323 | Trimming and deleting commas leaves no comma, never removes a digit or `.`, and adds nothing. |
| Price.RunStart | aliexpress/selenium_utils.py:324 | The search starts at the first digit or `.`, or at the end when there is none. |
| Price.FirstRun | aliexpress/selenium_utils.py:324-326 | The match is the maximal run of digits and `.` at that start. It is empty exactly when the text has no digit and no `.`. |
| Price.IsFloatLiteral | aliexpress/selenium_utils.py:327 | The runs `float()` accepts have at least one digit and at most one `.`, so they are never empty. |
| Price.DecimalValue | aliexpress/selenium_utils.py:327 | The value `float()` gives a run of digits and `.` is never negative. `DecimalValueScaled` states what it is. |
| Price.DigitsValueAppend | aliexpress/selenium_utils.py:327 | Reading the digits `a + b` as an integer gives `a`'s value shifted left by `|b|` places, plus `b`'s value. |
| Price.DecimalValueAtPoint | aliexpress/selenium_utils.py:327 | A float literal with a `.` has it right after its leading digits, and every other character is a digit. Its value is the point-free digits over ten to the number of digits after the point. |
| Price.DecimalValueScaled | aliexpress/selenium_utils.py:327 | The value of a literal without `.` is its digits read as an integer. The value of a literal with its `.` at `d` is the digits without the `.`, read as an integer, over ten to the number of characters after `d`. |
| Price.ExtractNumber | aliexpress/selenium_utils.py:316-329 | When `extract_number` returns, the pair has a value exactly when it is marked as matched. |
| Price.NoMatchIffNoNumberChar | aliexpress/selenium_utils.py:323-329 | `(False, None)` is returned exactly when the original text has no digit and no `.` anywhere. |
| Price.RunIsFixedPoint | aliexpress/selenium_utils.py:323-326 | A nonempty run of digits and `.` is unchanged by the cleaning and is its own first match. |
| Price.ReExtractFirstRun | aliexpress/selenium_utils.py:316-329 | Extracting again from the first run of the cleaned text gives the same outcome, whether that is no match, a value or an exception. |
| Price.RemoveSeparator | aliexpress/selenium_utils.py:323 | Deleting commas from two comma-free digit groups joined by a comma gives the two groups joined. |
| Price.CleanGroupedExample | aliexpress/selenium_utils.py:323 | `"1,234.50"` cleans to `"1234.50"`. |
| Price.DecimalValueExample | aliexpress/selenium_utils.py:327 | `"1234.50"` is a float literal worth exactly 1234.5. |
| Price.ExtractNumberGroupedExample | aliexpress/selenium_utils.py:316-329 | `"1,234.50"` gives `(True, 1234.5)`. |
| Price.ExtractNumberNoPriceExample | aliexpress/selenium_utils.py:328-329 | `"no price"` gives `(False, None)`. |
| Price.ExtractNumberTwoPointsExample | aliexpress/selenium_utils.py:327 | `"1.2.3"` makes `float()` raise. |
| Price.ExtractNumberLonePointExample | aliexpress/selenium_utils.py:327 | `"."` makes `float()` raise. |
| Cards.CardToDict | aliexpress/selenium_utils.py:274-313 | `(False, {})` exactly when the link, the name or the price is missing. It raises exactly when all three are present and `extract_number` raises, and then raises the same exception. Otherwise the product has url `"https:" + href.strip()` (a missing href counts as `""`), the card's name, `extract_number`'s whole pair as price, and no seller details. Success does not depend on whether the price matched. |
| Cards.CardResults | aliexpress/__main__.py:57 | Reading `map(card_to_dict, cards)` to the end, when no card raises, gives one result per card. `Python.MapAllInOrder` states which result. |
| Cards.Kept | aliexpress/__main__.py:59-61 | The `if status` comprehension keeps at most as many products as there are results. `KeptInCardOrder` states which ones. |
| Cards.Dropped | aliexpress/__main__.py:62 | The `if not status` comprehension, over a list it can read, keeps at most as many entries as there are results. `KeptDroppedPartition` states which ones. |
| Cards.KeptInCardOrder | aliexpress/__main__.py:59-61 | `products` holds exactly the products of the cards whose status is true, in card order. |
| Cards.KeptDroppedPartition | aliexpress/__main__.py:59-62 | Over one list of card results, every result is either kept by the `if status` comprehension or collected by the `if not status` one, and every collected one is a `(False, {})`. This is what line 62 would collect if it read the results afresh. It reads the spent iterator instead, so the cards it would collect are lost; `Scraper.Script.ListProducts` counts them. |
| Cards.ListedProductsFresh | aliexpress/selenium_utils.py:306-312 | Every listed product's url starts with `https:`, and none carries seller details. |
| SellerTable.TableKeys | aliexpress/selenium_utils.py:263-268 | The dictionary's keys are exactly the rows' first cells with every `:` removed. |
| SellerTable.TableLastRowWins | aliexpress/selenium_utils.py:263-268 | A key maps to the second cell of the last row that carries it. |
| SellerTable.PopupTable | aliexpress/selenium_utils.py:234-271 | The parse raises only the `ValueError` of a row whose cell count is not two. A failed parse always comes with an empty dictionary. `TableKeys` and `TableLastRowWins` state the dictionary of a successful one. |
| SellerTable.ParseProductPageToDict | aliexpress/selenium_utils.py:234-271 | The row-by-row loop ends with the parse specification `PopupTable`: `(False, {})` without a popup or without a table in it, the `ValueError` of the first row that does not have two cells, and otherwise `(True, d)` with `d` the fold of the rows. |
| SellerTable.EmptyTableExample | aliexpress/selenium_utils.py:263-271 | An empty table gives `(True, {})`. |
| SellerTable.LabelKey | aliexpress/selenium_utils.py:265 | A label with a trailing colon gives the label itself as key. |
| SellerTable.DistinctLabelsExample | aliexpress/selenium_utils.py:263-268 | Two rows with distinct labels give both entries, the colons gone. |
| SellerTable.RepeatedLabelExample | aliexpress/selenium_utils.py:263-268 | A repeated label keeps the later row's value. |
| Driver.Browser.NavigateTo | aliexpress/selenium_utils.py:332-357 | Returns false exactly when the first load raises. Each redirect costs one operator pause and one more load, and the retry's result is ignored. Only loads and pauses change. |
| Driver.Browser.FindAndHover | aliexpress/selenium_utils.py:214-216 | One find-and-hover consumes one scripted outcome, and fails once the script is exhausted. |
| Driver.Browser.SelectAndHover | aliexpress/selenium_utils.py:199-231 | Never returns `False`. Returns `True` exactly when a hover succeeds within `retry` attempts, and `None` otherwise. When attempt `k` (counting from 0) succeeds, it uses `k + 1` find outcomes and makes `k` pauses. When all attempts fail, it uses `retry` find outcomes and makes `retry` pauses. |
| Driver.Browser.ReadScroll | aliexpress/selenium_utils.py:166-167 | One reading of height and position consumes one scripted reading, and raises once the script is exhausted. |
| Driver.Browser.ScrollEnd | aliexpress/selenium_utils.py:142-179 | Only ever returns `True`, and does so exactly when a reading within the threshold arrives. It issues one `scrollTo(y, y + step)` for each earlier reading, in order, and uses up those readings and the one that ends the scroll. The new session is `Driver.Scrolled` of the old one, so nothing else changes. |
| Driver.Browser.GetPageSoup | aliexpress/selenium_utils.py:182-196 | Returns the next scripted page, or raises once the script is exhausted. |
| Driver.Browser.GetInfoSeller | aliexpress/selenium_utils.py:360-380 | Returns, and leaves the browser in, exactly what `Driver.InfoSeller` gives for the session it starts from. That covers every scripted answer it consumes (loads, finds, pages) and every pause it makes. Nothing else in the browser changes. |
| Driver.InfoSellerOutcome | aliexpress/selenium_utils.py:360-380 | `(False, {})` when the load fails, without touching the finds, or when the hover fails; no page is read then. Otherwise the parse of the next page's popup, or the driver error of a page read that fails. A lookup consumes at least one load while any remain, at most one page, and never undoes a pause. |
| Enrichment.Enriched | aliexpress/__main__.py:71-72 | Setting `seller_info` in place keeps one entry per handled product. `EnrichNext` and `BucketsAreProductEntries` state which entry. |
| Enrichment.HandleNext | aliexpress/__main__.py:71-77 | Handling one more product appends it, with its seller details, to `data` when its lookup succeeded. Otherwise it appends it unchanged to `products_without_seller_info`. |
| Enrichment.EnrichNext | aliexpress/__main__.py:71-72 | Handling one more product replaces only that product's entry in `products`. |
| Enrichment.CompletedAtSuccesses | aliexpress/__main__.py:66-73 | `data` holds exactly the products whose lookup succeeded, in product order, each with the dictionary its lookup returned. |
| Enrichment.IncompleteAtFailures | aliexpress/__main__.py:66-77 | `products_without_seller_info` holds exactly the products whose lookup failed, in product order and unchanged. |
| Enrichment.BucketsAreProductEntries | aliexpress/__main__.py:71-76 | Both lists hold the very entries of `products` as the loop leaves it. |
| Enrichment.BucketsPartition | aliexpress/__main__.py:66-80 | `data` and `products_without_seller_info` together hold as many products as were handled, and no product is in both. |
| Enrichment.SellerInfoOnlyInCompleted | aliexpress/__main__.py:71-77 | Every product in `data` has seller details, and none in `products_without_seller_info` does. |
| Enrichment.TwoProductsExample | aliexpress/__main__.py:66-80 | A product whose popup parses goes to `data` with its details. A product whose page does not load goes to `products_without_seller_info`. |
| Scraper.TwoLookupsExample | aliexpress/__main__.py:66-80 | On a browser whose first product page loads, hovers and parses, and whose second page load raises, the loop makes both lookups, `(True, d)` then `(False, {})`, and uses up every script. |
| Scraper.ScriptedTwoProductsExample | aliexpress/__main__.py:66-80 | On that browser the first product goes to `data` with its seller details, and the second goes to `products_without_seller_info` unchanged. |
| Scraper.Script.constructor | aliexpress/__main__.py:46-49 | All lists start empty. |
| Scraper.Listing | aliexpress/__main__.py:54-57 | Without a page to read, the listing raises a driver error. Otherwise it gives one result per card component of the page. |
| Scraper.Script.ListProducts | aliexpress/__main__.py:54-62 | Consumes the next scripted page, if there is one. On it, `products` becomes the parsed cards' products in card order, and `ignored_cards_components` stays empty. As a result, the rejected cards are missing from both lists: the two lists hold as many entries as the results minus the rejected ones. An exception from reading the page or a card ends the script and changes neither list. |
| Scraper.Urls | aliexpress/__main__.py:69 | The urls the loop passes to `get_info_seller`, one per product, in product order. |
| Scraper.LookupAll | aliexpress/__main__.py:66-80 | The loop makes at most one lookup per product. It stops early exactly when a lookup raises. |
| Scraper.LookupAllNext | aliexpress/__main__.py:66-80 | One turn of the loop: after the lookup for the next url, the loop either stops with that lookup's exception or continues from the session the lookup leaves. |
| Scraper.Script.AddSellerDetails | aliexpress/__main__.py:66-80 | The lookups made, the exception that stops the loop and the final browser session are exactly `LookupAll` of the products' urls, from the session the loop starts in. `data`, `products_without_seller_info` and `products` are what the `Enrichment` functions give for those lookups. The loop stops early exactly when a lookup raises. |
| Scraper.Script.Handle | aliexpress/__main__.py:71-77 | Handling one lookup extends `data`, `products_without_seller_info` and `products` from their values for the earlier lookups to their values with this one added. |
| Scraper.Script.ScrapeSearchPage | aliexpress/__main__.py:53-80 | From a loaded search page: a failed scroll or listing extracts nothing, and its exception ends the script. The browser is then left as the scroll, or the scroll and the page read, leave it. Otherwise the listed products are the parsed cards' products. The lookups, the exception that ends the loop and the final session are `LookupAll` from the session left after the scroll and the page read. The lists are built from those lookups. |
| Scraper.Script.Run | aliexpress/__main__.py:51-80 | Starts on the empty lists the constructor sets up. A failed main-page load extracts nothing and leaves every list empty. A failed scroll or listing is reported with its exception. Otherwise the listed products are the parsed cards' products, and `ignored_cards_components` is empty. The lookups, the exception that stops them and the final browser session are `LookupAll` of the listed urls, from the session left after the main-page load, the scroll and the page read. The three lists are those built by these lookups. On every path the final browser session is stated in full: after a failed load it is the session the load leaves, after a failed scroll the one the scroll leaves, and after a failed listing the one the page read leaves. |

## Left out

- `get_driver` (Chrome and Selenium configuration) is not part of this model.
- `driver_info` and `get_IP` are not part of this model: the live-browser and network probe at lines 41-43 of `__main__.py`. `Run` starts after it.
- BeautifulSoup parsing is not modelled. This covers `find`, `find_all`, `get_text(strip=True)` and `.children`. A page is given already parsed as `Markup.Soup`. A table row is the list of its child elements' texts. Whitespace-only text children and `<tbody>` nesting are not modelled.
- `time.sleep`, the `input(...)` operator prompts and the `ActionChains` hover are not modelled. Prompts are counted in `pauses`, and the hover's outcome is part of the scripted find outcome.
- Logging is not modelled, and neither is the `driver.current_url` read inside `scroll_end`'s log line.
- The CSV export at lines 82-83 of `__main__.py` is file I/O.
- Prices are exact decimals (`real`), not IEEE doubles, so `float()` rounding is not modelled.
- Price.IsNumberChar: only the ASCII digits `0`-`9` count as digits. Python's `\d` and `float()` also accept other Unicode decimal digits.
- Driver.Browser.ScrollEnd: height and position are read by two separate scripts in the source. The model reads them as one reading, and a failure of either counts as a failed reading.
- Driver.Browser.ScrollEnd: on a page that never comes within the threshold, the source loops forever. The model's scripted readings run out instead, and the call raises a driver error.
- Driver.Browser.NavigateTo: endless redirects make the source recurse until Python's recursion limit. In the model the scripted loads run out instead, and the last attempt counts as raising.
- Driver.Browser.NavigateTo: the `driver.current_url` read at line 351 of `selenium_utils.py` can itself raise in the source. The model lands on a known url and does not model that exception.
- Driver.Browser.ScrollEnd: the `scrollTo` script at lines 169-171 of `selenium_utils.py` can raise in the source. The model issues scrolls that never fail; only the readings can fail.
- Driver.Browser.ScrollEnd: `window.scrollY` can be a fractional number in a browser. A `Reading` holds integers, so sub-pixel positions are not modelled.
- Driver.Browser.SelectAndHover: only driver errors are modelled as failed attempts. Exceptions outside the `WebDriverException` family are not modelled.
- Scraper.Script.Run: when the main page does not load, the source never defines `products`. The model leaves it empty.
- Scraper.Script.Run: `data` and `products` share the same dictionary objects in the source. The model holds values and proves that the entries are equal (`Enrichment.BucketsAreProductEntries`), not that they are the same objects.
