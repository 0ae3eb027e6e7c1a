/**
 * The parts of a BeautifulSoup tree the scraper looks at, as plain values.
 * A `find` that may fail is an `Option`; `get_text(strip=True)` is the
 * string already extracted.
 */
module Markup {
  import opened Wrappers

  /** An `<a>` element and its `href` attribute, when it has one. */
  datatype Link = Link(href: Option<string>)

  /**
   * One listing card: its first `<a>`, and the text of its first element of
   * class `kr_j0` (the product name) and of class `kr_kj` (the price).
   */
  datatype Card = Card(link: Option<Link>, name: Option<string>, price: Option<string>)

  /** A table row: the text of each of its children, in order. */
  type Row = seq<string>

  /** A seller popup element and the rows of the first `<table>` inside it, when there is one. */
  datatype Popup = Popup(table: Option<seq<Row>>)

  /**
   * A parsed page: the first element carrying each class name that names a
   * popup, and the elements carrying each class name that names cards.
   */
  datatype Soup = Soup(popups: map<string, Popup>, cardGroups: map<string, seq<Card>>) {

    /** `soup.find(class_=cls)` for a popup. */
    function Find(cls: string): Option<Popup> {
      if cls in popups then Some(popups[cls]) else None
    }

    /** `soup.find_all(class_=cls)` for cards. */
    function FindAll(cls: string): seq<Card> {
      if cls in cardGroups then cardGroups[cls] else []
    }
  }
}
