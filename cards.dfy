/**
 * The card gate (`card_to_dict`) and the comprehensions of the main script
 * that split card results by status.
 */
module Cards {
  import opened Wrappers
  import opened Python
  import opened Seqs
  import opened Text
  import opened Price
  import opened Markup

  /**
   * The dict built for a product: `name`, `price` (the whole pair returned
   * by `extract_number`), `url`, and `seller_info` once the main script has
   * added it.
   */
  datatype Product = Product(name: string, price: PricePair, url: string, sellerInfo: Option<map<string, string>>)

  /** `(False, {})` or `(True, product)`: the only two shapes `card_to_dict` returns. */
  datatype CardResult = Rejected | Parsed(product: Product)

  const SchemePrefix := "https:"

  /** `link_tag.get("href", "")`. */
  function Href(link: Link): string {
    if link.href.Some? then link.href.value else ""
  }

  /**
   * `card_to_dict`: rejects a card missing its link, name or price element;
   * otherwise builds the product, whatever the price text holds, unless
   * reading the price raises.
   */
  function CardToDict(card: Card): (r: Py<CardResult>)
    ensures r == Return(Rejected) <==> card.link.None? || card.name.None? || card.price.None?
    ensures r.Raise? <==>
      card.link.Some? && card.name.Some? && card.price.Some? && ExtractNumber(card.price.value).Raise?
    ensures r.Raise? ==> r.exc == ExtractNumber(card.price.value).exc
    ensures r.Return? && r.value.Parsed? ==>
      var p := r.value.product;
      p.url == SchemePrefix + Strip(Href(card.link.value))
      && p.name == card.name.value
      && Return(p.price) == ExtractNumber(card.price.value)
      && p.sellerInfo.None?
  {
    if card.link.None? || card.name.None? || card.price.None? then Return(Rejected)
    else
      var url := Strip(Href(card.link.value));
      var productName, priceText := card.name.value, card.price.value;
      match ExtractNumber(priceText)
      case Raise(e) => Raise(e)
      case Return(price) => Return(Parsed(Product(productName, price, SchemePrefix + url, None)))
  }

  /** The results of `map(card_to_dict, cards)`, read to the end. */
  function CardResults(cards: seq<Card>): (r: Py<seq<CardResult>>)
    ensures r.Return? ==> |r.value| == |cards|
  {
    MapAll(cards, CardToDict)
  }

  function Statuses(rs: seq<CardResult>): (bs: seq<bool>)
    ensures |bs| == |rs|
  {
    seq(|rs|, i requires 0 <= i < |rs| => rs[i].Parsed?)
  }

  /** `[card for status, card in results if status]`. */
  function Kept(rs: seq<CardResult>): (ps: seq<Product>)
    ensures |ps| <= |rs|
  {
    if rs == [] then []
    else Kept(rs[..|rs| - 1]) + (if rs[|rs| - 1].Parsed? then [rs[|rs| - 1].product] else [])
  }

  /** `[card for status, card in results if not status]`: each element stands for a `{}`. */
  function Dropped(rs: seq<CardResult>): (ds: seq<CardResult>)
    ensures |ds| <= |rs|
  {
    if rs == [] then []
    else Dropped(rs[..|rs| - 1]) + (if rs[|rs| - 1].Parsed? then [] else [rs[|rs| - 1]])
  }

  /**
   * The kept products are exactly the parsed cards' products, in card
   * order: the `j`-th one comes from the `j`-th parsed position.
   */
  lemma {:induction false} KeptInCardOrder(rs: seq<CardResult>)
    ensures var idx := Indices(Statuses(rs));
      |Kept(rs)| == |idx| && forall j :: 0 <= j < |idx| ==> Kept(rs)[j] == rs[idx[j]].product
  {
    if rs != [] {
      var init := rs[..|rs| - 1];
      assert Statuses(rs)[..|rs| - 1] == Statuses(init);
      KeptInCardOrder(init);
    }
  }

  /** Every card result is counted once: either kept or dropped. */
  lemma {:induction false} KeptDroppedPartition(rs: seq<CardResult>)
    ensures |Kept(rs)| + |Dropped(rs)| == |rs|
    ensures forall j :: 0 <= j < |Dropped(rs)| ==> Dropped(rs)[j] == Rejected
  {
    if rs != [] {
      KeptDroppedPartition(rs[..|rs| - 1]);
    }
  }
  /** Every product the listing yields starts with an `https:` URL and without seller details. */
  lemma ListedProductsFresh(cards: seq<Card>)
    requires CardResults(cards).Return?
    ensures var ps := Kept(CardResults(cards).value);
      forall j :: 0 <= j < |ps| ==>
        ps[j].sellerInfo.None? && |ps[j].url| >= |SchemePrefix| && ps[j].url[..|SchemePrefix|] == SchemePrefix
  {
    var rs := CardResults(cards).value;
    MapAllInOrder(cards, CardToDict);
    KeptInCardOrder(rs);
    var idx := Indices(Statuses(rs));
    forall j | 0 <= j < |Kept(rs)|
      ensures Kept(rs)[j].sellerInfo.None? && |Kept(rs)[j].url| >= |SchemePrefix|
      ensures Kept(rs)[j].url[..|SchemePrefix|] == SchemePrefix
    {
      var i := idx[j];
      assert Statuses(rs)[i];
      assert CardToDict(cards[i]) == Return(rs[i]);
    }
  }
}
