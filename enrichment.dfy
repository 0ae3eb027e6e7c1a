/**
 * What the seller-details loop of the main script builds: the products
 * whose seller lookup succeeded (`data`), the ones whose lookup failed
 * (`products_without_seller_info`), and the product list itself, whose
 * entries gain their `seller_info` in place.
 */
module Enrichment {
  import opened Wrappers
  import opened Seqs
  import opened Cards
  import opened SellerTable

  /** `product["seller_info"] = info_seller`. */
  function WithSellerInfo(p: Product, info: map<string, string>): Product {
    p.(sellerInfo := Some(info))
  }

  function Successes(ls: seq<SellerLookup>): (bs: seq<bool>)
    ensures |bs| == |ls|
  {
    seq(|ls|, i requires 0 <= i < |ls| => ls[i].ok)
  }

  /** `data` once the loop has handled products `ps` with seller lookups `ls`. */
  function Completed(ps: seq<Product>, ls: seq<SellerLookup>): seq<Product>
    requires |ps| == |ls|
  {
    if ps == [] then []
    else
      var last, lookup := ps[|ps| - 1], ls[|ls| - 1];
      Completed(ps[..|ps| - 1], ls[..|ls| - 1]) + (if lookup.ok then [WithSellerInfo(last, lookup.info)] else [])
  }

  /** `products_without_seller_info` once the loop has handled `ps` with lookups `ls`. */
  function Incomplete(ps: seq<Product>, ls: seq<SellerLookup>): seq<Product>
    requires |ps| == |ls|
  {
    if ps == [] then []
    else
      var last, lookup := ps[|ps| - 1], ls[|ls| - 1];
      Incomplete(ps[..|ps| - 1], ls[..|ls| - 1]) + (if lookup.ok then [] else [last])
  }

  /** The handled products as the `products` list holds them afterwards. */
  function Enriched(ps: seq<Product>, ls: seq<SellerLookup>): (es: seq<Product>)
    requires |ps| == |ls|
    ensures |es| == |ps|
  {
    seq(|ps|, i requires 0 <= i < |ps| => if ls[i].ok then WithSellerInfo(ps[i], ls[i].info) else ps[i])
  }

  /** What handling product `|ls|` with lookup `l` does to `data` and `products_without_seller_info`. */
  lemma HandleNext(items: seq<Product>, ls: seq<SellerLookup>, l: SellerLookup)
    requires |ls| < |items|
    ensures var n := |ls|;
      var handled := if l.ok then WithSellerInfo(items[n], l.info) else items[n];
      Completed(items[..n + 1], ls + [l]) == Completed(items[..n], ls) + (if l.ok then [handled] else [])
      && Incomplete(items[..n + 1], ls + [l]) == Incomplete(items[..n], ls) + (if l.ok then [] else [handled])
  {
    var n := |ls|;
    assert items[..n + 1][..n] == items[..n];
    assert (ls + [l])[..n] == ls;
  }

  /** What handling product `|ls|` with lookup `l` does to the product list: it replaces that one entry. */
  lemma EnrichNext(items: seq<Product>, ls: seq<SellerLookup>, l: SellerLookup)
    requires |ls| < |items|
    ensures var n := |ls|;
      var handled := if l.ok then WithSellerInfo(items[n], l.info) else items[n];
      Enriched(items[..n + 1], ls + [l]) + items[n + 1..] == (Enriched(items[..n], ls) + items[n..])[n := handled]
  {
    var n := |ls|;
    var handled := if l.ok then WithSellerInfo(items[n], l.info) else items[n];
    var after := Enriched(items[..n + 1], ls + [l]) + items[n + 1..];
    var before := (Enriched(items[..n], ls) + items[n..])[n := handled];
    assert |after| == |items| == |before|;
    forall i | 0 <= i < |items|
      ensures after[i] == before[i]
    {
      if i < n {
        assert after[i] == Enriched(items[..n + 1], ls + [l])[i];
        assert before[i] == Enriched(items[..n], ls)[i];
      } else if i == n {
        assert after[i] == Enriched(items[..n + 1], ls + [l])[n];
      } else {
        assert after[i] == items[n + 1..][i - n - 1];
        assert before[i] == items[n..][i - n];
      }
    }
  }

  /**
   * `data` holds, in product order, exactly the products whose lookup
   * succeeded, each carrying the details its lookup returned.
   */
  lemma {:induction false} CompletedAtSuccesses(ps: seq<Product>, ls: seq<SellerLookup>)
    requires |ps| == |ls|
    ensures var idx := Indices(Successes(ls));
      |Completed(ps, ls)| == |idx|
      && (forall j :: 0 <= j < |idx| ==> Completed(ps, ls)[j] == WithSellerInfo(ps[idx[j]], ls[idx[j]].info))
  {
    if ps != [] {
      var n := |ps| - 1;
      assert Successes(ls)[..n] == Successes(ls[..n]);
      CompletedAtSuccesses(ps[..n], ls[..n]);
    }
  }

  /** `products_without_seller_info` holds, in order and unchanged, exactly the products whose lookup failed. */
  lemma {:induction false} IncompleteAtFailures(ps: seq<Product>, ls: seq<SellerLookup>)
    requires |ps| == |ls|
    ensures var idx := Indices(Negated(Successes(ls)));
      |Incomplete(ps, ls)| == |idx|
      && (forall j :: 0 <= j < |idx| ==> Incomplete(ps, ls)[j] == ps[idx[j]])
  {
    if ps != [] {
      var n := |ps| - 1;
      assert Negated(Successes(ls))[..n] == Negated(Successes(ls[..n]));
      IncompleteAtFailures(ps[..n], ls[..n]);
    }
  }

  /**
   * Both lists hold the very entries of the product list as the loop
   * leaves it: the products whose lookup succeeded and the ones whose
   * lookup failed, each in product order.
   */
  lemma BucketsAreProductEntries(ps: seq<Product>, ls: seq<SellerLookup>)
    requires |ps| == |ls|
    ensures Completed(ps, ls) == Pick(Enriched(ps, ls), Indices(Successes(ls)))
    ensures Incomplete(ps, ls) == Pick(Enriched(ps, ls), Indices(Negated(Successes(ls))))
  {
    CompletedAtSuccesses(ps, ls);
    IncompleteAtFailures(ps, ls);
  }

  /**
   * Every handled product lands in exactly one of the two lists: the
   * lists together are as long as the products, and no position feeds both.
   */
  lemma BucketsPartition(ps: seq<Product>, ls: seq<SellerLookup>)
    requires |ps| == |ls|
    ensures |Completed(ps, ls)| + |Incomplete(ps, ls)| == |ps|
    ensures forall i :: 0 <= i < |ps| ==>
      (i in Indices(Successes(ls)) <==> i !in Indices(Negated(Successes(ls))))
  {
    CompletedAtSuccesses(ps, ls);
    IncompleteAtFailures(ps, ls);
    IndicesPartition(Successes(ls));
    IndicesDisjoint(Successes(ls));
  }

  /**
   * Products coming from the listing carry no seller details; afterwards
   * every product in `data` has them and none in
   * `products_without_seller_info` does.
   */
  lemma {:induction false} SellerInfoOnlyInCompleted(ps: seq<Product>, ls: seq<SellerLookup>)
    requires |ps| == |ls|
    requires forall i :: 0 <= i < |ps| ==> ps[i].sellerInfo.None?
    ensures forall p :: p in Completed(ps, ls) ==> p.sellerInfo.Some?
    ensures forall p :: p in Incomplete(ps, ls) ==> p.sellerInfo.None?
  {
    if ps != [] {
      var n := |ps| - 1;
      SellerInfoOnlyInCompleted(ps[..n], ls[..n]);
    }
  }

  /**
   * Two listed products; the first one's seller popup parses, the second
   * one's page does not load: the first ends up in `data` with its
   * details, the second in `products_without_seller_info` untouched.
   */
  lemma TwoProductsExample(first: Product, second: Product, details: map<string, string>)
    ensures var ls := [SellerLookup(true, details), SellerLookup(false, map[])];
      Completed([first, second], ls) == [WithSellerInfo(first, details)]
      && Incomplete([first, second], ls) == [second]
      && Enriched([first, second], ls) == [WithSellerInfo(first, details), second]
  {
    var ls := [SellerLookup(true, details), SellerLookup(false, map[])];
    assert [first, second][..1] == [first] && ls[..1] == [ls[0]];
    assert [first][..0] == [] && ls[..1][..0] == [];
    assert Completed([first], [ls[0]]) == [WithSellerInfo(first, details)];
    assert Incomplete([first], [ls[0]]) == [];
  }
}
