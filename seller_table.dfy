/**
 * The seller popup parse (`parse_product_page_to_dict`): a two-column table
 * folded row by row into a dictionary, the last row winning for a repeated
 * key.
 */
module SellerTable {
  import opened Wrappers
  import opened Python
  import opened Seqs
  import opened Text
  import opened Markup

  /** `(status, dict)`: the pair the parse, and `get_info_seller`, return. */
  datatype SellerLookup = SellerLookup(ok: bool, info: map<string, string>)

  /** A row that `x, y = tr.children` can unpack. */
  predicate IsPair(row: Row) { |row| == 2 }

  /** The key a row contributes: its first cell with every `:` removed. */
  function Key(row: Row): string
    requires |row| >= 1
  {
    RemoveAll(row[0], ':')
  }

  /** The dictionary the loop builds from rows that are all pairs. */
  function TableToMap(rows: seq<Row>): map<string, string>
    requires forall i :: 0 <= i < |rows| ==> |rows[i]| == 2
  {
    if rows == [] then map[]
    else
      var last := rows[|rows| - 1];
      TableToMap(rows[..|rows| - 1])[Key(last) := last[1]]
  }

  /** The keys of the dictionary are exactly the rows' keys. */
  lemma {:induction false} TableKeys(rows: seq<Row>)
    requires forall i :: 0 <= i < |rows| ==> |rows[i]| == 2
    ensures TableToMap(rows).Keys == set i | 0 <= i < |rows| :: Key(rows[i])
  {
    if rows != [] {
      var init := rows[..|rows| - 1];
      TableKeys(init);
      assert TableToMap(rows).Keys == TableToMap(init).Keys + {Key(rows[|rows| - 1])};
      assert (set i | 0 <= i < |rows| :: Key(rows[i]))
          == (set i | 0 <= i < |init| :: Key(init[i])) + {Key(rows[|rows| - 1])};
    }
  }

  /** A key maps to the second cell of the last row that carries it. */
  lemma {:induction false} TableLastRowWins(rows: seq<Row>, i: nat)
    requires forall k :: 0 <= k < |rows| ==> |rows[k]| == 2
    requires i < |rows|
    requires forall j :: i < j < |rows| ==> Key(rows[j]) != Key(rows[i])
    ensures Key(rows[i]) in TableToMap(rows) && TableToMap(rows)[Key(rows[i])] == rows[i][1]
  {
    if i < |rows| - 1 {
      TableLastRowWins(rows[..|rows| - 1], i);
    }
  }

  /**
   * What `parse_product_page_to_dict` ends with: `(False, {})` without a
   * popup or without a table in it, the `ValueError` of the first row that
   * is not a pair, and otherwise `(True, TableToMap(rows))`.
   */
  function PopupTable(soup: Soup, popupClass: string): (r: Py<SellerLookup>)
    ensures r.Raise? ==> r.exc.UnpackValueError? && r.exc.got != 2
    ensures r.Return? && !r.value.ok ==> r.value.info == map[]
  {
    var popup := soup.Find(popupClass);
    if popup.None? || popup.value.table.None? then Return(SellerLookup(false, map[]))
    else
      var rows := popup.value.table.value;
      var k := LeadingCount(rows, IsPair);
      if k < |rows| then Raise(UnpackValueError(|rows[k]|))
      else Return(SellerLookup(true, TableToMap(rows)))
  }

  /** `parse_product_page_to_dict`: the loop that fills `data` one row at a time. */
  method ParseProductPageToDict(soupProduct: Soup, popupClass: string) returns (r: Py<SellerLookup>)
    ensures r == PopupTable(soupProduct, popupClass)
  {
    var popup := soupProduct.Find(popupClass);
    var table := if popup.Some? then popup.value.table else None;
    var data: map<string, string> := map[];
    if table.None? || popup.None? {
      return Return(SellerLookup(false, data));
    }
    var rows := table.value;
    for n := 0 to |rows|
      invariant forall k :: 0 <= k < n ==> |rows[k]| == 2
      invariant data == TableToMap(rows[..n])
    {
      var tr := rows[n];
      if |tr| != 2 {
        assert LeadingCount(rows, IsPair) == n;
        return Raise(UnpackValueError(|tr|));
      }
      var x, y := RemoveAll(tr[0], ':'), tr[1];
      assert rows[..n + 1][..n] == rows[..n];
      data := data[x := y];
    }
    assert rows[..|rows|] == rows;
    return Return(SellerLookup(true, data));
  }

  /** An empty table gives `(True, {})`. */
  lemma EmptyTableExample(soup: Soup, popupClass: string)
    requires soup.Find(popupClass) == Some(Popup(Some([])))
    ensures PopupTable(soup, popupClass) == Return(SellerLookup(true, map[]))
  {
  }

  /** A label written with a trailing colon gives the title as key. */
  lemma LabelKey(title: string, value: string)
    requires ':' !in title
    ensures Key([title + [':'], value]) == title
  {
    RemoveAllAppend(title, [':'], ':');
  }

  /**
   * Two rows with distinct labels give both entries, the colons gone
   * (`Store:`/`Acme` and `Rating:`/`4.8` give `{"Store": "Acme", "Rating": "4.8"}`).
   */
  lemma DistinctLabelsExample(a: string, b: string, x: string, y: string)
    requires ':' !in a && ':' !in b && a != b
    ensures TableToMap([[a + [':'], x], [b + [':'], y]]) == map[a := x, b := y]
  {
    var rows := [[a + [':'], x], [b + [':'], y]];
    LabelKey(a, x);
    LabelKey(b, y);
    assert rows[..1] == [rows[0]] && rows[..1][..0] == [];
    assert TableToMap(rows[..1]) == map[a := x];
  }

  /** A repeated label keeps the later value (`A:`/`1` then `A:`/`2` give `{"A": "2"}`). */
  lemma RepeatedLabelExample(a: string, x: string, y: string)
    requires ':' !in a
    ensures TableToMap([[a + [':'], x], [a + [':'], y]]) == map[a := y]
  {
    var rows := [[a + [':'], x], [a + [':'], y]];
    LabelKey(a, x);
    LabelKey(a, y);
    assert rows[..1] == [rows[0]] && rows[..1][..0] == [];
    assert TableToMap(rows[..1]) == map[a := x];
  }
}
