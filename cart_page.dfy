/**
 * The cart page (src/components/pages/Cart.tsx): the join of the cart lines
 * with the catalog, the per-line unit price and total, the page totals with
 * the 5% tax, and the buttons that dispatch to the cart slice.
 */
module CartPage {
  import opened Wrappers
  import opened Catalog
  import opened CartSlice
  import Dashboard

  // ---------------------------------------------------------------------------
  // Looking things up in the catalog
  // ---------------------------------------------------------------------------

  /** `Array.prototype.find`, as the index of the first element that matches. */
  function FindFirst<T>(s: seq<T>, matches: T -> bool): (r: Option<nat>)
    ensures r.Some? ==> r.value < |s| && matches(s[r.value])
    ensures r.Some? ==> forall j :: 0 <= j < r.value ==> !matches(s[j])
    ensures r.None? ==> forall j :: 0 <= j < |s| ==> !matches(s[j])
    decreases |s|
  {
    if s == [] then None
    else if matches(s[0]) then Some(0)
    else
      match FindFirst(s[1..], matches)
      case None => None
      case Some(i) => Some(i + 1)
  }

  /** `products.find((p) => p.id === productId)`. */
  function FindProduct(products: seq<Product>, productId: int): (r: Option<Product>)
    ensures r.Some? ==> r.value in products && r.value.id == productId
  {
    match FindFirst(products, (p: Product) => p.id == productId)
    case None => None
    case Some(i) => Some(products[i])
  }

  /** `variantId || ""` is truthy: the line names a variant. */
  predicate NamesVariant(variantId: Option<string>) {
    variantId.Some? && variantId.value != ""
  }

  /** `item.variantId ? product.variants?.find((v) => v.id === item.variantId) : null`. */
  function FindVariant(product: Product, variantId: Option<string>): (r: Option<Variant>)
    ensures r.Some? ==> NamesVariant(variantId) && r.value in product.variants && r.value.id == variantId.value
    ensures NamesVariant(variantId) && (exists j :: 0 <= j < |product.variants| && product.variants[j].id == variantId.value)
            ==> r.Some?
  {
    if !NamesVariant(variantId) then None
    else
      match FindFirst(product.variants, (v: Variant) => v.id == variantId.value)
      case None => None
      case Some(i) => Some(product.variants[i])
  }

  /** `product.price + (variant?.price || 0)`. */
  function UnitPrice(product: Product, variant: Option<Variant>): (r: int)
    ensures variant.None? ==> r == product.price
    ensures variant.Some? && variant.value.price >= 0 ==> r >= product.price
  {
    product.price + (if variant.Some? then variant.value.price else 0)
  }

  /** The product a catalog lookup finds is the first one with that id; none is found only when none has it. */
  lemma FindProductIsFirstMatch(products: seq<Product>, productId: int)
    ensures FindProduct(products, productId).None? <==> forall j :: 0 <= j < |products| ==> products[j].id != productId
    ensures FindProduct(products, productId).Some? ==>
              exists i :: 0 <= i < |products| && products[i] == FindProduct(products, productId).value
                          && products[i].id == productId
                          && forall j :: 0 <= j < i ==> products[j].id != productId
  {
    var matches := (p: Product) => p.id == productId;
    var r := FindFirst(products, matches);
    if r.None? {
      forall j | 0 <= j < |products| ensures products[j].id != productId {
        assert !matches(products[j]);
      }
    } else {
      var i := r.value;
      assert matches(products[i]);
      forall j | 0 <= j < i ensures products[j].id != productId {
        assert !matches(products[j]);
      }
    }
  }

  /**
   * The unit price is the product's price plus the price of the first variant
   * whose id the line names; a line that names no variant, or one the product
   * does not have, costs the product's price.
   */
  lemma UnitPriceCases(product: Product, variantId: Option<string>)
    ensures !NamesVariant(variantId) ==> UnitPrice(product, FindVariant(product, variantId)) == product.price
    ensures NamesVariant(variantId) && (forall j :: 0 <= j < |product.variants| ==> product.variants[j].id != variantId.value)
            ==> UnitPrice(product, FindVariant(product, variantId)) == product.price
    ensures forall i :: 0 <= i < |product.variants| && NamesVariant(variantId)
                        && product.variants[i].id == variantId.value
                        && (forall j :: 0 <= j < i ==> product.variants[j].id != variantId.value)
                        ==> UnitPrice(product, FindVariant(product, variantId)) == product.price + product.variants[i].price
  {
    if NamesVariant(variantId) {
      var matches := (v: Variant) => v.id == variantId.value;
      var r := FindFirst(product.variants, matches);
      if r.None? {
        assert forall j :: 0 <= j < |product.variants| ==> !matches(product.variants[j]);
      } else {
        forall i | 0 <= i < |product.variants| && product.variants[i].id == variantId.value
                   && (forall j :: 0 <= j < i ==> product.variants[j].id != variantId.value)
          ensures i == r.value
        {
        }
      }
    }
  }

  // ---------------------------------------------------------------------------
  // The display lines
  // ---------------------------------------------------------------------------

  /** One row of the cart list and of the bill. */
  datatype DisplayLine = DisplayLine(
    key: string,
    title: string,
    variantName: Option<string>,
    qty: int,
    price: int,
    total: int,
    thumbnail: string,
    productId: int,
    variantId: Option<string>)

  /** `variant?.name || null`. */
  function VariantName(variant: Option<Variant>): (r: Option<string>)
    ensures r.Some? ==> variant.Some? && r.value == variant.value.name && r.value != ""
    ensures variant.Some? && variant.value.name != "" ==> r.Some?
  {
    if variant.Some? && variant.value.name != "" then Some(variant.value.name) else None
  }

  /** The `map` callback: a row for an entry whose product is in the catalog, `null` otherwise. */
  function Join(products: seq<Product>, entry: (LineKey, CartItem)): (r: Option<DisplayLine>)
    ensures r.Some? <==> FindProduct(products, entry.1.productId).Some?
  {
    var (key, item) := entry;
    match FindProduct(products, item.productId)
    case None => None
    case Some(product) =>
      var variant := FindVariant(product, item.variantId);
      var price := UnitPrice(product, variant);
      Some(DisplayLine(KeyString(key), product.title, VariantName(variant), item.qty, price,
                       price * item.qty, product.thumbnail, item.productId, item.variantId))
  }

  /** `cartItems`: the rows of the entries, in order, with `.filter(Boolean)` dropping the `null`s. */
  function CartLines(products: seq<Product>, entries: seq<(LineKey, CartItem)>): (r: seq<DisplayLine>)
    ensures |r| <= |entries|
    decreases |entries|
  {
    if entries == [] then []
    else
      (match Join(products, entries[0]) case None => [] case Some(line) => [line])
      + CartLines(products, entries[1..])
  }

  /**
   * Every row comes from an entry of a catalog product: it carries the entry's
   * key, product, variant and quantity, the unit price of that product and
   * variant, and a total of price times quantity.
   */
  lemma {:induction false} CartLinesComeFromEntries(products: seq<Product>, entries: seq<(LineKey, CartItem)>)
    ensures forall line :: line in CartLines(products, entries) ==>
              exists e :: e in entries && FindProduct(products, e.1.productId).Some?
                          && line.key == KeyString(e.0)
                          && line.productId == e.1.productId
                          && line.variantId == e.1.variantId
                          && line.qty == e.1.qty
                          && line.price == UnitPrice(FindProduct(products, e.1.productId).value,
                                                     FindVariant(FindProduct(products, e.1.productId).value, e.1.variantId))
                          && line.total == line.price * line.qty
    decreases |entries|
  {
    if entries != [] {
      CartLinesComeFromEntries(products, entries[1..]);
      assert forall e :: e in entries[1..] ==> e in entries;
    }
  }

  /** When every entry's product is in the catalog, there is one row per entry. */
  lemma {:induction false} CartLinesKnownLength(products: seq<Product>, entries: seq<(LineKey, CartItem)>)
    requires forall i :: 0 <= i < |entries| ==> FindProduct(products, entries[i].1.productId).Some?
    ensures |CartLines(products, entries)| == |entries|
    decreases |entries|
  {
    if entries != [] {
      var tail := entries[1..];
      assert forall i :: 0 <= i < |tail| ==> tail[i] == entries[i + 1];
      CartLinesKnownLength(products, tail);
    }
  }

  /** When every entry's product is in the catalog, no entry is dropped: row i is entry i's. */
  lemma {:induction false} CartLinesKeepKnownEntries(products: seq<Product>, entries: seq<(LineKey, CartItem)>)
    requires forall i :: 0 <= i < |entries| ==> FindProduct(products, entries[i].1.productId).Some?
    ensures |CartLines(products, entries)| == |entries|
    ensures forall i :: 0 <= i < |entries| ==> Some(CartLines(products, entries)[i]) == Join(products, entries[i])
  {
    CartLinesKnownLength(products, entries);
    forall i | 0 <= i < |entries| ensures Some(CartLines(products, entries)[i]) == Join(products, entries[i]) {
      CartLinesKeepKnownEntry(products, entries, i);
      CartLinesKnownLength(products, entries[..i]);
    }
  }

  /** With no catalog product behind any entry, the list is empty. */
  lemma {:induction false} CartLinesEmptyIff(products: seq<Product>, entries: seq<(LineKey, CartItem)>)
    ensures CartLines(products, entries) == [] <==>
              forall i :: 0 <= i < |entries| ==> FindProduct(products, entries[i].1.productId).None?
    decreases |entries|
  {
    if entries != [] {
      CartLinesEmptyIff(products, entries[1..]);
      assert forall i :: 1 <= i < |entries| ==> entries[i] == entries[1..][i - 1];
    }
  }

  /** The rows of two runs of entries are the rows of the first run followed by those of the second. */
  lemma {:induction false} CartLinesAppend(products: seq<Product>, a: seq<(LineKey, CartItem)>, b: seq<(LineKey, CartItem)>)
    ensures CartLines(products, a + b) == CartLines(products, a) + CartLines(products, b)
    decreases |a|
  {
    if a == [] {
      assert a + b == b;
    } else {
      var ab := a + b;
      assert ab[0] == a[0] && ab[1..] == a[1..] + b;
      CartLinesAppend(products, a[1..], b);
      var head := match Join(products, a[0]) case None => [] case Some(line) => [line];
      calc {
        CartLines(products, ab);
        head + CartLines(products, a[1..] + b);
        head + (CartLines(products, a[1..]) + CartLines(products, b));
        (head + CartLines(products, a[1..])) + CartLines(products, b);
        CartLines(products, a) + CartLines(products, b);
      }
    }
  }

  /**
   * In any cart, whatever other entries are dropped, an entry whose product is
   * in the catalog gets its row, placed after the rows of the entries before it
   * and before the rows of the entries after it.
   */
  lemma CartLinesKeepKnownEntry(products: seq<Product>, entries: seq<(LineKey, CartItem)>, i: nat)
    requires i < |entries| && FindProduct(products, entries[i].1.productId).Some?
    ensures Join(products, entries[i]).Some?
    ensures CartLines(products, entries)
            == CartLines(products, entries[..i]) + [Join(products, entries[i]).value] + CartLines(products, entries[i + 1..])
    ensures Join(products, entries[i]).value in CartLines(products, entries)
  {
    var single := CartLines(products, [entries[i]]);
    assert [entries[i]][1..] == [];
    assert single == [Join(products, entries[i]).value];
    assert entries == entries[..i] + ([entries[i]] + entries[i + 1..]);
    CartLinesAppend(products, [entries[i]], entries[i + 1..]);
    CartLinesAppend(products, entries[..i], [entries[i]] + entries[i + 1..]);
  }

  // ---------------------------------------------------------------------------
  // Totals
  // ---------------------------------------------------------------------------

  /** `TAX_PERCENT`. */
  const TaxPercent: real := 0.05

  /** `totalQty`: the quantities of the rows, summed. */
  function TotalQty(lines: seq<DisplayLine>): (r: int)
    ensures (forall i :: 0 <= i < |lines| ==> lines[i].qty >= 0) ==> r >= 0
    decreases |lines|
  {
    if lines == [] then 0 else lines[0].qty + TotalQty(lines[1..])
  }

  /** `subtotal`: the totals of the rows, summed. */
  function Subtotal(lines: seq<DisplayLine>): (r: int)
    ensures (forall i :: 0 <= i < |lines| ==> lines[i].total >= 0) ==> r >= 0
    decreases |lines|
  {
    if lines == [] then 0 else lines[0].total + Subtotal(lines[1..])
  }

  /** `taxAmount`: five percent of the subtotal, exactly. */
  function TaxAmount(subtotal: int): (tax: real)
    ensures tax * 20.0 == subtotal as real
  {
    subtotal as real * TaxPercent
  }

  /** `grandTotal`: the subtotal with its tax, i.e. 105% of it. */
  function GrandTotal(subtotal: int): (total: real)
    ensures total * 20.0 == subtotal as real * 21.0
    ensures subtotal >= 0 ==> total >= subtotal as real
  {
    subtotal as real + TaxAmount(subtotal)
  }

  /** Every catalog price and every variant delta is zero or more. */
  predicate PricesNonNegative(products: seq<Product>) {
    forall p :: p in products ==> p.price >= 0 && forall v :: v in p.variants ==> v.price >= 0
  }

  /**
   * With prices and variant deltas that are zero or more and cart quantities
   * that are zero or more, the subtotal is zero or more, so the grand total
   * is at least the subtotal.
   */
  lemma {:induction false} SubtotalNonNegative(products: seq<Product>, entries: seq<(LineKey, CartItem)>)
    requires PricesNonNegative(products)
    requires forall i :: 0 <= i < |entries| ==> entries[i].1.qty >= 0
    ensures Subtotal(CartLines(products, entries)) >= 0
    ensures GrandTotal(Subtotal(CartLines(products, entries))) >= Subtotal(CartLines(products, entries)) as real
    decreases |entries|
  {
    if entries != [] {
      SubtotalNonNegative(products, entries[1..]);
      var rest := CartLines(products, entries[1..]);
      match Join(products, entries[0])
      case None =>
        assert [] + rest == rest;
        assert CartLines(products, entries) == rest;
      case Some(line) =>
        RowTotalNonNegative(products, entries[0]);
        assert CartLines(products, entries) == [line] + rest;
        assert ([line] + rest)[1..] == rest;
    }
  }

  /** A row's total is zero or more when its prices and its quantity are. */
  lemma RowTotalNonNegative(products: seq<Product>, entry: (LineKey, CartItem))
    requires PricesNonNegative(products) && entry.1.qty >= 0
    requires Join(products, entry).Some?
    ensures Join(products, entry).value.total >= 0
  {
    var product := FindProduct(products, entry.1.productId).value;
    assert product in products;
    var variant := FindVariant(product, entry.1.variantId);
    assert variant.Some? ==> variant.value in product.variants;
    assert UnitPrice(product, variant) >= 0;
  }

  /** Rows with positive quantities have a positive total quantity exactly when there is a row. */
  lemma {:induction false} TotalQtyOfPositiveRows(lines: seq<DisplayLine>)
    requires forall i :: 0 <= i < |lines| ==> lines[i].qty > 0
    ensures TotalQty(lines) > 0 <==> lines != []
    ensures TotalQty(lines) >= 0
    decreases |lines|
  {
    if lines != [] {
      TotalQtyOfPositiveRows(lines[1..]);
    }
  }

  /**
   * In a cart whose lines are all positive, the footer with the grand total
   * and the bill button (shown while `totalQty > 0`) is there exactly when the
   * list is not the empty-state message (shown while `cartItems.length === 0`).
   */
  lemma FooterShownIffListNonEmpty(products: seq<Product>, s: CartState)
    requires s.WellFormed() && s.AllPositive()
    ensures TotalQty(CartLines(products, s.Entries())) > 0 <==> CartLines(products, s.Entries()) != []
  {
    var entries := s.Entries();
    var lines := CartLines(products, entries);
    assert forall e :: e in entries ==> e.1.qty > 0 by {
      forall e | e in entries ensures e.1.qty > 0 {
        var i :| 0 <= i < |entries| && entries[i] == e;
        assert s.order[i] in s.items;
      }
    }
    CartLinesComeFromEntries(products, entries);
    assert forall i :: 0 <= i < |lines| ==> lines[i].qty > 0 by {
      forall i | 0 <= i < |lines| ensures lines[i].qty > 0 {
        assert lines[i] in lines;
      }
    }
    TotalQtyOfPositiveRows(lines);
  }

  /** The sum of line quantities is the same whichever page counts it, once no row is dropped. */
  lemma {:induction false} TotalQtyMatchesValues(products: seq<Product>, entries: seq<(LineKey, CartItem)>)
    requires forall i :: 0 <= i < |entries| ==> FindProduct(products, entries[i].1.productId).Some?
    ensures TotalQty(CartLines(products, entries))
            == Dashboard.SumQty(seq(|entries|, i requires 0 <= i < |entries| => entries[i].1))
    decreases |entries|
  {
    if entries != [] {
      TotalQtyMatchesValues(products, entries[1..]);
      var vals := seq(|entries|, i requires 0 <= i < |entries| => entries[i].1);
      var tail := entries[1..];
      assert vals[1..] == seq(|tail|, i requires 0 <= i < |tail| => tail[i].1);
      assert CartLines(products, entries) == [Join(products, entries[0]).value] + CartLines(products, tail);
    }
  }

  /**
   * When every product in the cart is in the catalog, the cart page counts the
   * same number of items as the catalog page's cart button.
   */
  lemma CartPageAgreesWithDashboard(products: seq<Product>, s: CartState)
    requires s.WellFormed()
    requires forall k :: k in s.items ==> FindProduct(products, s.items[k].productId).Some?
    ensures TotalQty(CartLines(products, s.Entries())) == Dashboard.TotalQty(s)
  {
    var entries := s.Entries();
    assert forall i :: 0 <= i < |entries| ==> FindProduct(products, entries[i].1.productId).Some? by {
      forall i | 0 <= i < |entries| ensures FindProduct(products, entries[i].1.productId).Some? {
        assert s.order[i] in s.items;
      }
    }
    TotalQtyMatchesValues(products, entries);
    assert seq(|entries|, i requires 0 <= i < |entries| => entries[i].1) == s.Values();
  }

  /**
   * In a catalog whose product ids and variant ids are unique, a selection
   * confirmed in the catalog page's popup costs on the cart page what the
   * popup's "Add to Cart" label said.
   */
  lemma PopupPriceIsCartPrice(products: seq<Product>, k: nat, v: nat, qty: int)
    requires k < |products| && v < |products[k].variants|
    requires forall i, j :: 0 <= i < j < |products| ==> products[i].id != products[j].id
    requires forall i, j :: 0 <= i < j < |products[k].variants| ==>
               products[k].variants[i].id != products[k].variants[j].id
    requires products[k].variants[v].id != ""
    ensures FindProduct(products, products[k].id) == Some(products[k])
    ensures UnitPrice(products[k], FindVariant(products[k], Some(products[k].variants[v].id))) * qty
            == Dashboard.PopupPrice(products[k], Some(products[k].variants[v]), qty)
  {
    var product := products[k];
    FindProductIsFirstMatch(products, product.id);
    UnitPriceCases(product, Some(product.variants[v].id));
  }

  // ---------------------------------------------------------------------------
  // The row buttons
  // ---------------------------------------------------------------------------

  /**
   * Every row's buttons act on the row's own cart line: the key the slice
   * derives from the row's product and variant is the key the row shows.
   */
  lemma RowsAddressTheirOwnLine(products: seq<Product>, s: CartState)
    requires s.WellFormed()
    ensures forall line :: line in CartLines(products, s.Entries()) ==>
              KeyOf(line.productId, line.variantId) in s.items
              && KeyString(KeyOf(line.productId, line.variantId)) == line.key
              && s.items[KeyOf(line.productId, line.variantId)].qty == line.qty
  {
    var entries := s.Entries();
    CartLinesComeFromEntries(products, entries);
    forall line | line in CartLines(products, entries)
      ensures KeyOf(line.productId, line.variantId) in s.items
      ensures KeyString(KeyOf(line.productId, line.variantId)) == line.key
      ensures s.items[KeyOf(line.productId, line.variantId)].qty == line.qty
    {
      var e :| e in entries && line.key == KeyString(e.0) && line.productId == e.1.productId
               && line.variantId == e.1.variantId && line.qty == e.1.qty;
      var i :| 0 <= i < |entries| && entries[i] == e;
      assert s.order[i] in s.items;
    }
  }

  /** "+" then "−" on a row leaves the cart as it was. */
  lemma PlusThenMinusRestores(products: seq<Product>, s: CartState, line: DisplayLine)
    requires s.WellFormed() && s.AllPositive()
    requires line in CartLines(products, s.Entries())
    ensures s.UpdateQty(line.productId, line.variantId, 1).UpdateQty(line.productId, line.variantId, -1) == s
  {
    RowsAddressTheirOwnLine(products, s);
    UpdateThenInverseRestores(s, line.productId, line.variantId, 1);
  }

  /** "−" then "+" restores a row of two or more; a row of one is removed by the "−". */
  lemma MinusThenPlus(products: seq<Product>, s: CartState, line: DisplayLine)
    requires s.WellFormed() && s.AllPositive()
    requires line in CartLines(products, s.Entries())
    ensures line.qty >= 2 ==>
              s.UpdateQty(line.productId, line.variantId, -1).UpdateQty(line.productId, line.variantId, 1) == s
    ensures line.qty == 1 ==>
              s.UpdateQty(line.productId, line.variantId, -1) == s.RemoveItem(line.productId, line.variantId)
  {
    RowsAddressTheirOwnLine(products, s);
    if line.qty >= 2 {
      UpdateThenInverseRestores(s, line.productId, line.variantId, -1);
    } else if line.qty == 1 {
      UpdateAcrossZeroRemoves(s, line.productId, line.variantId, -1);
    }
  }

  /** `increaseQty`: one more of the row's line. */
  method IncreaseQty(store: CartStore, productId: int, variantId: Option<string>)
    requires store.Valid()
    modifies store
    ensures store.Valid()
    ensures store.State() == old(store.State()).UpdateQty(productId, variantId, 1)
  {
    store.UpdateQty(productId, variantId, 1);
  }

  /** `decreaseQty`: one less of the row's line, which goes when it reaches zero. */
  method DecreaseQty(store: CartStore, productId: int, variantId: Option<string>)
    requires store.Valid()
    modifies store
    ensures store.Valid()
    ensures store.State() == old(store.State()).UpdateQty(productId, variantId, -1)
  {
    store.UpdateQty(productId, variantId, -1);
  }

  /** The row's delete button. */
  method RemoveRow(store: CartStore, line: DisplayLine)
    requires store.Valid()
    modifies store
    ensures store.Valid()
    ensures store.State() == old(store.State()).RemoveItem(line.productId, line.variantId)
  {
    store.RemoveItem(line.productId, line.variantId);
  }

  /** The footer's "Clear" button. */
  method ClearAll(store: CartStore)
    requires store.Valid()
    modifies store
    ensures store.Valid()
    ensures store.State() == InitialState
  {
    store.ClearCart();
  }
}
