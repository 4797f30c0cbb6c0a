/**
 * The catalog page (src/components/pages/Dashboard.tsx): category and
 * sub-category lists, the product filter, the 12-per-page slice, the window
 * of page buttons, the "added" badge, the cart total and the variant popup.
 */
module Dashboard {
  import opened Wrappers
  import opened Catalog
  import opened CartSlice

  const ItemsPerPage: nat := 12
  const MaxButtons: nat := 5

  function Min(a: int, b: int): int { if a <= b then a else b }
  function Max(a: int, b: int): int { if a >= b then a else b }

  /** `!!selected`: neither null nor the empty string. */
  predicate IsSelected(selected: Option<string>) {
    selected.Some? && selected.value != ""
  }

  // ---------------------------------------------------------------------------
  // Categories and sub-categories: the first entry for each name wins
  // ---------------------------------------------------------------------------

  function Names(items: seq<CategoryItem>): seq<string> {
    seq(|items|, i requires 0 <= i < |items| => items[i].name)
  }

  /** What a `Map` filled by "set unless already present" holds, in insertion order. */
  function FirstWins(entries: seq<CategoryItem>): (r: seq<CategoryItem>)
    ensures |r| <= |entries|
    ensures forall x :: x in r ==> x in entries
    decreases |entries|
  {
    if entries == [] then []
    else
      var kept := FirstWins(entries[..|entries| - 1]);
      var last := entries[|entries| - 1];
      if last.name in Names(kept) then kept else kept + [last]
  }

  /** Every name of the input appears in the result, and no other. */
  lemma {:induction false} FirstWinsNames(entries: seq<CategoryItem>)
    ensures forall n :: n in Names(FirstWins(entries)) <==> n in Names(entries)
    decreases |entries|
  {
    if entries != [] {
      var init := entries[..|entries| - 1];
      FirstWinsNames(init);
      assert Names(entries) == Names(init) + [entries[|entries| - 1].name];
      var kept := FirstWins(init);
      assert Names(kept + [entries[|entries| - 1]]) == Names(kept) + [entries[|entries| - 1].name];
    }
  }

  predicate NamesDistinct(items: seq<CategoryItem>) {
    forall i, j :: 0 <= i < j < |items| ==> items[i].name != items[j].name
  }

  /** No name appears twice in the result. */
  lemma {:induction false} FirstWinsDistinct(entries: seq<CategoryItem>)
    ensures NamesDistinct(FirstWins(entries))
    decreases |entries|
  {
    if entries != [] {
      var init := entries[..|entries| - 1];
      FirstWinsDistinct(init);
      var kept := FirstWins(init);
      var last := entries[|entries| - 1];
      assert FirstWins(entries) == if last.name in Names(kept) then kept else kept + [last];
      if last.name !in Names(kept) {
        var r := kept + [last];
        forall i, j | 0 <= i < j < |r| ensures r[i].name != r[j].name {
          if j == |kept| {
            assert Names(kept)[i] == kept[i].name;
          }
        }
      }
    }
  }

  /**
   * `idx` lists, ascending, positions in `entries` that are the first
   * occurrence of their name, and `r` is the input read at those positions.
   */
  ghost predicate FirstPositions(entries: seq<CategoryItem>, r: seq<CategoryItem>, idx: seq<nat>) {
    && |idx| == |r|
    && (forall i :: 0 <= i < |idx| ==> idx[i] < |entries| && r[i] == entries[idx[i]])
    && (forall i, q :: 0 <= i < |idx| && 0 <= q < idx[i] ==> entries[q].name != entries[idx[i]].name)
    && (forall i, j :: 0 <= i < j < |idx| ==> idx[i] < idx[j])
  }

  /**
   * The result is the input read at the first occurrence of each name, in
   * the order of those first occurrences: `idx` lists the positions.
   */
  lemma {:induction false} FirstWinsPositions(entries: seq<CategoryItem>) returns (idx: seq<nat>)
    ensures FirstPositions(entries, FirstWins(entries), idx)
    decreases |entries|
  {
    if entries == [] {
      idx := [];
    } else {
      var init := entries[..|entries| - 1];
      var last := entries[|entries| - 1];
      assert entries == init + [last];
      var kept := FirstWins(init);
      var idx0 := FirstWinsPositions(init);
      if last.name in Names(kept) {
        ExtendPositions(init, last, kept, idx0);
        idx := idx0;
      } else {
        assert forall q :: 0 <= q < |init| ==> init[q].name != last.name by {
          FirstWinsNames(init);
          forall q | 0 <= q < |init| ensures init[q].name != last.name {
            assert Names(init)[q] == init[q].name;
          }
        }
        idx := SnocPositions(init, last, kept, idx0);
      }
    }
  }

  /** An entry appended to the input leaves earlier first occurrences where they are. */
  lemma ExtendPositions(init: seq<CategoryItem>, last: CategoryItem, r: seq<CategoryItem>, idx: seq<nat>)
    requires FirstPositions(init, r, idx)
    ensures FirstPositions(init + [last], r, idx)
  {
    var entries := init + [last];
    forall i | 0 <= i < |idx| ensures idx[i] < |entries| && r[i] == entries[idx[i]] {
      assert entries[idx[i]] == init[idx[i]];
    }
    forall i, q | 0 <= i < |idx| && 0 <= q < idx[i] ensures entries[q].name != entries[idx[i]].name {
      assert entries[q] == init[q];
      assert entries[idx[i]] == init[idx[i]];
    }
  }

  /** An appended entry whose name is new is a first occurrence. */
  lemma SnocPositions(init: seq<CategoryItem>, last: CategoryItem, r: seq<CategoryItem>, idx0: seq<nat>)
    returns (idx: seq<nat>)
    requires FirstPositions(init, r, idx0)
    requires forall q :: 0 <= q < |init| ==> init[q].name != last.name
    ensures FirstPositions(init + [last], r + [last], idx)
  {
    ExtendPositions(init, last, r, idx0);
    var entries := init + [last];
    idx := idx0 + [|init|];
    forall i, q | 0 <= i < |idx| && 0 <= q < idx[i] ensures entries[q].name != entries[idx[i]].name {
      if i == |idx0| {
        assert entries[q] == init[q];
      } else {
        assert idx[i] == idx0[i];
      }
    }
    forall i | 0 <= i < |idx| ensures idx[i] < |entries| && (r + [last])[i] == entries[idx[i]] {
      if i < |idx0| {
        assert idx[i] == idx0[i];
      }
    }
  }

  /** The category buttons: (category, thumbnail) for each product, in catalog order. */
  function CategoryEntries(products: seq<Product>): seq<CategoryItem> {
    seq(|products|, i requires 0 <= i < |products| => CategoryItem(products[i].category, products[i].thumbnail))
  }

  function SubCategoryEntries(products: seq<Product>): seq<CategoryItem> {
    seq(|products|, i requires 0 <= i < |products| => CategoryItem(products[i].subCategory, products[i].thumbnail))
  }

  /** Keeps the first entry per name, as the page's `Map` with `has`/`set` does. */
  method DedupByName(entries: seq<CategoryItem>) returns (out: seq<CategoryItem>)
    ensures out == FirstWins(entries)
  {
    var seen: set<string> := {};
    out := [];
    for i := 0 to |entries|
      invariant out == FirstWins(entries[..i])
      invariant forall n :: n in seen <==> n in Names(out)
    {
      assert entries[..i + 1][..i] == entries[..i];
      var entry := entries[i];
      if entry.name !in seen {
        seen := seen + {entry.name};
        assert Names(out + [entry]) == Names(out) + [entry.name];
        out := out + [entry];
      }
    }
    assert entries[..|entries|] == entries;
  }

  /** `categories`: one button per distinct category, with the thumbnail of its first product. */
  method Categories(products: seq<Product>) returns (categories: seq<CategoryItem>)
    ensures categories == FirstWins(CategoryEntries(products))
  {
    categories := DedupByName(CategoryEntries(products));
  }

  /** `subCategories`: none without a selected category, else the distinct sub-categories of its products. */
  method SubCategories(products: seq<Product>, selected: Option<string>) returns (subCategories: seq<CategoryItem>)
    ensures !IsSelected(selected) ==> subCategories == []
    ensures IsSelected(selected) ==>
              subCategories == FirstWins(SubCategoryEntries(Filter(products, (p: Product) => p.category == selected.value)))
  {
    if !IsSelected(selected) {
      return [];
    }
    var inCategory := Filter(products, (p: Product) => p.category == selected.value);
    subCategories := DedupByName(SubCategoryEntries(inCategory));
  }

  // ---------------------------------------------------------------------------
  // Filtering
  // ---------------------------------------------------------------------------

  /** `Array.prototype.filter`. */
  function Filter(s: seq<Product>, keep: Product -> bool): (r: seq<Product>)
    ensures |r| <= |s|
    ensures forall i :: 0 <= i < |r| ==> keep(r[i])
  {
    if s == [] then []
    else (if keep(s[0]) then [s[0]] else []) + Filter(s[1..], keep)
  }

  /** Filtering a concatenation filters each part: the kept elements keep their order. */
  lemma {:induction false} FilterAppend(a: seq<Product>, b: seq<Product>, keep: Product -> bool)
    ensures Filter(a + b, keep) == Filter(a, keep) + Filter(b, keep)
    decreases |a|
  {
    if a == [] {
      assert a + b == b;
    } else {
      var head: seq<Product> := if keep(a[0]) then [a[0]] else [];
      assert (a + b)[0] == a[0];
      assert (a + b)[1..] == a[1..] + b;
      assert Filter(a + b, keep) == head + Filter(a[1..] + b, keep);
      FilterAppend(a[1..], b, keep);
      assert Filter(a, keep) == head + Filter(a[1..], keep);
    }
  }

  /** An element is kept exactly when it occurs in the input and satisfies `keep`. */
  lemma {:induction false} FilterMembers(s: seq<Product>, keep: Product -> bool)
    ensures forall p :: p in Filter(s, keep) <==> p in s && keep(p)
    decreases |s|
  {
    if s != [] {
      FilterMembers(s[1..], keep);
      assert s == [s[0]] + s[1..];
    }
  }

  predicate Matches(p: Product, category: string, subCategory: Option<string>) {
    p.category == category && (!IsSelected(subCategory) || p.subCategory == subCategory.value)
  }

  /** `filteredProducts`. */
  function FilteredProducts(products: seq<Product>, category: Option<string>, subCategory: Option<string>): (r: seq<Product>)
    ensures !IsSelected(category) ==> r == products
    ensures IsSelected(category) ==> forall i :: 0 <= i < |r| ==> Matches(r[i], category.value, subCategory)
  {
    if !IsSelected(category) then products
    else Filter(products, (p: Product) => Matches(p, category.value, subCategory))
  }

  /**
   * With a category selected, the filtered list holds exactly the products of
   * that category (and of the selected sub-category, when there is one), and
   * filtering a concatenation filters each part, so catalog order is kept.
   */
  lemma FilteredProductsAreTheMatches(products: seq<Product>, category: Option<string>, subCategory: Option<string>)
    requires IsSelected(category)
    ensures forall p :: p in FilteredProducts(products, category, subCategory) <==>
                          p in products && Matches(p, category.value, subCategory)
    ensures forall a, b :: products == a + b ==>
              FilteredProducts(products, category, subCategory) ==
              FilteredProducts(a, category, subCategory) + FilteredProducts(b, category, subCategory)
  {
    var keep := (p: Product) => Matches(p, category.value, subCategory);
    FilterMembers(products, keep);
    forall a, b | products == a + b
      ensures FilteredProducts(products, category, subCategory) ==
              FilteredProducts(a, category, subCategory) + FilteredProducts(b, category, subCategory)
    {
      FilterAppend(a, b, keep);
    }
  }

  // ---------------------------------------------------------------------------
  // Pages
  // ---------------------------------------------------------------------------

  /** `Math.ceil(n / ITEMS_PER_PAGE)`. */
  function TotalPages(n: nat): (pages: nat)
    ensures pages * ItemsPerPage >= n
    ensures pages > 0 ==> (pages - 1) * ItemsPerPage < n
  {
    (n + ItemsPerPage - 1) / ItemsPerPage
  }

  /** How `slice` reads a start or end argument: negative counts from the end; then clamped. */
  function SliceIndex(i: int, len: nat): (r: nat)
    ensures r <= len
  {
    if i < 0 then Max(len + i, 0) else Min(i, len)
  }

  /** `Array.prototype.slice(start, end)`. */
  function JsSlice(s: seq<Product>, start: int, end: int): seq<Product> {
    var from, to := SliceIndex(start, |s|), SliceIndex(end, |s|);
    if from < to then s[from..to] else []
  }

  /** `paginatedProducts`: at most a page of products, the page-th block of twelve. */
  function PaginatedProducts(filtered: seq<Product>, page: int): (r: seq<Product>)
    ensures |r| <= ItemsPerPage
    ensures page >= 1 ==>
              r == filtered[Min((page - 1) * ItemsPerPage, |filtered|)..Min(page * ItemsPerPage, |filtered|)]
  {
    var start := (page - 1) * ItemsPerPage;
    JsSlice(filtered, start, start + ItemsPerPage)
  }

  /** `startIndex`: the 1-based number of the first product on the page. */
  function StartIndex(page: int): (r: int)
    ensures page >= 1 ==> r >= 1
    ensures r + ItemsPerPage - 1 == page * ItemsPerPage
  {
    (page - 1) * ItemsPerPage + 1
  }

  /** `endIndex`: the 1-based number of the last product on the page. */
  function EndIndex(page: int, n: nat): (r: int)
    ensures r <= n && r <= page * ItemsPerPage
    ensures r == n || r == page * ItemsPerPage
  {
    Min(page * ItemsPerPage, n)
  }

  /** A page within range shows at least one product. */
  lemma PagesInRangeAreNonEmpty(page: int, n: nat)
    requires 1 <= page <= TotalPages(n)
    ensures StartIndex(page) <= EndIndex(page, n)
  {
  }

  /** "Showing startIndex–endIndex" names exactly the products on the page. */
  lemma IndicesDescribeThePage(filtered: seq<Product>, page: int)
    requires page >= 1 && StartIndex(page) <= |filtered|
    ensures var r := PaginatedProducts(filtered, page);
            && |r| == EndIndex(page, |filtered|) - StartIndex(page) + 1
            && r[0] == filtered[StartIndex(page) - 1]
            && r[|r| - 1] == filtered[EndIndex(page, |filtered|) - 1]
  {
  }

  /** The first and last button of the page window, as the memo computes them. */
  function WindowBounds(page: int, totalPages: nat): (r: (int, int))
    ensures 1 <= r.0 && r.1 <= totalPages
    ensures r.1 - r.0 + 1 <= MaxButtons
  {
    var start := Max(1, page - 2);
    var end := Min(totalPages, start + MaxButtons - 1);
    if end - start < MaxButtons - 1 then (Max(1, end - MaxButtons + 1), end) else (start, end)
  }

  /** The page numbers from the first to the last button of the window. */
  function PageWindow(page: int, totalPages: nat): (w: seq<int>)
    ensures |w| <= MaxButtons
    ensures forall i :: 0 <= i < |w| ==> 1 <= w[i] <= totalPages
  {
    var (lo, hi) := WindowBounds(page, totalPages);
    if lo <= hi then seq(hi - lo + 1, i requires 0 <= i <= hi - lo => lo + i) else []
  }

  /**
   * The window is min(5, totalPages) consecutive pages within 1..totalPages,
   * it contains the current page when that page exists, and it is centred on
   * it when there is room on both sides.
   */
  lemma PageWindowShape(page: int, totalPages: nat)
    ensures var w := PageWindow(page, totalPages);
            && |w| == Min(MaxButtons, totalPages)
            && (forall i :: 0 <= i < |w| ==> 1 <= w[i] <= totalPages)
            && (forall i :: 0 < i < |w| ==> w[i] == w[i - 1] + 1)
            && (1 <= page <= totalPages ==> page in w)
            && (3 <= page <= totalPages - 2 ==> w[0] == page - 2)
  {
    var w := PageWindow(page, totalPages);
    var (lo, hi) := WindowBounds(page, totalPages);
    if 1 <= page <= totalPages {
      assert w[page - lo] == page;
    }
  }

  /** `pageNumbers`: fills the window with a counting loop. */
  method PageNumbers(page: int, totalPages: nat) returns (pages: seq<int>)
    ensures pages == PageWindow(page, totalPages)
  {
    var start := Max(1, page - 2);
    var end := Min(totalPages, start + MaxButtons - 1);
    if end - start < MaxButtons - 1 {
      start := Max(1, end - MaxButtons + 1);
    }
    pages := [];
    var i := start;
    while i <= end
      invariant start <= i <= Max(start, end + 1)
      invariant |pages| == i - start
      invariant forall k :: 0 <= k < |pages| ==> pages[k] == start + k
    {
      pages := pages + [i];
      i := i + 1;
    }
  }

  // ---------------------------------------------------------------------------
  // The cart as the catalog page sees it
  // ---------------------------------------------------------------------------

  /** `getSimpleKey(productId)`: the key string of the product's base line. */
  function SimpleKey(productId: int): (key: string)
    ensures key == KeyString(KeyOf(productId, None))
  {
    Decimal.IntToString(productId) + "_base"
  }

  /** `added`: the base line exists, or some line holds the product. */
  predicate Added(s: CartState, productId: int) {
    LineKey(productId, "base") in s.items
    || exists k :: k in s.items && s.items[k].productId == productId
  }

  /** In a well-formed cart the base-line test is subsumed: added iff some line holds the product. */
  lemma AddedIffSomeLineHoldsProduct(s: CartState, productId: int)
    requires s.WellFormed()
    ensures Added(s, productId) <==> exists k :: k in s.items && s.items[k].productId == productId
  {
    var base := LineKey(productId, "base");
    if base in s.items {
      assert KeyOf(s.items[base].productId, s.items[base].variantId) == base;
    }
  }

  /** The sum of the quantities of some lines. */
  function SumQty(lines: seq<CartItem>): int {
    if lines == [] then 0 else lines[0].qty + SumQty(lines[1..])
  }

  /** `totalQty`: the sum of every line's quantity. */
  function TotalQty(s: CartState): int
    requires s.WellFormed()
  {
    SumQty(s.Values())
  }

  lemma {:induction false} SumOfPositivesIsPositive(lines: seq<CartItem>)
    requires forall i :: 0 <= i < |lines| ==> lines[i].qty > 0
    ensures SumQty(lines) > 0 <==> lines != []
    ensures SumQty(lines) >= 0
  {
    if lines != [] {
      SumOfPositivesIsPositive(lines[1..]);
    }
  }

  /** The cart button reads "View Cart" exactly when the cart holds a line. */
  lemma TotalQtyPositiveIffCartNonEmpty(s: CartState)
    requires s.WellFormed() && s.AllPositive()
    ensures TotalQty(s) > 0 <==> s.order != []
  {
    var vals := s.Values();
    assert forall i :: 0 <= i < |vals| ==> vals[i].qty > 0 by {
      forall i | 0 <= i < |vals| ensures vals[i].qty > 0 {
        assert s.order[i] in s.items;
      }
    }
    SumOfPositivesIsPositive(vals);
  }

  /** `addSimpleProduct`: one more of the base line. */
  method AddSimpleProduct(store: CartStore, product: Product)
    requires store.Valid()
    modifies store
    ensures store.Valid()
    ensures store.State() == old(store.State()).AddItem(product.id, None, 1)
  {
    store.AddItem(product.id, None, 1);
  }

  /** `updateSimpleQty`: shift the base line. */
  method UpdateSimpleQty(store: CartStore, productId: int, delta: int)
    requires store.Valid()
    modifies store
    ensures store.Valid()
    ensures store.State() == old(store.State()).UpdateQty(productId, None, delta)
  {
    store.UpdateQty(productId, None, delta);
  }

  // ---------------------------------------------------------------------------
  // The variant popup
  // ---------------------------------------------------------------------------

  datatype VariantPopup = VariantPopup(product: Option<Product>, variant: Option<Variant>, qty: int)

  const ClosedPopup := VariantPopup(None, None, 1)

  /** `openVariantPopup`: the product, its first variant if it has one, and a quantity of one. */
  function OpenVariantPopup(product: Product): (r: VariantPopup)
    ensures r.product == Some(product) && r.qty == 1
    ensures r.variant.Some? <==> product.variants != []
    ensures r.variant.Some? ==> r.variant.value == product.variants[0]
  {
    VariantPopup(Some(product), if product.variants != [] then Some(product.variants[0]) else None, 1)
  }

  /** Choosing a variant changes the selection only. */
  function SelectVariant(popup: VariantPopup, v: Variant): (r: VariantPopup)
    ensures r.variant == Some(v)
    ensures r.product == popup.product && r.qty == popup.qty
  {
    popup.(variant := Some(v))
  }

  /** The "−" button: one less, but never below one. */
  function DecreasePopupQty(popup: VariantPopup): (r: VariantPopup)
    ensures r.qty >= 1
    ensures popup.qty > 1 ==> r.qty == popup.qty - 1
    ensures popup.qty <= 1 ==> r.qty == 1
    ensures r.product == popup.product && r.variant == popup.variant
  {
    popup.(qty := Max(1, popup.qty - 1))
  }

  /** The "+" button. */
  function IncreasePopupQty(popup: VariantPopup): (r: VariantPopup)
    ensures r.qty == popup.qty + 1 && r.qty > popup.qty
    ensures r.product == popup.product && r.variant == popup.variant
  {
    popup.(qty := popup.qty + 1)
  }

  /** The "Add to Cart" label: the unit price of the selection times the popup quantity. */
  function PopupPrice(product: Product, variant: Option<Variant>, qty: int): (r: int)
    ensures variant.None? ==> r == product.price * qty
    ensures variant.Some? ==> r == product.price * qty + variant.value.price * qty
    ensures qty >= 0 && product.price >= 0 && (variant.Some? ==> variant.value.price >= 0) ==> r >= 0
  {
    (product.price + (if variant.Some? then variant.value.price else 0)) * qty
  }

  datatype PopupEvent = Open(product: Product) | Select(v: Variant) | Decrease | Increase | Close

  function StepPopup(popup: VariantPopup, e: PopupEvent): VariantPopup {
    match e
    case Open(p) => OpenVariantPopup(p)
    case Select(v) => SelectVariant(popup, v)
    case Decrease => DecreasePopupQty(popup)
    case Increase => IncreasePopupQty(popup)
    case Close => ClosedPopup
  }

  function RunPopup(popup: VariantPopup, events: seq<PopupEvent>): VariantPopup
    decreases |events|
  {
    if events == [] then popup else RunPopup(StepPopup(popup, events[0]), events[1..])
  }

  /** Whatever the user clicks, the popup quantity stays at least one. */
  lemma {:induction false} PopupQtyStaysPositive(popup: VariantPopup, events: seq<PopupEvent>)
    requires popup.qty >= 1
    ensures RunPopup(popup, events).qty >= 1
    decreases |events|
  {
    if events != [] {
      PopupQtyStaysPositive(StepPopup(popup, events[0]), events[1..]);
    }
  }

  /** "+" then "−" restores the quantity. */
  lemma IncreaseThenDecreaseRestores(popup: VariantPopup)
    requires popup.qty >= 1
    ensures DecreasePopupQty(IncreasePopupQty(popup)) == popup
  {
  }

  /**
   * `confirmAddVariant`: without a product and a variant nothing happens;
   * otherwise the popup's selection is added to the cart and the popup closes.
   */
  method ConfirmAddVariant(store: CartStore, popup: VariantPopup) returns (next: VariantPopup)
    requires store.Valid()
    modifies store
    ensures store.Valid()
    ensures popup.product.None? || popup.variant.None? ==>
              store.State() == old(store.State()) && next == popup
    ensures popup.product.Some? && popup.variant.Some? ==>
              && store.State() == old(store.State()).AddItem(popup.product.value.id, Some(popup.variant.value.id), popup.qty)
              && next == ClosedPopup
    ensures old(store.State().AllPositive()) && popup.qty >= 1 ==> store.State().AllPositive()
  {
    if popup.product.None? || popup.variant.None? {
      return popup;
    }
    AddItemKeepsInvariants(store.State(), popup.product.value.id, Some(popup.variant.value.id), popup.qty);
    store.AddItem(popup.product.value.id, Some(popup.variant.value.id), popup.qty);
    next := ClosedPopup;
  }
}
