/**
 * The cart store (src/store/cartSlice.ts): a record from a derived line key
 * to the last payload added under it, changed by the four reducers addItem,
 * updateQty, removeItem and clearCart.
 *
 * The pure transitions are member functions of `CartState`; `CartStore` is
 * the mutable slice whose methods perform them in place. Besides the map the
 * state keeps the order in which keys were first inserted, because
 * `Object.entries`/`Object.values`, through which the pages read the cart,
 * list string keys in that order (the keys always contain `_`, so none of
 * them is an array index, which JavaScript would list first).
 */
module CartSlice {
  import opened Wrappers
  import opened Decimal

  /** A stored line: the payload of the latest addItem at its key, with the summed qty. */
  datatype CartItem = CartItem(productId: int, variantId: Option<string>, qty: int)

  /** `variantId || "base"`: an absent or empty variant id selects the base line. */
  function VariantPart(variantId: Option<string>): string {
    if variantId.Some? && variantId.value != "" then variantId.value else "base"
  }

  /**
   * The two parts of a line key. The store is keyed by these pairs; the
   * string the source uses as key is `KeyString`, which is injective
   * (`KeyStringInjective`), so both keyings give the same lines.
   */
  datatype LineKey = LineKey(productId: int, variant: string)

  /** The key of a payload: its product id and `variantId || "base"`. */
  function KeyOf(productId: int, variantId: Option<string>): (r: LineKey)
    ensures r.productId == productId
    ensures r.variant == "base" <==> variantId.None? || variantId.value == "" || variantId.value == "base"
    ensures r.variant != "base" ==> variantId == Some(r.variant)
  {
    LineKey(productId, VariantPart(variantId))
  }

  /** The source's key string `${productId}_${variantId || "base"}`. */
  function KeyString(key: LineKey): (r: string)
    ensures |r| > |key.variant| + 1
    ensures r[|r| - |key.variant| - 1] == '_' && r[|r| - |key.variant|..] == key.variant
  {
    IntToString(key.productId) + "_" + key.variant
  }

  // ---------------------------------------------------------------------------
  // The key is injective in (productId, variantId || "base")
  // ---------------------------------------------------------------------------

  function FirstIndexOf(s: string, c: char): (r: Option<nat>)
    ensures r.Some? ==> r.value < |s|
  {
    if s == [] then None
    else if s[0] == c then Some(0)
    else match FirstIndexOf(s[1..], c) {
      case None => None
      case Some(i) => Some(i + 1)
    }
  }

  /** Splits a key at its first `_`: the product id before it, the variant part after it. */
  function SplitKey(key: string): Option<(int, string)> {
    match FirstIndexOf(key, '_') {
      case None => None
      case Some(i) =>
        match ParseInt(key[..i]) {
          case None => None
          case Some(productId) => Some((productId, key[i + 1..]))
        }
    }
  }

  lemma {:induction false} FirstIndexOfAfter(a: string, b: string, c: char)
    requires c !in a
    ensures FirstIndexOf(a + [c] + b, c) == Some(|a|)
  {
    if a != [] {
      assert (a + [c] + b)[1..] == a[1..] + [c] + b;
      FirstIndexOfAfter(a[1..], b, c);
    }
  }

  /** A rendered product id never contains `_`, so a key string splits back into its parts. */
  lemma SplitKeyString(key: LineKey)
    ensures SplitKey(KeyString(key)) == Some((key.productId, key.variant))
  {
    var digits := IntToString(key.productId);
    var str := KeyString(key);
    IntToStringChars(key.productId);
    assert '_' !in digits;
    assert str == digits + ['_'] + key.variant;
    FirstIndexOfAfter(digits, key.variant, '_');
    assert str[..|digits|] == digits;
    assert str[|digits| + 1..] == key.variant;
    ParseIntToString(key.productId);
  }

  /** Distinct keys render to distinct strings. */
  lemma KeyStringInjective(k1: LineKey, k2: LineKey)
    ensures KeyString(k1) == KeyString(k2) <==> k1 == k2
  {
    SplitKeyString(k1);
    SplitKeyString(k2);
  }

  /** Two payloads share a line exactly when their product ids and `variantId || "base"` agree. */
  lemma SameLineIff(p1: int, v1: Option<string>, p2: int, v2: Option<string>)
    ensures KeyString(KeyOf(p1, v1)) == KeyString(KeyOf(p2, v2))
            <==> p1 == p2 && VariantPart(v1) == VariantPart(v2)
  {
    KeyStringInjective(KeyOf(p1, v1), KeyOf(p2, v2));
  }

  // ---------------------------------------------------------------------------
  // Key order
  // ---------------------------------------------------------------------------

  predicate Distinct(s: seq<LineKey>) {
    forall i, j :: 0 <= i < j < |s| ==> s[i] != s[j]
  }

  /** The insertion order once `delete` has removed `k`. */
  function Without(s: seq<LineKey>, k: LineKey): (r: seq<LineKey>)
    ensures forall x :: x in r <==> x in s && x != k
    ensures k !in s ==> r == s
  {
    if s == [] then []
    else if s[0] == k then Without(s[1..], k)
    else [s[0]] + Without(s[1..], k)
  }

  lemma {:induction false} WithoutKeepsDistinct(s: seq<LineKey>, k: LineKey)
    requires Distinct(s)
    ensures Distinct(Without(s, k))
  {
    if s != [] {
      assert Distinct(s[1..]) by {
        forall i, j | 0 <= i < j < |s[1..]| ensures s[1..][i] != s[1..][j] {
          assert s[1..][i] == s[i + 1] && s[1..][j] == s[j + 1];
        }
      }
      WithoutKeepsDistinct(s[1..], k);
      if s[0] != k {
        var rest := Without(s[1..], k);
        assert s[0] !in s[1..] by {
          forall j | 0 <= j < |s[1..]| ensures s[1..][j] != s[0] {
            assert s[1..][j] == s[j + 1];
          }
        }
        forall i, j | 0 <= i < j < |[s[0]] + rest| ensures ([s[0]] + rest)[i] != ([s[0]] + rest)[j] {
          assert ([s[0]] + rest)[j] == rest[j - 1];
          if i > 0 {
            assert ([s[0]] + rest)[i] == rest[i - 1];
          }
        }
      }
    }
  }

  /** The tail of a duplicate-free order is duplicate-free and does not hold the head. */
  lemma DistinctTail(s: seq<LineKey>)
    requires Distinct(s) && s != []
    ensures Distinct(s[1..]) && s[0] !in s[1..]
  {
    var tail := s[1..];
    forall a, b | 0 <= a < b < |tail| ensures tail[a] != tail[b] {
      assert tail[a] == s[a + 1] && tail[b] == s[b + 1];
    }
    forall j | 0 <= j < |tail| ensures tail[j] != s[0] {
      assert tail[j] == s[j + 1];
    }
  }

  /** Deleting the key at position i of a duplicate-free order closes the gap and keeps every other key in place. */
  lemma {:induction false} WithoutAt(s: seq<LineKey>, i: nat)
    requires Distinct(s) && i < |s|
    ensures Without(s, s[i]) == s[..i] + s[i + 1..]
    decreases |s|
  {
    var tail := s[1..];
    DistinctTail(s);
    if i == 0 {
      assert Without(s, s[0]) == Without(tail, s[0]) == tail;
      assert s[..0] + s[1..] == tail;
    } else {
      var k := s[i];
      assert s[0] != k;
      assert tail[i - 1] == k;
      WithoutAt(tail, i - 1);
      assert Without(s, k) == [s[0]] + Without(tail, k);
      GapAfterHead(s, i);
    }
  }

  /** Cutting out position i > 0 is keeping the head and cutting position i - 1 out of the tail. */
  lemma GapAfterHead(s: seq<LineKey>, i: nat)
    requires 0 < i < |s|
    ensures s[..i] + s[i + 1..] == [s[0]] + (s[1..][..i - 1] + s[1..][i..])
  {
    assert s[..i] == [s[0]] + s[1..][..i - 1];
    assert s[i + 1..] == s[1..][i..];
  }

  // ---------------------------------------------------------------------------
  // The state and its transitions
  // ---------------------------------------------------------------------------

  datatype CartState = CartState(items: map<LineKey, CartItem>, order: seq<LineKey>) {

    /** Every line sits under the key derived from its own payload, and the order lists each key once. */
    ghost predicate WellFormed() {
      && Distinct(order)
      && (forall k :: k in items <==> k in order)
      && (forall k :: k in items ==> KeyOf(items[k].productId, items[k].variantId) == k)
    }

    /** No line holds a quantity of zero or below. */
    ghost predicate AllPositive() {
      forall k :: k in items ==> items[k].qty > 0
    }

    function Line(k: LineKey): Option<CartItem> {
      if k in items then Some(items[k]) else None
    }

    /** `state.items[key]?.qty || 0`. */
    function QtyAt(k: LineKey): int {
      if k in items then items[k].qty else 0
    }

    /** addItem: merge the payload's qty into its line, creating the line if absent. */
    function AddItem(productId: int, variantId: Option<string>, qty: int): (r: CartState)
      ensures r.Line(KeyOf(productId, variantId))
              == Some(CartItem(productId, variantId, QtyAt(KeyOf(productId, variantId)) + qty))
      ensures forall k :: k != KeyOf(productId, variantId) ==> r.Line(k) == Line(k)
      ensures r.order == if KeyOf(productId, variantId) in items then order
                         else order + [KeyOf(productId, variantId)]
    {
      var key := KeyOf(productId, variantId);
      CartState(items[key := CartItem(productId, variantId, QtyAt(key) + qty)],
                if key in items then order else order + [key])
    }

    /** updateQty: shift the exact line by `delta`, deleting it once it is at zero or below. */
    function UpdateQty(productId: int, variantId: Option<string>, delta: int): (r: CartState)
      ensures KeyOf(productId, variantId) !in items ==> r == this
      ensures var key := KeyOf(productId, variantId);
              key in items ==>
                r.Line(key) == if items[key].qty + delta > 0
                               then Some(items[key].(qty := items[key].qty + delta))
                               else None
      ensures forall k :: k != KeyOf(productId, variantId) ==> r.Line(k) == Line(k)
      ensures var key := KeyOf(productId, variantId);
              key in items && items[key].qty + delta > 0 ==> r.order == order
      ensures var key := KeyOf(productId, variantId);
              key in items && items[key].qty + delta <= 0 ==> r.order == Without(order, key)
    {
      var key := KeyOf(productId, variantId);
      if key !in items then this
      else
        var item := items[key].(qty := items[key].qty + delta);
        if item.qty <= 0 then CartState(items - {key}, Without(order, key))
        else CartState(items[key := item], order)
    }

    /** removeItem: delete the exact line. */
    function RemoveItem(productId: int, variantId: Option<string>): (r: CartState)
      ensures r.Line(KeyOf(productId, variantId)) == None
      ensures forall k :: k != KeyOf(productId, variantId) ==> r.Line(k) == Line(k)
      ensures WellFormed() && KeyOf(productId, variantId) !in items ==> r == this
      ensures r.order == Without(order, KeyOf(productId, variantId))
    {
      var key := KeyOf(productId, variantId);
      CartState(items - {key}, Without(order, key))
    }

    /** clearCart: `state.items = {}`. */
    function ClearCart(): (r: CartState)
      ensures forall k :: r.Line(k) == None
      ensures r.order == []
      ensures r.WellFormed() && r.AllPositive()
    {
      CartState(map[], [])
    }

    /** `Object.entries(state.items)`: the lines in insertion order. */
    function Entries(): seq<(LineKey, CartItem)>
      requires WellFormed()
    {
      seq(|order|, i requires 0 <= i < |order| => (order[i], items[order[i]]))
    }

    /** `Object.values(state.items)`. */
    function Values(): seq<CartItem>
      requires WellFormed()
    {
      seq(|order|, i requires 0 <= i < |order| => items[order[i]])
    }
  }

  // ---------------------------------------------------------------------------
  // The transitions keep the invariants
  // ---------------------------------------------------------------------------

  lemma AddItemKeepsInvariants(s: CartState, productId: int, variantId: Option<string>, qty: int)
    requires s.WellFormed()
    ensures s.AddItem(productId, variantId, qty).WellFormed()
    ensures s.AllPositive() && qty > 0 ==> s.AddItem(productId, variantId, qty).AllPositive()
  {
    var key := KeyOf(productId, variantId);
    var r := s.AddItem(productId, variantId, qty);
    if key !in s.items {
      forall i, j | 0 <= i < j < |r.order| ensures r.order[i] != r.order[j] {
        if j == |s.order| {
          assert r.order[i] == s.order[i];
          assert s.order[i] in s.items;
        }
      }
    }
  }

  lemma UpdateQtyKeepsInvariants(s: CartState, productId: int, variantId: Option<string>, delta: int)
    requires s.WellFormed()
    ensures s.UpdateQty(productId, variantId, delta).WellFormed()
    ensures s.AllPositive() ==> s.UpdateQty(productId, variantId, delta).AllPositive()
  {
    WithoutKeepsDistinct(s.order, KeyOf(productId, variantId));
  }

  lemma RemoveItemKeepsInvariants(s: CartState, productId: int, variantId: Option<string>)
    requires s.WellFormed()
    ensures s.RemoveItem(productId, variantId).WellFormed()
    ensures s.AllPositive() ==> s.RemoveItem(productId, variantId).AllPositive()
  {
    WithoutKeepsDistinct(s.order, KeyOf(productId, variantId));
  }

  const InitialState := CartState(map[], [])

  // ---------------------------------------------------------------------------
  // The reducer over a stream of actions
  // ---------------------------------------------------------------------------

  datatype Action =
    | AddItemAction(productId: int, variantId: Option<string>, qty: int)
    | UpdateQtyAction(productId: int, variantId: Option<string>, delta: int)
    | RemoveItemAction(productId: int, variantId: Option<string>)
    | ClearCartAction

  function Reduce(s: CartState, a: Action): CartState {
    match a
    case AddItemAction(p, v, q) => s.AddItem(p, v, q)
    case UpdateQtyAction(p, v, d) => s.UpdateQty(p, v, d)
    case RemoveItemAction(p, v) => s.RemoveItem(p, v)
    case ClearCartAction => s.ClearCart()
  }

  function ReduceAll(s: CartState, actions: seq<Action>): CartState
    decreases |actions|
  {
    if actions == [] then s else ReduceAll(Reduce(s, actions[0]), actions[1..])
  }

  /** What every dispatch site in the pages does: add with a quantity of at least one. */
  predicate AddsArePositive(actions: seq<Action>) {
    forall i :: 0 <= i < |actions| && actions[i].AddItemAction? ==> actions[i].qty > 0
  }

  /** From the initial state, any stream of actions keeps one well-keyed line per key, each with qty > 0. */
  lemma {:induction false} ReduceAllKeepsInvariants(s: CartState, actions: seq<Action>)
    requires s.WellFormed() && s.AllPositive()
    requires AddsArePositive(actions)
    ensures ReduceAll(s, actions).WellFormed() && ReduceAll(s, actions).AllPositive()
    decreases |actions|
  {
    if actions != [] {
      assert AddsArePositive(actions[1..]) by {
        forall i | 0 <= i < |actions[1..]| && actions[1..][i].AddItemAction?
          ensures actions[1..][i].qty > 0
        {
          assert actions[1..][i] == actions[i + 1];
        }
      }
      match actions[0] {
        case AddItemAction(p, v, q) => AddItemKeepsInvariants(s, p, v, q);
        case UpdateQtyAction(p, v, d) => UpdateQtyKeepsInvariants(s, p, v, d);
        case RemoveItemAction(p, v) => RemoveItemKeepsInvariants(s, p, v);
        case ClearCartAction =>
      }
      ReduceAllKeepsInvariants(Reduce(s, actions[0]), actions[1..]);
    }
  }

  lemma InitialStateIsClean(actions: seq<Action>)
    requires AddsArePositive(actions)
    ensures ReduceAll(InitialState, actions).WellFormed()
    ensures ReduceAll(InitialState, actions).AllPositive()
  {
    ReduceAllKeepsInvariants(InitialState, actions);
  }

  // ---------------------------------------------------------------------------
  // Properties of the transitions
  // ---------------------------------------------------------------------------

  /** Distinct lines of a well-formed cart differ in product id or in `variantId || "base"`. */
  lemma DistinctLinesDistinctIdentity(s: CartState, k1: LineKey, k2: LineKey)
    requires s.WellFormed() && k1 in s.items && k2 in s.items && k1 != k2
    ensures s.items[k1].productId != s.items[k2].productId
            || VariantPart(s.items[k1].variantId) != VariantPart(s.items[k2].variantId)
  {
  }

  /** Two adds of the same selection leave one line holding the summed quantity. */
  lemma AddTwiceMerges(s: CartState, productId: int, variantId: Option<string>, q1: int, q2: int)
    ensures s.AddItem(productId, variantId, q1).AddItem(productId, variantId, q2)
            == s.AddItem(productId, variantId, q1 + q2)
  {
  }

  /** removeItem is idempotent. */
  lemma RemoveTwiceIsRemoveOnce(s: CartState, productId: int, variantId: Option<string>)
    requires s.WellFormed()
    ensures s.RemoveItem(productId, variantId).RemoveItem(productId, variantId)
            == s.RemoveItem(productId, variantId)
  {
  }

  /** A shift by `delta` and back by `-delta` restores a line that stays positive in between. */
  lemma UpdateThenInverseRestores(s: CartState, productId: int, variantId: Option<string>, delta: int)
    requires s.WellFormed()
    requires KeyOf(productId, variantId) in s.items
    requires s.items[KeyOf(productId, variantId)].qty > 0
    requires s.items[KeyOf(productId, variantId)].qty + delta > 0
    ensures s.UpdateQty(productId, variantId, delta).UpdateQty(productId, variantId, -delta) == s
  {
    var key := KeyOf(productId, variantId);
    var t := s.UpdateQty(productId, variantId, delta);
    assert t.items == s.items[key := s.items[key].(qty := s.items[key].qty + delta)];
    assert t.UpdateQty(productId, variantId, -delta).items == s.items;
  }

  /** A shift that takes a line to zero or below deletes it; shifting back then finds nothing. */
  lemma UpdateAcrossZeroRemoves(s: CartState, productId: int, variantId: Option<string>, delta: int)
    requires s.WellFormed()
    requires KeyOf(productId, variantId) in s.items
    requires s.items[KeyOf(productId, variantId)].qty + delta <= 0
    ensures s.UpdateQty(productId, variantId, delta) == s.RemoveItem(productId, variantId)
    ensures s.UpdateQty(productId, variantId, delta).UpdateQty(productId, variantId, -delta)
            == s.RemoveItem(productId, variantId)
  {
  }

  /** After clearCart nothing is left, whatever came before. */
  lemma ClearLeavesNoEntries(s: CartState)
    ensures s.ClearCart().Entries() == []
    ensures s.ClearCart().Values() == []
  {
  }

  // ---------------------------------------------------------------------------
  // The slice, updated in place
  // ---------------------------------------------------------------------------

  class CartStore {
    var items: map<LineKey, CartItem>
    /** The order in which the keys of `items` were inserted. */
    var order: seq<LineKey>

    function State(): CartState
      reads this
    {
      CartState(items, order)
    }

    ghost predicate Valid()
      reads this
    {
      State().WellFormed()
    }

    constructor ()
      ensures Valid() && State() == InitialState
    {
      items := map[];
      order := [];
    }

    method AddItem(productId: int, variantId: Option<string>, qty: int)
      requires Valid()
      modifies this
      ensures Valid()
      ensures State() == old(State()).AddItem(productId, variantId, qty)
    {
      ghost var next := State().AddItem(productId, variantId, qty);
      assert next.WellFormed() by {
        AddItemKeepsInvariants(State(), productId, variantId, qty);
      }
      var key := KeyOf(productId, variantId);
      var previous := if key in items then items[key].qty else 0;
      if key !in items {
        order := order + [key];
      }
      items := items[key := CartItem(productId, variantId, previous + qty)];
      assert items == next.items by {
        assert previous == old(State()).QtyAt(key);
      }
      assert order == next.order;
    }

    method UpdateQty(productId: int, variantId: Option<string>, delta: int)
      requires Valid()
      modifies this
      ensures Valid()
      ensures State() == old(State()).UpdateQty(productId, variantId, delta)
    {
      ghost var next := State().UpdateQty(productId, variantId, delta);
      assert next.WellFormed() by {
        UpdateQtyKeepsInvariants(State(), productId, variantId, delta);
      }
      var key := KeyOf(productId, variantId);
      if key !in items {
        return;
      }
      var item := items[key].(qty := items[key].qty + delta);
      if item.qty <= 0 {
        assert next == CartState(items - {key}, Without(order, key));
        items := items - {key};
        order := Without(order, key);
      } else {
        assert next == CartState(items[key := item], order);
        items := items[key := item];
      }
    }

    method RemoveItem(productId: int, variantId: Option<string>)
      requires Valid()
      modifies this
      ensures Valid()
      ensures State() == old(State()).RemoveItem(productId, variantId)
    {
      ghost var next := State().RemoveItem(productId, variantId);
      assert next.WellFormed() by {
        RemoveItemKeepsInvariants(State(), productId, variantId);
      }
      var key := KeyOf(productId, variantId);
      items := items - {key};
      order := Without(order, key);
      assert State() == next;
    }

    method ClearCart()
      requires Valid()
      modifies this
      ensures Valid()
      ensures State() == old(State()).ClearCart()
    {
      items := map[];
      order := [];
    }
  }
}
