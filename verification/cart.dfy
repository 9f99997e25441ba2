/**
 * The cart store of the storefront: `cartReducer`, a pure function from a state and an
 * action to the next state, and `CartProvider`, which holds the state cell, hydrates it
 * from the saved item list and dispatches the four actions.
 * Prices are integer cents; neither prices nor quantities are constrained in sign,
 * because the store itself checks neither.
 */
module Cart {
  import opened Wrappers

  /** A cart line: `CartItem`. */
  datatype Item = Item(id: string, name: string, price: int, description: string, quantity: int, image: string)

  /** What `addToCart` receives: a cart line without its quantity. */
  datatype Product = Product(id: string, name: string, price: int, description: string, image: string)

  datatype State = State(items: seq<Item>, total: int)

  datatype Action =
    | AddItem(payload: Item)
    | RemoveItem(id: string)
    | UpdateQuantity(id: string, quantity: int)
    | ClearCart

  /** `initialState` */
  const Initial: State := State([], 0)

  function WithQuantity(p: Product, quantity: int): Item {
    Item(p.id, p.name, p.price, p.description, quantity, p.image)
  }

  /** What one line contributes to the total. */
  function Line(x: Item): int {
    x.price * x.quantity
  }

  /** The sum of price times quantity over the lines: what `total` is meant to track. */
  function Sum(items: seq<Item>): int {
    if items == [] then 0 else Sum(items[..|items| - 1]) + Line(items[|items| - 1])
  }

  predicate HasId(items: seq<Item>, id: string) {
    exists i :: 0 <= i < |items| && items[i].id == id
  }

  predicate UniqueIds(items: seq<Item>) {
    forall i, j :: 0 <= i < j < |items| ==> items[i].id != items[j].id
  }

  /** The invariant the reducer is meant to keep: one line per id, and a total that is the sum. */
  predicate Valid(s: State) {
    UniqueIds(s.items) && s.total == Sum(s.items)
  }

  /** The position of the first line with the id, or -1 when there is none. */
  function IndexOf(items: seq<Item>, id: string): (k: int)
    ensures -1 <= k < |items|
    ensures k == -1 <==> !HasId(items, id)
    ensures 0 <= k ==> items[k].id == id && forall j :: 0 <= j < k ==> items[j].id != id
  {
    if items == [] then -1
    else
      var k := IndexOf(items[..|items| - 1], id);
      if k >= 0 then k else if items[|items| - 1].id == id then |items| - 1 else -1
  }

  /** `items.find(item => item.id === id)` */
  function Find(items: seq<Item>, id: string): Option<Item> {
    var k := IndexOf(items, id);
    if k < 0 then None else Some(items[k])
  }

  /** The `map` of ADD_ITEM: every line with the id gains `delta` units. */
  function AddQuantity(items: seq<Item>, id: string, delta: int): seq<Item> {
    seq(|items|, i requires 0 <= i < |items| =>
      if items[i].id == id then items[i].(quantity := items[i].quantity + delta) else items[i])
  }

  /** The `map` of UPDATE_QUANTITY: every line with the id gets quantity `q`. */
  function SetQuantity(items: seq<Item>, id: string, q: int): seq<Item> {
    seq(|items|, i requires 0 <= i < |items| =>
      if items[i].id == id then items[i].(quantity := q) else items[i])
  }

  /** The `filter` of REMOVE_ITEM: the lines whose id differs, in their order. */
  function Without(items: seq<Item>, id: string): seq<Item> {
    if items == [] then []
    else
      var last := items[|items| - 1];
      Without(items[..|items| - 1], id) + (if last.id == id then [] else [last])
  }

  /** `cartReducer` */
  function Reduce(s: State, a: Action): State {
    match a
    case AddItem(p) =>
      if Find(s.items, p.id).Some? then
        State(AddQuantity(s.items, p.id, p.quantity), s.total + p.price * p.quantity)
      else
        State(s.items + [p], s.total + p.price * p.quantity)
    case RemoveItem(id) =>
      var found := Find(s.items, id);
      State(Without(s.items, id), if found.Some? then s.total - Line(found.value) else s.total)
    case UpdateQuantity(id, q) =>
      var found := Find(s.items, id);
      if found.None? then s
      else State(SetQuantity(s.items, id, q), s.total + found.value.price * (q - found.value.quantity))
    case ClearCart => Initial
  }

  /** The mount effect's `forEach`: every saved line dispatched as ADD_ITEM, in order. */
  function Replay(s: State, saved: seq<Item>): State {
    if saved == [] then s else Reduce(Replay(s, saved[..|saved| - 1]), AddItem(saved[|saved| - 1]))
  }

  /** `n` successive `addToCart(p)` calls. */
  function AddRepeatedly(s: State, p: Product, n: nat): State {
    if n == 0 then s else Reduce(AddRepeatedly(s, p, n - 1), AddItem(WithQuantity(p, 1)))
  }

  /**
   * The condition under which ADD_ITEM keeps the total honest: when the id is already in
   * the cart, the payload carries the stored line's price.
   */
  predicate PriceConsistent(s: State, a: Action) {
    a.AddItem? && HasId(s.items, a.payload.id) ==>
      s.items[IndexOf(s.items, a.payload.id)].price == a.payload.price
  }

  // ---------------------------------------------------------------------------------------
  // Lemmas about the sums and the list operations

  /** Changing one line changes the sum by the difference of that line's contribution. */
  lemma {:induction false} SumChangeAt(a: seq<Item>, b: seq<Item>, k: int)
    requires |a| == |b| && 0 <= k < |a|
    requires forall i :: 0 <= i < |a| && i != k ==> a[i] == b[i]
    ensures Sum(b) == Sum(a) - Line(a[k]) + Line(b[k])
  {
    var n := |a|;
    if k == n - 1 {
      assert a[..n - 1] == b[..n - 1];
    } else {
      SumChangeAt(a[..n - 1], b[..n - 1], k);
    }
  }

  /** The filter keeps exactly the lines whose id differs. */
  lemma {:induction false} WithoutMembers(items: seq<Item>, id: string)
    ensures forall x :: x in Without(items, id) <==> x in items && x.id != id
  {
    if items != [] {
      var init := items[..|items| - 1];
      WithoutMembers(init, id);
      assert items == init + [items[|items| - 1]];
    }
  }

  /** A filter that matches nothing keeps the list as it is. */
  lemma {:induction false} WithoutAbsent(items: seq<Item>, id: string)
    requires !HasId(items, id)
    ensures Without(items, id) == items
  {
    if items != [] {
      var init := items[..|items| - 1];
      var last := items[|items| - 1];
      assert !HasId(init, id) by {
        forall i | 0 <= i < |init| ensures init[i].id != id { assert init[i] == items[i]; }
      }
      WithoutAbsent(init, id);
      assert last.id != id;
      calc {
        Without(items, id);
        Without(init, id) + [last];
        init + [last];
        { assert items == init + [last]; }
        items;
      }
    }
  }

  /** The filter distributes over concatenation, so it keeps the relative order of the rest. */
  lemma {:induction false} WithoutAppend(a: seq<Item>, b: seq<Item>, id: string)
    ensures Without(a + b, id) == Without(a, id) + Without(b, id)
  {
    if b != [] {
      var init := b[..|b| - 1];
      WithoutAppend(a, init, id);
      assert (a + b)[..|a + b| - 1] == a + init;
    } else {
      assert a + b == a;
    }
  }

  /** Filtering keeps the ids unique. */
  lemma {:induction false} WithoutUnique(items: seq<Item>, id: string)
    requires UniqueIds(items)
    ensures UniqueIds(Without(items, id))
  {
    if items != [] {
      var init := items[..|items| - 1];
      var last := items[|items| - 1];
      WithoutUnique(init, id);
      WithoutMembers(init, id);
      var w := Without(init, id);
      forall x | x in w ensures x.id != last.id {
        var i :| 0 <= i < |init| && init[i] == x;
        assert items[i] == x;
      }
    }
  }

  /** With unique ids, removing an id present removes exactly the contribution of its line. */
  lemma {:induction false} SumWithout(items: seq<Item>, id: string)
    requires UniqueIds(items) && HasId(items, id)
    ensures Sum(Without(items, id)) == Sum(items) - Line(items[IndexOf(items, id)])
  {
    var n := |items|;
    var init := items[..n - 1];
    var last := items[n - 1];
    if last.id == id {
      assert !HasId(init, id) by {
        forall i | 0 <= i < |init| ensures init[i].id != id { assert init[i] == items[i]; }
      }
      WithoutAbsent(init, id);
      assert IndexOf(items, id) == n - 1;
      assert Without(items, id) == Without(init, id) + [];
      assert Without(items, id) == init;
    } else {
      assert HasId(init, id) by {
        var i :| 0 <= i < n && items[i].id == id;
        assert init[i] == items[i];
      }
      assert UniqueIds(init) by {
        forall i, j | 0 <= i < j < |init| ensures init[i].id != init[j].id {
          assert init[i] == items[i] && init[j] == items[j];
        }
      }
      SumWithout(init, id);
      var w := Without(init, id);
      assert Without(items, id) == w + [last];
      assert (w + [last])[..|w|] == w;
      assert IndexOf(items, id) == IndexOf(init, id);
    }
  }

  /** Ids are never changed by the two `map`s, so uniqueness survives them. */
  lemma SameIdsUnique(a: seq<Item>, b: seq<Item>)
    requires |a| == |b| && UniqueIds(a)
    requires forall i :: 0 <= i < |a| ==> b[i].id == a[i].id
    ensures UniqueIds(b)
  {
  }

  /** a·q = b·q exactly when the factors agree or q is zero. */
  lemma MulCancel(a: int, b: int, q: int)
    ensures a * q == b * q <==> a == b || q == 0
  {
    assert a * q - b * q == (a - b) * q;
    if a != b && q != 0 {
      assert (a - b) * q != 0;
    }
  }

  // ---------------------------------------------------------------------------------------
  // What each action does

  /**
   * ADD_ITEM: a new id is appended at the end; an id already present keeps the list's
   * length and order and only that line's quantity grows. Either way the total grows by
   * the PAYLOAD's price times the payload's quantity.
   */
  lemma AddItemEffect(s: State, p: Item)
    requires UniqueIds(s.items)
    ensures var r := Reduce(s, AddItem(p));
      && r.total == s.total + p.price * p.quantity
      && (!HasId(s.items, p.id) ==> r.items == s.items + [p])
      && (HasId(s.items, p.id) ==>
            var k := IndexOf(s.items, p.id);
            && |r.items| == |s.items|
            && r.items[k] == s.items[k].(quantity := s.items[k].quantity + p.quantity)
            && forall i :: 0 <= i < |s.items| && i != k ==> r.items[i] == s.items[i])
  {
  }

  /**
   * REMOVE_ITEM drops every line with the id and lowers the total by the first such line's
   * contribution; an absent id leaves the state as it was.
   */
  lemma RemoveItemEffect(s: State, id: string)
    ensures var r := Reduce(s, RemoveItem(id));
      && (forall x :: x in r.items <==> x in s.items && x.id != id)
      && !HasId(r.items, id)
      && (HasId(s.items, id) ==> r.total == s.total - Line(s.items[IndexOf(s.items, id)]))
      && (!HasId(s.items, id) ==> r == s)
  {
    WithoutMembers(s.items, id);
    if !HasId(s.items, id) {
      WithoutAbsent(s.items, id);
    }
  }

  /**
   * UPDATE_QUANTITY on an absent id returns the state itself. Otherwise only the line with
   * the id changes, to quantity q, whatever q is (zero and negative included), and the total
   * moves by price times the change.
   */
  lemma UpdateQuantityEffect(s: State, id: string, q: int)
    requires UniqueIds(s.items)
    ensures var r := Reduce(s, UpdateQuantity(id, q));
      && (!HasId(s.items, id) ==> r == s)
      && (HasId(s.items, id) ==>
            var k := IndexOf(s.items, id);
            && |r.items| == |s.items|
            && r.items[k] == s.items[k].(quantity := q)
            && (forall i :: 0 <= i < |s.items| && i != k ==> r.items[i] == s.items[i])
            && r.total == s.total + s.items[k].price * (q - s.items[k].quantity))
  {
  }

  /** UPDATE_QUANTITY keeps the invariant, whatever the new quantity. */
  lemma UpdatePreservesValid(s: State, id: string, q: int)
    requires Valid(s)
    ensures Valid(Reduce(s, UpdateQuantity(id, q)))
  {
    UpdateQuantityEffect(s, id, q);
    if HasId(s.items, id) {
      var k := IndexOf(s.items, id);
      var x := s.items[k];
      var r := Reduce(s, UpdateQuantity(id, q));
      SumChangeAt(s.items, r.items, k);
      SameIdsUnique(s.items, r.items);
      assert Line(r.items[k]) - Line(x) == x.price * (q - x.quantity) by {
        assert Line(r.items[k]) == x.price * q && Line(x) == x.price * x.quantity;
      }
    }
  }

  /** ADD_ITEM keeps the invariant when an id already present comes with its stored price. */
  lemma AddPreservesValid(s: State, p: Item)
    requires Valid(s) && PriceConsistent(s, AddItem(p))
    ensures Valid(Reduce(s, AddItem(p)))
  {
    if HasId(s.items, p.id) {
      var k := IndexOf(s.items, p.id);
      var r := AddQuantity(s.items, p.id, p.quantity);
      SumChangeAt(s.items, r, k);
      SameIdsUnique(s.items, r);
      assert Line(r[k]) - Line(s.items[k]) == p.price * p.quantity;
    } else {
      var r := s.items + [p];
      assert r[..|r| - 1] == s.items;
    }
  }

  /** REMOVE_ITEM keeps the invariant. */
  lemma RemovePreservesValid(s: State, id: string)
    requires Valid(s)
    ensures Valid(Reduce(s, RemoveItem(id)))
  {
    WithoutUnique(s.items, id);
    if HasId(s.items, id) {
      SumWithout(s.items, id);
    } else {
      WithoutAbsent(s.items, id);
    }
  }

  /**
   * Every action keeps the ids unique and the total equal to the sum, provided an ADD_ITEM
   * for an id already present carries the stored price.
   */
  lemma ReducePreservesValid(s: State, a: Action)
    requires Valid(s) && PriceConsistent(s, a)
    ensures Valid(Reduce(s, a))
  {
    match a
    case AddItem(p) => AddPreservesValid(s, p);
    case RemoveItem(id) => RemovePreservesValid(s, id);
    case UpdateQuantity(id, q) => UpdatePreservesValid(s, id, q);
    case ClearCart =>
  }

  /**
   * Every action keeps the ids unique, whatever the payload's price: ADD_ITEM appends only
   * an id that is absent, and the other actions never change an id.
   */
  lemma ReducePreservesUnique(s: State, a: Action)
    requires UniqueIds(s.items)
    ensures UniqueIds(Reduce(s, a).items)
  {
    match a
    case AddItem(p) =>
      if HasId(s.items, p.id) {
        SameIdsUnique(s.items, AddQuantity(s.items, p.id, p.quantity));
      } else {
        var r := s.items + [p];
        forall i, j | 0 <= i < j < |r| ensures r[i].id != r[j].id {
          if j == |s.items| {
            assert r[i] == s.items[i];
          } else {
            assert r[i] == s.items[i] && r[j] == s.items[j];
          }
        }
      }
    case RemoveItem(id) => WithoutUnique(s.items, id);
    case UpdateQuantity(id, q) =>
      if HasId(s.items, id) {
        SameIdsUnique(s.items, SetQuantity(s.items, id, q));
      }
    case ClearCart =>
  }

  /** Hydration keeps a cart's ids unique, even when the saved lines repeat an id. */
  lemma {:induction false} ReplayPreservesUnique(s: State, saved: seq<Item>)
    requires UniqueIds(s.items)
    ensures UniqueIds(Replay(s, saved).items)
  {
    if saved != [] {
      ReplayPreservesUnique(s, saved[..|saved| - 1]);
      ReducePreservesUnique(Replay(s, saved[..|saved| - 1]), AddItem(saved[|saved| - 1]));
    }
  }

  /**
   * The sharp edge of ADD_ITEM: on a valid cart, adding to a line that is already there
   * keeps the total equal to the sum exactly when the payload's price is the stored one
   * (or the payload's quantity is zero).
   */
  lemma AddExistingKeepsTotalIff(s: State, p: Item)
    requires Valid(s) && HasId(s.items, p.id)
    ensures Valid(Reduce(s, AddItem(p))) <==>
      s.items[IndexOf(s.items, p.id)].price == p.price || p.quantity == 0
  {
    var k := IndexOf(s.items, p.id);
    var r := AddQuantity(s.items, p.id, p.quantity);
    SumChangeAt(s.items, r, k);
    SameIdsUnique(s.items, r);
    assert Line(r[k]) - Line(s.items[k]) == s.items[k].price * p.quantity;
    MulCancel(s.items[k].price, p.price, p.quantity);
  }

  /** `addToCart` always adds one unit: n calls on a product not yet in the cart give one line of quantity n. */
  lemma {:induction false} RepeatedAddToCart(s: State, p: Product, n: nat)
    requires !HasId(s.items, p.id) && n >= 1
    ensures AddRepeatedly(s, p, n) == State(s.items + [WithQuantity(p, n)], s.total + n * p.price)
  {
    if n > 1 {
      RepeatedAddToCart(s, p, n - 1);
      var prev := s.items + [WithQuantity(p, n - 1)];
      var k := |s.items|;
      assert prev[k].id == p.id;
      var r := AddQuantity(prev, p.id, 1);
      forall i | 0 <= i < |prev| ensures r[i] == (s.items + [WithQuantity(p, n)])[i] {
        if i < k {
          assert prev[i] == s.items[i];
        }
      }
      assert r == s.items + [WithQuantity(p, n)];
      assert (n - 1) * p.price + p.price * 1 == n * p.price;
    }
  }

  /** Hydration from the initial state reproduces a saved list with unique ids, in order, with its sum as total. */
  lemma {:induction false} HydrateFromInitial(saved: seq<Item>)
    requires UniqueIds(saved)
    ensures Replay(Initial, saved) == State(saved, Sum(saved))
  {
    if saved != [] {
      var init := saved[..|saved| - 1];
      var last := saved[|saved| - 1];
      HydrateFromInitial(init);
      assert !HasId(init, last.id) by {
        forall i | 0 <= i < |init| ensures init[i].id != last.id { assert init[i] == saved[i]; }
      }
      assert init + [last] == saved;
    }
  }

  // ---------------------------------------------------------------------------------------
  // The provider

  /** `CartProvider`: the reducer's state cell and the actions the context exposes. */
  class CartProvider {
    var state: State

    /** `useReducer(cartReducer, initialState)` */
    constructor()
      ensures state == Initial
    {
      state := Initial;
    }

    /** `dispatch` */
    method Dispatch(a: Action)
      modifies this
      ensures state == Reduce(old(state), a)
      ensures UniqueIds(old(state).items) ==> UniqueIds(state.items)
      ensures Valid(old(state)) && PriceConsistent(old(state), a) ==> Valid(state)
    {
      if UniqueIds(state.items) {
        ReducePreservesUnique(state, a);
      }
      if Valid(state) && PriceConsistent(state, a) {
        ReducePreservesValid(state, a);
      }
      state := Reduce(state, a);
    }

    /** `addToCart`: always one unit. */
    method AddToCart(p: Product)
      modifies this
      ensures state == Reduce(old(state), AddItem(WithQuantity(p, 1)))
      ensures old(state.total) + p.price == state.total
    {
      Dispatch(AddItem(WithQuantity(p, 1)));
    }

    /** `removeFromCart` */
    method RemoveFromCart(id: string)
      modifies this
      ensures state == Reduce(old(state), RemoveItem(id))
      ensures !HasId(state.items, id)
    {
      RemoveItemEffect(state, id);
      Dispatch(RemoveItem(id));
    }

    /** `updateQuantity` */
    method UpdateQuantity(id: string, quantity: int)
      modifies this
      ensures state == Reduce(old(state), Action.UpdateQuantity(id, quantity))
      ensures Valid(old(state)) ==> Valid(state)
    {
      Dispatch(Action.UpdateQuantity(id, quantity));
    }

    /** `clearCart` */
    method ClearCart()
      modifies this
      ensures state == Initial
    {
      Dispatch(Action.ClearCart);
    }

    /** The mount effect: every saved line is dispatched as ADD_ITEM, in order; the saved total is not read. */
    method Hydrate(saved: seq<Item>)
      modifies this
      ensures state == Replay(old(state), saved)
      ensures UniqueIds(old(state).items) ==> UniqueIds(state.items)
      ensures old(state) == Initial && UniqueIds(saved) ==> state == State(saved, Sum(saved))
    {
      if UniqueIds(state.items) {
        ReplayPreservesUnique(state, saved);
      }
      for i := 0 to |saved|
        invariant state == Replay(old(state), saved[..i])
      {
        assert saved[..i + 1][..i] == saved[..i];
        Dispatch(AddItem(saved[i]));
      }
      assert saved[..|saved|] == saved;
      if old(state) == Initial && UniqueIds(saved) {
        HydrateFromInitial(saved);
      }
    }
  }
}
