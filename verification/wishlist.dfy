/**
 * The wishlist store: `wishlistReducer`, which keeps a list unique by id, the membership
 * query `isInWishlist`, and `WishlistProvider`, which holds the state cell and hydrates it
 * by replaying the saved items through ADD_ITEM.
 */
module Wishlist {

  /** `WishlistItem` (prices in integer cents). */
  datatype Item = Item(id: string, name: string, price: int, image: string)

  datatype State = State(items: seq<Item>)

  datatype Action =
    | AddItem(payload: Item)
    | RemoveItem(id: string)
    | ClearWishlist

  /** `initialState` */
  const Initial: State := State([])

  predicate HasId(items: seq<Item>, id: string) {
    exists i :: 0 <= i < |items| && items[i].id == id
  }

  predicate UniqueIds(items: seq<Item>) {
    forall i, j :: 0 <= i < j < |items| ==> items[i].id != items[j].id
  }

  /** The position of the first item with the id, or -1 when there is none. */
  function IndexOf(items: seq<Item>, id: string): (k: int)
    ensures -1 <= k < |items|
    ensures k == -1 <==> !HasId(items, id)
    ensures 0 <= k ==> items[k].id == id && forall j :: 0 <= j < k ==> items[j].id != id
  {
    if items == [] then -1
    else
      var k := IndexOf(items[..|items| - 1], id);
      if k >= 0 then k else if items[|items| - 1].id == id then |items| - 1 else -1
  }

  /** `items.some(item => item.id === id)`, searched from the front. */
  function AnyWithId(items: seq<Item>, id: string): (b: bool)
    ensures b <==> HasId(items, id)
  {
    if items == [] then false
    else
      assert forall i :: 0 < i < |items| ==> items[i] == items[1..][i - 1];
      items[0].id == id || AnyWithId(items[1..], id)
  }

  /** The `filter` of REMOVE_ITEM: the items whose id differs, in their order. */
  function Without(items: seq<Item>, id: string): seq<Item> {
    if items == [] then []
    else
      var last := items[|items| - 1];
      Without(items[..|items| - 1], id) + (if last.id == id then [] else [last])
  }

  /** `wishlistReducer` */
  function Reduce(s: State, a: Action): State {
    match a
    case AddItem(p) => if AnyWithId(s.items, p.id) then s else State(s.items + [p])
    case RemoveItem(id) => State(Without(s.items, id))
    case ClearWishlist => Initial
  }

  /** The mount effect's `forEach`: every saved item dispatched as ADD_ITEM, in order. */
  function Replay(s: State, saved: seq<Item>): State {
    if saved == [] then s else Reduce(Replay(s, saved[..|saved| - 1]), AddItem(saved[|saved| - 1]))
  }

  // ---------------------------------------------------------------------------------------
  // Lemmas

  /** The filter keeps exactly the items whose id differs. */
  lemma {:induction false} WithoutMembers(items: seq<Item>, id: string)
    ensures forall x :: x in Without(items, id) <==> x in items && x.id != id
  {
    if items != [] {
      var init := items[..|items| - 1];
      WithoutMembers(init, id);
      assert items == init + [items[|items| - 1]];
    }
  }

  /** A filter that matches nothing keeps the list as it is. */
  lemma {:induction false} WithoutAbsent(items: seq<Item>, id: string)
    requires !HasId(items, id)
    ensures Without(items, id) == items
  {
    if items != [] {
      var init := items[..|items| - 1];
      var last := items[|items| - 1];
      assert !HasId(init, id) by {
        forall i | 0 <= i < |init| ensures init[i].id != id { assert init[i] == items[i]; }
      }
      WithoutAbsent(init, id);
      assert last.id != id;
      calc {
        Without(items, id);
        Without(init, id) + [last];
        init + [last];
        { assert items == init + [last]; }
        items;
      }
    }
  }

  /** The filter distributes over concatenation, so it keeps the relative order of the rest. */
  lemma {:induction false} WithoutAppend(a: seq<Item>, b: seq<Item>, id: string)
    ensures Without(a + b, id) == Without(a, id) + Without(b, id)
  {
    if b != [] {
      var init := b[..|b| - 1];
      WithoutAppend(a, init, id);
      assert (a + b)[..|a + b| - 1] == a + init;
    } else {
      assert a + b == a;
    }
  }

  /** Filtering keeps the ids unique. */
  lemma {:induction false} WithoutUnique(items: seq<Item>, id: string)
    requires UniqueIds(items)
    ensures UniqueIds(Without(items, id))
  {
    if items != [] {
      var init := items[..|items| - 1];
      var last := items[|items| - 1];
      WithoutUnique(init, id);
      WithoutMembers(init, id);
      var w := Without(init, id);
      forall x | x in w ensures x.id != last.id {
        var i :| 0 <= i < |init| && init[i] == x;
        assert items[i] == x;
      }
    }
  }

  /** ADD_ITEM of an id already present returns the state itself; a new id is appended at the end. */
  lemma AddItemEffect(s: State, p: Item)
    ensures HasId(s.items, p.id) ==> Reduce(s, AddItem(p)) == s
    ensures !HasId(s.items, p.id) ==> Reduce(s, AddItem(p)).items == s.items + [p]
    ensures HasId(Reduce(s, AddItem(p)).items, p.id)
  {
    if !HasId(s.items, p.id) {
      assert (s.items + [p])[|s.items|] == p;
    }
  }

  /** ADD_ITEM is idempotent. */
  lemma AddIdempotent(s: State, p: Item)
    ensures Reduce(Reduce(s, AddItem(p)), AddItem(p)) == Reduce(s, AddItem(p))
  {
    AddItemEffect(s, p);
  }

  /** REMOVE_ITEM drops every item with the id, keeps the rest, and an absent id changes nothing. */
  lemma RemoveItemEffect(s: State, id: string)
    ensures var r := Reduce(s, RemoveItem(id));
      && (forall x :: x in r.items <==> x in s.items && x.id != id)
      && !HasId(r.items, id)
      && (!HasId(s.items, id) ==> r == s)
  {
    WithoutMembers(s.items, id);
    if !HasId(s.items, id) {
      WithoutAbsent(s.items, id);
    }
  }

  /** Every action keeps the ids unique. */
  lemma ReducePreservesUnique(s: State, a: Action)
    requires UniqueIds(s.items)
    ensures UniqueIds(Reduce(s, a).items)
  {
    match a
    case AddItem(p) =>
    case RemoveItem(id) => WithoutUnique(s.items, id);
    case ClearWishlist =>
  }

  /** `r` holds, of each id in `saved`, its first occurrence and nothing else, in the order of those first occurrences. */
  ghost predicate FirstOccurrences(r: seq<Item>, saved: seq<Item>) {
    && UniqueIds(r)
    && (forall id :: HasId(r, id) <==> HasId(saved, id))
    && (forall k :: 0 <= k < |r| ==> 0 <= IndexOf(saved, r[k].id) && r[k] == saved[IndexOf(saved, r[k].id)])
    && (forall k, l :: 0 <= k < l < |r| ==> IndexOf(saved, r[k].id) < IndexOf(saved, r[l].id))
  }

  lemma HasIdSnoc(xs: seq<Item>, x: Item, id: string)
    ensures HasId(xs + [x], id) <==> HasId(xs, id) || x.id == id
  {
    var ys := xs + [x];
    if HasId(ys, id) && x.id != id {
      var i :| 0 <= i < |ys| && ys[i].id == id;
      assert xs[i] == ys[i];
    }
    if HasId(xs, id) {
      var i :| 0 <= i < |xs| && xs[i].id == id;
      assert ys[i] == xs[i];
    }
    assert ys[|xs|] == x;
  }

  lemma IndexOfSnoc(xs: seq<Item>, x: Item, id: string)
    ensures IndexOf(xs + [x], id) ==
      if HasId(xs, id) then IndexOf(xs, id) else if x.id == id then |xs| else -1
  {
    assert (xs + [x])[..|xs|] == xs;
  }

  /** Prefix facts: ids seen in `init` keep their first position once `last` is appended. */
  lemma SnocFacts(init: seq<Item>, last: Item)
    ensures forall id :: HasId(init + [last], id) <==> HasId(init, id) || last.id == id
    ensures forall id :: HasId(init, id) ==> IndexOf(init + [last], id) == IndexOf(init, id)
    ensures !HasId(init, last.id) ==> IndexOf(init + [last], last.id) == |init|
  {
    forall id ensures HasId(init + [last], id) <==> HasId(init, id) || last.id == id {
      HasIdSnoc(init, last, id);
    }
    forall id | HasId(init, id) ensures IndexOf(init + [last], id) == IndexOf(init, id) {
      IndexOfSnoc(init, last, id);
    }
    IndexOfSnoc(init, last, last.id);
  }

  /** ADD_ITEM of an id hydration has already seen changes nothing. */
  lemma FirstOccurrencesSeen(r0: seq<Item>, init: seq<Item>, last: Item)
    requires FirstOccurrences(r0, init) && HasId(r0, last.id)
    ensures FirstOccurrences(r0, init + [last])
  {
    var saved := init + [last];
    SnocFacts(init, last);
    forall k | 0 <= k < |r0|
      ensures 0 <= IndexOf(saved, r0[k].id) && r0[k] == saved[IndexOf(saved, r0[k].id)]
    {
      assert HasId(r0, r0[k].id);
    }
    forall k, l | 0 <= k < l < |r0|
      ensures IndexOf(saved, r0[k].id) < IndexOf(saved, r0[l].id)
    {
      assert HasId(r0, r0[k].id) && HasId(r0, r0[l].id);
    }
  }

  /** ADD_ITEM of an id hydration has not seen yet appends it, after every earlier first occurrence. */
  lemma FirstOccurrencesNew(r0: seq<Item>, init: seq<Item>, last: Item)
    requires FirstOccurrences(r0, init) && !HasId(r0, last.id)
    ensures FirstOccurrences(r0 + [last], init + [last])
  {
    var saved := init + [last];
    var r := r0 + [last];
    SnocFacts(init, last);
    SnocFacts(r0, last);
    assert r[|r0|] == last && saved[|init|] == last;
    assert !HasId(init, last.id);
    forall k | 0 <= k < |r0|
      ensures r[k] == r0[k] && r0[k].id != last.id
      ensures IndexOf(saved, r[k].id) == IndexOf(init, r0[k].id) < |init|
      ensures r[k] == saved[IndexOf(saved, r[k].id)]
    {
      assert HasId(r0, r0[k].id);
    }
    assert UniqueIds(r) by {
      forall k, l | 0 <= k < l < |r| ensures r[k].id != r[l].id {
        if l < |r0| {
          assert r[k] == r0[k] && r[l] == r0[l];
        }
      }
    }
    forall k, l | 0 <= k < l < |r|
      ensures IndexOf(saved, r[k].id) < IndexOf(saved, r[l].id)
    {
      if l < |r0| {
        assert r[k] == r0[k] && r[l] == r0[l];
      }
    }
  }

  /**
   * Hydration from the initial state keeps, of each id in the saved list, only its first
   * occurrence, in the order of those first occurrences.
   */
  lemma {:induction false} HydrateKeepsFirstOccurrences(saved: seq<Item>)
    ensures FirstOccurrences(Replay(Initial, saved).items, saved)
  {
    if saved != [] {
      var init := saved[..|saved| - 1];
      HydrateKeepsFirstOccurrences(init);
      var r0 := Replay(Initial, init).items;
      if HasId(r0, saved[|saved| - 1].id) {
        FirstOccurrencesSeen(r0, init, saved[|saved| - 1]);
      } else {
        FirstOccurrencesNew(r0, init, saved[|saved| - 1]);
      }
      assert init + [saved[|saved| - 1]] == saved;
    }
  }

  // ---------------------------------------------------------------------------------------
  // The provider

  /** `WishlistProvider`: the reducer's state cell and the actions the context exposes. */
  class WishlistProvider {
    var state: State

    /** `useReducer(wishlistReducer, initialState)` */
    constructor()
      ensures state == Initial
    {
      state := Initial;
    }

    /** `dispatch` */
    method Dispatch(a: Action)
      modifies this
      ensures state == Reduce(old(state), a)
      ensures UniqueIds(old(state).items) ==> UniqueIds(state.items)
    {
      if UniqueIds(state.items) {
        ReducePreservesUnique(state, a);
      }
      state := Reduce(state, a);
    }

    /** `addToWishlist` */
    method AddToWishlist(p: Item)
      modifies this
      ensures state == Reduce(old(state), AddItem(p))
      ensures HasId(state.items, p.id)
    {
      AddItemEffect(state, p);
      Dispatch(AddItem(p));
    }

    /** `removeFromWishlist` */
    method RemoveFromWishlist(id: string)
      modifies this
      ensures state == Reduce(old(state), RemoveItem(id))
      ensures !HasId(state.items, id)
    {
      RemoveItemEffect(state, id);
      Dispatch(RemoveItem(id));
    }

    /** `clearWishlist` */
    method ClearWishlist()
      modifies this
      ensures state == Initial
    {
      Dispatch(Action.ClearWishlist);
    }

    /** `isInWishlist`: reads the state, changes nothing. */
    method IsInWishlist(id: string) returns (b: bool)
      ensures b <==> HasId(state.items, id)
    {
      b := AnyWithId(state.items, id);
    }

    /** The mount effect: every saved item is dispatched as ADD_ITEM, in order. */
    method Hydrate(saved: seq<Item>)
      modifies this
      ensures state == Replay(old(state), saved)
    {
      for i := 0 to |saved|
        invariant state == Replay(old(state), saved[..i])
      {
        assert saved[..i + 1][..i] == saved[..i];
        Dispatch(AddItem(saved[i]));
      }
      assert saved[..|saved|] == saved;
    }
  }
}
