/**
 * The cart store: a reducer over the list of cart lines (ADD_TO_CART,
 * REMOVE_FROM_CART, UPDATE_QUANTITY, CLEAR_CART) and the provider that holds the
 * current cart and mirrors it into the "cart" key of local storage after every
 * change.
 *
 * JavaScript's falsy values are modelled explicitly: a missing or empty string
 * field is "", a missing quantity or price is 0.
 */
module CartContext {
  import opened Options

  /** A cart line: the product object as it was added, with its quantity. */
  datatype Line = Line(
    dbId: string,         // the `_id` field
    id: string,           // the `id` field
    quantity: int,
    name: string,
    price: int,           // an integer price
    discountPrice: int,   // an integer price
    images: seq<string>,  // the `productImages` field
    image: string)

  /** The actions the reducer understands, plus any other action type. */
  datatype Action =
    | AddToCart(payload: Line)
    | RemoveFromCart(target: string)
    | UpdateQuantity(target: string, quantity: int)
    | ClearCart
    | Unrecognised

  /** The key a line is identified by: `_id`, or `id` when `_id` is missing. */
  function ItemId(item: Line): (key: string)
    ensures key == "" <==> item.dbId == "" && item.id == ""
    ensures item.dbId != "" ==> key == item.dbId
    ensures item.dbId == "" ==> key == item.id
  {
    if item.dbId != "" then item.dbId else item.id
  }

  /** JavaScript's `quantity || 1`: a missing (zero) quantity reads as one. */
  function OrOne(quantity: int): (q: int)
    ensures q != 0
    ensures quantity == 0 ==> q == 1
    ensures quantity != 0 ==> q == quantity
  {
    if quantity != 0 then quantity else 1
  }

  /** Some line of `cart` is identified by `key`. */
  predicate HasKey(cart: seq<Line>, key: string) {
    exists i :: 0 <= i < |cart| && ItemId(cart[i]) == key
  }

  /** At most one line per key. */
  predicate Unique(cart: seq<Line>) {
    forall i, j :: 0 <= i < j < |cart| ==> ItemId(cart[i]) != ItemId(cart[j])
  }

  /** Every line has a quantity of at least one. */
  predicate AllPositive(cart: seq<Line>) {
    forall i :: 0 <= i < |cart| ==> cart[i].quantity >= 1
  }

  /** The position of the first line identified by `key` (`state.find`). */
  function FindIndex(cart: seq<Line>, key: string): (r: Option<nat>)
    ensures r.Some? ==> r.value < |cart| && ItemId(cart[r.value]) == key
    ensures r.Some? ==> forall j :: 0 <= j < r.value ==> ItemId(cart[j]) != key
    ensures r.None? <==> !HasKey(cart, key)
  {
    if |cart| == 0 then None
    else if ItemId(cart[0]) == key then Some(0)
    else
      var rest := FindIndex(cart[1..], key);
      assert HasKey(cart, key) ==> HasKey(cart[1..], key) by {
        if HasKey(cart, key) {
          var i :| 0 <= i < |cart| && ItemId(cart[i]) == key;
          assert ItemId(cart[1..][i - 1]) == key;
        }
      }
      match rest
      case None => None
      case Some(k) => Some(k + 1)
  }

  /** The line with quantity `quantity` if it is identified by `key`, else the
      line unchanged (the callback of UPDATE_QUANTITY's `map`). */
  function Updated(line: Line, key: string, quantity: int): Line {
    if ItemId(line) == key then line.(quantity := quantity) else line
  }

  /** Every line identified by `key` gets quantity `quantity`; the others are kept
      (`state.map(item => getItemId(item) === key ? {...item, quantity} : item)`). */
  function SetQuantity(cart: seq<Line>, key: string, quantity: int): (r: seq<Line>)
    ensures |r| == |cart|
    ensures forall i :: 0 <= i < |cart| ==> r[i] == Updated(cart[i], key, quantity)
  {
    if |cart| == 0 then []
    else
      [Updated(cart[0], key, quantity)] + SetQuantity(cart[1..], key, quantity)
  }

  /** The lines not identified by `key`, in their order
      (`state.filter(item => getItemId(item) !== key)`). */
  function Without(cart: seq<Line>, key: string): (r: seq<Line>)
    ensures |r| <= |cart|
    ensures forall i :: 0 <= i < |r| ==> r[i] in cart && ItemId(r[i]) != key
    ensures forall i :: 0 <= i < |cart| && ItemId(cart[i]) != key ==> cart[i] in r
    ensures !HasKey(cart, key) ==> r == cart
  {
    if |cart| == 0 then []
    else
      var rest := Without(cart[1..], key);
      assert !HasKey(cart, key) ==> !HasKey(cart[1..], key) by {
        if HasKey(cart[1..], key) {
          var i :| 0 <= i < |cart[1..]| && ItemId(cart[1..][i]) == key;
          assert ItemId(cart[i + 1]) == key;
        }
      }
      if ItemId(cart[0]) != key then [cart[0]] + rest else rest
  }

  /** The quantity a merging add gives: the first matching line's quantity plus
      `payload.quantity || 1`. */
  function MergedQuantity(state: seq<Line>, payload: Line): int
    requires HasKey(state, ItemId(payload))
  {
    state[FindIndex(state, ItemId(payload)).value].quantity + OrOne(payload.quantity)
  }

  /** ADD_TO_CART: merge into the existing line by addition, or append a new line. */
  function Add(state: seq<Line>, payload: Line): (next: seq<Line>)
    ensures HasKey(state, ItemId(payload)) ==> |next| == |state|
    ensures HasKey(state, ItemId(payload)) ==> forall i :: 0 <= i < |state| ==>
      next[i] == Updated(state[i], ItemId(payload), MergedQuantity(state, payload))
    ensures !HasKey(state, ItemId(payload)) ==>
      next == state + [payload.(quantity := OrOne(payload.quantity))]
  {
    var key := ItemId(payload);
    if HasKey(state, key) then
      SetQuantity(state, key, MergedQuantity(state, payload))
    else
      state + [payload.(quantity := OrOne(payload.quantity))]
  }

  /** The cart reducer. Every action keeps "at most one line per key". */
  function Reduce(state: seq<Line>, action: Action): (next: seq<Line>)
    ensures action.ClearCart? ==> next == []
    ensures action.Unrecognised? ==> next == state
    ensures Unique(state) ==> Unique(next)
  {
    match action
    case AddToCart(payload) =>
      AddKeepsUnique(state, payload);
      Add(state, payload)
    case RemoveFromCart(target) =>
      WithoutKeepsUnique(state, target);
      Without(state, target)
    case UpdateQuantity(target, quantity) =>
      WithoutKeepsUnique(state, target);
      if quantity <= 0 then Without(state, target) else SetQuantity(state, target, quantity)
    case ClearCart => []
    case Unrecognised => state
  }

  /** `cartCount`: the sum of the line quantities, a missing quantity counting 0. */
  function CartCount(cart: seq<Line>): (n: int)
    ensures AllPositive(cart) ==> n >= |cart|
  {
    if |cart| == 0 then 0 else cart[0].quantity + CartCount(cart[1..])
  }

  /** The line `addToCart` dispatches: the product with its quantity clamped to at
      least one. */
  function AddPayload(product: Line): (payload: Line)
    ensures payload.quantity >= 1
    ensures product.quantity > 0 ==> payload.quantity == product.quantity
    ensures product.quantity <= 0 ==> payload.quantity == 1
    ensures payload == product.(quantity := payload.quantity)
  {
    var quantity := if product.quantity > 0 then product.quantity else 1;
    product.(quantity := quantity)
  }

  // ---------------------------------------------------------------------------
  // Properties of the reducer

  /** In a cart with one line per key, no line drawn from the tail shares the
      first line's key. */
  lemma HeadKeyNotInTail(cart: seq<Line>, rest: seq<Line>)
    requires Unique(cart) && |cart| > 0
    requires forall j :: 0 <= j < |rest| ==> rest[j] in cart[1..]
    ensures forall j :: 0 <= j < |rest| ==> ItemId(rest[j]) != ItemId(cart[0])
  {
  }

  lemma {:induction false} WithoutKeepsUnique(cart: seq<Line>, key: string)
    ensures Unique(cart) ==> Unique(Without(cart, key))
  {
    if |cart| > 0 && Unique(cart) {
      assert Unique(cart[1..]);
      WithoutKeepsUnique(cart[1..], key);
      var rest := Without(cart[1..], key);
      if ItemId(cart[0]) != key {
        HeadKeyNotInTail(cart, rest);
        ConsKeepsUnique(cart[0], rest);
      }
    }
  }

  /** Putting a line in front of a cart with one line per key keeps one line per
      key, provided no line already has its key. */
  lemma ConsKeepsUnique(head: Line, rest: seq<Line>)
    requires Unique(rest)
    requires forall j :: 0 <= j < |rest| ==> ItemId(rest[j]) != ItemId(head)
    ensures Unique([head] + rest)
  {
  }

  lemma AddKeepsUnique(state: seq<Line>, payload: Line)
    ensures Unique(state) ==> Unique(Add(state, payload))
  {
    var key := ItemId(payload);
    if Unique(state) && FindIndex(state, key).None? {
      var next := Add(state, payload);
      forall i, j | 0 <= i < j < |next| ensures ItemId(next[i]) != ItemId(next[j]) {
        if j == |state| {
          assert ItemId(next[j]) == key;
        }
      }
    }
  }

  /** Adding a key already in the cart merges by addition: the existing line gets
      quantity `old + (payload.quantity || 1)`, its other fields stay, and every
      other line stays where it was. */
  lemma AddMergesExisting(state: seq<Line>, payload: Line, k: nat)
    requires Unique(state)
    requires k < |state| && ItemId(state[k]) == ItemId(payload)
    ensures |Add(state, payload)| == |state|
    ensures Add(state, payload)[k] == state[k].(quantity := state[k].quantity + OrOne(payload.quantity))
    ensures forall i :: 0 <= i < |state| && i != k ==> Add(state, payload)[i] == state[i]
  {
  }

  /** Adding a key not in the cart appends exactly one line at the end, carrying
      `payload.quantity || 1`. */
  lemma AddAppendsNew(state: seq<Line>, payload: Line)
    requires !HasKey(state, ItemId(payload))
    ensures Add(state, payload) == state + [payload.(quantity := OrOne(payload.quantity))]
  {
  }

  /** The merge law: two adds of the same new product give one line, at the end,
      whose quantity is the sum of the two. */
  lemma MergeLaw(state: seq<Line>, first: Line, second: Line)
    requires Unique(state) && !HasKey(state, ItemId(first))
    requires ItemId(second) == ItemId(first)
    requires first.quantity >= 1 && second.quantity >= 1
    ensures var next := Add(Add(state, first), second);
      && |next| == |state| + 1
      && next[..|state|] == state
      && next[|state|] == first.(quantity := first.quantity + second.quantity)
      && Unique(next)
  {
    var once := Add(state, first);
    AddAppendsNew(state, first);
    AddKeepsUnique(state, first);
    AddMergesExisting(once, second, |state|);
    AddKeepsUnique(once, second);
    var next := Add(once, second);
    assert next[..|state|] == state by {
      forall i | 0 <= i < |state| ensures next[i] == state[i] {
        assert next[i] == once[i];
      }
    }
  }

  /** REMOVE_FROM_CART leaves no line with the key and keeps every other line. */
  lemma RemoveDropsOnlyKey(state: seq<Line>, key: string)
    ensures !HasKey(Reduce(state, RemoveFromCart(key)), key)
    ensures forall l :: l in state && ItemId(l) != key ==> l in Reduce(state, RemoveFromCart(key))
  {
  }

  /** Removing twice is removing once; removing an absent key changes nothing. */
  lemma RemoveIdempotent(state: seq<Line>, key: string)
    ensures Reduce(Reduce(state, RemoveFromCart(key)), RemoveFromCart(key))
         == Reduce(state, RemoveFromCart(key))
    ensures !HasKey(state, key) ==> Reduce(state, RemoveFromCart(key)) == state
  {
  }

  /** REMOVE_FROM_CART keeps the remaining lines in their order: filtering a
      concatenation is concatenating the filtered parts. */
  lemma {:induction false} RemoveKeepsOrder(front: seq<Line>, back: seq<Line>, key: string)
    ensures Without(front + back, key) == Without(front, key) + Without(back, key)
  {
    if |front| > 0 {
      assert (front + back)[1..] == front[1..] + back;
      RemoveKeepsOrder(front[1..], back, key);
    } else {
      assert front + back == back;
    }
  }

  /** UPDATE_QUANTITY with a quantity of zero or less is REMOVE_FROM_CART. */
  lemma UpdateNonPositiveIsRemove(state: seq<Line>, key: string, quantity: int)
    requires quantity <= 0
    ensures Reduce(state, UpdateQuantity(key, quantity)) == Reduce(state, RemoveFromCart(key))
  {
  }

  /** UPDATE_QUANTITY with a positive quantity never creates a line: it keeps the
      length, the order and every key, changes only the quantity of the matching
      lines, and is a no-op for an unknown key. */
  lemma UpdatePositiveNeverAdds(state: seq<Line>, key: string, quantity: int)
    requires quantity > 0
    ensures var next := Reduce(state, UpdateQuantity(key, quantity));
      && |next| == |state|
      && (forall i :: 0 <= i < |state| ==> ItemId(next[i]) == ItemId(state[i]))
      && (forall i :: 0 <= i < |state| && ItemId(state[i]) == key ==> next[i].quantity == quantity)
      && (forall i :: 0 <= i < |state| ==> next[i].(quantity := state[i].quantity) == state[i])
      && (forall i :: 0 <= i < |state| && ItemId(state[i]) != key ==> next[i] == state[i])
      && (!HasKey(state, key) ==> next == state)
  {
  }

  /** The quantities the provider dispatches keep every line's quantity at least
      one: `addToCart` clamps, and UPDATE_QUANTITY removes instead of storing zero. */
  lemma ProviderKeepsQuantitiesPositive(state: seq<Line>, action: Action)
    requires AllPositive(state)
    requires action.AddToCart? ==> action.payload.quantity >= 1
    ensures AllPositive(Reduce(state, action))
  {
    var next := Reduce(state, action);
    match action
    case AddToCart(payload) =>
      var found := FindIndex(state, ItemId(payload));
      if found.Some? {
        assert state[found.value].quantity + OrOne(payload.quantity) >= 1;
      }
    case RemoveFromCart(target) =>
      forall i | 0 <= i < |next| ensures next[i].quantity >= 1 {
        assert next[i] in state;
      }
    case UpdateQuantity(target, quantity) =>
      if quantity <= 0 {
        forall i | 0 <= i < |next| ensures next[i].quantity >= 1 {
          assert next[i] in state;
        }
      }
    case ClearCart =>
    case Unrecognised =>
  }

  // ---------------------------------------------------------------------------
  // Properties of cartCount

  lemma {:induction false} CountConcat(front: seq<Line>, back: seq<Line>)
    ensures CartCount(front + back) == CartCount(front) + CartCount(back)
  {
    if |front| > 0 {
      assert (front + back)[1..] == front[1..] + back;
      CountConcat(front[1..], back);
    } else {
      assert front + back == back;
    }
  }

  /** In a cart with one line per key, setting the quantity of the line at `k`
      changes the count by the difference of the two quantities. */
  lemma {:induction false} CountSetQuantity(cart: seq<Line>, next: seq<Line>, k: nat, quantity: int)
    requires Unique(cart) && k < |cart|
    requires |next| == |cart|
    requires forall i :: 0 <= i < |cart| ==> next[i] == Updated(cart[i], ItemId(cart[k]), quantity)
    ensures CartCount(next) == CartCount(cart) - cart[k].quantity + quantity
  {
    var key := ItemId(cart[k]);
    if k == 0 {
      assert next[1..] == cart[1..] by {
        forall i | 0 <= i < |cart| - 1 ensures next[1..][i] == cart[1..][i] {
          assert ItemId(cart[i + 1]) != key;
        }
      }
    } else {
      assert ItemId(cart[0]) != key;
      assert cart[1..][k - 1] == cart[k];
      CountSetQuantity(cart[1..], next[1..], k - 1, quantity);
    }
  }

  /** Under one line per key, REMOVE_FROM_CART of the line at `k` lowers the count
      by exactly that line's quantity. */
  lemma {:induction false} CountWithout(cart: seq<Line>, k: nat)
    requires Unique(cart) && k < |cart|
    ensures CartCount(Without(cart, ItemId(cart[k]))) == CartCount(cart) - cart[k].quantity
  {
    var key := ItemId(cart[k]);
    if k == 0 {
      assert !HasKey(cart[1..], key) by {
        forall i | 0 <= i < |cart[1..]| ensures ItemId(cart[1..][i]) != key {
          assert cart[1..][i] == cart[i + 1];
        }
      }
    } else {
      assert ItemId(cart[0]) != key;
      assert cart[1..][k - 1] == cart[k];
      CountWithout(cart[1..], k - 1);
    }
  }

  /** Under one line per key, ADD_TO_CART raises the count by exactly the added
      quantity (`payload.quantity || 1`), whether it merges or appends. */
  lemma CountAfterAdd(state: seq<Line>, payload: Line)
    requires Unique(state)
    ensures CartCount(Add(state, payload)) == CartCount(state) + OrOne(payload.quantity)
  {
    var key := ItemId(payload);
    var found := FindIndex(state, key);
    if found.Some? {
      var k := found.value;
      var quantity := state[k].quantity + OrOne(payload.quantity);
      CountSetQuantity(state, Add(state, payload), k, quantity);
    } else {
      var line := payload.(quantity := OrOne(payload.quantity));
      assert Add(state, payload) == state + [line];
      CountConcat(state, [line]);
      assert CartCount([line]) == line.quantity + CartCount([]);
    }
  }

  // ---------------------------------------------------------------------------
  // The provider

  /** The cart provider: the current cart and its copy under the "cart" key of
      local storage, rewritten after every change. */
  class CartProvider {
    var cart: seq<Line>
    var stored: seq<Line>

    /** Local storage mirrors the in-memory cart. */
    ghost predicate Valid()
      reads this
    {
      stored == cart
    }

    /** The initial cart is the saved one, or empty when nothing is saved (or
        there is no window); the storage effect then writes it back. */
    constructor (saved: Option<seq<Line>>)
      ensures Valid()
      ensures cart == saved.GetOr([])
    {
      cart := saved.GetOr([]);
      stored := cart;
    }

    /** `dispatch` followed by the storage effect. */
    method Dispatch(action: Action)
      requires Valid()
      modifies this
      ensures Valid()
      ensures cart == Reduce(old(cart), action)
    {
      cart := Reduce(cart, action);
      stored := cart;
    }

    /** `addToCart`: dispatches the product with its quantity clamped to at
        least one. */
    method AddToCart(product: Line)
      requires Valid()
      modifies this
      ensures Valid()
      ensures cart == Reduce(old(cart), Action.AddToCart(AddPayload(product)))
      ensures Unique(old(cart)) ==> Unique(cart)
      ensures AllPositive(old(cart)) ==> AllPositive(cart)
      ensures Unique(old(cart)) ==> CartCount(cart) == CartCount(old(cart)) + AddPayload(product).quantity
    {
      var payload := AddPayload(product);
      if AllPositive(cart) {
        ProviderKeepsQuantitiesPositive(cart, Action.AddToCart(payload));
      }
      if Unique(cart) {
        CountAfterAdd(cart, payload);
      }
      Dispatch(Action.AddToCart(payload));
    }

    /** `removeFromCart`. */
    method RemoveFromCart(key: string)
      requires Valid()
      modifies this
      ensures Valid()
      ensures cart == Reduce(old(cart), Action.RemoveFromCart(key))
      ensures !HasKey(cart, key)
      ensures Unique(old(cart)) ==> Unique(cart)
      ensures AllPositive(old(cart)) ==> AllPositive(cart)
    {
      RemoveDropsOnlyKey(cart, key);
      if AllPositive(cart) {
        ProviderKeepsQuantitiesPositive(cart, Action.RemoveFromCart(key));
      }
      Dispatch(Action.RemoveFromCart(key));
    }

    /** `updateQuantity`. */
    method UpdateQuantity(key: string, quantity: int)
      requires Valid()
      modifies this
      ensures Valid()
      ensures cart == Reduce(old(cart), Action.UpdateQuantity(key, quantity))
      ensures quantity <= 0 ==> !HasKey(cart, key)
      ensures quantity > 0 ==> |cart| == |old(cart)|
      ensures Unique(old(cart)) ==> Unique(cart)
      ensures AllPositive(old(cart)) ==> AllPositive(cart)
    {
      if quantity <= 0 {
        RemoveDropsOnlyKey(cart, key);
      }
      if AllPositive(cart) {
        ProviderKeepsQuantitiesPositive(cart, Action.UpdateQuantity(key, quantity));
      }
      Dispatch(Action.UpdateQuantity(key, quantity));
    }

    /** `clearCart`. */
    method ClearCart()
      requires Valid()
      modifies this
      ensures Valid()
      ensures cart == [] && stored == []
    {
      Dispatch(Action.ClearCart);
    }
  }
}
