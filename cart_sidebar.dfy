/**
 * The helpers of the cart sidebar: image path normalisation, the price of a
 * line, the subtotal of the visible cart, the quantities the -/+ buttons send,
 * and the handler of storage events for the "cart" key.
 */
module CartSidebar {
  import opened Options
  import opened CartContext

  const FallbackImage: string := "/fallback.jpg"

  predicate StartsWith(s: string, prefix: string) {
    |prefix| <= |s| && s[..|prefix|] == prefix
  }

  /** `getImageUrl`: the fallback for a missing path, an absolute URL unchanged,
      and any other path placed under the backend's uploads directory. */
  function ImageUrl(backendUrl: string, path: string): (url: string)
    ensures path == "" ==> url == FallbackImage
    ensures path != "" && StartsWith(path, "http") ==> url == path
    ensures path != "" && !StartsWith(path, "http") && StartsWith(path, "uploads/") ==>
      url == backendUrl + "/" + path
    ensures path != "" && !StartsWith(path, "http") && !StartsWith(path, "uploads/") ==>
      url == backendUrl + "/uploads/" + path
  {
    if path == "" then FallbackImage
    else if StartsWith(path, "http") then path
    else if StartsWith(path, "uploads/") then backendUrl + "/" + path
    else backendUrl + "/uploads/" + path
  }

  /** The image path of a line: the first of `productImages` if present and
      non-empty, else `image`. */
  function RawImage(item: Line): (path: string)
    ensures |item.images| > 0 && item.images[0] != "" ==> path == item.images[0]
    ensures !(|item.images| > 0 && item.images[0] != "") ==> path == item.image
  {
    if |item.images| > 0 && item.images[0] != "" then item.images[0] else item.image
  }

  /** `getPrice`: the discount price when it is set, else the price, else 0. */
  function Price(item: Line): (price: int)
    ensures item.discountPrice != 0 ==> price == item.discountPrice
    ensures item.discountPrice == 0 ==> price == item.price
  {
    if item.discountPrice != 0 then item.discountPrice else item.price
  }

  /** The total of one line, a missing quantity counting as one (`getTotal`
      without its formatting). */
  function LineTotal(item: Line): (total: int)
    ensures item.quantity == 0 ==> total == Price(item)
    ensures item.quantity != 0 ==> total == Price(item) * item.quantity
    ensures Price(item) >= 0 && item.quantity >= 0 ==> total >= 0
  {
    Price(item) * OrOne(item.quantity)
  }

  /** `subtotal`: the sum of the line totals of the visible cart. */
  function Subtotal(visible: seq<Line>): (total: int)
    ensures visible == [] ==> total == 0
  {
    if |visible| == 0 then 0 else LineTotal(visible[0]) + Subtotal(visible[1..])
  }

  /** `isEmpty`. */
  predicate IsEmpty(visible: seq<Line>)
    ensures IsEmpty(visible) <==> visible == []
    ensures IsEmpty(visible) ==> Subtotal(visible) == 0 && CartCount(visible) == 0
  {
    |visible| == 0
  }

  /** The quantity the minus button sends to `updateQuantity`. */
  function MinusQuantity(item: Line): (quantity: int)
    ensures quantity <= 0 <==> item.quantity <= 1
    ensures item.quantity >= 1 ==> quantity == item.quantity - 1
  {
    OrOne(item.quantity) - 1
  }

  /** The quantity the plus button sends to `updateQuantity`. */
  function PlusQuantity(item: Line): (quantity: int)
    ensures item.quantity >= 0 ==> quantity >= 2
    ensures item.quantity == 0 ==> quantity == 2
    ensures item.quantity != 0 ==> quantity == item.quantity + 1
  {
    OrOne(item.quantity) + 1
  }

  /** The storage event handler: a change of the "cart" key replaces the visible
      cart with the new value, or with the empty cart when the key was removed;
      changes of other keys are ignored. */
  function OnStorage(visible: seq<Line>, key: string, newValue: Option<seq<Line>>): (next: seq<Line>)
    ensures key != "cart" ==> next == visible
    ensures key == "cart" && newValue.None? ==> next == []
    ensures key == "cart" && newValue.Some? ==> next == newValue.value
  {
    if key == "cart" then newValue.GetOr([]) else visible
  }

  // ---------------------------------------------------------------------------
  // Image paths

  /** Normalisation never alters the path itself: a non-empty path is always a
      suffix of the URL. */
  lemma ImageUrlEndsWithPath(backendUrl: string, path: string)
    requires path != ""
    ensures var url := ImageUrl(backendUrl, path);
      |path| <= |url| && url[|url| - |path|..] == path
  {
  }

  /** The "uploads/" prefix is optional: with or without it a relative path
      lands at the same URL. */
  lemma UploadsPrefixIsOptional(backendUrl: string, path: string)
    requires path != "" && !StartsWith(path, "http") && !StartsWith(path, "uploads/")
    ensures ImageUrl(backendUrl, "uploads/" + path) == ImageUrl(backendUrl, path)
  {
    var prefixed := "uploads/" + path;
    assert prefixed[..|"uploads/"|] == "uploads/";
    assert !StartsWith(prefixed, "http") by {
      assert prefixed[..4] == "uplo";
    }
    assert backendUrl + "/" + prefixed == backendUrl + "/uploads/" + path;
  }

  /** With an absolute backend URL, normalising a normalised (non-empty) path
      changes nothing. The fallback path is not a fixed point: it would be
      placed under the uploads directory. */
  lemma ImageUrlIdempotent(backendUrl: string, path: string)
    requires StartsWith(backendUrl, "http") && path != ""
    ensures ImageUrl(backendUrl, ImageUrl(backendUrl, path)) == ImageUrl(backendUrl, path)
  {
  }

  /** The image a line shows: the fallback when the line has no image at all,
      otherwise a URL ending with the first product image, or with `image`
      when there is none. */
  lemma ShownImage(backendUrl: string, item: Line)
    ensures (|item.images| == 0 || item.images[0] == "") && item.image == "" ==>
      ImageUrl(backendUrl, RawImage(item)) == FallbackImage
    ensures |item.images| > 0 && item.images[0] != "" ==>
      var url := ImageUrl(backendUrl, RawImage(item));
      |item.images[0]| <= |url| && url[|url| - |item.images[0]|..] == item.images[0]
    ensures (|item.images| == 0 || item.images[0] == "") && item.image != "" ==>
      var url := ImageUrl(backendUrl, RawImage(item));
      |item.image| <= |url| && url[|url| - |item.image|..] == item.image
  {
    if RawImage(item) != "" {
      ImageUrlEndsWithPath(backendUrl, RawImage(item));
    }
  }

  // ---------------------------------------------------------------------------
  // Subtotal

  lemma {:induction false} SubtotalConcat(front: seq<Line>, back: seq<Line>)
    ensures Subtotal(front + back) == Subtotal(front) + Subtotal(back)
  {
    if |front| > 0 {
      assert (front + back)[1..] == front[1..] + back;
      SubtotalConcat(front[1..], back);
    } else {
      assert front + back == back;
    }
  }

  /** In a cart with one line per key, changing the quantity of the line at `k`
      changes the subtotal by the difference of that line's two totals. */
  lemma {:induction false} SubtotalSetQuantity(cart: seq<Line>, next: seq<Line>, k: nat, quantity: int)
    requires Unique(cart) && k < |cart|
    requires |next| == |cart|
    requires forall i :: 0 <= i < |cart| ==> next[i] == Updated(cart[i], ItemId(cart[k]), quantity)
    ensures Subtotal(next)
         == Subtotal(cart) - LineTotal(cart[k]) + LineTotal(cart[k].(quantity := quantity))
  {
    var key := ItemId(cart[k]);
    if k == 0 {
      assert next[1..] == cart[1..] by {
        forall i | 0 <= i < |cart| - 1 ensures next[1..][i] == cart[1..][i] {
          assert ItemId(cart[i + 1]) != key;
        }
      }
    } else {
      assert ItemId(cart[0]) != key;
      assert cart[1..][k - 1] == cart[k];
      SubtotalSetQuantity(cart[1..], next[1..], k - 1, quantity);
    }
  }

  // ---------------------------------------------------------------------------
  // The -/+ buttons, composed with the reducer

  /** Minus on a line showing quantity one sends zero, which removes the line. */
  lemma MinusOnSingleRemoves(cart: seq<Line>, k: nat)
    requires k < |cart| && OrOne(cart[k].quantity) == 1
    ensures var key := ItemId(cart[k]);
      var next := Reduce(cart, UpdateQuantity(key, MinusQuantity(cart[k])));
      next == Reduce(cart, RemoveFromCart(key)) && !HasKey(next, key)
  {
  }

  /** Minus on a line showing more than one lowers that line's quantity by one
      and keeps every line. */
  lemma MinusOnSeveralDecrements(cart: seq<Line>, k: nat)
    requires Unique(cart) && k < |cart| && cart[k].quantity >= 2
    ensures var next := Reduce(cart, UpdateQuantity(ItemId(cart[k]), MinusQuantity(cart[k])));
      && |next| == |cart|
      && next[k] == cart[k].(quantity := cart[k].quantity - 1)
      && forall i :: 0 <= i < |cart| && i != k ==> next[i] == cart[i]
  {
  }

  /** Plus on a line with a quantity raises the cart count by one and the
      subtotal by one unit price. */
  lemma PlusAddsOneUnit(cart: seq<Line>, k: nat)
    requires Unique(cart) && k < |cart| && cart[k].quantity >= 1
    ensures var next := Reduce(cart, UpdateQuantity(ItemId(cart[k]), PlusQuantity(cart[k])));
      && CartCount(next) == CartCount(cart) + 1
      && Subtotal(next) == Subtotal(cart) + Price(cart[k])
  {
    var key, quantity := ItemId(cart[k]), cart[k].quantity + 1;
    assert PlusQuantity(cart[k]) == quantity;
    var next := Reduce(cart, UpdateQuantity(key, quantity));
    CountSetQuantity(cart, next, k, quantity);
    SubtotalSetQuantity(cart, next, k, quantity);
    LineTotalOneMore(cart[k], quantity);
  }

  lemma LineTotalOneMore(item: Line, quantity: int)
    requires item.quantity >= 1 && quantity == item.quantity + 1
    ensures LineTotal(item.(quantity := quantity)) == LineTotal(item) + Price(item)
  {
  }
}
