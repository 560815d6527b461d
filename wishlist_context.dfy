/**
 * The wishlist state: the list of wishlisted product ids (entries `{_id}`), kept
 * in local storage under "guest_wishlist" while no user is signed in, and
 * re-fetched from the backend, which is authoritative, once a user and a token
 * are present.
 *
 * The backend calls are parameters: the outcome of the add/remove request and
 * the outcome of the re-fetch that follows it.
 */
module WishlistContext {
  import opened Options

  /** What a caller passes as the product: an id string, a product object with
      `_id` and `id` fields ("" when missing), or null/undefined. */
  datatype ProductRef =
    | IdString(text: string)
    | ProductObject(dbId: string, id: string)
    | NoProduct

  /** The outcome of the add or remove request: a 2xx response, or anything else. */
  datatype CallOutcome = CallOk | CallFailed

  /** The outcome of fetching the user's wishlist: the ids in server order, or a
      non-2xx response or an exception. */
  datatype FetchOutcome = Fetched(ids: seq<string>) | FetchFailed

  /** The toast an operation shows, if any. */
  datatype Notice =
    | NoNotice
    | AlreadyInWishlist
    | AddedToWishlist
    | FailedToAdd
    | RemovedFromWishlist
    | FailedToRemove

  /** `normalizeId`: a string is its own id; an object's id is `_id`, else `id`.
      The empty string stands for a missing id. */
  function NormalizeId(product: ProductRef): (productId: string)
    ensures product.IdString? ==> productId == product.text
    ensures product.ProductObject? && product.dbId != "" ==> productId == product.dbId
    ensures product.ProductObject? && product.dbId == "" ==> productId == product.id
    ensures productId == "" <==>
      || product.NoProduct?
      || (product.IdString? && product.text == "")
      || (product.ProductObject? && product.dbId == "" && product.id == "")
  {
    match product
    case IdString(text) => text
    case ProductObject(dbId, id) => if dbId != "" then dbId else id
    case NoProduct => ""
  }

  /** No id occurs twice. */
  predicate NoDuplicates(list: seq<string>) {
    forall i, j :: 0 <= i < j < |list| ==> list[i] != list[j]
  }

  /** `list.some(p => p._id === productId)`. */
  function Contains(list: seq<string>, productId: string): (found: bool)
    ensures found <==> productId in list
  {
    if |list| == 0 then false
    else
      assert list == [list[0]] + list[1..];
      list[0] == productId || Contains(list[1..], productId)
  }

  /** `list.filter(p => p._id !== productId)`: the other ids, in their order. */
  function Remove(list: seq<string>, productId: string): (rest: seq<string>)
    ensures productId !in rest
    ensures forall i :: 0 <= i < |rest| ==> rest[i] in list
    ensures forall i :: 0 <= i < |list| && list[i] != productId ==> list[i] in rest
    ensures productId !in list ==> rest == list
  {
    if |list| == 0 then []
    else
      var tail := Remove(list[1..], productId);
      assert forall i :: 1 <= i < |list| ==> list[i] == list[1..][i - 1];
      if list[0] != productId then [list[0]] + tail else tail
  }

  /** `isInWishlist`: false for a missing id, otherwise membership by string
      equality. */
  function IsInWishlist(list: seq<string>, productId: string): (member: bool)
    ensures member <==> productId != "" && productId in list
  {
    productId != "" && Contains(list, productId)
  }

  /** The list `syncWithBackend` leaves: unchanged without both a user and a
      token; otherwise the server's ids, or the empty list when the fetch failed. */
  function Synced(list: seq<string>, signedIn: bool, hasToken: bool, fetch: FetchOutcome): (next: seq<string>)
    ensures !(signedIn && hasToken) ==> next == list
    ensures signedIn && hasToken && fetch.Fetched? ==> next == fetch.ids
    ensures signedIn && hasToken && fetch.FetchFailed? ==> next == []
  {
    if !(signedIn && hasToken) then list
    else match fetch
      case Fetched(ids) => ids
      case FetchFailed => []
  }

  // ---------------------------------------------------------------------------
  // Properties of the pure helpers

  /** Removing keeps "no duplicate ids". */
  lemma {:induction false} RemoveKeepsNoDuplicates(list: seq<string>, productId: string)
    requires NoDuplicates(list)
    ensures NoDuplicates(Remove(list, productId))
  {
    if |list| > 0 {
      assert NoDuplicates(list[1..]);
      RemoveKeepsNoDuplicates(list[1..], productId);
      var tail := Remove(list[1..], productId);
      if list[0] != productId {
        assert list[0] !in list[1..] by {
          forall i | 0 <= i < |list[1..]| ensures list[1..][i] != list[0] {
            assert list[1..][i] == list[i + 1];
          }
        }
        var r := [list[0]] + tail;
        forall i, j | 0 <= i < j < |r| ensures r[i] != r[j] {
          assert r[j] == tail[j - 1];
          if i > 0 {
            assert r[i] == tail[i - 1];
          }
        }
      }
    }
  }

  /** Appending an id that is not yet a member keeps "no duplicate ids". */
  lemma AppendAbsentKeepsNoDuplicates(list: seq<string>, productId: string)
    requires NoDuplicates(list) && productId !in list
    ensures NoDuplicates(list + [productId])
  {
  }

  /** Removing keeps the order of the other ids: filtering a concatenation is
      concatenating the filtered parts. */
  lemma {:induction false} RemoveKeepsOrder(front: seq<string>, back: seq<string>, productId: string)
    ensures Remove(front + back, productId) == Remove(front, productId) + Remove(back, productId)
  {
    if |front| > 0 {
      assert (front + back)[1..] == front[1..] + back;
      RemoveKeepsOrder(front[1..], back, productId);
    } else {
      assert front + back == back;
    }
  }

  /** A guest add followed by a guest remove of the same new id restores the list. */
  lemma AddThenRemoveRestores(list: seq<string>, productId: string)
    requires productId !in list
    ensures Remove(list + [productId], productId) == list
  {
    RemoveKeepsOrder(list, [productId], productId);
    assert Remove([productId], productId) == [];
  }

  /** Once signed in, the backend is authoritative: the synced list does not
      depend on the list held before. */
  lemma SyncedDiscardsLocalList(before: seq<string>, other: seq<string>, hasToken: bool, fetch: FetchOutcome)
    requires hasToken
    ensures Synced(before, true, hasToken, fetch) == Synced(other, true, hasToken, fetch)
  {
  }

  /** Syncing again with the same server answer changes nothing. */
  lemma SyncedIsStable(list: seq<string>, signedIn: bool, hasToken: bool, fetch: FetchOutcome)
    ensures var once := Synced(list, signedIn, hasToken, fetch);
      Synced(once, signedIn, hasToken, fetch) == once
  {
  }

  // ---------------------------------------------------------------------------
  // The provider

  /** The wishlist provider: who is signed in, the in-memory list, and the
      "guest_wishlist" key of local storage (None when absent). */
  class WishlistProvider {
    var signedIn: bool
    var hasToken: bool
    var wishlist: seq<string>
    var stored: Option<seq<string>>

    /** Without a user, a saved guest list is the list in memory. */
    ghost predicate Valid()
      reads this
    {
      !signedIn && stored.Some? ==> wishlist == stored.value
    }

    /** Mounting: the list starts empty; without a user the guest list is loaded
        if one is saved; with a user and a token the list is fetched. */
    constructor (user: bool, token: bool, saved: Option<seq<string>>, fetch: FetchOutcome)
      ensures Valid()
      ensures signedIn == user && hasToken == token && stored == saved
      ensures !user ==> wishlist == saved.GetOr([])
      ensures user ==> wishlist == Synced([], user, token, fetch)
    {
      signedIn, hasToken, stored := user, token, saved;
      wishlist := [];
      new;
      LoadGuest();
      Sync(fetch);
    }

    /** The effect on `user`: without a user, the saved guest list (if any)
        replaces the in-memory one. */
    method LoadGuest()
      modifies this`wishlist
      ensures Valid()
      ensures !signedIn && stored.Some? ==> wishlist == stored.value
      ensures signedIn || stored.None? ==> wishlist == old(wishlist)
    {
      if !signedIn && stored.Some? {
        wishlist := stored.value;
      }
    }

    /** `syncWithBackend`: with a user and a token the server list replaces the
        in-memory one (server order, no guest entries merged); a failed fetch
        empties it; otherwise nothing happens. Local storage is not touched. */
    method Sync(fetch: FetchOutcome)
      requires Valid()
      modifies this`wishlist
      ensures Valid()
      ensures wishlist == Synced(old(wishlist), signedIn, hasToken, fetch)
    {
      wishlist := Synced(wishlist, signedIn, hasToken, fetch);
    }

    /** A change of user or token: both effects run, the guest load and the
        sync. While no user is signed in, a change of token alone leaves the
        list as it was, as the guest-load effect depending on the user alone
        would. */
    method SetAuth(user: bool, token: bool, fetch: FetchOutcome)
      requires Valid()
      modifies this
      ensures Valid()
      ensures signedIn == user && hasToken == token && stored == old(stored)
      ensures !user ==> wishlist == old(stored).GetOr(old(wishlist))
      ensures user ==> wishlist == Synced(old(wishlist), user, token, fetch)
      ensures !user && !old(signedIn) ==> wishlist == old(wishlist)
    {
      signedIn, hasToken := user, token;
      LoadGuest();
      Sync(fetch);
    }

    /** `addToWishlist`. */
    method AddToWishlist(product: ProductRef, call: CallOutcome, fetch: FetchOutcome)
      returns (notice: Notice)
      requires Valid()
      modifies this`wishlist, this`stored
      ensures Valid()
      ensures var productId := NormalizeId(product);
        productId == "" ==>
          notice == NoNotice && wishlist == old(wishlist) && stored == old(stored)
      ensures var productId := NormalizeId(product);
        productId != "" && productId in old(wishlist) ==>
          notice == AlreadyInWishlist && wishlist == old(wishlist) && stored == old(stored)
      ensures var productId := NormalizeId(product);
        productId != "" && productId !in old(wishlist) && !signedIn ==>
          notice == AddedToWishlist && wishlist == old(wishlist) + [productId] && stored == Some(wishlist)
      ensures var productId := NormalizeId(product);
        productId != "" && productId !in old(wishlist) && signedIn && call.CallFailed? ==>
          notice == FailedToAdd && wishlist == old(wishlist) && stored == old(stored)
      ensures var productId := NormalizeId(product);
        productId != "" && productId !in old(wishlist) && signedIn && call.CallOk? ==>
          && notice == AddedToWishlist
          && wishlist == Synced(old(wishlist), signedIn, hasToken, fetch)
          && stored == old(stored)
      ensures !signedIn && NoDuplicates(old(wishlist)) ==> NoDuplicates(wishlist)
    {
      var productId := NormalizeId(product);
      if productId == "" {
        return NoNotice;
      }
      if Contains(wishlist, productId) {
        return AlreadyInWishlist;
      }
      if !signedIn {
        if NoDuplicates(wishlist) {
          AppendAbsentKeepsNoDuplicates(wishlist, productId);
        }
        var updated := wishlist + [productId];
        stored := Some(updated);
        wishlist := updated;
        return AddedToWishlist;
      }
      match call
      case CallOk =>
        notice := AddedToWishlist;
        Sync(fetch);
      case CallFailed =>
        notice := FailedToAdd;
    }

    /** `removeFromWishlist`. */
    method RemoveFromWishlist(productId: string, call: CallOutcome, fetch: FetchOutcome)
      returns (notice: Notice)
      requires Valid()
      modifies this`wishlist, this`stored
      ensures Valid()
      ensures !signedIn ==>
        && notice == RemovedFromWishlist
        && wishlist == Remove(old(wishlist), productId)
        && productId !in wishlist
        && stored == Some(wishlist)
      ensures !signedIn && productId !in old(wishlist) ==> wishlist == old(wishlist)
      ensures !signedIn && NoDuplicates(old(wishlist)) ==> NoDuplicates(wishlist)
      ensures signedIn && call.CallFailed? ==>
        notice == FailedToRemove && wishlist == old(wishlist) && stored == old(stored)
      ensures signedIn && call.CallOk? ==>
        && notice == RemovedFromWishlist
        && wishlist == Synced(old(wishlist), signedIn, hasToken, fetch)
        && stored == old(stored)
    {
      if !signedIn {
        if NoDuplicates(wishlist) {
          RemoveKeepsNoDuplicates(wishlist, productId);
        }
        var updated := Remove(wishlist, productId);
        stored := Some(updated);
        wishlist := updated;
        return RemovedFromWishlist;
      }
      match call
      case CallOk =>
        notice := RemovedFromWishlist;
        Sync(fetch);
      case CallFailed =>
        notice := FailedToRemove;
    }

    /** `toggleWishlist`: removes a member, adds a non-member, ignores a missing id. */
    method ToggleWishlist(product: ProductRef, call: CallOutcome, fetch: FetchOutcome)
      returns (notice: Notice)
      requires Valid()
      modifies this`wishlist, this`stored
      ensures Valid()
      ensures var productId := NormalizeId(product);
        productId == "" ==>
          notice == NoNotice && wishlist == old(wishlist) && stored == old(stored)
      ensures var productId := NormalizeId(product);
        productId != "" && !signedIn && productId in old(wishlist) ==>
          && notice == RemovedFromWishlist
          && wishlist == Remove(old(wishlist), productId)
          && !IsInWishlist(wishlist, productId)
          && stored == Some(wishlist)
      ensures var productId := NormalizeId(product);
        productId != "" && !signedIn && productId !in old(wishlist) ==>
          && notice == AddedToWishlist
          && wishlist == old(wishlist) + [productId]
          && IsInWishlist(wishlist, productId)
          && stored == Some(wishlist)
      ensures var productId := NormalizeId(product);
        productId != "" && signedIn && call.CallFailed? ==>
          && notice == (if productId in old(wishlist) then FailedToRemove else FailedToAdd)
          && wishlist == old(wishlist)
          && stored == old(stored)
      ensures var productId := NormalizeId(product);
        productId != "" && signedIn && call.CallOk? ==>
          && notice == (if productId in old(wishlist) then RemovedFromWishlist else AddedToWishlist)
          && wishlist == Synced(old(wishlist), signedIn, hasToken, fetch)
          && stored == old(stored)
      ensures !signedIn && NoDuplicates(old(wishlist)) ==> NoDuplicates(wishlist)
    {
      var productId := NormalizeId(product);
      if productId == "" {
        return NoNotice;
      }
      if Contains(wishlist, productId) {
        notice := RemoveFromWishlist(productId, call, fetch);
      } else {
        notice := AddToWishlist(IdString(productId), call, fetch);
      }
    }
  }
}
