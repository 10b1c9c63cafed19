/**
 * The wishlist of the client-side store (frontend/store/useStore.js) as a
 * value: an ordered list of product snapshots keyed by product id.
 */
module Wishlist {
  import opened CartLines
  import opened Seqs

  /** `isInWishlist(productId)`: `wishlist.some(item => item.id === productId)`. */
  predicate InWishlist(wishlist: seq<Product>, productId: int)
  {
    exists i | 0 <= i < |wishlist| :: wishlist[i].id == productId
  }

  /** At most one entry per product id. */
  predicate UniqueIds(wishlist: seq<Product>)
  {
    forall i, j | 0 <= i < j < |wishlist| :: wishlist[i].id != wishlist[j].id
  }

  /** `addToWishlist(product)`: appends only when no entry has the product's id. */
  function AddToWishlist(wishlist: seq<Product>, product: Product): (added: seq<Product>)
    ensures |wishlist| <= |added| <= |wishlist| + 1
    ensures added[..|wishlist|] == wishlist
  {
    if InWishlist(wishlist, product.id) then wishlist else wishlist + [product]
  }

  /** The filter callback `item => item.id !== productId`. */
  function OtherProduct(productId: int): Product -> bool
  {
    (p: Product) => p.id != productId
  }

  /** `removeFromWishlist(productId)`. */
  function RemoveFromWishlist(wishlist: seq<Product>, productId: int): (kept: seq<Product>)
    ensures |kept| <= |wishlist|
    ensures IsSubsequence(kept, wishlist)
  {
    FilterIsSubsequence(wishlist, OtherProduct(productId));
    Filter(wishlist, OtherProduct(productId))
  }

  /**
   * After adding a product it is in the wishlist; when an entry with its id
   * was already there the wishlist is unchanged (the first snapshot wins),
   * otherwise the product is appended.
   */
  lemma AddedIsIn(wishlist: seq<Product>, product: Product)
    ensures InWishlist(AddToWishlist(wishlist, product), product.id)
    ensures InWishlist(wishlist, product.id) ==> AddToWishlist(wishlist, product) == wishlist
    ensures !InWishlist(wishlist, product.id) ==> AddToWishlist(wishlist, product) == wishlist + [product]
  {
    if !InWishlist(wishlist, product.id) {
      var w := wishlist + [product];
      assert w[|wishlist|].id == product.id;
    }
  }

  /** Adding the same product twice is adding it once. */
  lemma AddTwice(wishlist: seq<Product>, product: Product)
    ensures AddToWishlist(AddToWishlist(wishlist, product), product) == AddToWishlist(wishlist, product)
  {
    AddedIsIn(wishlist, product);
  }

  /** `addToWishlist` never creates a second entry with the same id. */
  lemma AddKeepsUnique(wishlist: seq<Product>, product: Product)
    requires UniqueIds(wishlist)
    ensures UniqueIds(AddToWishlist(wishlist, product))
  {
    if !InWishlist(wishlist, product.id) {
      var w := wishlist + [product];
      forall i, j | 0 <= i < j < |w| ensures w[i].id != w[j].id {
        if j == |wishlist| {
          assert w[i] == wishlist[i];
        }
      }
    }
  }

  /** After removing an id no entry has it; the membership of every other id is unchanged. */
  lemma RemovedIsOut(wishlist: seq<Product>, productId: int)
    ensures !InWishlist(RemoveFromWishlist(wishlist, productId), productId)
    ensures forall k :: k != productId ==>
      (InWishlist(RemoveFromWishlist(wishlist, productId), k) <==> InWishlist(wishlist, k))
  {
    var r := RemoveFromWishlist(wishlist, productId);
    forall i | 0 <= i < |r| ensures r[i].id != productId {
      assert r[i] in r;
    }
    forall k | k != productId
      ensures InWishlist(r, k) <==> InWishlist(wishlist, k)
    {
      if InWishlist(wishlist, k) {
        var i :| 0 <= i < |wishlist| && wishlist[i].id == k;
        assert wishlist[i] in r;
        var j :| 0 <= j < |r| && r[j] == wishlist[i];
      }
      if InWishlist(r, k) {
        var i :| 0 <= i < |r| && r[i].id == k;
        assert r[i] in wishlist;
        var j :| 0 <= j < |wishlist| && wishlist[j] == r[i];
      }
    }
  }

  /** With unique ids, the tail of the wishlist holds no entry with the head's id. */
  lemma HeadNotInTail(wishlist: seq<Product>)
    requires UniqueIds(wishlist) && wishlist != []
    ensures UniqueIds(wishlist[1..])
    ensures !InWishlist(wishlist[1..], wishlist[0].id)
  {
    var rest := wishlist[1..];
    forall i | 0 <= i < |rest| ensures rest[i] == wishlist[i + 1] {
    }
  }

  /** `removeFromWishlist` keeps one entry per id. */
  lemma {:induction false} RemoveKeepsUnique(wishlist: seq<Product>, productId: int)
    requires UniqueIds(wishlist)
    ensures UniqueIds(RemoveFromWishlist(wishlist, productId))
    decreases |wishlist|
  {
    if wishlist != [] {
      var head, rest := wishlist[0], wishlist[1..];
      HeadNotInTail(wishlist);
      RemoveKeepsUnique(rest, productId);
      var tail := RemoveFromWishlist(rest, productId);
      if OtherProduct(productId)(head) {
        var r := [head] + tail;
        assert RemoveFromWishlist(wishlist, productId) == r;
        forall j | 0 <= j < |tail| ensures tail[j].id != head.id {
          assert tail[j] in tail;
          var k :| 0 <= k < |rest| && rest[k] == tail[j];
        }
        forall i, j | 0 <= i < j < |r| ensures r[i].id != r[j].id {
          assert r[j] == tail[j - 1];
          if i > 0 {
            assert r[i] == tail[i - 1];
          }
        }
      } else {
        assert RemoveFromWishlist(wishlist, productId) == tail;
      }
    }
  }

}
