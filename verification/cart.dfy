/** The product cart: an ordered list of products in which membership is decided by
    the product id alone. */
module Cart {

  datatype Product = Product(id: int, title: string, price: string, desc: string)

  /** `cart.find(p => p.id === id)` is truthy: some entry carries this id. */
  predicate InCart(cart: seq<Product>, id: int)
  {
    exists k :: 0 <= k < |cart| && cart[k].id == id
  }

  /** No two entries share an id. */
  predicate NoDupIds(cart: seq<Product>)
  {
    forall i, j :: 0 <= i < j < |cart| ==> cart[i].id != cart[j].id
  }

  /** `cart.filter(p => p.id !== id)`: every entry with this id is gone and every
      other entry stays; the cart is shorter exactly when the id was in it. */
  function RemoveId(cart: seq<Product>, id: int): (r: seq<Product>)
    ensures forall q :: q in r <==> q in cart && q.id != id
    ensures |r| < |cart| <==> InCart(cart, id)
    ensures !InCart(cart, id) ==> r == cart
  {
    if cart == [] then []
    else
      var rest := RemoveId(cart[1..], id);
      assert forall q :: q in cart <==> q == cart[0] || q in cart[1..];
      InCartCons(cart, id);
      if cart[0].id == id then rest
      else
        assert cart == [cart[0]] + cart[1..];
        [cart[0]] + rest
  }

  /** Distinct ids stay distinct in the tail of a cart. */
  lemma NoDupTail(cart: seq<Product>)
    requires NoDupIds(cart) && cart != []
    ensures NoDupIds(cart[1..])
    ensures forall k :: 0 <= k < |cart[1..]| ==> cart[1..][k].id != cart[0].id
  {
    forall i, j | 0 <= i < j < |cart[1..]| ensures cart[1..][i].id != cart[1..][j].id {
      assert cart[1..][i] == cart[i + 1] && cart[1..][j] == cart[j + 1];
    }
    forall k | 0 <= k < |cart[1..]| ensures cart[1..][k].id != cart[0].id {
      assert cart[1..][k] == cart[k + 1];
    }
  }

  /** Putting an entry with a new id in front keeps the ids distinct. */
  lemma NoDupCons(x: Product, rest: seq<Product>)
    requires NoDupIds(rest)
    requires forall k :: 0 <= k < |rest| ==> rest[k].id != x.id
    ensures NoDupIds([x] + rest)
  {
    var r := [x] + rest;
    forall i, j | 0 <= i < j < |r| ensures r[i].id != r[j].id {
      assert r[j] == rest[j - 1];
      if i > 0 {
        assert r[i] == rest[i - 1];
      }
    }
  }

  /** An id is in a non-empty cart when it is the head's or is in the tail. */
  lemma InCartCons(cart: seq<Product>, id: int)
    requires cart != []
    ensures InCart(cart, id) <==> cart[0].id == id || InCart(cart[1..], id)
  {
    if InCart(cart, id) {
      var k :| 0 <= k < |cart| && cart[k].id == id;
      if k > 0 {
        assert cart[1..][k - 1] == cart[k];
      }
    }
    if InCart(cart[1..], id) {
      var k :| 0 <= k < |cart[1..]| && cart[1..][k].id == id;
      assert cart[k + 1] == cart[1..][k];
    }
  }

  /** Removing an id keeps the ids of a cart distinct. */
  lemma {:induction false} RemoveIdKeepsNoDup(cart: seq<Product>, id: int)
    requires NoDupIds(cart)
    ensures NoDupIds(RemoveId(cart, id))
  {
    if cart != [] {
      NoDupTail(cart);
      RemoveIdKeepsNoDup(cart[1..], id);
      if cart[0].id != id {
        var rest := RemoveId(cart[1..], id);
        forall j | 0 <= j < |rest| ensures rest[j].id != cart[0].id {
          assert rest[j] in cart[1..];
        }
        NoDupCons(cart[0], rest);
      }
    }
  }

  /** Removal works piecewise, so the entries that stay keep their relative order. */
  lemma {:induction false} RemoveIdAppend(a: seq<Product>, b: seq<Product>, id: int)
    ensures RemoveId(a + b, id) == RemoveId(a, id) + RemoveId(b, id)
  {
    if a == [] {
      assert a + b == b;
    } else {
      assert (a + b)[0] == a[0];
      assert (a + b)[1..] == a[1..] + b;
      RemoveIdAppend(a[1..], b, id);
    }
  }

  /** In a cart with distinct ids, removing the id of entry `k` cuts out exactly that
      entry. */
  lemma {:induction false} RemoveIdAt(cart: seq<Product>, k: int)
    requires NoDupIds(cart) && 0 <= k < |cart|
    ensures RemoveId(cart, cart[k].id) == cart[..k] + cart[k + 1..]
  {
    var id, left, right := cart[k].id, cart[..k], cart[k + 1..];
    assert cart == left + [cart[k]] + right;
    assert !InCart(left, id) by {
      forall j | 0 <= j < |left| ensures left[j].id != id {
        assert left[j] == cart[j];
      }
    }
    assert !InCart(right, id) by {
      forall j | 0 <= j < |right| ensures right[j].id != id {
        assert right[j] == cart[k + 1 + j];
      }
    }
    assert RemoveId([cart[k]], id) == [] by {
      assert [cart[k]][1..] == [];
    }
    RemoveIdAppend(left + [cart[k]], right, id);
    RemoveIdAppend(left, [cart[k]], id);
  }

  /** `toggleCart(p)`'s updater: filter out every entry with `p`'s id when there is
      one (the others stay, in order), otherwise append `p`. Afterwards `p`'s id is in the cart exactly when it was not
      before, no other id changes its membership, and distinct ids stay distinct. */
  function Toggle(cart: seq<Product>, p: Product): (r: seq<Product>)
    ensures InCart(r, p.id) <==> !InCart(cart, p.id)
    ensures forall id :: id != p.id ==> (InCart(r, id) <==> InCart(cart, id))
    ensures InCart(cart, p.id) ==> r == RemoveId(cart, p.id) && |r| < |cart|
    ensures !InCart(cart, p.id) ==> |r| == |cart| + 1 && r[|cart|] == p && r[..|cart|] == cart
    ensures NoDupIds(cart) ==> NoDupIds(r)
  {
    if InCart(cart, p.id) then
      var r := RemoveId(cart, p.id);
      assert forall id :: id != p.id ==> (InCart(r, id) <==> InCart(cart, id)) by {
        forall id | id != p.id ensures InCart(r, id) <==> InCart(cart, id) {
          if InCart(cart, id) {
            var k :| 0 <= k < |cart| && cart[k].id == id;
            assert cart[k] in r;
          }
          if InCart(r, id) {
            var k :| 0 <= k < |r| && r[k].id == id;
            assert r[k] in cart;
          }
        }
      }
      assert NoDupIds(cart) ==> NoDupIds(r) by {
        if NoDupIds(cart) {
          RemoveIdKeepsNoDup(cart, p.id);
        }
      }
      r
    else
      var r := cart + [p];
      assert InCart(r, p.id) by { assert r[|cart|] == p; }
      assert forall id :: InCart(r, id) <==> InCart(cart, id) || id == p.id by {
        forall id ensures InCart(r, id) <==> InCart(cart, id) || id == p.id {
          if InCart(cart, id) {
            var k :| 0 <= k < |cart| && cart[k].id == id;
            assert r[k] == cart[k];
          }
        }
      }
      assert NoDupIds(cart) ==> NoDupIds(r) by {
        if NoDupIds(cart) {
          forall i, j | 0 <= i < j < |r| ensures r[i].id != r[j].id {
            if j == |cart| {
              assert r[i] == cart[i];
            } else {
              assert r[i] == cart[i] && r[j] == cart[j];
            }
          }
        }
      }
      r
  }

  /** Toggling an absent product twice gives back the original cart. */
  lemma {:induction false} ToggleAbsentTwice(cart: seq<Product>, p: Product)
    requires !InCart(cart, p.id)
    ensures Toggle(Toggle(cart, p), p) == cart
  {
    RemoveIdAppend(cart, [p], p.id);
    assert [p][1..] == [];
  }

  /** Toggling a present product twice removes its entries and then appends `p` at the
      end, behind every other entry. */
  lemma {:induction false} TogglePresentTwice(cart: seq<Product>, p: Product)
    requires InCart(cart, p.id)
    ensures Toggle(Toggle(cart, p), p) == RemoveId(cart, p.id) + [p]
  {
  }

  /** Toggle is not its own inverse: with two products of different ids in the cart,
      toggling the first one twice moves it behind the second. */
  lemma {:induction false} ToggleTwiceReorders(a: Product, b: Product)
    requires a.id != b.id
    ensures Toggle(Toggle([a, b], a), a) == [b, a] != [a, b]
  {
    var cart := [a, b];
    assert cart[0] == a && cart[1] == b;
    assert InCart(cart, a.id);
    TogglePresentTwice(cart, a);
    RemoveIdAt(cart, 0);
    assert cart[..0] + cart[1..] == [b];
  }
}
