/**
 * The storefront's cart: a list of entries, each a product id with its name,
 * unit price (integer cents) and quantity, and the updaters the cart
 * provider applies to it (add, remove, increase, decrease, clear), with the
 * cart total shown beside it.
 */
module Cart {
  /** One cart entry. */
  datatype CartItem = CartItem(id: int, name: string, price: int, quantity: int)

  type Items = seq<CartItem>

  /** Some entry has id `id`. */
  predicate Has(c: Items, id: int)
  {
    exists i :: 0 <= i < |c| && c[i].id == id
  }

  /** No two entries share an id. */
  predicate UniqueIds(c: Items)
  {
    forall i, j :: 0 <= i < j < |c| ==> c[i].id != c[j].id
  }

  /** Every entry has a positive quantity. */
  predicate AllPositive(c: Items)
  {
    forall i :: 0 <= i < |c| ==> c[i].quantity > 0
  }

  /** Adds `d` to the quantity of every entry with id `id`, in place in the list. */
  function Bump(c: Items, id: int, d: int): (r: Items)
    ensures |r| == |c|
    ensures forall i :: 0 <= i < |c| ==> r[i].id == c[i].id && r[i].name == c[i].name && r[i].price == c[i].price
    ensures forall i :: 0 <= i < |c| ==> r[i].quantity == c[i].quantity + (if c[i].id == id then d else 0)
  {
    seq(|c|, i requires 0 <= i < |c| => if c[i].id == id then c[i].(quantity := c[i].quantity + d) else c[i])
  }

  /**
   * `add`: when the cart already holds the item's id, that entry's quantity
   * grows by the item's quantity (its name and price stay as they were);
   * otherwise the item is appended at the end.
   */
  function Add(c: Items, item: CartItem): (r: Items)
    ensures Has(c, item.id) ==> r == Bump(c, item.id, item.quantity)
    ensures !Has(c, item.id) ==> r == c + [item]
  {
    if Has(c, item.id) then Bump(c, item.id, item.quantity) else c + [item]
  }

  /** `remove`: drops every entry with id `id` and keeps the others, in order. */
  function Remove(c: Items, id: int): (r: Items)
    ensures |r| <= |c|
    ensures forall x :: x in r <==> x in c && x.id != id
  {
    if c == [] then []
    else (if c[0].id != id then [c[0]] else []) + Remove(c[1..], id)
  }

  /** `increase`: one more of every entry with id `id`. */
  function Increase(c: Items, id: int): (r: Items)
    ensures r == Bump(c, id, 1)
  {
    Bump(c, id, 1)
  }

  /** The entries with a positive quantity, in order. */
  function Positive(c: Items): (r: Items)
    ensures |r| <= |c|
    ensures forall x :: x in r <==> x in c && x.quantity > 0
  {
    if c == [] then []
    else (if c[0].quantity > 0 then [c[0]] else []) + Positive(c[1..])
  }

  /**
   * `decrease`: one fewer of every entry with id `id`, then every entry whose
   * quantity is not positive is dropped, whichever id it has.
   */
  function Decrease(c: Items, id: int): (r: Items)
    ensures AllPositive(r)
    ensures forall x :: x in r <==> x in Bump(c, id, -1) && x.quantity > 0
  {
    var r := Positive(Bump(c, id, -1));
    assert forall i :: 0 <= i < |r| ==> r[i] in r;
    r
  }

  /** `clear`: the empty cart, whose total is zero. */
  function Clear(): (r: Items)
    ensures r == [] && Total(r) == 0
  {
    []
  }

  /** What one entry adds to the total. */
  function Subtotal(x: CartItem): int
  {
    x.price * x.quantity
  }

  /** The cart total: a left-to-right fold of price times quantity, starting at zero. */
  function Total(c: Items): int
  {
    if c == [] then 0 else Total(c[..|c| - 1]) + Subtotal(c[|c| - 1])
  }

  /** The same sum taken from the front, as a reference for `Total`. */
  function Sum(c: Items): int
  {
    if c == [] then 0 else Subtotal(c[0]) + Sum(c[1..])
  }

  // ---------------------------------------------------------------------
  // Totals
  // ---------------------------------------------------------------------

  /** The total of two carts laid end to end is the sum of their totals. */
  lemma {:induction false} TotalAppend(a: Items, b: Items)
    ensures Total(a + b) == Total(a) + Total(b)
    decreases |b|
  {
    if b == [] {
      assert a + b == a;
    } else {
      var n := |b| - 1;
      assert (a + b)[..|a + b| - 1] == a + b[..n];
      TotalAppend(a, b[..n]);
    }
  }

  /** The fold the cart provider computes is the plain sum of price times quantity over the entries. */
  lemma {:induction false} TotalIsSum(c: Items)
    ensures Total(c) == Sum(c)
    decreases |c|
  {
    if c != [] {
      TotalIsSum(c[1..]);
      TotalAppend([c[0]], c[1..]);
      assert [c[0]] + c[1..] == c;
      assert [c[0]][..0] == [];
    }
  }

  /** The prices of the entries with id `id`, added up (in a cart with unique ids, that entry's price). */
  function PriceOf(c: Items, id: int): int
  {
    if c == [] then 0 else (if c[0].id == id then c[0].price else 0) + PriceOf(c[1..], id)
  }

  /** In a cart with unique ids, `PriceOf` is the price of the one entry with that id, and 0 without one. */
  lemma {:induction false} PriceOfUnique(c: Items, id: int)
    requires UniqueIds(c)
    ensures !Has(c, id) ==> PriceOf(c, id) == 0
    ensures forall i :: 0 <= i < |c| && c[i].id == id ==> PriceOf(c, id) == c[i].price
    decreases |c|
  {
    if c != [] {
      var tail := c[1..];
      assert UniqueIds(tail) by {
        forall i, j | 0 <= i < j < |tail| ensures tail[i].id != tail[j].id {
          assert tail[i] == c[i + 1] && tail[j] == c[j + 1];
        }
      }
      PriceOfUnique(tail, id);
      forall i | 0 <= i < |tail| && tail[i].id == id ensures Has(c, id) {
        assert c[i + 1] == tail[i];
      }
      if c[0].id == id {
        assert !Has(tail, id) by {
          forall i | 0 <= i < |tail| ensures tail[i].id != id {
            assert tail[i] == c[i + 1];
          }
        }
      } else {
        forall i | 0 <= i < |c| && c[i].id == id ensures PriceOf(c, id) == c[i].price {
          assert c[i] == tail[i - 1];
        }
      }
    }
  }

  /** Adding `d` to the quantity of every entry with id `id` moves the total by `d` times their prices. */
  lemma {:induction false} TotalOfBump(c: Items, id: int, d: int)
    ensures Sum(Bump(c, id, d)) == Sum(c) + d * PriceOf(c, id)
    decreases |c|
  {
    if c != [] {
      assert Bump(c, id, d)[1..] == Bump(c[1..], id, d);
      TotalOfBump(c[1..], id, d);
      if c[0].id == id {
        calc {
          Subtotal(Bump(c, id, d)[0]);
          c[0].price * (c[0].quantity + d);
          Subtotal(c[0]) + d * c[0].price;
        }
      }
    }
  }

  /**
   * After `add`, the total grows by the item's quantity times a price: the
   * price of the entry already in the cart when there is one (not the
   * item's own price), and the item's price when it was appended.
   */
  lemma TotalOfAdd(c: Items, item: CartItem)
    requires UniqueIds(c)
    ensures !Has(c, item.id) ==> Total(Add(c, item)) == Total(c) + item.price * item.quantity
    ensures forall i :: 0 <= i < |c| && c[i].id == item.id ==>
              Total(Add(c, item)) == Total(c) + c[i].price * item.quantity
  {
    TotalIsSum(c);
    TotalIsSum(Add(c, item));
    PriceOfUnique(c, item.id);
    if Has(c, item.id) {
      TotalOfBump(c, item.id, item.quantity);
      var p := PriceOf(c, item.id);
      assert Total(Add(c, item)) == Total(c) + item.quantity * p;
      forall i | 0 <= i < |c| && c[i].id == item.id
        ensures Total(Add(c, item)) == Total(c) + c[i].price * item.quantity
      {
        assert p == c[i].price;
      }
    } else {
      TotalAppend(c, [item]);
      assert [item][..0] == [];
    }
  }

  /** After `increase` of an id in the cart, the total grows by that entry's price. */
  lemma TotalOfIncrease(c: Items, id: int)
    requires UniqueIds(c)
    ensures !Has(c, id) ==> Total(Increase(c, id)) == Total(c)
    ensures forall i :: 0 <= i < |c| && c[i].id == id ==> Total(Increase(c, id)) == Total(c) + c[i].price
  {
    TotalIsSum(c);
    TotalIsSum(Increase(c, id));
    TotalOfBump(c, id, 1);
    PriceOfUnique(c, id);
  }

  // ---------------------------------------------------------------------
  // Order and identity
  // ---------------------------------------------------------------------

  /** `remove` works entry by entry, so it keeps the relative order of what it keeps. */
  lemma {:induction false} RemoveAppend(a: Items, b: Items, id: int)
    ensures Remove(a + b, id) == Remove(a, id) + Remove(b, id)
    decreases |a|
  {
    if a == [] {
      assert a + b == b;
    } else {
      assert (a + b)[1..] == a[1..] + b;
      RemoveAppend(a[1..], b, id);
    }
  }

  /** The non-positive filter works entry by entry, so it keeps the relative order of what it keeps. */
  lemma {:induction false} PositiveAppend(a: Items, b: Items)
    ensures Positive(a + b) == Positive(a) + Positive(b)
    decreases |a|
  {
    if a == [] {
      assert a + b == b;
    } else {
      assert (a + b)[1..] == a[1..] + b;
      PositiveAppend(a[1..], b);
    }
  }

  /** Bumping quantities works entry by entry, so it distributes over concatenation. */
  lemma BumpAppend(a: Items, b: Items, id: int, d: int)
    ensures Bump(a + b, id, d) == Bump(a, id, d) + Bump(b, id, d)
  {
  }

  /**
   * `decrease` works entry by entry: on two carts laid end to end it is the
   * two results laid end to end, so the entries it keeps stay in their
   * original order.
   */
  lemma DecreaseAppend(a: Items, b: Items, id: int)
    ensures Decrease(a + b, id) == Decrease(a, id) + Decrease(b, id)
  {
    BumpAppend(a, b, id, -1);
    PositiveAppend(Bump(a, id, -1), Bump(b, id, -1));
  }

  /** On a single entry, `decrease` keeps it, one fewer, exactly when it stays positive. */
  lemma DecreaseOne(x: CartItem, id: int)
    ensures Decrease([x], id) == (if x.id == id then
                                    (if x.quantity - 1 > 0 then [x.(quantity := x.quantity - 1)] else [])
                                  else if x.quantity > 0 then [x] else [])
  {
    var b := Bump([x], id, -1);
    assert b == [if x.id == id then x.(quantity := x.quantity - 1) else x];
    assert b[1..] == [];
  }

  /** Removing an id the cart does not hold changes nothing. */
  lemma {:induction false} RemoveAbsent(c: Items, id: int)
    requires !Has(c, id)
    ensures Remove(c, id) == c
    decreases |c|
  {
    if c != [] {
      assert !Has(c[1..], id) by {
        forall i | 0 <= i < |c| - 1 ensures c[1..][i].id != id {
          assert c[1..][i] == c[i + 1];
        }
      }
      RemoveAbsent(c[1..], id);
    }
  }

  /** A cart of positive entries goes through the non-positive filter unchanged. */
  lemma {:induction false} PositiveOfPositive(c: Items)
    requires AllPositive(c)
    ensures Positive(c) == c
    decreases |c|
  {
    if c != [] {
      assert AllPositive(c[1..]) by {
        forall i | 0 <= i < |c| - 1 ensures c[1..][i].quantity > 0 {
          assert c[1..][i] == c[i + 1];
        }
      }
      PositiveOfPositive(c[1..]);
    }
  }

  /**
   * `decrease` undoes `increase` on a cart whose entries all have a positive
   * quantity. (The filter in `decrease` drops every non-positive entry, so a
   * cart holding one is not given back.)
   */
  lemma DecreaseUndoesIncrease(c: Items, id: int)
    requires AllPositive(c)
    ensures Decrease(Increase(c, id), id) == c
  {
    assert Bump(Bump(c, id, 1), id, -1) == c;
    PositiveOfPositive(c);
  }

  /** `remove` keeps ids unique. */
  lemma {:induction false} RemoveKeepsUnique(c: Items, id: int)
    requires UniqueIds(c)
    ensures UniqueIds(Remove(c, id))
    decreases |c|
  {
    if c != [] {
      var tail := c[1..];
      assert UniqueIds(tail) by {
        forall i, j | 0 <= i < j < |tail| ensures tail[i].id != tail[j].id {
          assert tail[i] == c[i + 1] && tail[j] == c[j + 1];
        }
      }
      RemoveKeepsUnique(tail, id);
      var rest := Remove(tail, id);
      forall k | 0 <= k < |rest| ensures rest[k].id != c[0].id {
        assert rest[k] in tail;
        var m :| 0 <= m < |tail| && tail[m] == rest[k];
        assert tail[m] == c[m + 1];
      }
    }
  }

  /** Dropping the non-positive entries keeps ids unique. */
  lemma {:induction false} PositiveKeepsUnique(c: Items)
    requires UniqueIds(c)
    ensures UniqueIds(Positive(c))
    decreases |c|
  {
    if c != [] {
      var tail := c[1..];
      assert UniqueIds(tail) by {
        forall i, j | 0 <= i < j < |tail| ensures tail[i].id != tail[j].id {
          assert tail[i] == c[i + 1] && tail[j] == c[j + 1];
        }
      }
      PositiveKeepsUnique(tail);
      var rest := Positive(tail);
      forall k | 0 <= k < |rest| ensures rest[k].id != c[0].id {
        assert rest[k] in tail;
        var m :| 0 <= m < |tail| && tail[m] == rest[k];
        assert tail[m] == c[m + 1];
      }
    }
  }

  /** `add` keeps ids unique: it merges into the entry with the same id or appends a new id. */
  lemma AddKeepsUnique(c: Items, item: CartItem)
    requires UniqueIds(c)
    ensures UniqueIds(Add(c, item))
  {
  }

  /** `decrease` keeps ids unique. */
  lemma DecreaseKeepsUnique(c: Items, id: int)
    requires UniqueIds(c)
    ensures UniqueIds(Decrease(c, id))
  {
    PositiveKeepsUnique(Bump(c, id, -1));
  }

  /** One call of an updater, as the cart provider receives it. */
  datatype Action = AddItem(item: CartItem) | RemoveItem(id: int) | IncreaseItem(id: int)
                  | DecreaseItem(id: int) | ClearCart

  /** The cart after one action. */
  function Apply(c: Items, a: Action): Items
  {
    match a
    case AddItem(item) => Add(c, item)
    case RemoveItem(id) => Remove(c, id)
    case IncreaseItem(id) => Increase(c, id)
    case DecreaseItem(id) => Decrease(c, id)
    case ClearCart => Clear()
  }

  /** The cart after a run of actions, applied in order. */
  function Replay(c: Items, actions: seq<Action>): Items
    decreases |actions|
  {
    if actions == [] then c else Replay(Apply(c, actions[0]), actions[1..])
  }

  /** Every updater keeps ids unique. */
  lemma ApplyKeepsUnique(c: Items, a: Action)
    requires UniqueIds(c)
    ensures UniqueIds(Apply(c, a))
  {
    match a
    case AddItem(item) => AddKeepsUnique(c, item);
    case RemoveItem(id) => RemoveKeepsUnique(c, id);
    case IncreaseItem(id) =>
    case DecreaseItem(id) => DecreaseKeepsUnique(c, id);
    case ClearCart =>
  }

  /** Starting from the empty cart, no run of updates ever puts two entries under one id. */
  lemma {:induction false} ReplayKeepsUnique(c: Items, actions: seq<Action>)
    requires UniqueIds(c)
    ensures UniqueIds(Replay(c, actions))
    decreases |actions|
  {
    if actions != [] {
      ApplyKeepsUnique(c, actions[0]);
      ReplayKeepsUnique(Apply(c, actions[0]), actions[1..]);
    }
  }

  /** The cart the provider starts with, updated by any run of actions, has unique ids. */
  lemma CartIdsStayUnique(actions: seq<Action>)
    ensures UniqueIds(Replay([], actions))
  {
    ReplayKeepsUnique([], actions);
  }
}
