/**
 * The inventory service: a products table keyed by id, and the handlers that
 * update it in place (price update, single and bulk insert, refill, reserve,
 * release). Prices are integer cents.
 *
 * The table operations are first given as functions on `Table` values (the
 * order service's checkout model applies them too); the class `ProductTable`
 * holds the live table and its methods are proved to update it exactly as
 * those functions say.
 */
module InventoryService {
  import opened Wrappers

  type ProductId = int

  /** A row of the products table. */
  datatype Product = Product(name: string, price: int, stock: int)

  /** The body of a product-creation request. */
  datatype ProductCreate = ProductCreate(name: string, price: int, stock: int)

  /** The products table: product id to row. */
  type Table = map<ProductId, Product>

  /** The `status` of a reservation reply; a granted one carries the product's price. */
  datatype ReserveReply = Reserved(price: int) | OutOfStock

  /** The only error the handlers raise: HTTP 404 for an unknown product id. */
  datatype Failure = NotFound

  /** The row a creation request inserts. */
  function AsProduct(p: ProductCreate): (r: Product)
    ensures r.name == p.name && r.price == p.price && r.stock == p.stock
  {
    Product(p.name, p.price, p.stock)
  }

  /** `list_products`, as the checkout uses it: the price of every product in the table. */
  function Prices(t: Table): (r: map<ProductId, int>)
    ensures r.Keys == t.Keys
    ensures forall id :: id in t ==> r[id] == t[id].price
  {
    map id | id in t :: t[id].price
  }

  // ---------------------------------------------------------------------
  // Stock arithmetic on table values
  // ---------------------------------------------------------------------

  /** Takes `qty` off the stock of `pid`; a table without `pid` is left as it is. */
  function Withdraw(t: Table, pid: ProductId, qty: int): (r: Table)
    ensures r.Keys == t.Keys
    ensures pid in t ==> r[pid] == t[pid].(stock := t[pid].stock - qty)
    ensures forall id :: id in t && id != pid ==> r[id] == t[id]
  {
    if pid in t then t[pid := t[pid].(stock := t[pid].stock - qty)] else t
  }

  /** Puts `qty` back on the stock of `pid`; a table without `pid` is left as it is. */
  function Deposit(t: Table, pid: ProductId, qty: int): (r: Table)
    ensures r.Keys == t.Keys
    ensures pid in t ==> r[pid] == t[pid].(stock := t[pid].stock + qty)
    ensures forall id :: id in t && id != pid ==> r[id] == t[id]
  {
    if pid in t then t[pid := t[pid].(stock := t[pid].stock + qty)] else t
  }

  /** Withdrawing and then depositing the same quantity gives the table back. */
  lemma DepositUndoesWithdraw(t: Table, pid: ProductId, qty: int)
    ensures Deposit(Withdraw(t, pid, qty), pid, qty) == t
  {
    if pid in t {
      assert Deposit(Withdraw(t, pid, qty), pid, qty)[pid] == t[pid];
    }
  }

  // ---------------------------------------------------------------------
  // The handlers, as functions from the table before to the reply and the table after
  // ---------------------------------------------------------------------

  /**
   * `reserve_stock`: refuses when the stock is below `qty`, otherwise takes
   * `qty` off and replies with the product's price. The handler reads the
   * row without checking that it exists, so callers must name a product
   * that does.
   */
  function Reserve(t: Table, pid: ProductId, qty: int): (r: (ReserveReply, Table))
    requires pid in t
    ensures r.0 == OutOfStock <==> t[pid].stock < qty
    ensures r.0 == OutOfStock ==> r.1 == t
    ensures r.0.Reserved? ==> r.0.price == t[pid].price && r.1 == Withdraw(t, pid, qty)
    ensures r.0.Reserved? && 0 <= qty ==> 0 <= r.1[pid].stock <= t[pid].stock
  {
    if t[pid].stock < qty then (OutOfStock, t)
    else (Reserved(t[pid].price), Withdraw(t, pid, qty))
  }

  /** `release`: 404 for an unknown product, otherwise puts `qty` back on its stock. */
  function Release(t: Table, pid: ProductId, qty: int): (r: Result<Table, Failure>)
    ensures r.Failure? <==> pid !in t
    ensures r.Success? ==> r.value == Deposit(t, pid, qty)
  {
    if pid !in t then Failure(NotFound) else Success(Deposit(t, pid, qty))
  }

  /** `refill_stock`: 404 for an unknown product, otherwise adds `qty` and replies with the row. */
  function Refill(t: Table, pid: ProductId, qty: int): (r: Result<(Product, Table), Failure>)
    ensures r.Failure? <==> pid !in t
    ensures r.Success? ==> r.value.1 == Deposit(t, pid, qty) && r.value.0 == r.value.1[pid]
  {
    if pid !in t then Failure(NotFound)
    else var t' := Deposit(t, pid, qty); Success((t'[pid], t'))
  }

  /** `update_price`: 404 for an unknown product, otherwise sets only that product's price. */
  function UpdatePrice(t: Table, pid: ProductId, price: int): (r: Result<(Product, Table), Failure>)
    ensures r.Failure? <==> pid !in t
    ensures r.Success? ==> r.value.1.Keys == t.Keys && r.value.0 == r.value.1[pid]
    ensures r.Success? ==> r.value.0.price == price && r.value.0.name == t[pid].name && r.value.0.stock == t[pid].stock
    ensures r.Success? ==> forall id :: id in t && id != pid ==> r.value.1[id] == t[id]
  {
    if pid !in t then Failure(NotFound)
    else var p := t[pid].(price := price); Success((p, t[pid := p]))
  }

  /** A reservation that was granted is exactly undone by releasing the same quantity. */
  lemma ReleaseUndoesReserve(t: Table, pid: ProductId, qty: int)
    requires pid in t
    requires Reserve(t, pid, qty).0.Reserved?
    ensures Release(Reserve(t, pid, qty).1, pid, qty) == Success(t)
  {
    DepositUndoesWithdraw(t, pid, qty);
  }

  // ---------------------------------------------------------------------
  // The live table
  // ---------------------------------------------------------------------

  /**
   * The inventory service's products table. New rows get the next id of an
   * auto-increment key; no row is ever deleted.
   */
  class ProductTable {
    var products: Table
    var nextId: ProductId

    /** Every id in use is below the next id to assign, which is positive. */
    ghost predicate Valid()
      reads this
    {
      1 <= nextId && forall id :: id in products ==> 1 <= id < nextId
    }

    constructor ()
      ensures Valid() && products == map[] && nextId == 1
    {
      products := map[];
      nextId := 1;
    }

    /** `update_price` (`PUT /products/{pid}`). */
    method UpdateProductPrice(pid: ProductId, price: int) returns (r: Result<Product, Failure>)
      requires Valid()
      modifies this`products
      ensures Valid()
      ensures var u := UpdatePrice(old(products), pid, price);
        if u.Failure? then r == Failure(NotFound) && products == old(products)
        else r == Success(u.value.0) && products == u.value.1
    {
      if pid !in products {
        return Failure(NotFound);
      }
      var p := products[pid].(price := price);
      products := products[pid := p];
      r := Success(p);
    }

    /** `add_product`: inserts one row under the next id and replies with it. */
    method AddProduct(data: ProductCreate) returns (id: ProductId, p: Product)
      requires Valid()
      modifies this
      ensures Valid()
      ensures id == old(nextId) && id !in old(products) && nextId == old(nextId) + 1
      ensures p == AsProduct(data) && products == old(products)[id := p]
    {
      id, p := nextId, AsProduct(data);
      products := products[id := p];
      nextId := nextId + 1;
    }

    /**
     * `add_products_bulk`: inserts one row per request, in request order,
     * under consecutive fresh ids, and replies with the created rows.
     */
    method AddProductsBulk(batch: seq<ProductCreate>) returns (created: seq<(ProductId, Product)>)
      requires Valid()
      modifies this
      ensures Valid()
      ensures nextId == old(nextId) + |batch|
      ensures |created| == |batch|
      ensures forall i :: 0 <= i < |batch| ==> created[i] == (old(nextId) + i, AsProduct(batch[i]))
      ensures forall id :: id in products <==> id in old(products) || old(nextId) <= id < nextId
      ensures forall id :: id in old(products) ==> products[id] == old(products)[id]
      ensures forall i :: 0 <= i < |batch| ==> old(nextId) + i in products && products[old(nextId) + i] == AsProduct(batch[i])
    {
      created := [];
      var i := 0;
      while i < |batch|
        invariant 0 <= i <= |batch|
        invariant Valid()
        invariant nextId == old(nextId) + i
        invariant |created| == i
        invariant forall j :: 0 <= j < i ==> created[j] == (old(nextId) + j, AsProduct(batch[j]))
        invariant forall id :: id in products <==> id in old(products) || old(nextId) <= id < nextId
        invariant forall id :: id in old(products) ==> products[id] == old(products)[id]
        invariant forall j :: 0 <= j < i ==> old(nextId) + j in products && products[old(nextId) + j] == AsProduct(batch[j])
      {
        var id, p := nextId, AsProduct(batch[i]);
        products := products[id := p];
        nextId := nextId + 1;
        created := created + [(id, p)];
        i := i + 1;
      }
    }

    /** `refill_stock` (`POST /refill/{pid}`). */
    method RefillStock(pid: ProductId, qty: int) returns (r: Result<Product, Failure>)
      requires Valid()
      modifies this`products
      ensures Valid()
      ensures var u := Refill(old(products), pid, qty);
        if u.Failure? then r == Failure(NotFound) && products == old(products)
        else r == Success(u.value.0) && products == u.value.1
    {
      if pid !in products {
        return Failure(NotFound);
      }
      var p := products[pid].(stock := products[pid].stock + qty);
      products := products[pid := p];
      r := Success(p);
    }

    /** `reserve_stock` (`POST /reserve/{pid}`); the product must exist. */
    method ReserveStock(pid: ProductId, qty: int) returns (r: ReserveReply)
      requires Valid() && pid in products
      modifies this`products
      ensures Valid()
      ensures (r, products) == Reserve(old(products), pid, qty)
    {
      var p := products[pid];
      if p.stock < qty {
        return OutOfStock;
      }
      products := products[pid := p.(stock := p.stock - qty)];
      r := Reserved(p.price);
    }

    /** `release` (`POST /release/{product_id}`). */
    method ReleaseStock(pid: ProductId, qty: int) returns (r: Result<(), Failure>)
      requires Valid()
      modifies this`products
      ensures Valid()
      ensures var u := Release(old(products), pid, qty);
        if u.Failure? then r == Failure(NotFound) && products == old(products)
        else r == Success(()) && products == u.value
    {
      if pid !in products {
        return Failure(NotFound);
      }
      products := products[pid := products[pid].(stock := products[pid].stock + qty)];
      r := Success(());
    }
  }
}
