/** The shopping cart store: each action maps the cart state to a new one. */
module Cart {
  import opened Base
  import opened Store
  import Keyed

  datatype CartItem = CartItem(id: string, productName: string, price: int, childConfig: ChildConfig)

  /** An item without its id, as `addItem` receives it. */
  datatype NewItem = NewItem(productName: string, price: int, childConfig: ChildConfig)

  /** A partial item, as `updateItem` receives it; `id` may be among the fields. */
  datatype ItemUpdate = ItemUpdate(
    id: Option<string>,
    productName: Option<string>,
    price: Option<int>,
    childConfig: Option<ChildConfig>)

  datatype CartState = CartState(items: seq<CartItem>, isOpen: bool)

  const EmptyCart := CartState([], false)

  function ItemId(item: CartItem): string
  {
    item.id
  }

  /** `addItem`: the item with id `id` (a random string) goes last, and the
      drawer opens. */
  function AddItem(c: CartState, item: NewItem, id: string): (r: CartState)
    ensures |r.items| == |c.items| + 1 && r.items[..|c.items|] == c.items
    ensures r.items[|c.items|] == CartItem(id, item.productName, item.price, item.childConfig)
    ensures r.isOpen
  {
    CartState(c.items + [CartItem(id, item.productName, item.price, item.childConfig)], true)
  }

  /** `removeItem`: every item with the id goes, the others stay in order. */
  function RemoveItem(c: CartState, id: string): (r: CartState)
    ensures r.isOpen == c.isOpen
    ensures forall i :: 0 <= i < |r.items| ==> r.items[i] in c.items && r.items[i].id != id
    ensures forall i :: 0 <= i < |c.items| && c.items[i].id != id ==> c.items[i] in r.items
    ensures forall x :: multiset(r.items)[x] == if x.id != id then multiset(c.items)[x] else 0
    ensures r.items == Keyed.Without(c.items, ItemId, id)
  {
    c.(items := Keyed.Without(c.items, ItemId, id))
  }

  /** `{...item, ...updates}`. */
  function MergeItem(item: CartItem, u: ItemUpdate): CartItem
  {
    CartItem(
      if u.id.Some? then u.id.value else item.id,
      if u.productName.Some? then u.productName.value else item.productName,
      if u.price.Some? then u.price.value else item.price,
      if u.childConfig.Some? then u.childConfig.value else item.childConfig)
  }

  /** `updateItem`: same length, only the items with the id merged. */
  function UpdateItem(c: CartState, id: string, u: ItemUpdate): (r: CartState)
    ensures r.isOpen == c.isOpen && |r.items| == |c.items|
    ensures forall i :: 0 <= i < |c.items| && c.items[i].id != id ==> r.items[i] == c.items[i]
    ensures forall i :: 0 <= i < |c.items| && c.items[i].id == id ==> r.items[i] == MergeItem(c.items[i], u)
  {
    c.(items := Keyed.Replace(c.items, ItemId, id, item => MergeItem(item, u)))
  }

  function ClearCart(c: CartState): (r: CartState)
    ensures r.items == [] && !r.isOpen
  {
    EmptyCart
  }

  function ToggleCart(c: CartState): (r: CartState)
    ensures r.isOpen == !c.isOpen && r.items == c.items
  {
    c.(isOpen := !c.isOpen)
  }

  lemma ToggleTwice(c: CartState)
    ensures ToggleCart(ToggleCart(c)) == c
  {
  }

  /** `items.reduce((total, item) => total + item.price, 0)`: the sum of the
      prices (see `TotalAppend` and `TotalBounds`). */
  function Total(items: seq<CartItem>): (t: int)
    ensures items == [] ==> t == 0
    ensures |items| == 1 ==> t == items[0].price
  {
    if items == [] then 0 else Total(items[..|items| - 1]) + items[|items| - 1].price
  }

  /** `getTotal`: an empty cart costs nothing, a one-item cart its price,
      and a cart of non-negative prices never less than nothing. */
  function GetTotal(c: CartState): (t: int)
    ensures c.items == [] ==> t == 0
    ensures |c.items| == 1 ==> t == c.items[0].price
    ensures (forall i :: 0 <= i < |c.items| ==> c.items[i].price >= 0) ==> t >= 0
  {
    TotalNonNegative(c.items);
    Total(c.items)
  }

  /** With every price between `lo` and `hi`, the total lies between the
      item count times `lo` and the item count times `hi`. */
  lemma {:induction false} TotalBounds(items: seq<CartItem>, lo: int, hi: int)
    requires forall i :: 0 <= i < |items| ==> lo <= items[i].price <= hi
    ensures |items| * lo <= Total(items) <= |items| * hi
  {
    if items != [] {
      var init := items[..|items| - 1];
      TotalBounds(init, lo, hi);
      assert |items| * lo == |init| * lo + lo;
      assert |items| * hi == |init| * hi + hi;
    }
  }

  function GetItemsCount(c: CartState): (n: nat)
    ensures n == |c.items|
    ensures n == 0 <==> c.items == []
  {
    |c.items|
  }

  /** The total of two lists one after the other is the sum of their totals. */
  lemma {:induction false} TotalAppend(s: seq<CartItem>, t: seq<CartItem>)
    ensures Total(s + t) == Total(s) + Total(t)
  {
    if t == [] {
      assert s + t == s;
    } else {
      assert (s + t)[..|s + t| - 1] == s + t[..|t| - 1];
      TotalAppend(s, t[..|t| - 1]);
    }
  }

  /** Adding an item raises the total by its price and the count by one. */
  lemma AddItemRaisesTotals(c: CartState, item: NewItem, id: string)
    ensures GetTotal(AddItem(c, item, id)) == GetTotal(c) + item.price
    ensures GetItemsCount(AddItem(c, item, id)) == GetItemsCount(c) + 1
  {
    var added := CartItem(id, item.productName, item.price, item.childConfig);
    TotalAppend(c.items, [added]);
    assert Total([added]) == Total([]) + added.price;
  }

  /** Removing the item just added under a fresh id gives the earlier items. */
  lemma RemoveUndoesAdd(c: CartState, item: NewItem, id: string)
    requires forall i :: 0 <= i < |c.items| ==> c.items[i].id != id
    ensures RemoveItem(AddItem(c, item, id), id).items == c.items
  {
    var added := CartItem(id, item.productName, item.price, item.childConfig);
    Keyed.WithoutAppend(c.items, [added], ItemId, id);
    Keyed.WithoutAbsent(c.items, ItemId, id);
    assert Keyed.Without([added], ItemId, id) == [];
  }

  /** Removing an id no item has changes nothing. */
  lemma RemoveAbsent(c: CartState, id: string)
    requires forall i :: 0 <= i < |c.items| ==> c.items[i].id != id
    ensures RemoveItem(c, id) == c
  {
    Keyed.WithoutAbsent(c.items, ItemId, id);
  }

  /** No negative price, no negative total. */
  lemma {:induction false} TotalNonNegative(items: seq<CartItem>)
    ensures (forall i :: 0 <= i < |items| ==> items[i].price >= 0) ==> Total(items) >= 0
  {
    if items != [] {
      TotalNonNegative(items[..|items| - 1]);
    }
  }

  /** An update that does not set the price keeps the total. */
  lemma {:induction false} UpdateKeepsTotal(s: seq<CartItem>, id: string, u: ItemUpdate)
    requires u.price.None?
    ensures Total(Keyed.Replace(s, ItemId, id, item => MergeItem(item, u))) == Total(s)
  {
    var f := item => MergeItem(item, u);
    if s != [] {
      var r := Keyed.Replace(s, ItemId, id, f);
      var init := s[..|s| - 1];
      UpdateKeepsTotal(init, id, u);
      var ri := Keyed.Replace(init, ItemId, id, f);
      assert r[..|r| - 1] == ri by {
        forall i | 0 <= i < |ri| ensures ri[i] == r[i] {
        }
      }
      assert r[|r| - 1].price == s[|s| - 1].price;
      assert Total(r) == Total(ri) + r[|r| - 1].price;
      assert Total(s) == Total(init) + s[|s| - 1].price;
    }
  }
}
