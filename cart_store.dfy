/** The client-side shopping cart: an ordered list of lines, each a snapshot of a
    product and a quantity, kept unique by product id, together with the
    persisted copy of that list that survives a page reload.

    The list transforms are pure functions over `seq<CartItem>`; the store that
    owns the list and writes it back after every change is the class
    `CartProvider` at the end of the module. Money is integer paise. */
module CartStore {
  import opened Wrappers
  import opened JsBigInt

  /** A copy of the catalogue's product taken when it was added to the cart.
      `productId`, `categoryId` and `price` are bigints; `price` is in paise. */
  datatype Product = Product(
    productId: int,
    name: string,
    description: string,
    price: int,
    categoryId: int,
    inStock: bool,
    imageUrl: Option<string>)

  /** One line of the cart. The quantity is not checked on entry. */
  datatype CartItem = CartItem(product: Product, quantity: int)

  //////////////////////////////////////////////////////////////////////////////
  // Properties of a line list
  //////////////////////////////////////////////////////////////////////////////

  /** Some line of the list is for the product `id` (`items.find(...)` finds one). */
  predicate HasLine(items: seq<CartItem>, id: int)
  {
    exists i :: 0 <= i < |items| && items[i].product.productId == id
  }

  /** At most one line per product. */
  ghost predicate UniqueIds(items: seq<CartItem>)
  {
    forall i, j :: 0 <= i < j < |items| ==> items[i].product.productId != items[j].product.productId
  }

  /** Every line has a quantity of at least one. */
  ghost predicate PositiveQuantities(items: seq<CartItem>)
  {
    forall i :: 0 <= i < |items| ==> items[i].quantity >= 1
  }

  //////////////////////////////////////////////////////////////////////////////
  // The transforms behind addItem, removeItem and updateQuantity
  //////////////////////////////////////////////////////////////////////////////

  /** `prev.map(...)` of `addItem`: every line for `id` gets `q` more. */
  function BumpQuantity(items: seq<CartItem>, id: int, q: int): (r: seq<CartItem>)
    ensures |r| == |items|
    ensures forall i :: 0 <= i < |r| ==>
      r[i].product == items[i].product
      && r[i].quantity == (if items[i].product.productId == id then items[i].quantity + q else items[i].quantity)
  {
    if items == [] then []
    else
      var head := items[0];
      var head' := if head.product.productId == id then head.(quantity := head.quantity + q) else head;
      [head'] + BumpQuantity(items[1..], id, q)
  }

  /** `prev.map(...)` of `updateQuantity`: every line for `id` gets quantity `q`. */
  function SetQuantity(items: seq<CartItem>, id: int, q: int): (r: seq<CartItem>)
    ensures |r| == |items|
    ensures forall i :: 0 <= i < |r| ==>
      r[i].product == items[i].product
      && r[i].quantity == (if items[i].product.productId == id then q else items[i].quantity)
  {
    if items == [] then []
    else
      var head := items[0];
      var head' := if head.product.productId == id then head.(quantity := q) else head;
      [head'] + SetQuantity(items[1..], id, q)
  }

  /** `addItem(product, quantity)`: merge into the existing line(s) for the
      product, or append a new line at the end. */
  function AddLine(items: seq<CartItem>, p: Product, q: int): seq<CartItem>
  {
    if HasLine(items, p.productId) then BumpQuantity(items, p.productId, q)
    else items + [CartItem(p, q)]
  }

  /** `removeItem(productId)`: `prev.filter(...)` keeping the lines of other products. */
  function RemoveLine(items: seq<CartItem>, id: int): (r: seq<CartItem>)
    ensures |r| <= |items|
    ensures forall x :: x in r <==> x in items && x.product.productId != id
    ensures !HasLine(r, id)
    ensures !HasLine(items, id) ==> r == items
  {
    if items == [] then []
    else if items[0].product.productId == id then RemoveLine(items[1..], id)
    else
      var rest := RemoveLine(items[1..], id);
      assert !HasLine(items[1..], id) ==> items == [items[0]] + items[1..];
      [items[0]] + rest
  }

  /** `updateQuantity(productId, quantity)`: a quantity of zero or less removes
      the line, any other sets it. */
  function UpdateLine(items: seq<CartItem>, id: int, q: int): seq<CartItem>
  {
    if q <= 0 then RemoveLine(items, id) else SetQuantity(items, id, q)
  }

  //////////////////////////////////////////////////////////////////////////////
  // addItem
  //////////////////////////////////////////////////////////////////////////////

  /** Adding a product that already has a line raises that line's quantity by
      `q`; the length and every other line stay as they were. */
  lemma AddMergesExisting(items: seq<CartItem>, p: Product, q: int, k: nat)
    requires UniqueIds(items)
    requires k < |items| && items[k].product.productId == p.productId
    ensures AddLine(items, p, q) == items[k := items[k].(quantity := items[k].quantity + q)]
  {
    var r := AddLine(items, p, q);
    var expected := items[k := items[k].(quantity := items[k].quantity + q)];
    assert |r| == |expected|;
    forall i | 0 <= i < |r|
      ensures r[i] == expected[i]
    {
      if i != k {
        assert items[i].product.productId != p.productId;
      }
    }
  }

  /** Adding a product without a line appends exactly one new line at the end. */
  lemma AddAppendsNew(items: seq<CartItem>, p: Product, q: int)
    requires !HasLine(items, p.productId)
    ensures AddLine(items, p, q) == items + [CartItem(p, q)]
    ensures AddLine(items, p, q)[..|items|] == items
  {
  }

  /** `addItem` keeps product ids unique, and afterwards the product has its line. */
  lemma AddKeepsIdsUnique(items: seq<CartItem>, p: Product, q: int)
    requires UniqueIds(items)
    ensures UniqueIds(AddLine(items, p, q))
    ensures HasLine(AddLine(items, p, q), p.productId)
  {
    var r := AddLine(items, p, q);
    if HasLine(items, p.productId) {
      var k :| 0 <= k < |items| && items[k].product.productId == p.productId;
      assert r[k].product == items[k].product;
    } else {
      assert r[|items|].product == p;
    }
  }

  /** Adding the same product twice is adding it once with the summed quantity;
      the snapshot first added is the one kept. */
  lemma AddTwice(items: seq<CartItem>, p1: Product, p2: Product, q1: int, q2: int)
    requires p1.productId == p2.productId
    ensures AddLine(AddLine(items, p1, q1), p2, q2) == AddLine(items, p1, q1 + q2)
  {
    var id := p1.productId;
    var once := AddLine(items, p1, q1);
    var twice := AddLine(once, p2, q2);
    var summed := AddLine(items, p1, q1 + q2);
    assert HasLine(once, id) by {
      if !HasLine(items, id) {
        assert once[|items|].product.productId == id;
      }
    }
    assert |twice| == |summed|;
    forall i | 0 <= i < |twice|
      ensures twice[i] == summed[i]
    {
      if !HasLine(items, id) && i < |items| {
        assert items[i].product.productId != id;
      }
    }
  }

  /** Adding to a cart with positive quantities keeps them positive when the
      caller passes at least one (the store itself does not check). */
  lemma AddKeepsQuantitiesPositive(items: seq<CartItem>, p: Product, q: int)
    requires PositiveQuantities(items) && q >= 1
    ensures PositiveQuantities(AddLine(items, p, q))
  {
  }

  /** Without the caller's check a non-positive quantity gets into the cart. */
  lemma AddAdmitsNonPositive(p: Product)
    ensures !PositiveQuantities(AddLine([], p, 0))
  {
    assert AddLine([], p, 0)[0].quantity == 0;
  }

  //////////////////////////////////////////////////////////////////////////////
  // removeItem
  //////////////////////////////////////////////////////////////////////////////

  /** Removing distributes over concatenation: every kept line keeps its place
      relative to the others. */
  lemma {:induction false} RemoveKeepsOrder(a: seq<CartItem>, b: seq<CartItem>, id: int)
    ensures RemoveLine(a + b, id) == RemoveLine(a, id) + RemoveLine(b, id)
  {
    if a == [] {
      assert a + b == b;
    } else {
      assert (a + b)[0] == a[0];
      assert (a + b)[1..] == a[1..] + b;
      RemoveKeepsOrder(a[1..], b, id);
    }
  }

  /** In a cart with unique ids, removing a product cuts out exactly its line. */
  lemma {:induction false} RemoveCutsLine(items: seq<CartItem>, id: int, k: nat)
    requires UniqueIds(items)
    requires k < |items| && items[k].product.productId == id
    ensures RemoveLine(items, id) == items[..k] + items[k + 1..]
  {
    var tail := items[1..];
    assert UniqueIds(tail) by {
      forall i, j | 0 <= i < j < |tail| ensures tail[i].product.productId != tail[j].product.productId {
        assert tail[i] == items[i + 1] && tail[j] == items[j + 1];
      }
    }
    if k == 0 {
      assert !HasLine(tail, id) by {
        forall i | 0 <= i < |tail| ensures tail[i].product.productId != id {
          assert tail[i] == items[i + 1];
        }
      }
    } else {
      RemoveCutsLine(tail, id, k - 1);
      assert items[..k] == [items[0]] + tail[..k - 1];
      assert items[k + 1..] == tail[k..];
    }
  }

  /** Removing keeps ids unique and quantities positive. */
  lemma {:induction false} RemoveKeepsInvariants(items: seq<CartItem>, id: int)
    ensures UniqueIds(items) ==> UniqueIds(RemoveLine(items, id))
    ensures PositiveQuantities(items) ==> PositiveQuantities(RemoveLine(items, id))
  {
    if items != [] {
      RemoveKeepsInvariants(items[1..], id);
      var rest := RemoveLine(items[1..], id);
      if UniqueIds(items) && items[0].product.productId != id {
        forall j | 0 <= j < |rest| ensures rest[j].product.productId != items[0].product.productId {
          assert rest[j] in items[1..];
          var m :| 0 <= m < |items[1..]| && items[1..][m] == rest[j];
          assert items[1 + m] == rest[j];
        }
      }
      if PositiveQuantities(items) && items[0].product.productId != id {
        assert forall x :: x in rest ==> x in items;
      }
    }
  }

  //////////////////////////////////////////////////////////////////////////////
  // updateQuantity
  //////////////////////////////////////////////////////////////////////////////

  /** A quantity of zero or less is a removal. */
  lemma UpdateNonPositiveRemoves(items: seq<CartItem>, id: int, q: int)
    requires q <= 0
    ensures UpdateLine(items, id, q) == RemoveLine(items, id)
    ensures !HasLine(UpdateLine(items, id, q), id)
  {
  }

  /** A positive quantity replaces (not adds to) the quantity of the product's
      line; the length, the order and all other lines stay as they were. */
  lemma UpdateSetsQuantity(items: seq<CartItem>, id: int, q: int, k: nat)
    requires UniqueIds(items) && q > 0
    requires k < |items| && items[k].product.productId == id
    ensures UpdateLine(items, id, q) == items[k := items[k].(quantity := q)]
  {
    var r := UpdateLine(items, id, q);
    var expected := items[k := items[k].(quantity := q)];
    assert |r| == |expected|;
    forall i | 0 <= i < |r|
      ensures r[i] == expected[i]
    {
      if i != k {
        assert items[i].product.productId != id;
      }
    }
  }

  /** Updating a product that has no line changes nothing, whatever the quantity. */
  lemma UpdateAbsentIsNoOp(items: seq<CartItem>, id: int, q: int)
    requires !HasLine(items, id)
    ensures UpdateLine(items, id, q) == items
  {
    if q > 0 {
      var r := SetQuantity(items, id, q);
      assert forall i :: 0 <= i < |items| ==> items[i].product.productId != id;
      assert forall i :: 0 <= i < |items| ==> r[i] == items[i];
    }
  }

  /** Updating keeps ids unique and, whatever the quantity passed, keeps
      quantities positive. */
  lemma UpdateKeepsInvariants(items: seq<CartItem>, id: int, q: int)
    ensures UniqueIds(items) ==> UniqueIds(UpdateLine(items, id, q))
    ensures PositiveQuantities(items) ==> PositiveQuantities(UpdateLine(items, id, q))
  {
    RemoveKeepsInvariants(items, id);
  }

  //////////////////////////////////////////////////////////////////////////////
  // getTotalPrice
  //////////////////////////////////////////////////////////////////////////////

  /** The amount of one line in paise. */
  function LineTotal(item: CartItem): int
  {
    item.product.price * item.quantity
  }

  /** `items.reduce((sum, item) => sum + price * quantity, 0)` in exact paise:
      a fold from the first line to the last. */
  function TotalPaise(items: seq<CartItem>): int
  {
    if items == [] then 0 else TotalPaise(items[..|items| - 1]) + LineTotal(items[|items| - 1])
  }

  /** The total of two carts laid end to end is the sum of their totals. */
  lemma {:induction false} TotalAppend(a: seq<CartItem>, b: seq<CartItem>)
    ensures TotalPaise(a + b) == TotalPaise(a) + TotalPaise(b)
  {
    if b == [] {
      assert a + b == a;
    } else {
      assert (a + b)[..|a + b| - 1] == a + b[..|b| - 1];
      assert (a + b)[|a + b| - 1] == b[|b| - 1];
      TotalAppend(a, b[..|b| - 1]);
    }
  }

  /** Replacing one line changes the total by the difference of the two lines. */
  lemma TotalReplace(items: seq<CartItem>, k: nat, x: CartItem)
    requires k < |items|
    ensures TotalPaise(items[k := x]) == TotalPaise(items) - LineTotal(items[k]) + LineTotal(x)
  {
    assert items == items[..k] + [items[k]] + items[k + 1..];
    assert items[k := x] == items[..k] + [x] + items[k + 1..];
    TotalAppend(items[..k] + [items[k]], items[k + 1..]);
    TotalAppend(items[..k], [items[k]]);
    TotalAppend(items[..k] + [x], items[k + 1..]);
    TotalAppend(items[..k], [x]);
  }

  /** Raising one line's quantity by `q` raises the total by `q` times its price. */
  lemma TotalRaise(items: seq<CartItem>, k: nat, q: int)
    requires k < |items|
    ensures TotalPaise(items[k := items[k].(quantity := items[k].quantity + q)])
         == TotalPaise(items) + items[k].product.price * q
  {
    var line := items[k];
    var x := line.(quantity := line.quantity + q);
    TotalReplace(items, k, x);
    assert LineTotal(x) == line.product.price * (line.quantity + q);
    Distribute(line.product.price, line.quantity, q);
  }

  lemma Distribute(a: int, b: int, c: int)
    ensures a * (b + c) == a * b + a * c
  {
  }

  /** Adding `q` units of a product already in the cart raises the total by `q`
      times the price on its line, that is, of the snapshot already there. */
  lemma TotalAfterAddExisting(items: seq<CartItem>, p: Product, q: int, k: nat)
    requires UniqueIds(items)
    requires k < |items| && items[k].product.productId == p.productId
    ensures TotalPaise(AddLine(items, p, q)) == TotalPaise(items) + items[k].product.price * q
  {
    AddMergesExisting(items, p, q, k);
    TotalRaise(items, k, q);
  }

  /** Adding `q` units of a new product raises the total by `q` times its price. */
  lemma TotalAfterAddNew(items: seq<CartItem>, p: Product, q: int)
    requires !HasLine(items, p.productId)
    ensures TotalPaise(AddLine(items, p, q)) == TotalPaise(items) + p.price * q
  {
    TotalAppend(items, [CartItem(p, q)]);
    assert [CartItem(p, q)][..0] == [];
  }

  /** Removing a product lowers the total by the amount of its line. */
  lemma TotalAfterRemove(items: seq<CartItem>, id: int, k: nat)
    requires UniqueIds(items)
    requires k < |items| && items[k].product.productId == id
    ensures TotalPaise(RemoveLine(items, id)) == TotalPaise(items) - LineTotal(items[k])
  {
    RemoveCutsLine(items, id, k);
    assert items == items[..k] + [items[k]] + items[k + 1..];
    TotalAppend(items[..k] + [items[k]], items[k + 1..]);
    TotalAppend(items[..k], [items[k]]);
    TotalAppend(items[..k], items[k + 1..]);
  }

  /** Two lines of 10000 paise times 2 and 2550 paise times 1 come to 22550 paise
      (shown as 225.50 rupees). */
  lemma TotalExample(a: Product, b: Product)
    requires a.price == 10000 && b.price == 2550
    ensures TotalPaise([CartItem(a, 2), CartItem(b, 1)]) == 22550
  {
    var lines := [CartItem(a, 2), CartItem(b, 1)];
    assert lines[..1] == [CartItem(a, 2)];
    assert lines[..1][..0] == [];
    assert TotalPaise(lines[..1]) == 20000;
  }

  //////////////////////////////////////////////////////////////////////////////
  // Persistence
  //////////////////////////////////////////////////////////////////////////////

  /** A product as it is kept in storage: the three bigint fields as decimal strings. */
  datatype StoredProduct = StoredProduct(
    productId: string,
    name: string,
    description: string,
    price: string,
    categoryId: string,
    inStock: bool,
    imageUrl: Option<string>)

  datatype StoredItem = StoredItem(product: StoredProduct, quantity: int)

  /** The storage slot `cart`: nothing stored, text that does not parse into a
      list of records, or such a list. */
  datatype StoredSlot = Absent | Unparsable | Records(records: seq<StoredItem>)

  /** The `map` callback of the write: bigints become strings, all else is copied. */
  function EncodeItem(item: CartItem): StoredItem
  {
    var p := item.product;
    StoredItem(
      StoredProduct(ToDecimalString(p.productId), p.name, p.description,
                    ToDecimalString(p.price), ToDecimalString(p.categoryId), p.inStock, p.imageUrl),
      item.quantity)
  }

  /** `items.map(...)` of the write: one record per line, in order. */
  function Encode(items: seq<CartItem>): (r: seq<StoredItem>)
    ensures |r| == |items|
    ensures forall i :: 0 <= i < |items| ==> r[i] == EncodeItem(items[i])
  {
    if items == [] then [] else [EncodeItem(items[0])] + Encode(items[1..])
  }

  /** The `map` callback of the read: the three strings go through `BigInt`,
      whose throw is `None`. */
  function DecodeItem(rec: StoredItem): Option<CartItem>
  {
    var p := rec.product;
    match (ParseBigInt(p.productId), ParseBigInt(p.categoryId), ParseBigInt(p.price))
    case (Some(id), Some(category), Some(price)) =>
      Some(CartItem(Product(id, p.name, p.description, price, category, p.inStock, p.imageUrl), rec.quantity))
    case _ => None
  }

  /** `parsed.map(...)` of the read: every record decoded in order, or `None`
      as soon as one of them throws. */
  function Decode(recs: seq<StoredItem>): (r: Option<seq<CartItem>>)
    ensures r.Some? ==> |r.value| == |recs|
    ensures r.Some? ==> forall i :: 0 <= i < |recs| ==> DecodeItem(recs[i]) == Some(r.value[i])
  {
    if recs == [] then Some([])
    else
      match (DecodeItem(recs[0]), Decode(recs[1..]))
      case (Some(x), Some(rest)) => Some([x] + rest)
      case _ => None
  }

  /** The initial state of the store: the decoded slot, or the empty cart when
      nothing is stored or what is stored does not decode. */
  function Load(slot: StoredSlot): seq<CartItem>
  {
    match slot
    case Records(recs) =>
      (match Decode(recs)
       case Some(items) => items
       case None => [])
    case _ => []
  }

  /** Each bigint field comes back from its string exactly; the rest is copied. */
  lemma DecodeEncodeItem(item: CartItem)
    ensures DecodeItem(EncodeItem(item)) == Some(item)
  {
    DecimalRoundTrip(item.product.productId);
    DecimalRoundTrip(item.product.categoryId);
    DecimalRoundTrip(item.product.price);
  }

  /** Decoding what was encoded gives back the same lines in the same order. */
  lemma {:induction false} DecodeEncode(items: seq<CartItem>)
    ensures Decode(Encode(items)) == Some(items)
  {
    if items != [] {
      DecodeEncodeItem(items[0]);
      DecodeEncode(items[1..]);
      assert Encode(items)[1..] == Encode(items[1..]);
      assert items == [items[0]] + items[1..];
    }
  }

  /** A saved cart loads back as itself. */
  lemma LoadSaved(items: seq<CartItem>)
    ensures Load(Records(Encode(items))) == items
  {
    DecodeEncode(items);
  }

  /** An id beyond the doubles' exact range, 2^53 + 1, survives a save and a
      reload unchanged. */
  lemma LargeIdSurvives(item: CartItem)
    requires item.product.productId == 9007199254740993
    ensures Load(Records(Encode([item]))) == [item]
    ensures Load(Records(Encode([item])))[0].product.productId == 9007199254740993
  {
    LoadSaved([item]);
  }

  /** Decoding fails exactly when some record fails. */
  lemma {:induction false} DecodeFailsIff(recs: seq<StoredItem>)
    ensures Decode(recs).None? <==> exists i :: 0 <= i < |recs| && DecodeItem(recs[i]).None?
  {
    if recs != [] {
      DecodeFailsIff(recs[1..]);
      if Decode(recs[1..]).None? {
        var i :| 0 <= i < |recs[1..]| && DecodeItem(recs[1..][i]).None?;
        assert DecodeItem(recs[1 + i]).None?;
      }
      if exists i :: 0 <= i < |recs| && DecodeItem(recs[i]).None? {
        var i :| 0 <= i < |recs| && DecodeItem(recs[i]).None?;
        if i > 0 {
          assert DecodeItem(recs[1..][i - 1]).None?;
        }
      }
    }
  }

  /** With nothing stored, with unparsable text, or with one record whose bigint
      field does not parse, the cart starts empty. */
  lemma LoadFallsBack(slot: StoredSlot)
    requires slot.Records? ==> exists i :: 0 <= i < |slot.records| && DecodeItem(slot.records[i]).None?
    ensures Load(slot) == []
  {
    if slot.Records? {
      DecodeFailsIff(slot.records);
    }
  }

  //////////////////////////////////////////////////////////////////////////////
  // The store
  //////////////////////////////////////////////////////////////////////////////

  /** The cart provider: the `items` state, and the storage slot that the effect
      on `items` rewrites after every change. */
  class CartProvider {
    var items: seq<CartItem>
    var stored: StoredSlot

    /** The slot holds the encoding of the current items. */
    ghost predicate Persisted()
      reads this
    {
      stored == Records(Encode(items))
    }

    /** Start from what the slot holds, then write it back (the effect also runs
        once on mount). */
    constructor (slot: StoredSlot)
      ensures items == Load(slot)
      ensures Persisted()
    {
      items := Load(slot);
      stored := Records(Encode(Load(slot)));
    }

    /** The effect on `items`: write the encoded list to the slot. */
    method Save()
      modifies this`stored
      ensures Persisted()
    {
      stored := Records(Encode(items));
    }

    method AddItem(product: Product, quantity: int)
      modifies this
      ensures items == AddLine(old(items), product, quantity)
      ensures Persisted()
    {
      items := AddLine(items, product, quantity);
      Save();
    }

    method RemoveItem(productId: int)
      modifies this
      ensures items == RemoveLine(old(items), productId)
      ensures Persisted()
    {
      items := RemoveLine(items, productId);
      Save();
    }

    method UpdateQuantity(productId: int, quantity: int)
      modifies this
      ensures items == UpdateLine(old(items), productId, quantity)
      ensures Persisted()
    {
      if quantity <= 0 {
        RemoveItem(productId);
        return;
      }
      items := SetQuantity(items, productId, quantity);
      Save();
    }

    method ClearCart()
      modifies this
      ensures items == [] && TotalPaise(items) == 0
      ensures stored == Records([])
    {
      items := [];
      Save();
    }

    /** The total in paise; the division by 100 into rupees is for display. */
    method GetTotalPrice() returns (paise: int)
      ensures paise == TotalPaise(items)
    {
      paise := TotalPaise(items);
    }
  }
}
