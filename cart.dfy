/** The cart aggregate: a product table keyed by article number, at most one
    active discount, a configuration, a storage collaborator and a list of
    listeners. Every change to the table is saved to storage before the
    listeners are told about it, in the order they registered. */
module ShoppingCart {
  import opened Outcomes
  import opened Categories
  import opened Products
  import opened Discounts
  import opened Configs
  import opened ProductTable
  import opened Storage

  /** What listeners are told: the event tag and its payload. */
  datatype Event =
    | ProductAdded(product: Product)
    | ProductRemoved(articleNumber: string)
    | ProductUpdated(product: Product)
    | CartCleared
    | DiscountSet(discount: PercentageDiscount)
  {
    function Tag(): string
    {
      match this
      case ProductAdded(_) => "product.added"
      case ProductRemoved(_) => "product.removed"
      case ProductUpdated(_) => "product.updated"
      case CartCleared => "cart.cleared"
      case DiscountSet(_) => "discount.set"
    }
  }

  /** The event name a listener receives identifies the kind of event: each
      name belongs to exactly one kind. */
  lemma EventNames(e: Event)
    ensures e.Tag() == "product.added" <==> e.ProductAdded?
    ensures e.Tag() == "product.removed" <==> e.ProductRemoved?
    ensures e.Tag() == "product.updated" <==> e.ProductUpdated?
    ensures e.Tag() == "cart.cleared" <==> e.CartCleared?
    ensures e.Tag() == "discount.set" <==> e.DiscountSet?
  {
  }

  /** One observable side effect: a snapshot written to storage, or one
      listener (by registration index) called with an event. */
  datatype Effect = Saved(snapshot: Table) | Notified(listener: nat, event: Event)

  /** The calls made by one dispatch: every listener once, in registration order. */
  function Fanout(listeners: nat, e: Event): (r: seq<Effect>)
    ensures |r| == listeners
    ensures forall i :: 0 <= i < listeners ==> r[i] == Notified(i, e)
  {
    if listeners == 0 then [] else Fanout(listeners - 1, e) + [Notified(listeners - 1, e)]
  }

  /** The snapshot storage holds after these effects, as far as they show it:
      the latest one saved. */
  function LastSaved(effects: seq<Effect>): Option<Table>
  {
    if |effects| == 0 then None
    else if effects[|effects| - 1].Saved? then Some(effects[|effects| - 1].snapshot)
    else LastSaved(effects[..|effects| - 1])
  }

  /** Notifications do not save: the latest save is unchanged by a dispatch. */
  lemma {:induction false} LastSavedAfterFanout(effects: seq<Effect>, listeners: nat, e: Event)
    ensures LastSaved(effects + Fanout(listeners, e)) == LastSaved(effects)
  {
    if listeners > 0 {
      var before := effects + Fanout(listeners - 1, e);
      assert effects + Fanout(listeners, e) == before + [Notified(listeners - 1, e)];
      assert (before + [Notified(listeners - 1, e)])[..|before|] == before;
      LastSavedAfterFanout(effects, listeners - 1, e);
    } else {
      assert effects + Fanout(listeners, e) == effects;
    }
  }

  /** Save before notify: after a save followed by a dispatch, the k-th call
      after the save goes to listener k, and every listener, when called, finds
      the just-saved snapshot as the latest one in storage. */
  lemma SaveBeforeNotify(effects: seq<Effect>, snapshot: Table, listeners: nat, e: Event, k: nat)
    requires k < listeners
    ensures var after := effects + [Saved(snapshot)] + Fanout(listeners, e);
      && |after| == |effects| + 1 + listeners
      && after[|effects| + 1 + k] == Notified(k, e)
      && LastSaved(after[..|effects| + 1 + k]) == Some(snapshot)
  {
    var saved := effects + [Saved(snapshot)];
    var after := saved + Fanout(listeners, e);
    assert after[..|saved| + k] == saved + Fanout(k, e);
    LastSavedAfterFanout(saved, k, e);
  }

  /** The entry addProduct stores: the existing entry with the quantities
      added up, or the incoming product when its article number is new. A sum
      past PHP's largest int is a float, which withQuantity refuses. */
  function Merged(t: Table, p: Product): (r: Result<Product>)
    ensures r.Err? <==>
      GetProduct(t, p.articleNumber).Some? && GetProduct(t, p.articleNumber).value.quantity + p.quantity > PhpIntMax
    ensures r.Err? ==> r.error == QuantityNotInt(GetProduct(t, p.articleNumber).value.quantity + p.quantity)
    ensures r.Ok? ==> r.value.articleNumber == p.articleNumber
    ensures GetProduct(t, p.articleNumber).None? ==> r == Ok(p)
    ensures GetProduct(t, p.articleNumber).Some? && r.Ok? ==>
      var e := GetProduct(t, p.articleNumber).value;
      && r.value.description == e.description
      && r.value.price == e.price
      && r.value.category == e.category
      && r.value.quantity == e.quantity + p.quantity
  {
    match GetProduct(t, p.articleNumber)
    case Some(e) =>
      var sum := e.quantity + p.quantity;
      if sum > PhpIntMax then Err(QuantityNotInt(sum)) else WithQuantity(e, sum)
    case None => Ok(p)
  }

  /** The table after addProduct, or the error it throws before storing anything. */
  function Added(t: Table, p: Product): (r: Result<Table>)
    ensures r.Err? <==> Merged(t, p).Err?
    ensures r.Err? ==> r.error == Merged(t, p).error
    ensures r.Ok? ==> Keys(r.value) == Keys(t) + {p.articleNumber}
    ensures r.Ok? ==> GetProduct(r.value, p.articleNumber) == Some(Merged(t, p).value)
    ensures r.Ok? ==> forall b :: b != p.articleNumber ==> GetProduct(r.value, b) == GetProduct(t, b)
  {
    match Merged(t, p)
    case Ok(m) => Ok(Assign(t, m))
    case Err(error) => Err(error)
  }

  /** A new article number is appended as given, and the table grows by one. */
  lemma AddNewProduct(t: Table, p: Product)
    requires p.articleNumber !in Keys(t)
    ensures Added(t, p) == Ok(t + [p])
    ensures |Added(t, p).value| == |t| + 1
    ensures GetProduct(Added(t, p).value, p.articleNumber) == Some(p)
  {
  }

  /** An existing article number keeps one entry, in its place: its quantity
      grows by the incoming one, the rest of it stays as it was; other entries
      are untouched. When the sum does not fit PHP's int, adding fails instead. */
  lemma AddExistingProduct(t: Table, p: Product)
    requires p.articleNumber in Keys(t)
    ensures var e := GetProduct(t, p.articleNumber).value;
      e.quantity + p.quantity > PhpIntMax ==> Added(t, p) == Err(QuantityNotInt(e.quantity + p.quantity))
    ensures var e := GetProduct(t, p.articleNumber).value;
      e.quantity + p.quantity <= PhpIntMax ==>
        && Added(t, p).Ok?
        && |Added(t, p).value| == |t|
        && Keys(Added(t, p).value) == Keys(t)
        && GetProduct(Added(t, p).value, p.articleNumber) == Some(e.(quantity := e.quantity + p.quantity))
        && forall b :: b != p.articleNumber ==> GetProduct(Added(t, p).value, b) == GetProduct(t, b)
  {
  }

  /** Adding the same article number twice to an empty cart gives one entry
      carrying the sum of both quantities, when that sum is a PHP int. */
  lemma AddTwiceMerges(p1: Product, p2: Product)
    requires p1.articleNumber == p2.articleNumber
    ensures Added([], p1) == Ok([p1])
    ensures p1.quantity + p2.quantity <= PhpIntMax ==>
      Added([p1], p2) == Ok([p1.(quantity := p1.quantity + p2.quantity)])
    ensures p1.quantity + p2.quantity > PhpIntMax ==>
      Added([p1], p2) == Err(QuantityNotInt(p1.quantity + p2.quantity))
  {
    var t1: Table := [p1];
    var empty: Table := [];
    AddNewProduct(empty, p1);
    assert empty + [p1] == t1;
    assert Added([], p1) == Ok(t1);
    assert GetProduct(t1, p2.articleNumber) == Some(p1);
    if p1.quantity + p2.quantity <= PhpIntMax {
      var m := Merged(t1, p2).value;
      assert m == p1.(quantity := p1.quantity + p2.quantity);
      assert Assign(t1, m) == t1[0 := m];
      assert Added(t1, p2) == Ok(t1[0 := m]);
      assert t1[0 := m] == [p1.(quantity := p1.quantity + p2.quantity)];
    }
  }

  /** Raising an entry's quantity by q adds q times its price to its line. */
  lemma LineGrows(e: Product, m: Product, q: int)
    requires m.price == e.price && m.quantity == e.quantity + q
    ensures Line(m) == Line(e) + e.price * q as real
  {
    assert m.quantity as real == e.quantity as real + q as real;
  }

  /** Adding a product adds its quantity at the price of the entry it lands in. */
  lemma SubtotalAdded(t: Table, p: Product)
    ensures GetProduct(t, p.articleNumber).None? ==> Subtotal(Added(t, p).value) == Subtotal(t) + Line(p)
    ensures GetProduct(t, p.articleNumber).Some? && Added(t, p).Ok? ==>
      Subtotal(Added(t, p).value) == Subtotal(t) + GetProduct(t, p.articleNumber).value.price * p.quantity as real
  {
    if Merged(t, p).Ok? {
      var m := Merged(t, p).value;
      SubtotalAssign(t, m);
      match GetProduct(t, p.articleNumber)
      case Some(e) =>
        LineGrows(e, m, p.quantity);
      case None =>
    }
  }

  /** The active discount applied to a total; without one the total is kept. */
  function ApplyDiscountToTotalPrice(discount: Option<PercentageDiscount>, totalPrice: real): (r: real)
    ensures discount.None? ==> r == totalPrice
    ensures discount.Some? ==> r >= 0.0
    ensures discount.Some? && totalPrice >= 0.0 ==> r == totalPrice * (1.0 - discount.value.percentage / 100.0)
    ensures discount.Some? && totalPrice <= 0.0 ==> r == 0.0
    ensures totalPrice >= 0.0 ==> 0.0 <= r <= totalPrice
  {
    match discount
    case Some(d) => Apply(d, totalPrice)
    case None => totalPrice
  }

  /** Discount then VAT equals VAT then discount. */
  lemma DiscountCommutesWithVat(discount: Option<PercentageDiscount>, config: Config, totalPrice: real)
    ensures WithVat(config, ApplyDiscountToTotalPrice(discount, totalPrice))
         == ApplyDiscountToTotalPrice(discount, WithVat(config, totalPrice))
  {
    if discount.Some? {
      ApplyCommutesWithScaling(discount.value, totalPrice, 1.0 + config.vatRate / 100.0);
    }
  }

  /** The cart the tests set up: a laptop at 1500 × 1 and a smartphone at
      800 × 2 with 21% VAT, first without a discount, then with 10% off. */
  lemma ExampleTotals()
    ensures var laptop := ProductData("001", "Laptop", 1500.0, Electronics, 1);
      var phone := ProductData("002", "Smartphone", 800.0, Electronics, 2);
      var t := Added(Added([], laptop).value, phone).value;
      var config := ConfigData("EUR", 21.0);
      && t == [laptop, phone]
      && Subtotal(t) == 3100.0
      && WithVat(config, ApplyDiscountToTotalPrice(None, Subtotal(t))) == 3751.0
      && WithVat(config, ApplyDiscountToTotalPrice(Some(Percentage(10.0)), Subtotal(t))) == 3375.9
  {
    var laptop := ProductData("001", "Laptop", 1500.0, Electronics, 1);
    var phone := ProductData("002", "Smartphone", 800.0, Electronics, 2);
    AddNewProduct([], laptop);
    assert Keys([laptop]) == {"001"};
    AddNewProduct([laptop], phone);
    var t := Added(Added([], laptop).value, phone).value;
    assert t == [laptop, phone];
    assert t[1..] == [phone];
  }

  class Cart {
    var products: Table
    var listeners: nat
    var discount: Option<PercentageDiscount>
    const config: Config
    const storage: SessionStorage
    /** Saves and listener calls, in the order they happen. */
    ghost var trace: seq<Effect>

    constructor (config: Config, storage: SessionStorage)
      ensures this.config == config && this.storage == storage
      ensures products == [] && listeners == 0 && discount == None
      ensures trace == []
    {
      this.config := config;
      this.storage := storage;
      products := [];
      listeners := 0;
      discount := None;
      trace := [];
    }

    /** Calls every registered listener with the event, in registration order. */
    method DispatchEvent(e: Event)
      modifies this`trace
      ensures trace == old(trace) + Fanout(listeners, e)
    {
      var i := 0;
      while i < listeners
        invariant 0 <= i <= listeners
        invariant trace == old(trace) + Fanout(i, e)
      {
        trace := trace + [Notified(i, e)];
        i := i + 1;
      }
    }

    /** Registers one more listener, called after those already registered. */
    method AddListener()
      modifies this`listeners
      ensures listeners == old(listeners) + 1
    {
      listeners := listeners + 1;
    }

    /** Writes the current table to storage. */
    method Save()
      modifies storage, this`trace
      ensures storage.session == old(storage.session)[CartKey := products]
      ensures trace == old(trace) + [Saved(products)]
    {
      storage.Save(products);
      trace := trace + [Saved(products)];
    }

    method SaveAndDispatchEvent(e: Event)
      modifies storage, this`trace
      ensures storage.session == old(storage.session)[CartKey := products]
      ensures trace == old(trace) + [Saved(products)] + Fanout(listeners, e)
    {
      Save();
      DispatchEvent(e);
    }

    /** Adds a product, merging quantities with an entry of the same article
      number; the payload is the incoming product, not the merged entry. A
      merged quantity past PHP's int range throws before anything is stored. */
    method AddProduct(product: Product) returns (r: Outcome)
      modifies this`products, this`trace, storage
      ensures r.Pass? <==> Added(old(products), product).Ok?
      ensures r.Fail? ==>
        && r.error == Added(old(products), product).error
        && products == old(products)
        && storage.session == old(storage.session)
        && trace == old(trace)
      ensures r.Pass? ==>
        && products == Added(old(products), product).value
        && storage.session == old(storage.session)[CartKey := products]
        && trace == old(trace) + [Saved(products)] + Fanout(listeners, ProductAdded(product))
    {
      var articleNumber := product.articleNumber;
      var existing := GetProduct(products, articleNumber);
      var entry := product;
      if existing.Some? {
        var sum := existing.value.quantity + product.quantity;
        if sum > PhpIntMax {
          return Fail(QuantityNotInt(sum));
        }
        var merged := WithQuantity(existing.value, sum);
        entry := merged.value;
      }
      products := Assign(products, entry);
      SaveAndDispatchEvent(ProductAdded(product));
      r := Pass;
    }

    method GetProducts() returns (r: Table)
      ensures r == products
    {
      r := products;
    }

    /** Removes the entry with this article number, or fails with not-found
      and changes nothing. */
    method RemoveProduct(articleNumber: string) returns (r: Outcome)
      modifies this`products, this`trace, storage
      ensures r.Pass? <==> articleNumber in Keys(old(products))
      ensures r.Fail? ==>
        && r.error == NotFound(articleNumber)
        && products == old(products)
        && storage.session == old(storage.session)
        && trace == old(trace)
      ensures r.Pass? ==>
        && products == Unset(old(products), articleNumber)
        && storage.session == old(storage.session)[CartKey := products]
        && trace == old(trace) + [Saved(products)] + Fanout(listeners, ProductRemoved(articleNumber))
    {
      var product := GetProduct(products, articleNumber);
      if product.None? {
        return Fail(NotFound(articleNumber));
      }
      products := Unset(products, articleNumber);
      SaveAndDispatchEvent(ProductRemoved(articleNumber));
      r := Pass;
    }

    /** Replaces the quantity of the entry with this article number. An unknown
      article number fails with not-found, a negative quantity with the
      product's own error; on failure nothing changes. */
    method UpdateQuantity(articleNumber: string, quantity: PhpInt) returns (r: Outcome)
      modifies this`products, this`trace, storage
      ensures r.Pass? <==> articleNumber in Keys(old(products)) && quantity >= 0
      ensures articleNumber !in Keys(old(products)) ==> r == Fail(NotFound(articleNumber))
      ensures articleNumber in Keys(old(products)) && quantity < 0 ==>
        r == Fail(InvalidProduct(NegativeQuantity))
      ensures r.Fail? ==>
        && products == old(products)
        && storage.session == old(storage.session)
        && trace == old(trace)
      ensures r.Pass? ==>
        var updated := old(GetProduct(products, articleNumber)).value.(quantity := quantity);
        && products == Assign(old(products), updated)
        && storage.session == old(storage.session)[CartKey := products]
        && trace == old(trace) + [Saved(products)] + Fanout(listeners, ProductUpdated(updated))
    {
      var product := GetProduct(products, articleNumber);
      if product.None? {
        return Fail(NotFound(articleNumber));
      }
      var updated := WithQuantity(product.value, quantity);
      if updated.Err? {
        return Fail(updated.error);
      }
      products := Assign(products, updated.value);
      SaveAndDispatchEvent(ProductUpdated(updated.value));
      r := Pass;
    }

    /** Empties the table, saves the empty snapshot and tells each listener once. */
    method ClearCart()
      modifies this`products, this`trace, storage
      ensures products == []
      ensures storage.session == old(storage.session)[CartKey := []]
      ensures trace == old(trace) + [Saved([])] + Fanout(listeners, CartCleared)
    {
      products := [];
      SaveAndDispatchEvent(CartCleared);
    }

    /** Replaces the active discount; the discount is not saved. */
    method SetDiscount(d: PercentageDiscount)
      modifies this`discount, this`trace
      ensures discount == Some(d)
      ensures trace == old(trace) + Fanout(listeners, DiscountSet(d))
    {
      discount := Some(d);
      DispatchEvent(DiscountSet(d));
    }

    /** Replaces the table with what storage holds (empty if nothing);
      no listener is called. */
    method Load()
      modifies this`products
      ensures products == Stored(storage.session)
    {
      products := storage.Load();
    }

    /** Σ price × quantity with the active discount applied once. */
    function CalculateTotalPriceWithoutVat(): (r: real)
      reads this
      ensures 0.0 <= r <= Subtotal(products)
      ensures discount.None? ==> r == Subtotal(products)
      ensures discount.Some? ==> r == Subtotal(products) * (1.0 - discount.value.percentage / 100.0)
    {
      ApplyDiscountToTotalPrice(discount, Subtotal(products))
    }

    /** The discounted total with VAT added; the same as adding VAT first and
      discounting afterwards. */
    function CalculateTotalPriceWithVat(): (r: real)
      reads this
      ensures r == CalculateTotalPriceWithoutVat() * (1.0 + config.vatRate / 100.0)
      ensures r == ApplyDiscountToTotalPrice(discount, WithVat(config, Subtotal(products)))
      ensures CalculateTotalPriceWithoutVat() <= r <= 2.0 * CalculateTotalPriceWithoutVat()
    {
      DiscountCommutesWithVat(discount, config, Subtotal(products));
      WithVat(config, CalculateTotalPriceWithoutVat())
    }
  }

  /** The tests' set-up, as a client builds it: a fresh cart with one
      listener, cleared, then a laptop and a smartphone added. */
  method SetUpCart() returns (cart: Cart)
    ensures fresh(cart) && fresh(cart.storage)
    ensures cart.products == [ProductData("001", "Laptop", 1500.0, Electronics, 1),
                              ProductData("002", "Smartphone", 800.0, Electronics, 2)]
    ensures cart.storage.session == map[CartKey := cart.products]
    ensures cart.config == ConfigData("EUR", 21.0)
    ensures cart.listeners == 1 && cart.discount == None
  {
    var storage := new SessionStorage(map[]);
    cart := new Cart(ConfigData("EUR", 21.0), storage);
    cart.AddListener();
    cart.ClearCart();
    var laptop := ProductData("001", "Laptop", 1500.0, Electronics, 1);
    var phone := ProductData("002", "Smartphone", 800.0, Electronics, 2);
    var first := cart.AddProduct(laptop);
    var second := cart.AddProduct(phone);
    assert cart.products == [laptop, phone] by { ExampleTotals(); }
  }

  /** What the contracts alone let a caller conclude about that cart: the
      totals, a failed removal, the reloaded snapshot. */
  method ClientScenario()
  {
    var cart := SetUpCart();
    assert cart.CalculateTotalPriceWithVat() == 3751.0 by { ExampleTotals(); }

    var missing := cart.RemoveProduct("003");
    assert missing == Fail(NotFound("003")) by {
      assert "003" !in Keys(cart.products);
    }
    var before := cart.products;
    cart.Load();
    assert cart.products == before;
  }

  /** The discount scenario of the tests: a negative percentage is refused,
      10% is set and listeners hear of it, and the total with VAT drops. */
  method DiscountScenario()
  {
    var cart := SetUpCart();
    var negative := NewPercentageDiscount(-10.0);
    assert negative == Err(NegativeDiscount(-10.0));
    var ten := NewPercentageDiscount(10.0);
    cart.SetDiscount(ten.value);
    assert cart.trace[|cart.trace| - 1] == Notified(0, DiscountSet(Percentage(10.0)));
    assert Subtotal(cart.products) == 3100.0 by { ExampleTotals(); }
    assert cart.CalculateTotalPriceWithoutVat() == 2790.0;
    assert cart.CalculateTotalPriceWithVat() == 3375.9;
  }
}
