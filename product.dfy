/** An immutable product: identity (article number), description, price, category
    and quantity. Construction validates price and quantity; a product with a
    different quantity is derived as a copy. */
module Products {
  import opened Outcomes
  import opened Categories

  datatype ProductData = ProductData(
    articleNumber: string,
    description: string,
    price: real,
    category: Category,
    quantity: int)

  /** Only validated products exist: the constructor throws otherwise, and the
      quantity is a PHP int. */
  type Product = p: ProductData | p.price > 0.0 && 0 <= p.quantity <= PhpIntMax
    witness ProductData("", "", 1.0, Electronics, 0)

  /** The validating constructor; the quantity defaults to 1. The price is
      checked before the quantity, so a product failing both reports the price. */
  function NewProduct(articleNumber: string, description: string, price: real,
                      category: Category, quantity: PhpInt := 1): (r: Result<Product>)
    ensures r.Ok? <==> price > 0.0 && quantity >= 0
    ensures price <= 0.0 ==> r == Err(InvalidProduct(NonPositivePrice))
    ensures price > 0.0 && quantity < 0 ==> r == Err(InvalidProduct(NegativeQuantity))
    ensures r.Ok? ==>
      && r.value.articleNumber == articleNumber
      && r.value.description == description
      && r.value.price == price
      && r.value.category == category
      && r.value.quantity == quantity
  {
    if price <= 0.0 then Err(InvalidProduct(NonPositivePrice))
    else if quantity < 0 then Err(InvalidProduct(NegativeQuantity))
    else Ok(ProductData(articleNumber, description, price, category, quantity))
  }

  /** Omitting the quantity gives a product of quantity 1. */
  lemma DefaultQuantityIsOne(articleNumber: string, description: string, price: real, category: Category)
    requires price > 0.0
    ensures NewProduct(articleNumber, description, price, category).Ok?
    ensures NewProduct(articleNumber, description, price, category).value.quantity == 1
  {
  }

  /** A copy of `p` with quantity `quantity`; `p` itself is a value and stays as it is. */
  function WithQuantity(p: Product, quantity: PhpInt): (r: Result<Product>)
    ensures r.Ok? <==> quantity >= 0
    ensures quantity < 0 ==> r == Err(InvalidProduct(NegativeQuantity))
    ensures r.Ok? ==>
      && r.value.articleNumber == p.articleNumber
      && r.value.description == p.description
      && r.value.price == p.price
      && r.value.category == p.category
      && r.value.quantity == quantity
  {
    if quantity < 0 then Err(InvalidProduct(NegativeQuantity))
    else Ok(p.(quantity := quantity))
  }

  /** ASCII upper-casing of one character, as PHP's ucfirst does it. */
  function UpperAscii(c: char): char
  {
    if 'a' <= c <= 'z' then (c as int - 32) as char else c
  }

  /** PHP's ucfirst: the first character upper-cased, the rest untouched. */
  function UcFirst(s: string): (r: string)
    ensures |r| == |s|
    ensures |s| > 0 ==> r[0] == UpperAscii(s[0]) && r[1..] == s[1..]
  {
    if |s| == 0 then s else [UpperAscii(s[0])] + s[1..]
  }

  /** The display name of the product's category. */
  function CategoryName(p: Product): (r: string)
    ensures |r| == |p.category.Value()|
    ensures r[0] == UpperAscii(p.category.Value()[0])
    ensures r[1..] == p.category.Value()[1..]
    ensures 'A' <= r[0] <= 'Z'
  {
    UcFirst(p.category.Value())
  }

  /** The four display names: only the first letter changes, so the last
      category reads "Homeappliances". */
  lemma CategoryNames(p: Product)
    ensures p.category == Electronics ==> CategoryName(p) == "Electronics"
    ensures p.category == Furniture ==> CategoryName(p) == "Furniture"
    ensures p.category == Groceries ==> CategoryName(p) == "Groceries"
    ensures p.category == HomeAppliances ==> CategoryName(p) == "Homeappliances"
  {
    var v := p.category.Value();
    assert CategoryName(p) == [UpperAscii(v[0])] + v[1..];
    match p.category
    case Electronics => assert v[1..] == "lectronics";
    case Furniture => assert v[1..] == "urniture";
    case Groceries => assert v[1..] == "roceries";
    case HomeAppliances => assert v[1..] == "omeappliances";
  }
}
