/** The catalog record: a product's price and stock bounds, the two values
    derived from it (effective price, stock status), and the product
    collection whose stock the checkout and cancel handlers update. */
module ProductModel {
  import opened Common
  import opened Text

  /** A stored product. Prices are whole currency units. `discountPrice` is
      optional: the schema no longer declares it, but the handlers still
      read it. */
  datatype Product = Product(
    name: string,
    description: string,
    price: int,
    discountPrice: Option<int>,
    stock: int,
    isActive: bool,
    ratingAverage: real,
    ratingCount: int)

  datatype StockStatus = OutOfStock | LowStock | InStock {
    /** The text the `stockStatus` virtual reports. */
    function Label(): string {
      match this
      case OutOfStock => "Out of Stock"
      case LowStock => "Low Stock"
      case InStock => "In Stock"
    }
  }

  /** The schema's validators: name and description required (non-empty)
      and bounded, price and stock not negative, rating average in [0, 5]. */
  predicate SchemaValid(p: Product) {
    && 1 <= |p.name| <= 100
    && 1 <= |p.description| <= 1000
    && p.price >= 0
    && p.stock >= 0
    && 0.0 <= p.ratingAverage <= 5.0
  }

  /** A new product document: the name goes through the schema's `trim`
      setter, stock defaults to 0, the product is active and unrated. */
  function NewProduct(name: string, description: string, price: int, stock: Option<int>): (p: Product)
    ensures p.stock == (if stock.Some? then stock.value else 0) && p.isActive
    ensures p.stock == 0 <==> StockStatusOf(p) == OutOfStock
    ensures SchemaValid(p) <==>
              && 1 <= |Trim(name)| <= 100
              && 1 <= |description| <= 1000
              && price >= 0
              && stock.GetOr(0) >= 0
  {
    Product(Trim(name), description, price, None, stock.GetOr(0), true, 0.0, 0)
  }

  /** The `effectivePrice` virtual, `discountPrice || price`: the discount
      when one is set and not 0, the list price otherwise. */
  function EffectivePrice(p: Product): (r: int)
    ensures r == p.price || p.discountPrice == Some(r)
    ensures p.discountPrice.Some? && p.discountPrice.value != 0 ==> r == p.discountPrice.value
    ensures p.discountPrice == None || p.discountPrice == Some(0) ==> r == p.price
    ensures SchemaValid(p) && (p.discountPrice.None? || p.discountPrice.value >= 0) ==> r >= 0
  {
    if p.discountPrice.Some? && p.discountPrice.value != 0 then p.discountPrice.value else p.price
  }

  /** The `stockStatus` virtual: out of stock exactly at 0, in stock exactly
      above 5, low stock otherwise (which includes a negative stock). */
  function StockStatusOf(p: Product): (s: StockStatus)
    ensures s == OutOfStock <==> p.stock == 0
    ensures s == InStock <==> p.stock > 5
    ensures s == LowStock <==> p.stock != 0 && p.stock <= 5
    ensures SchemaValid(p) ==> (s == LowStock <==> 1 <= p.stock <= 5)
  {
    if p.stock == 0 then OutOfStock
    else if p.stock <= 5 then LowStock
    else InStock
  }

  /** The product collection. Only `stock` is changed by the order handlers;
      every stored product passed its schema's validators. */
  class Catalog {
    var products: map<ProductId, Product>

    predicate Valid()
      reads this
    {
      forall id :: id in products ==> SchemaValid(products[id])
    }

    constructor (products: map<ProductId, Product>)
      ensures this.products == products
    {
      this.products := products;
    }
  }
}
