/** The product type of the storefront (frontend-leptos/src/types/product.rs):
    stock classification and the sort orders of the catalog. `price` is the
    exact value of the finite `f64` the backend sends. */
module ProductTypes {
  import opened Wrappers

  /** Rust's `i32`. */
  type Int32 = x: int | -0x8000_0000 <= x < 0x8000_0000

  datatype Product = Product(
    id: Int32,
    name: string,
    description: Option<string>,
    price: real,
    inventory: Int32,
    createdAt: string)

  predicate IsInStock(p: Product) {
    p.inventory > 0
  }

  /** `stock_status`: a match on 0, 1..=5 and everything else. */
  function StockStatus(p: Product): string {
    if p.inventory == 0 then "Out of Stock"
    else if 1 <= p.inventory <= 5 then "Low Stock"
    else "In Stock"
  }

  /** `stock_status_class`, over the same three ranges. */
  function StockStatusClass(p: Product): string {
    if p.inventory == 0 then "badge-error"
    else if 1 <= p.inventory <= 5 then "badge-warning"
    else "badge-success"
  }

  /** The three badge texts partition the inventory values: "Out of Stock"
      is exactly 0, "Low Stock" exactly 1..5, "In Stock" everything else,
      negative values included. */
  lemma StockStatusRanges(p: Product)
    ensures StockStatus(p) == "Out of Stock" <==> p.inventory == 0
    ensures StockStatus(p) == "Low Stock" <==> 1 <= p.inventory <= 5
    ensures StockStatus(p) == "In Stock" <==> p.inventory < 0 || p.inventory > 5
  {
  }

  /** The badge class always goes with the badge text. */
  lemma StockStatusClassAgrees(p: Product)
    ensures StockStatusClass(p) == "badge-error" <==> StockStatus(p) == "Out of Stock"
    ensures StockStatusClass(p) == "badge-warning" <==> StockStatus(p) == "Low Stock"
    ensures StockStatusClass(p) == "badge-success" <==> StockStatus(p) == "In Stock"
  {
  }

  /** "In Stock" and "Low Stock" do not imply `is_in_stock`: a negative
      inventory is shown as "In Stock" although it is not in stock. Every
      product that is in stock does show one of the two. */
  lemma NegativeInventoryShownInStock(p: Product)
    ensures p.inventory < 0 ==> !IsInStock(p) && StockStatus(p) == "In Stock"
    ensures IsInStock(p) ==> StockStatus(p) != "Out of Stock"
    ensures IsInStock(p) <==> StockStatus(p) != "Out of Stock" && p.inventory >= 0
  {
  }

  datatype ProductSortOrder = NameAsc | NameDesc | PriceAsc | PriceDesc | Newest

  function Label(order: ProductSortOrder): string {
    match order
    case NameAsc => "Name (A-Z)"
    case NameDesc => "Name (Z-A)"
    case PriceAsc => "Price (Low to High)"
    case PriceDesc => "Price (High to Low)"
    case Newest => "Newest First"
  }

  /** Every sort order has its own label. */
  lemma LabelInjective(a: ProductSortOrder, b: ProductSortOrder)
    ensures Label(a) == Label(b) <==> a == b
  {
    match a
    case NameAsc => assert Label(a)[6] == 'A';
    case NameDesc => assert Label(a)[6] == 'Z';
    case PriceAsc => assert Label(a)[7] == 'L';
    case PriceDesc => assert Label(a)[7] == 'H';
    case Newest => assert Label(a)[0] == 'N' && Label(a)[1] == 'e';
  }
}
