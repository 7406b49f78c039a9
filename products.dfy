// ProductData: the inventory record every sales and inventory screen shares.
// Strings are C# references and may be null; money and quantities are C#
// `long`, kept here as unbounded integers (nothing in the app guards their
// overflow).
module Products {
  import opened Wrappers
  import opened DotNetText
  import Sorting

  datatype Product = Product(
    productId: Option<string>,
    productName: Option<string>,
    unit: Option<string>,
    price: int,
    importPrice: int,
    barcode: Option<string>,
    imageUrl: Option<string>,
    stock: int,
    category: Option<string>,
    manufacturer: Option<string>)

  /** A product object that several holders share and update in place. */
  class ProductData {
    var product: Product

    constructor(p: Product)
      ensures product == p
    {
      product := p;
    }
  }

  /** Position of the first product with the given id, if any. */
  function FindIndex(ps: seq<Product>, id: Option<string>): (r: Option<nat>)
    ensures r.Some? ==> r.value < |ps| && ps[r.value].productId == id
    ensures r.Some? ==> forall j :: 0 <= j < r.value ==> ps[j].productId != id
    ensures r.None? ==> forall j :: 0 <= j < |ps| ==> ps[j].productId != id
  {
    if ps == [] then None
    else if ps[0].productId == id then Some(0)
    else match FindIndex(ps[1..], id)
      case None => None
      case Some(j) => Some(j + 1)
  }

  /** `products.FirstOrDefault(p => p.productId == id)` (C# string equality,
      under which null equals null). */
  function FirstWithId(ps: seq<Product>, id: Option<string>): (r: Option<Product>)
    ensures r.Some? ==> r.value in ps && r.value.productId == id
    ensures r.None? <==> forall j :: 0 <= j < |ps| ==> ps[j].productId != id
  {
    match FindIndex(ps, id)
    case None => None
    case Some(j) => Some(ps[j])
  }

  /** `field?.ToLower().Contains(lowered) ?? false`: a null field never
      matches. */
  predicate FieldContains(field: Option<string>, lowered: string, lower: char -> char)
  {
    field.Some? && Contains(MapChars(lower, field.value), lowered)
  }

  /** OrderBy(p => p.productName): null sorts before every string. */
  predicate NameLe(a: Option<string>, b: Option<string>, le: (string, string) -> bool)
  {
    a.None? || (b.Some? && le(a.value, b.value))
  }

  /** The product comparison OrderBy(p => p.productName) uses. */
  function ByName(le: (string, string) -> bool): (Product, Product) -> bool
  {
    (a: Product, b: Product) => NameLe(a.productName, b.productName, le)
  }

  /** A total preorder on strings orders products by name totally. */
  lemma ByNamePreorder(le: (string, string) -> bool)
    requires Sorting.TotalPreorder(le)
    ensures Sorting.TotalPreorder(ByName(le))
  {
  }
}
