/**
 * The product record the order and product handlers read. Only the fields
 * those handlers touch are kept; reviews and ratings are not part of this model.
 */
module ProductModel {
  import opened Common
  import opened Lists

  /**
   * One entry of a product's `images` list: an `{ url }` object (the url may
   * be missing, modelled as ""), or a bare string left by older documents.
   */
  datatype ImageRef = Hosted(url: string) | Plain(path: string)

  datatype Product = Product(
    id: Id,
    name: string,
    description: string,
    price: int,
    category: string,        // "" when the product has no category
    brand: string,
    countInStock: int,
    images: seq<ImageRef>,
    seller: Option<Id>,      // the stored record's seller, if any; the schema declares no such path
    createdAt: Time)

  /** The position of the product with id `id`, or -1 (`findById`). */
  function FindProduct(catalog: seq<Product>, id: Id): (k: int)
    ensures -1 <= k < |catalog|
    ensures k >= 0 ==> catalog[k].id == id
    ensures k == -1 <==> forall j :: 0 <= j < |catalog| ==> catalog[j].id != id
  {
    IndexWhere(catalog, (p: Product) => p.id == id)
  }

  /** No two stored products share an id. */
  predicate UniqueProductIds(catalog: seq<Product>) {
    UniqueKeys(catalog, (p: Product) => p.id)
  }
}
