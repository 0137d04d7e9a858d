/**
 * Product handlers: the remote-storage switch, the stored file name of a
 * local upload, the upload loop with its local fallback, the preparation of
 * a new product's body, and the ownership rule of update and delete.
 */
module ProductController {
  import opened Common
  import opened Lists
  import opened Strings
  import opened ProductModel

  /** The marker of a placeholder credential. */
  const Placeholder := "your_"

  /**
   * `isCloudinaryConfigured()`: all three credentials are set (an unset
   * variable is "") and neither the name nor the key is a placeholder. The
   * secret is not checked for the placeholder.
   */
  predicate RemoteConfigured(name: string, key: string, secret: string) {
    name != "" && key != "" && secret != ""
    && !Contains(name, Placeholder) && !Contains(key, Placeholder)
  }

  /** The switch in terms of positions: no placeholder marker occurs anywhere in the name or the key. */
  lemma RemoteConfiguredIff(name: string, key: string, secret: string)
    ensures RemoteConfigured(name, key, secret)
        <==> name != "" && key != "" && secret != ""
             && (forall i :: !OccursAt(name, Placeholder, i))
             && (forall i :: !OccursAt(key, Placeholder, i))
  {
    ContainsIff(name, Placeholder);
    ContainsIff(key, Placeholder);
  }

  /** The characters `/[^a-z0-9.-]/gi` leaves alone. */
  predicate SafeChar(c: char) {
    ('a' <= c <= 'z') || ('A' <= c <= 'Z') || ('0' <= c <= '9') || c == '.' || c == '-'
  }

  /** `filename.replace(/[^a-z0-9.-]/gi, '_')` */
  function SafeName(filename: string): (r: string)
    ensures |r| == |filename|
    ensures forall i :: 0 <= i < |filename| ==> r[i] == (if SafeChar(filename[i]) then filename[i] else '_')
    decreases |filename|
  {
    if |filename| == 0 then ""
    else [if SafeChar(filename[0]) then filename[0] else '_'] + SafeName(filename[1..])
  }

  /**
   * A sanitised name holds only kept characters and '_', sanitising it
   * again changes nothing, and a name made of kept characters only is left
   * as it is.
   */
  lemma SafeNameProperties(filename: string)
    ensures forall i :: 0 <= i < |SafeName(filename)| ==> SafeChar(SafeName(filename)[i]) || SafeName(filename)[i] == '_'
    ensures SafeName(SafeName(filename)) == SafeName(filename)
    ensures (forall i :: 0 <= i < |filename| ==> SafeChar(filename[i])) ==> SafeName(filename) == filename
  {
  }

  const UploadsPrefix := "/uploads/"

  /** `Date.now() + '-' + safe name`: the name a local upload is stored under. */
  function StoredName(stamp: Time, filename: string): string {
    NatToString(stamp) + "-" + SafeName(filename)
  }

  /** The url a local upload resolves to. */
  function LocalUrl(stamp: Time, filename: string): string {
    UploadsPrefix + StoredName(stamp, filename)
  }

  /**
   * A local url reads back: after "/uploads/" come the decimal digits of
   * the timestamp, then '-', then the sanitised file name.
   */
  lemma LocalUrlParts(stamp: Time, filename: string)
    ensures var url := LocalUrl(stamp, filename);
            var d := |NatToString(stamp)|;
            && StartsWith(url, UploadsPrefix)
            && |url| == |UploadsPrefix| + d + 1 + |filename|
            && (forall i :: |UploadsPrefix| <= i < |UploadsPrefix| + d ==> '0' <= url[i] <= '9')
            && ParseDecimal(url[|UploadsPrefix|..|UploadsPrefix| + d]) == stamp
            && url[|UploadsPrefix| + d] == '-'
            && url[|UploadsPrefix| + d + 1..] == SafeName(filename)
  {
    var url := LocalUrl(stamp, filename);
    var d := NatToString(stamp);
    var safe := SafeName(filename);
    var k := |UploadsPrefix|;
    assert url == UploadsPrefix + d + "-" + safe;
    assert url[..k] == UploadsPrefix;
    assert url[k..k + |d|] == d;
    assert forall i :: k <= i < k + |d| ==> url[i] == d[i - k];
    assert url[k + |d| + 1..] == safe;
    NatToStringRoundTrip(stamp);
  }

  /**
   * Two local urls are equal only for the same timestamp and the same
   * sanitised name: the timestamp prefix ends at the first '-'.
   */
  lemma LocalUrlInjective(s1: Time, f1: string, s2: Time, f2: string)
    requires LocalUrl(s1, f1) == LocalUrl(s2, f2)
    ensures s1 == s2 && SafeName(f1) == SafeName(f2)
  {
    var x1, x2 := StoredName(s1, f1), StoredName(s2, f2);
    assert x1 == LocalUrl(s1, f1)[|UploadsPrefix|..];
    assert x2 == LocalUrl(s2, f2)[|UploadsPrefix|..];
    DashSplits(NatToString(s1), SafeName(f1), NatToString(s2), SafeName(f2));
    NatToStringInjective(s1, s2);
  }

  /** A run of digits followed by '-' is determined by the string it starts. */
  lemma DashSplits(d1: string, r1: string, d2: string, r2: string)
    requires forall i :: 0 <= i < |d1| ==> '0' <= d1[i] <= '9'
    requires forall i :: 0 <= i < |d2| ==> '0' <= d2[i] <= '9'
    requires d1 + "-" + r1 == d2 + "-" + r2
    ensures d1 == d2 && r1 == r2
  {
    var x := d1 + "-" + r1;
    assert x[|d1|] == '-';
    assert x[|d2|] == '-';
    assert |d1| == |d2|;
    assert d1 == x[..|d1|] && d2 == x[..|d2|];
    assert r1 == x[|d1| + 1..] && r2 == x[|d2| + 1..];
  }

  /** One uploaded file (its buffer is not part of this model). */
  datatype UploadFile = UploadFile(originalname: string)

  /**
   * Where one file ends up. `remote` is the secure url the remote upload
   * resolved with, or None when it threw; `stamp` is Date.now() at the local write.
   */
  function UploadOutcome(f: UploadFile, configured: bool, remote: Option<string>, stamp: Time): (r: ImageRef)
    ensures r.Hosted?
    ensures configured && remote.Some? ==> r.url == remote.value
    ensures !(configured && remote.Some?) ==> StartsWith(r.url, UploadsPrefix)
  {
    if configured && remote.Some? then Hosted(remote.value)
    else
      var url := LocalUrl(stamp, f.originalname);
      assert url[..|UploadsPrefix|] == UploadsPrefix;
      Hosted(url)
  }

  /**
   * The for-of loop of `createProduct`: one entry per file, in file order;
   * the remote url when remote storage is configured and its upload
   * succeeds, the local url otherwise.
   */
  method UploadAll(files: seq<UploadFile>, configured: bool, remote: seq<Option<string>>, stamps: seq<Time>)
    returns (uploads: seq<ImageRef>)
    requires |remote| == |files| && |stamps| == |files|
    ensures |uploads| == |files|
    ensures forall i :: 0 <= i < |files| ==> uploads[i] == UploadOutcome(files[i], configured, remote[i], stamps[i])
  {
    uploads := [];
    for i := 0 to |files|
      invariant |uploads| == i
      invariant forall j :: 0 <= j < i ==> uploads[j] == UploadOutcome(files[j], configured, remote[j], stamps[j])
    {
      if configured {
        if remote[i].Some? {
          uploads := uploads + [Hosted(remote[i].value)];
          continue;
        }
      }
      uploads := uploads + [Hosted(LocalUrl(stamps[i], files[i].originalname))];
    }
  }

  /** The `images` field of a new product's body: the uploads, or the value the client sent. */
  datatype ImagesField = Uploaded(refs: seq<ImageRef>) | Supplied(value: Value)

  /** The fields of the request body `createProduct` rewrites. */
  datatype CreateRequest = CreateRequest(seller: Option<Id>, images: Value, files: seq<UploadFile>)

  datatype PreparedBody = PreparedBody(seller: Option<Id>, images: ImagesField)

  /**
   * The body `createProduct` hands to the model: the caller becomes the
   * seller; uploaded files replace `images`; otherwise a non-empty string
   * `images` is replaced by what it parses to, and kept when it does not parse.
   */
  method PrepareProduct(req: CreateRequest, caller: Option<Id>, configured: bool,
                        remote: seq<Option<string>>, stamps: seq<Time>, parse: string -> Option<Value>)
    returns (body: PreparedBody)
    requires |remote| == |req.files| && |stamps| == |req.files|
    ensures caller.Some? ==> body.seller == caller
    ensures caller.None? ==> body.seller == req.seller
    ensures |req.files| > 0 ==>
              (body.images.Uploaded? && |body.images.refs| == |req.files|
               && forall i :: 0 <= i < |req.files| ==>
                    body.images.refs[i] == UploadOutcome(req.files[i], configured, remote[i], stamps[i]))
    ensures |req.files| == 0 && req.images.Str? && req.images.s != "" && parse(req.images.s).Some? ==>
              body.images == Supplied(parse(req.images.s).value)
    ensures |req.files| == 0 && !(req.images.Str? && req.images.s != "" && parse(req.images.s).Some?) ==>
              body.images == Supplied(req.images)
  {
    var seller := req.seller;
    if caller.Some? {
      seller := caller;
    }
    var images := Supplied(req.images);
    if |req.files| > 0 {
      var uploads := UploadAll(req.files, configured, remote, stamps);
      images := Uploaded(uploads);
    } else if req.images.Str? && req.images.s != "" {
      var parsed := parse(req.images.s);
      if parsed.Some? {
        images := Supplied(parsed.value);
      }
    }
    body := PreparedBody(seller, images);
  }

  /** The fields of `req.body` that `Object.assign` copies onto a product; None when absent. */
  datatype ProductPatch = ProductPatch(
    name: Option<string>,
    description: Option<string>,
    price: Option<int>,
    category: Option<string>,
    brand: Option<string>,
    countInStock: Option<int>,
    images: Option<seq<ImageRef>>)

  const EmptyPatch := ProductPatch(None, None, None, None, None, None, None)

  /** `Object.assign(product, req.body)` */
  function Patched(p: Product, patch: ProductPatch): Product {
    p.(name := patch.name.GetOr(p.name),
       description := patch.description.GetOr(p.description),
       price := patch.price.GetOr(p.price),
       category := patch.category.GetOr(p.category),
       brand := patch.brand.GetOr(p.brand),
       countInStock := patch.countInStock.GetOr(p.countInStock),
       images := patch.images.GetOr(p.images))
  }

  /** `Object.assign(a, b)` on two patches: the fields of `b` win. */
  function Then(a: ProductPatch, b: ProductPatch): ProductPatch {
    ProductPatch(
      if b.name.Some? then b.name else a.name,
      if b.description.Some? then b.description else a.description,
      if b.price.Some? then b.price else a.price,
      if b.category.Some? then b.category else a.category,
      if b.brand.Some? then b.brand else a.brand,
      if b.countInStock.Some? then b.countInStock else a.countInStock,
      if b.images.Some? then b.images else a.images)
  }

  /**
   * The update overwrites exactly the fields the body holds: an empty body
   * changes nothing, the id, seller and creation time never change,
   * applying the same body twice is applying it once, and two updates in a
   * row are one update with the later fields winning.
   */
  lemma PatchLaws(p: Product, a: ProductPatch, b: ProductPatch)
    ensures Patched(p, EmptyPatch) == p
    ensures Patched(p, a).id == p.id && Patched(p, a).seller == p.seller && Patched(p, a).createdAt == p.createdAt
    ensures Patched(Patched(p, a), a) == Patched(p, a)
    ensures Patched(Patched(p, a), b) == Patched(p, Then(a, b))
    ensures a.name.Some? ==> Patched(p, a).name == a.name.value
    ensures a.name.None? ==> Patched(p, a).name == p.name
    ensures a.description.Some? ==> Patched(p, a).description == a.description.value
    ensures a.description.None? ==> Patched(p, a).description == p.description
    ensures a.price.Some? ==> Patched(p, a).price == a.price.value
    ensures a.price.None? ==> Patched(p, a).price == p.price
    ensures a.category.Some? ==> Patched(p, a).category == a.category.value
    ensures a.category.None? ==> Patched(p, a).category == p.category
    ensures a.brand.Some? ==> Patched(p, a).brand == a.brand.value
    ensures a.brand.None? ==> Patched(p, a).brand == p.brand
    ensures a.countInStock.Some? ==> Patched(p, a).countInStock == a.countInStock.value
    ensures a.countInStock.None? ==> Patched(p, a).countInStock == p.countInStock
    ensures a.images.Some? ==> Patched(p, a).images == a.images.value
    ensures a.images.None? ==> Patched(p, a).images == p.images
  {
  }

  /**
   * `product.seller` on a document `findById` loads: the product schema
   * declares no `seller` path, so the document has no such accessor and the
   * read gives undefined, whatever the stored record holds.
   */
  function LoadedSeller(p: Product): (s: Option<Id>)
    ensures s.None?
  {
    None
  }

  /**
   * The ownership rule of update and delete, `role === 'seller' &&
   * product.seller.toString() !== caller id`: None lets the request through,
   * otherwise the error reply. Since the loaded document has no seller, the
   * `toString` call throws for every seller, which the handler's catch turns
   * into 500; the 403 branch and the owner's pass are never reached.
   */
  function OwnershipError(caller: Caller, p: Product, forbidden: string): (r: Option<(nat, string)>)
    ensures r.None? <==> caller.role != "seller"
    ensures r.Some? ==> r.value == (500, ReadOfUndefined("toString"))
  {
    if caller.role != "seller" then None
    else match LoadedSeller(p)
      case None => Some((500, ReadOfUndefined("toString")))
      case Some(owner) => if owner != caller.id then Some((ForbiddenStatus, forbidden)) else None
  }

  /** Even the seller the stored record names is refused: the stored seller is never read. */
  lemma OwnerIsRefused(caller: Caller, p: Product, forbidden: string)
    requires caller.role == "seller" && p.seller == Some(caller.id)
    ensures OwnershipError(caller, p, forbidden) == Some((500, ReadOfUndefined("toString")))
    ensures OwnershipError(caller, p, forbidden) == OwnershipError(caller, p.(seller := None), forbidden)
  {
  }

  /** Admins and other non-seller roles may change any product. */
  lemma NonSellersMayModify(caller: Caller, p: Product, forbidden: string)
    requires caller.role != "seller"
    ensures OwnershipError(caller, p, forbidden).None?
  {
  }

  const ForbiddenStatus: nat := 403
  const ProductNotFound := "Product not found"
  const UpdateForbidden := "Not authorized to update this product"
  const DeleteForbidden := "Not authorized to delete this product"

  /** The schema's required string fields are non-empty (`required` rejects ""). */
  predicate RequiredPresent(p: Product) {
    p.name != "" && p.description != ""
  }

  /** The message of the validation error `save()` rejects with. */
  function ValidationMessage(p: Product): string {
    var name := "name: Path `name` is required.";
    var description := "description: Path `description` is required.";
    "Product validation failed: "
    + (if p.name == "" && p.description == "" then name + ", " + description
       else if p.name == "" then name
       else description)
  }

  /** `getSellerProducts`: the caller's products, newest first. */
  function SellerProducts(catalog: seq<Product>, seller: Id): (r: seq<Product>)
    ensures forall i :: 0 <= i < |r| ==> r[i].seller == Some(seller)
    ensures SortedDesc(r, (p: Product) => p.createdAt)
    ensures multiset(r) == multiset(Filter(catalog, (p: Product) => p.seller == Some(seller)))
  {
    var own := Filter(catalog, (p: Product) => p.seller == Some(seller));
    var r := SortDesc(own, (p: Product) => p.createdAt);
    assert forall i :: 0 <= i < |r| ==> r[i] in multiset(own);
    r
  }

  /** The seller listing holds every product of the seller, as often as it is stored, and no other. */
  lemma SellerProductsComplete(catalog: seq<Product>, seller: Id, p: Product)
    ensures multiset(SellerProducts(catalog, seller))[p]
         == if p.seller == Some(seller) then multiset(catalog)[p] else 0
  {
    FilterMultiset(catalog, (x: Product) => x.seller == Some(seller), p);
  }

  /**
   * Deleting the product at a position where the ids are unique leaves no
   * product with that id and keeps the ids unique.
   */
  lemma RemoveProductGone(catalog: seq<Product>, k: nat)
    requires UniqueProductIds(catalog) && k < |catalog|
    ensures FindProduct(RemoveAt(catalog, k), catalog[k].id) == -1
    ensures UniqueProductIds(RemoveAt(catalog, k))
  {
    RemoveAtUnique(catalog, k, (p: Product) => p.id);
  }

  /** The products collection, updated in place by the handlers. */
  class ProductCollection {
    var products: seq<Product>

    constructor (initial: seq<Product>)
      ensures products == initial
    {
      products := initial;
    }

    /**
     * `updateProduct`: 404 for an unknown id, the ownership error (500) for
     * any seller, 500 when the patched product
     * fails validation; otherwise the patched product replaces the stored
     * one and is returned.
     */
    method UpdateProduct(caller: Caller, id: Id, patch: ProductPatch) returns (r: Response<Product>)
      modifies this
      ensures FindProduct(old(products), id) >= 0 && caller.role == "seller" ==>
                r == Error(500, ReadOfUndefined("toString")) && products == old(products)
      ensures var k := FindProduct(old(products), id);
              && (k == -1 ==> r == Error(404, ProductNotFound) && products == old(products))
              && (k >= 0 && OwnershipError(caller, old(products)[k], UpdateForbidden).Some? ==>
                    var e := OwnershipError(caller, old(products)[k], UpdateForbidden).value;
                    r == Error(e.0, e.1) && products == old(products))
              && (k >= 0 && OwnershipError(caller, old(products)[k], UpdateForbidden).None? ==>
                    var q := Patched(old(products)[k], patch);
                    if RequiredPresent(q) then products == old(products)[k := q] && r == Reply(200, q)
                    else products == old(products) && r == Error(500, ValidationMessage(q)))
    {
      var k := FindProduct(products, id);
      if k == -1 {
        return Error(404, ProductNotFound);
      }
      var denied := OwnershipError(caller, products[k], UpdateForbidden);
      if denied.Some? {
        return Error(denied.value.0, denied.value.1);
      }
      var q := Patched(products[k], patch);
      if !RequiredPresent(q) {
        return Error(500, ValidationMessage(q));
      }
      products := products[k := q];
      r := Reply(200, q);
    }

    /**
     * `deleteProduct`: 404 for an unknown id, the ownership error (500) for
     * any seller; otherwise the product is removed.
     */
    method DeleteProduct(caller: Caller, id: Id) returns (r: Response<string>)
      modifies this
      ensures FindProduct(old(products), id) >= 0 && caller.role == "seller" ==>
                r == Error(500, ReadOfUndefined("toString")) && products == old(products)
      ensures var k := FindProduct(old(products), id);
              && (k == -1 ==> r == Error(404, ProductNotFound) && products == old(products))
              && (k >= 0 && OwnershipError(caller, old(products)[k], DeleteForbidden).Some? ==>
                    var e := OwnershipError(caller, old(products)[k], DeleteForbidden).value;
                    r == Error(e.0, e.1) && products == old(products))
              && (k >= 0 && OwnershipError(caller, old(products)[k], DeleteForbidden).None? ==>
                    products == RemoveAt(old(products), k) && r == Reply(200, "Product removed"))
    {
      var k := FindProduct(products, id);
      if k == -1 {
        return Error(404, ProductNotFound);
      }
      var denied := OwnershipError(caller, products[k], DeleteForbidden);
      if denied.Some? {
        return Error(denied.value.0, denied.value.1);
      }
      products := RemoveAt(products, k);
      r := Reply(200, "Product removed");
    }
  }
}
