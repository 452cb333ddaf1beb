/** `ScrapingService._fetch_product_catalog`: the `/products.json` endpoint
    turned into `Product` records. */
module Catalog {
  import opened Wrappers
  import opened Seqs
  import opened Models

  /** One JSON object of the `products` list; `None` marks a missing key. */
  datatype RawProduct = RawProduct(
    id: Option<int>,
    title: Option<string>,
    vendor: Option<string>,
    productType: Option<string>,
    handle: Option<string>,
    createdAt: Option<string>,
    variants: Option<seq<Variant>>)

  /** What `SESSION.get(...)` followed by `response.json()` yields:
      - `RequestFailed`: a `RequestException` (connection, timeout, HTTP status);
      - `InvalidJson`: the body is not JSON (a `ValueError`);
      - `JsonNonObject`: JSON whose top level is not an object, so `.get` raises
        `AttributeError`; `typeName` is its Python type name;
      - `JsonObject`: an object, with its `products` list if the key is present. */
  datatype CatalogResponse =
    | RequestFailed
    | InvalidJson
    | JsonNonObject(typeName: string)
    | JsonObject(products: Option<seq<RawProduct>>)

  /** The keys the `Product(...)` call of lines 52-56 reads, in argument order. */
  datatype Key = IdKey | TitleKey | VendorKey | ProductTypeKey | HandleKey | CreatedAtKey | VariantsKey

  /** The JSON name of a key. */
  function KeyName(k: Key): string
  {
    match k
    case IdKey => "id"
    case TitleKey => "title"
    case VendorKey => "vendor"
    case ProductTypeKey => "product_type"
    case HandleKey => "handle"
    case CreatedAtKey => "created_at"
    case VariantsKey => "variants"
  }

  /** The position of a key among the call's arguments. */
  function KeyRank(k: Key): nat
  {
    match k
    case IdKey => 0
    case TitleKey => 1
    case VendorKey => 2
    case ProductTypeKey => 3
    case HandleKey => 4
    case CreatedAtKey => 5
    case VariantsKey => 6
  }

  predicate Present(p: RawProduct, k: Key)
  {
    match k
    case IdKey => p.id.Some?
    case TitleKey => p.title.Some?
    case VendorKey => p.vendor.Some?
    case ProductTypeKey => p.productType.Some?
    case HandleKey => p.handle.Some?
    case CreatedAtKey => p.createdAt.Some?
    case VariantsKey => p.variants.Some?
  }

  /** Building one product: a record, a `ValueError` from `float`, or a
      `KeyError` naming the first missing key. */
  datatype Built = Built(product: Product) | PriceError | MissingKey(key: Key)

  /** The price rule: `float` of the first variant's `price` (0.0 if that key
      is absent) when `variants` is a non-empty list, else 0.0; `None` when
      `float` raises. */
  function PriceOf(variants: Option<seq<Variant>>): Option<real>
  {
    if variants.Some? && |variants.value| > 0 then
      match variants.value[0].price
      case None => Some(0.0)
      case Some(Convertible(x)) => Some(x)
      case Some(NotConvertible) => None
    else Some(0.0)
  }

  /** Every key the `Product(...)` call reads, in the order it reads them. */
  predicate HasAllKeys(p: RawProduct)
  {
    && p.id.Some? && p.title.Some? && p.vendor.Some? && p.productType.Some?
    && p.handle.Some? && p.createdAt.Some? && p.variants.Some?
  }

  /** The loop body of lines 51-56: the price is computed first, then the
      record's keys are read in argument order. */
  function BuildProduct(p: RawProduct): (b: Built)
    ensures b.Built? <==> PriceOf(p.variants).Some? && HasAllKeys(p)
    ensures b.PriceError? <==> PriceOf(p.variants).None?
    ensures b.Built? ==>
      && b.product.id == p.id.value && b.product.title == p.title.value
      && b.product.vendor == p.vendor.value && b.product.productType == p.productType.value
      && b.product.handle == p.handle.value && b.product.createdAt == p.createdAt.value
      && b.product.variants == p.variants.value
      && b.product.price == PriceOf(p.variants).value
    ensures b.MissingKey? ==> !Present(p, b.key) && forall k :: KeyRank(k) < KeyRank(b.key) ==> Present(p, k)
    ensures p.variants.None? ==> b.MissingKey?
  {
    match PriceOf(p.variants)
    case None => PriceError
    case Some(price) =>
      if p.id.None? then MissingKey(IdKey)
      else if p.title.None? then MissingKey(TitleKey)
      else if p.vendor.None? then MissingKey(VendorKey)
      else if p.productType.None? then MissingKey(ProductTypeKey)
      else if p.handle.None? then MissingKey(HandleKey)
      else if p.createdAt.None? then MissingKey(CreatedAtKey)
      else if p.variants.None? then MissingKey(VariantsKey)
      else Built(Product(p.id.value, p.title.value, p.vendor.value, p.productType.value,
                         p.handle.value, p.createdAt.value, price, p.variants.value))
  }

  predicate BuildFails(p: RawProduct)
  {
    !BuildProduct(p).Built?
  }

  /** How the loop over `products` ends: every record built, or the first
      failing product's exception. */
  datatype Walk = Walked(products: seq<Product>) | ValueErr | KeyErr(key: Key)

  function BuildAll(ps: seq<RawProduct>): (r: Walk)
    ensures r.Walked? <==> forall i :: 0 <= i < |ps| ==> BuildProduct(ps[i]).Built?
    ensures r.Walked? ==>
      |r.products| == |ps| && forall i :: 0 <= i < |ps| ==> BuildProduct(ps[i]) == Built(r.products[i])
    ensures r.ValueErr? <==> exists i :: FirstMatchAt(ps, BuildFails, i) && BuildProduct(ps[i]).PriceError?
    ensures r.KeyErr? ==> exists i :: FirstMatchAt(ps, BuildFails, i) && BuildProduct(ps[i]) == MissingKey(r.key)
  {
    if |ps| == 0 then Walked([])
    else match BuildProduct(ps[0])
      case PriceError =>
        assert FirstMatchAt(ps, BuildFails, 0);
        ValueErr
      case MissingKey(k) =>
        assert FirstMatchAt(ps, BuildFails, 0);
        KeyErr(k)
      case Built(q) =>
        var rest := BuildAll(ps[1..]);
        match rest
        case Walked(qs) =>
          assert forall i :: 1 <= i < |ps| ==> ps[i] == ps[1..][i - 1];
          Walked([q] + qs)
        case ValueErr =>
          ShiftFirstMatch(ps);
          ValueErr
        case KeyErr(k) =>
          ShiftFirstMatch(ps);
          KeyErr(k)
  }

  /** When the head builds, the first failure of `ps` is one past the first
      failure of its tail. */
  lemma ShiftFirstMatch(ps: seq<RawProduct>)
    requires |ps| > 0 && !BuildFails(ps[0])
    ensures forall i :: FirstMatchAt(ps[1..], BuildFails, i) <==> FirstMatchAt(ps, BuildFails, i + 1)
  {
  }

  /** `str(KeyError(key))`: the key in single quotes. */
  function KeyErrorText(key: string): string
  {
    "'" + key + "'"
  }

  /** `str(AttributeError)` for `.get` on a non-object JSON value. */
  function NoGetText(typeName: string): string
  {
    "'" + typeName + "' object has no attribute 'get'"
  }

  /** The whole method: `RequestException` and `ValueError` give the empty
      catalog; any other exception escapes as its message. */
  function FetchCatalog(resp: CatalogResponse): (r: Result<seq<Product>, string>)
    ensures resp.RequestFailed? || resp.InvalidJson? ==> r == Success([])
    ensures resp == JsonObject(None) ==> r == Success([])
    ensures r.Failure? <==>
      || resp.JsonNonObject?
      || (resp.JsonObject? && resp.products.Some? && BuildAll(resp.products.value).KeyErr?)
    ensures r.Failure? ==> r.error == (if resp.JsonNonObject? then NoGetText(resp.typeName)
                                       else KeyErrorText(KeyName(BuildAll(resp.products.value).key)))
    ensures resp.JsonObject? && resp.products.Some? && BuildAll(resp.products.value).Walked? ==>
      r == Success(BuildAll(resp.products.value).products)
    ensures r.Success? && r.value != [] ==>
      && resp.JsonObject? && resp.products.Some?
      && |r.value| == |resp.products.value|
      && forall i :: 0 <= i < |r.value| ==> BuildProduct(resp.products.value[i]) == Built(r.value[i])
  {
    match resp
    case RequestFailed => Success([])
    case InvalidJson => Success([])
    case JsonNonObject(t) => Failure(NoGetText(t))
    case JsonObject(None) => Success([])
    case JsonObject(Some(ps)) =>
      match BuildAll(ps)
      case Walked(c) => Success(c)
      case ValueErr => Success([])
      case KeyErr(k) => Failure(KeyErrorText(KeyName(k)))
  }

  /** The price rule and the one-to-one, in-order correspondence with the
      `products` list, for a catalog that was fully built. */
  lemma {:induction false} CatalogFollowsProducts(ps: seq<RawProduct>)
    requires forall i :: 0 <= i < |ps| ==> BuildProduct(ps[i]).Built?
    ensures FetchCatalog(JsonObject(Some(ps))).Success?
    ensures var c := FetchCatalog(JsonObject(Some(ps))).value;
      && |c| == |ps|
      && forall i :: 0 <= i < |ps| ==>
        && c[i].title == ps[i].title.value
        && c[i].id == ps[i].id.value
        && c[i].price == (if |ps[i].variants.value| == 0 then 0.0
                          else match ps[i].variants.value[0].price
                            case Some(Convertible(x)) => x
                            case _ => 0.0)
  {
  }

  /** A product lacking its `id` makes the catalog raise rather than come back empty. */
  lemma MissingIdEscapes(p: RawProduct)
    requires p.id.None? && PriceOf(p.variants).Some?
    ensures FetchCatalog(JsonObject(Some([p]))) == Failure("'id'")
  {
    assert BuildAll([p]) == KeyErr(IdKey);
    assert KeyErrorText(KeyName(IdKey)) == "'id'";
  }
}
