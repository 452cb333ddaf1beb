/** The records of app/models.py that the scraper produces. */
module Models {
  import opened Wrappers

  /** What `float(...)` makes of a variant's `price` value: a number, or a
      `ValueError`. */
  datatype PriceValue = Convertible(amount: real) | NotConvertible

  /** One entry of a product's raw `variants` list. Only its `price` key is
      inspected; `None` means the key is absent. */
  datatype Variant = Variant(price: Option<PriceValue>)

  datatype Product = Product(
    id: int,
    title: string,
    vendor: string,
    productType: string,
    handle: string,
    createdAt: string,
    price: real,
    variants: seq<Variant>)

  datatype FaqItem = FaqItem(question: string, answer: string)

  /** The aggregate record. The three text fields are optional; the scraper
      always passes them explicitly, so the class defaults ("Context not
      found.", "Policy not found.") never stand in for a missing value. */
  datatype BrandInsights = BrandInsights(
    websiteUrl: string,
    productCatalog: seq<Product>,
    heroProducts: seq<string>,
    socialHandles: map<string, string>,
    contactDetails: map<string, seq<string>>,
    faqs: seq<FaqItem>,
    importantLinks: map<string, string>,
    brandContext: Option<string>,
    privacyPolicy: Option<string>,
    refundPolicy: Option<string>)
}
