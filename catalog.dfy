/** The shop's records as the JSON the store's admin API returns them. Only the
    keys the promotion robot and the SEO audit read are kept. A key the code reads
    with `d[key]` may be missing (`None` here); a list read for its truthiness is
    a sequence whose empty value stands for absent, `null` and `[]` alike. */
module Catalog {

  import opened Wrappers

  datatype Image = Image(src: Option<string>)

  datatype Variant = Variant(price: Option<string>)

  datatype Product = Product(
    title: Option<string>,
    handle: Option<string>,
    images: seq<Image>,
    variants: seq<Variant>,
    bodyHtml: Option<string>)

  datatype Collection = Collection(id: string, title: string)

  /** An exception the modelled code lets escape: a `KeyError` for a missing key,
      or the `ValueError` that `random.sample` raises for a negative count. */
  datatype Fault = MissingKey(key: string) | NegativeSampleSize
}
