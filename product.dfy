/** The catalog record of types/product.ts and its normalisation. */
module Products {
  import opened Opt

  /** A selectable configuration of a product. `aroma` is required, the others are optional. */
  datatype Variant = Variant(aroma: string, color: Option<string>, size: Option<string>, gender: Option<string>)

  /**
   * A catalog product. `imageFit` is kept as an optional string because the raw catalog
   * data may hold any value there; after normalisation it is "contain", "cover" or absent.
   */
  datatype Product = Product(
    id: string,
    name: string,
    category: string,
    price: int,
    description: string,
    benefits: Option<seq<string>>,
    imageFit: Option<string>,
    variants: seq<Variant>,
    image: string,
    tags: Option<seq<string>>)

  /** The values `imageFit` may take once a product is normalised. */
  predicate IsFit(fit: Option<string>) {
    fit == None || fit == Some("contain") || fit == Some("cover")
  }

  /** Clamps `imageFit` to "contain", "cover" or absent; every other field is copied. */
  function NormalizeProduct(p: Product): (r: Product)
    ensures IsFit(r.imageFit)
  {
    p.(imageFit :=
      if p.imageFit == Some("contain") then Some("contain")
      else if p.imageFit == Some("cover") then Some("cover")
      else None)
  }

  /** "contain" and "cover" survive, anything else becomes absent. */
  lemma NormalizeFit(p: Product)
    ensures IsFit(p.imageFit) ==> NormalizeProduct(p).imageFit == p.imageFit
    ensures !IsFit(p.imageFit) ==> NormalizeProduct(p).imageFit == None
  {
  }

  /** Normalisation changes nothing but `imageFit`. */
  lemma NormalizeKeepsFields(p: Product)
    ensures var r := NormalizeProduct(p);
      r.id == p.id && r.name == p.name && r.category == p.category && r.price == p.price &&
      r.description == p.description && r.benefits == p.benefits && r.variants == p.variants &&
      r.image == p.image && r.tags == p.tags
  {
  }

  /** A normalised product is a fixed point: normalising twice is normalising once. */
  lemma NormalizeIdempotent(p: Product)
    ensures NormalizeProduct(NormalizeProduct(p)) == NormalizeProduct(p)
  {
  }
}
