/** What the product card (src/components/app/product-card.tsx) derives from
    a product: the hint, the image source, the placeholder badge, the
    fallback image after a load error, the description and the price label.

    `encodeURIComponent` and `Number.prototype.toFixed(2)` are parameters. */
module ProductCardView {
  import opened JsValues
  import opened JsStrings
  import opened ProductTypes

  const PlaceholderHint := "product image"
  const NoDescription := "No description available."
  const NotAvailable := "N/A"
  const FallbackSeed := "fallback"
  const CardImageSize := "/600/450"

  /** `product.dataAiHint || name.split(' ').slice(0, 2).join(' ') || "product image"`:
      never empty; the camel-case hint when it is set; otherwise the name's
      first two words, a prefix of the name with at most one space (the whole
      name when it has at most one space), in the name's own case. */
  function HintValue(p: Product): (h: string)
    ensures h != ""
    ensures Filled(p.camelHint) ==> h == p.camelHint.value
    ensures !Filled(p.camelHint) && p.name != "" ==>
      && h == FirstTwoWords(p.name)
      && h <= p.name
      && Count(h, ' ') <= 1
      && (Count(p.name, ' ') <= 1 ==> h == p.name)
    ensures !Filled(p.camelHint) && p.name == "" ==> h == PlaceholderHint
  {
    if Filled(p.camelHint) then p.camelHint.value
    else
      var words := FirstTwoWords(p.name);
      if words != "" then words else PlaceholderHint
  }

  /** `product.imageUrl || picsum URL seeded by the encoded hint`: the product's
      own URL when it is set, otherwise a 600x450 placeholder whose seed is the
      encoded hint. */
  function ImageSrc(p: Product, encode: string -> string): (src: string)
    ensures src != ""
    ensures Filled(p.imageUrl) ==> src == p.imageUrl.value
    ensures !Filled(p.imageUrl) ==>
      var seed := encode(HintValue(p));
      && |src| == |PicsumSeedPrefix| + |seed| + |CardImageSize|
      && PicsumSeedPrefix <= src
      && src[|PicsumSeedPrefix|..|PicsumSeedPrefix| + |seed|] == seed
      && src[|PicsumSeedPrefix| + |seed|..] == CardImageSize
  {
    if Filled(p.imageUrl) then p.imageUrl.value
    else PicsumSeedPrefix + encode(HintValue(p)) + CardImageSize
  }

  /** `!product.imageUrl`: the card marks its image as a placeholder. */
  predicate ShowsPlaceholderBadge(p: Product)
  {
    !Filled(p.imageUrl)
  }

  /** The badge is absent exactly when the card shows the product's own image URL. */
  lemma BadgeIffGeneratedImage(p: Product, encode: string -> string)
    ensures !ShowsPlaceholderBadge(p) <==> p.imageUrl == Some(ImageSrc(p, encode))
  {
  }

  /** The `onError` replacement, `https://picsum.photos/seed/fallback${id}/600/450`. */
  function FallbackImageSrc(id: string): (src: string)
    ensures |src| == |PicsumSeedPrefix| + |FallbackSeed| + |id| + |CardImageSize|
    ensures PicsumSeedPrefix + FallbackSeed <= src
    ensures src[|PicsumSeedPrefix| + |FallbackSeed|..|PicsumSeedPrefix| + |FallbackSeed| + |id|] == id
    ensures src[|PicsumSeedPrefix| + |FallbackSeed| + |id|..] == CardImageSize
  {
    PicsumSeedPrefix + FallbackSeed + id + CardImageSize
  }

  /** Distinct products get distinct fallback images. */
  lemma FallbackImagesDistinct(id: string, id': string)
    requires id != id'
    ensures FallbackImageSrc(id) != FallbackImageSrc(id')
  {
  }

  /** `product.description || "No description available."`: never empty, and
      the product's own text whenever it has one. */
  function DescriptionText(p: Product): (t: string)
    ensures t != ""
    ensures p.description != "" ==> t == p.description
    ensures p.description == "" ==> t == NoDescription
  {
    if p.description != "" then p.description else NoDescription
  }

  /** `product.price && typeof product.price === 'number' ? price.toFixed(2) : 'N/A'`:
      a normalised price is always a number, so only a zero price reads "N/A". */
  function PriceLabel(price: real, toFixed2: real -> string): (shown: string)
    ensures price != 0.0 ==> shown == toFixed2(price)
    ensures price == 0.0 ==> shown == NotAvailable
  {
    if price != 0.0 then toFixed2(price) else NotAvailable
  }

  /** The card never reads `"data-ai-hint"` nor `data_ai_hint`: changing
      either leaves the hint, and so the generated image, as it was. */
  lemma HintIgnoresOtherSpellings(p: Product, hyphen: Option<string>, snake: Option<string>, encode: string -> string)
    ensures HintValue(p.(hyphenHint := hyphen, snakeHint := snake)) == HintValue(p)
    ensures ImageSrc(p.(hyphenHint := hyphen, snakeHint := snake), encode) == ImageSrc(p, encode)
  {
  }
}
