/** The client's product record (`Product` in src/types/index.ts).

    The display hint reaches the client under three property names, and the
    code reads and writes them independently, so each is its own field:
      - `hyphenHint` is `"data-ai-hint"`, the name the server writes and the type declares;
      - `camelHint`  is `dataAiHint`, the name the client normaliser writes and the card reads;
      - `snakeHint`  is `data_ai_hint`, the alternative name the normaliser reads.
    `price` is generic: a record as received (`RawProduct`) may carry its price as
    a number or as numeric text; a normalised record (`Product`) carries a number. */
module ProductTypes {
  import opened JsValues

  datatype ProductOf<P> = Product(
    id: string,
    name: string,
    price: P,
    description: string,
    imageUrl: Option<string>,
    hyphenHint: Option<string>,
    camelHint: Option<string>,
    snakeHint: Option<string>)

  /** A price as it arrives over the wire: a JSON number or a numeric string. */
  datatype RawPrice = Number(n: real) | NumericText(text: string)

  type RawProduct = ProductOf<RawPrice>

  type Product = ProductOf<real>

  /** The JSON key under which the server reads and writes the hint. */
  const HintKey := "data-ai-hint"

  /** The placeholder image service; a URL under it is `PicsumSeedPrefix + seed + "/<width>/<height>"`. */
  const PicsumSeedPrefix := "https://picsum.photos/seed/"
}
