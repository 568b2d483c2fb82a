/** How the parts fit together: a submitted form, the server's record, the
    record as the client receives it, and what the card makes of it. */
module CatalogFlow {
  import opened JsValues
  import opened JsStrings
  import opened ProductTypes
  import ServerApi
  import HomePage
  import ProductCardView
  import SubmissionForm

  /** A stored record as `response.json()` yields it on the client, when its
      text fields are strings: the hint arrives under `"data-ai-hint"` only,
      and the price as a number. */
  function Received(s: ServerApi.StoredProduct): (raw: Option<RawProduct>)
    ensures raw.Some? <==> s.name.JStr? && s.description.JStr? && s.imageUrl.JStr? && s.hint.JStr?
    ensures raw.Some? ==>
      && raw.value.id == s.id && JStr(raw.value.name) == s.name
      && raw.value.price == Number(s.price) && JStr(raw.value.description) == s.description
      && raw.value.imageUrl == Some(s.imageUrl.s)
      && raw.value.hyphenHint == Some(s.hint.s)
      && raw.value.camelHint == None && raw.value.snakeHint == None
  {
    if s.name.JStr? && s.description.JStr? && s.imageUrl.JStr? && s.hint.JStr? then
      Some(Product(s.id, s.name.s, Number(s.price), s.description.s, Some(s.imageUrl.s), Some(s.hint.s), None, None))
    else None
  }

  /** Every value the form accepts is accepted by the server: the record
      keeps the name, price and description, takes the given image URL or a
      generated one, and gets the hint derived from the name. */
  lemma ValidSubmissionAccepted(v: SubmissionForm.FormValues, isUrl: string -> bool, id: string, imageSeed: string)
    requires SubmissionForm.IsValid(v, isUrl)
    ensures var r := ServerApi.NewProduct(HomePage.AddPayload(SubmissionForm.ToDraft(v)), id, imageSeed);
      && r.Created?
      && r.record.id == id
      && r.record.name == JStr(v.name)
      && r.record.price == v.price
      && r.record.description == JStr(v.description)
      && r.record.imageUrl == JStr(if SubmissionForm.ToDraft(v).imageUrl.Some? then v.imageUrl.value
                                   else ServerApi.GeneratedImageUrl(imageSeed))
      && r.record.hint == JStr(ServerApi.DefaultHint(v.name))
  {
  }

  /** The hint the server stores never reaches the card: a received record
      carries it under `"data-ai-hint"`, normalisation leaves `dataAiHint`
      unset, and the card falls back to the name's first two words. */
  lemma StoredHintNotShown(s: ServerApi.StoredProduct, parseFloat: string -> real)
    requires Received(s).Some? && s.name != JStr("")
    ensures ProductCardView.HintValue(HomePage.Normalize(Received(s).value, parseFloat)) == FirstTwoWords(s.name.s)
  {
  }

  /** A submitted product, once created and received, shows on its card the
      first two words of its name in their own case, while the server stored
      them lower-cased. */
  lemma SubmittedProductHints(v: SubmissionForm.FormValues, isUrl: string -> bool, id: string, imageSeed: string,
                              parseFloat: string -> real)
    requires SubmissionForm.IsValid(v, isUrl)
    ensures var r := ServerApi.NewProduct(HomePage.AddPayload(SubmissionForm.ToDraft(v)), id, imageSeed);
      && r.Created? && Received(r.record).Some?
      && r.record.hint == JStr(FirstTwoWords(Lower(v.name)))
      && ProductCardView.HintValue(HomePage.Normalize(Received(r.record).value, parseFloat)) == FirstTwoWords(v.name)
  {
  }

  /** "Desk Lamp" holds one space. */
  lemma DeskLampOneSpace()
    ensures Count("Desk Lamp", ' ') == 1
  {
  }

  /** Lower-casing "Desk Lamp", character by character. */
  lemma DeskLampLower()
    ensures Lower("Desk Lamp") == "desk lamp"
  {
  }

  /** "Desk Lamp": the server stores the hint "desk lamp", the card uses "Desk Lamp". */
  lemma DeskLampHints()
    ensures ServerApi.DefaultHint("Desk Lamp") == "desk lamp"
    ensures FirstTwoWords("Desk Lamp") == "Desk Lamp"
  {
    DeskLampOneSpace();
    DeskLampLower();
  }

  /** The server accepts a zero price, and the card then reads "N/A". */
  lemma ZeroPriceShownUnavailable(name: string, description: string, id: string, imageSeed: string,
                                  toFixed2: real -> string)
    requires name != "" && description != ""
    ensures var body := JObj(map["name" := JStr(name), "price" := JNum(0.0), "description" := JStr(description)]);
      var r := ServerApi.NewProduct(body, id, imageSeed);
      && r.Created?
      && ProductCardView.PriceLabel(r.record.price, toFixed2) == ProductCardView.NotAvailable
  {
  }
}
