/** The submission form (src/components/app/product-submission-form.tsx):
    its schema, the product data it hands to the page, and its state
    (the field values and `isSubmitting`).

    The schema library's URL test is a parameter `isUrl`. */
module SubmissionForm {
  import opened JsValues
  import opened ProductTypes
  import HomePage

  datatype FormValues = FormValues(name: string, price: real, description: string, imageUrl: Option<string>)

  /** The form's `defaultValues`. */
  const Defaults := FormValues("", 0.0, "", Some(""))

  datatype FieldError =
    | NameTooShort | NameTooLong
    | PriceNotPositive
    | DescriptionTooShort | DescriptionTooLong
    | InvalidUrl

  /** `productFormSchema`: every violated rule, field by field. */
  function SchemaErrors(v: FormValues, isUrl: string -> bool): (errs: seq<FieldError>)
    ensures NameTooShort in errs <==> |v.name| < 2
    ensures NameTooLong in errs <==> |v.name| > 100
    ensures PriceNotPositive in errs <==> v.price <= 0.0
    ensures DescriptionTooShort in errs <==> |v.description| < 10
    ensures DescriptionTooLong in errs <==> |v.description| > 5000
    ensures InvalidUrl in errs <==> v.imageUrl.Some? && v.imageUrl.value != "" && !isUrl(v.imageUrl.value)
  {
    (if |v.name| < 2 then [NameTooShort] else [])
    + (if |v.name| > 100 then [NameTooLong] else [])
    + (if v.price <= 0.0 then [PriceNotPositive] else [])
    + (if |v.description| < 10 then [DescriptionTooShort] else [])
    + (if |v.description| > 5000 then [DescriptionTooLong] else [])
    + (if v.imageUrl.Some? && v.imageUrl.value != "" && !isUrl(v.imageUrl.value) then [InvalidUrl] else [])
  }

  predicate IsValid(v: FormValues, isUrl: string -> bool)
  {
    SchemaErrors(v, isUrl) == []
  }

  /** The values the schema lets through: a name of 2 to 100 characters, a
      positive price, a description of 10 to 5000 characters, and an image
      URL that is absent, empty or a URL. */
  lemma ValidIff(v: FormValues, isUrl: string -> bool)
    ensures IsValid(v, isUrl) <==>
      && 2 <= |v.name| <= 100
      && v.price > 0.0
      && 10 <= |v.description| <= 5000
      && (v.imageUrl.Some? && v.imageUrl.value != "" ==> isUrl(v.imageUrl.value))
  {
  }

  /** The untouched form fails on its name, price and description. */
  lemma DefaultsRejected(isUrl: string -> bool)
    ensures SchemaErrors(Defaults, isUrl) == [NameTooShort, PriceNotPositive, DescriptionTooShort]
  {
  }

  /** The price input's `parseFloat(text) || 0`, given `parseFloat`'s result
      (`None` for NaN): only a positive parsed number passes the price rule. */
  function PriceFieldValue(parsed: Option<real>): (price: real)
    ensures price > 0.0 <==> parsed.Some? && parsed.value > 0.0
    ensures parsed.Some? ==> price == parsed.value
    ensures parsed.None? ==> price == 0.0
  {
    if parsed.Some? then parsed.value else 0.0
  }

  /** The product data `onSubmit` builds: the three fields as entered, an
      empty image URL dropped, and no hint under any spelling. */
  function ToDraft(v: FormValues): (d: HomePage.Draft)
    ensures d.name == v.name && d.price == v.price && d.description == v.description
    ensures d.imageUrl.None? <==> !Filled(v.imageUrl)
    ensures d.imageUrl.Some? ==> d.imageUrl == v.imageUrl
    ensures d.hyphenHint.None? && d.camelHint.None?
  {
    HomePage.Draft(v.name, v.price, v.description, if Filled(v.imageUrl) then v.imageUrl else None, None, None)
  }

  /** The request body a valid form sends carries no hint, so the server
      always derives one. */
  lemma PayloadHasNoHint(v: FormValues)
    ensures Get(HomePage.AddPayload(ToDraft(v)), HintKey) == None
    ensures Get(HomePage.AddPayload(ToDraft(v)), "imageUrl").Some? <==> Filled(v.imageUrl)
  {
  }

  class Form {
    var values: FormValues
    var isSubmitting: bool

    constructor ()
      ensures values == Defaults && !isSubmitting
    {
      values, isSubmitting := Defaults, false;
    }

    /** Typing into the fields. */
    method Edit(v: FormValues)
      modifies this
      ensures values == v && isSubmitting == old(isSubmitting)
    {
      values := v;
    }

    /** `form.handleSubmit(onSubmit)`: invalid values stop at the schema and
        nothing is sent; valid values go to the page's `handleAddProduct`,
        the fields reset to their defaults only when the add succeeded, and
        `isSubmitting` ends false. Returns the request body sent, if any. */
    method Submit(page: HomePage.Page, isUrl: string -> bool, outcome: HomePage.AddOutcome, parseFloat: string -> real)
      returns (sent: Option<Json>)
      modifies this, page
      ensures !IsValid(old(values), isUrl) ==>
        && sent == None
        && values == old(values) && isSubmitting == old(isSubmitting)
        && page.products == old(page.products) && page.error == old(page.error)
      ensures IsValid(old(values), isUrl) ==>
        && sent == Some(HomePage.AddPayload(ToDraft(old(values))))
        && !isSubmitting
        && values == (if outcome.Added? then Defaults else old(values))
      ensures IsValid(old(values), isUrl) && outcome.Added? ==>
        page.products == [HomePage.Normalize(outcome.record, parseFloat)] + old(page.products)
        && page.error == old(page.error)
      ensures IsValid(old(values), isUrl) && !outcome.Added? ==>
        page.products == old(page.products)
        && page.error == Some(HomePage.AddFailureMessage(outcome, page.apiUrl))
      ensures page.isLoading == old(page.isLoading)
    {
      if !IsValid(values, isUrl) {
        sent := None;
        return;
      }
      isSubmitting := true;
      var request, ok := page.HandleAddProduct(ToDraft(values), outcome, parseFloat);
      sent := Some(request);
      if ok {
        values := Defaults;
      }
      isSubmitting := false;
    }
  }
}
