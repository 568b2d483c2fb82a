/** The page component (src/app/page.tsx): the client's copy of the catalog
    (`products`, `isLoading`, `error`), loading it from the server, and
    adding a product through the server.

    Each HTTP exchange is a parameter: its outcome (records, a non-ok status,
    or a thrown value) is passed in, and `parseFloat` is an uninterpreted
    function. The base URL `API_URL` is a constant of the page. */
module HomePage {
  import opened JsValues
  import opened JsStrings
  import opened ProductTypes

  /** A value caught by a `catch` block: an `Error` (a `TypeError` when `fetch`
      itself fails) with its message, or a thrown value that is not an `Error`. */
  datatype Thrown = ErrorValue(isTypeError: bool, message: string) | NonError

  /** The outcome of `GET ${API_URL}/products` and of reading its body. */
  datatype LoadOutcome =
    | Loaded(records: seq<RawProduct>)
    | LoadNotOk(status: nat, statusText: string, body: Option<string>)  // None: the body could not be read
    | LoadThrew(error: Thrown)

  /** The outcome of `POST ${API_URL}/products` and of reading its body. */
  datatype AddOutcome =
    | Added(record: RawProduct)
    | AddNotOk(status: nat, statusText: string, body: Option<Json>)     // None: the body is not JSON
    | AddThrew(error: Thrown)

  /** The argument of `handleAddProduct`: a product without an id, carrying
      the hint (if at all) under `dataAiHint`, and possibly `"data-ai-hint"`. */
  datatype Draft = Draft(
    name: string,
    price: real,
    description: string,
    imageUrl: Option<string>,
    hyphenHint: Option<string>,
    camelHint: Option<string>)

  const UnknownLoadError := "An unknown error occurred while fetching products."
  const UnknownAddError := "An unknown error occurred while adding product."
  const NoDetails := "No additional details from server."
  const FailedToFetch := "failed to fetch"

  // ---------------------------------------------------------------------------
  // Normalisation of received records (`parseProductPrice`)

  function ParsePrice(price: RawPrice, parseFloat: string -> real): real
  {
    match price
    case Number(n) => n
    case NumericText(t) => parseFloat(t)
  }

  /** `{...product, price, dataAiHint: product.dataAiHint || product.data_ai_hint}`:
      the price becomes a number, `dataAiHint` takes the camel-case value when
      it is truthy and the snake-case value otherwise, and every other field,
      `"data-ai-hint"` included, is carried over. */
  function Normalize(raw: RawProduct, parseFloat: string -> real): (p: Product)
    ensures p.id == raw.id && p.name == raw.name && p.description == raw.description
    ensures p.imageUrl == raw.imageUrl
    ensures p.hyphenHint == raw.hyphenHint && p.snakeHint == raw.snakeHint
    ensures raw.price.Number? ==> p.price == raw.price.n
    ensures raw.price.NumericText? ==> p.price == parseFloat(raw.price.text)
    ensures Filled(p.camelHint) <==> Filled(raw.camelHint) || Filled(raw.snakeHint)
    ensures Filled(raw.camelHint) ==> p.camelHint == raw.camelHint
    ensures !Filled(raw.camelHint) ==> p.camelHint == raw.snakeHint
  {
    Product(raw.id, raw.name, ParsePrice(raw.price, parseFloat), raw.description, raw.imageUrl,
            raw.hyphenHint, OrElse(raw.camelHint, raw.snakeHint), raw.snakeHint)
  }

  /** `data.map(parseProductPrice)`: same length, same order. */
  function NormalizeAll(records: seq<RawProduct>, parseFloat: string -> real): (ps: seq<Product>)
    ensures |ps| == |records|
    ensures forall i :: 0 <= i < |records| ==> ps[i] == Normalize(records[i], parseFloat)
  {
    seq(|records|, i requires 0 <= i < |records| => Normalize(records[i], parseFloat))
  }

  /** Normalising twice changes nothing more: the hint written by the first
      pass is truthy exactly when it would be chosen again. */
  lemma NormalizeHintStable(raw: RawProduct, parseFloat: string -> real)
    ensures var p := Normalize(raw, parseFloat);
            OrElse(p.camelHint, p.snakeHint) == p.camelHint
  {
  }

  // ---------------------------------------------------------------------------
  // Error messages

  /** The test both catch blocks apply: an `Error` whose lower-cased message
      contains "failed to fetch", or a `TypeError`. */
  predicate IsNetworkFailure(e: Thrown)
  {
    e.ErrorValue? && (Includes(Lower(e.message), FailedToFetch) || e.isTypeError)
  }

  const CouldNotConnect := "NetworkError: Could not connect to the product server at "
  const LoadNetworkAdvice := ". Please ensure the backend server (Express.js) is running (e.g., using 'npm run server:dev') and accessible. Also, check your browser's console for more specific network error details (e.g., CORS issues). Original error: "
  const AddNetworkAdvice := " to add product. Please ensure the backend server (Express.js) is running (e.g., using 'npm run server:dev') and accessible. Original error: "
  const LoadNotOkHead := "Failed to fetch" + " products: "
  const LoadNotOkDetails := ". Server responded with: "

  function NetworkLoadMessage(apiUrl: string, original: string): (m: string)
    ensures |m| > |original|
    ensures m[|m| - |original|..] == original
  {
    CouldNotConnect + apiUrl + LoadNetworkAdvice + original
  }

  function NetworkAddMessage(apiUrl: string, original: string): (m: string)
    ensures |m| > |original|
    ensures m[|m| - |original|..] == original
  {
    CouldNotConnect + apiUrl + AddNetworkAdvice + original
  }

  /** The `Error` thrown for a non-ok load response. */
  function NotOkLoadError(status: nat, statusText: string, body: Option<string>): Thrown
  {
    ErrorValue(false, LoadNotOkHead + NatToString(status) + " " + statusText
                      + LoadNotOkDetails + (if body.Some? then body.value else NoDetails))
  }

  /** The message `fetchProducts` stores for a caught value. */
  function LoadErrorMessage(e: Thrown, apiUrl: string): string
  {
    if e.NonError? then UnknownLoadError
    else if IsNetworkFailure(e) then NetworkLoadMessage(apiUrl, e.message)
    else e.message
  }

  function LoadFailureMessage(outcome: LoadOutcome, apiUrl: string): string
    requires !outcome.Loaded?
  {
    match outcome
    case LoadNotOk(status, text, body) => LoadErrorMessage(NotOkLoadError(status, text, body), apiUrl)
    case LoadThrew(e) => LoadErrorMessage(e, apiUrl)
  }

  /** An error is reported with the network-error text exactly when it passes
      the network test. */
  lemma {:induction false} NetworkMessageIffNetworkFailure(e: Thrown, apiUrl: string)
    requires e.ErrorValue?
    ensures LoadErrorMessage(e, apiUrl) == NetworkLoadMessage(apiUrl, e.message) <==> IsNetworkFailure(e)
    ensures AddErrorMessage(e, apiUrl) == NetworkAddMessage(apiUrl, e.message) <==> IsNetworkFailure(e)
  {
  }

  /** A message that starts "Failed to fetch" passes the network test's text match. */
  lemma {:induction false} FailedToFetchPrefix(m: string)
    requires "Failed to fetch" <= m
    ensures FailedToFetch <= Lower(m)
  {
    var l := Lower(m);
    forall i | 0 <= i < 15 ensures l[i] == FailedToFetch[i] {
      assert m[i] == "Failed to fetch"[i];
    }
  }

  /** A non-ok load response is always reported as a network error: its own
      message starts "Failed to fetch products", which the network test matches. */
  lemma NotOkLoadReportedAsNetworkError(status: nat, statusText: string, body: Option<string>, apiUrl: string)
    ensures IsNetworkFailure(NotOkLoadError(status, statusText, body))
    ensures LoadFailureMessage(LoadNotOk(status, statusText, body), apiUrl)
            == NetworkLoadMessage(apiUrl, NotOkLoadError(status, statusText, body).message)
  {
    var m := NotOkLoadError(status, statusText, body).message;
    assert LoadNotOkHead <= m;
    FailedToFetchPrefix(m);
    IncludesPrefix(Lower(m), FailedToFetch);
  }

  const AddUnreadableHead := "Server response: "
  const AddNotOkHead := "Failed to add product: "

  /** The message of the `Error` thrown for a non-ok add response: a string
      body as it is; otherwise the non-empty `message` string of an object
      body; otherwise a status line, which says "Server response" when the
      body is not JSON and "Failed to add product" when it is JSON without a
      usable message. */
  function NotOkAddMessage(status: nat, statusText: string, body: Option<Json>): (m: string)
    ensures body.Some? && body.value.JStr? ==> m == body.value.s
    ensures body.Some? && !body.value.JStr? && Truthy(Get(body.value, "message")) && Get(body.value, "message").value.JStr? ==>
      m == Get(body.value, "message").value.s
    ensures body.None? ==> AddUnreadableHead <= m && |m| > |AddUnreadableHead| + |statusText| && m[|m| - |statusText|..] == statusText
    ensures body.Some? && !body.value.JStr? && !(Truthy(Get(body.value, "message")) && Get(body.value, "message").value.JStr?) ==>
      AddNotOkHead <= m && |m| > |AddNotOkHead| + |statusText| + 1 && m[|m| - |statusText| - 1..] == statusText + "."
  {
    if body.None? then AddUnreadableHead + NatToString(status) + " " + statusText
    else if body.value.JStr? then body.value.s
    else
      var m := Get(body.value, "message");
      if Truthy(m) && m.value.JStr? then m.value.s
      else AddNotOkHead + NatToString(status) + " " + statusText + "."
  }

  /** The message `handleAddProduct` stores for a caught value. */
  function AddErrorMessage(e: Thrown, apiUrl: string): string
  {
    if e.NonError? then UnknownAddError
    else if IsNetworkFailure(e) then NetworkAddMessage(apiUrl, e.message)
    else e.message
  }

  function AddFailureMessage(outcome: AddOutcome, apiUrl: string): string
    requires !outcome.Added?
  {
    match outcome
    case AddNotOk(status, text, body) => AddErrorMessage(ErrorValue(false, NotOkAddMessage(status, text, body)), apiUrl)
    case AddThrew(e) => AddErrorMessage(e, apiUrl)
  }

  /** A 400 from the server's field check reaches the user with the server's own message. */
  lemma ServerRejectionShownVerbatim(statusText: string, message: string, apiUrl: string)
    requires message != "" && !Includes(Lower(message), FailedToFetch)
    ensures AddFailureMessage(AddNotOk(400, statusText, Some(JObj(map["message" := JStr(message)]))), apiUrl) == message
  {
    assert Get(JObj(map["message" := JStr(message)]), "message") == Some(JStr(message));
  }

  // ---------------------------------------------------------------------------
  // The request body of an add

  /** `{...productData, "data-ai-hint": productData.dataAiHint}` without
      `dataAiHint`, as serialised: the hint travels under `"data-ai-hint"`
      and only when `dataAiHint` was given; any `"data-ai-hint"` of the draft
      is overwritten. */
  function AddPayload(d: Draft): (body: Json)
    ensures body.JObj?
    ensures body.fields.Keys <= {"name", "price", "description", "imageUrl", HintKey}
    ensures "dataAiHint" !in body.fields
    ensures Get(body, "name") == Some(JStr(d.name))
    ensures Get(body, "price") == Some(JNum(d.price))
    ensures Get(body, "description") == Some(JStr(d.description))
    ensures Get(body, "imageUrl") == if d.imageUrl.Some? then Some(JStr(d.imageUrl.value)) else None
    ensures Get(body, HintKey) == if d.camelHint.Some? then Some(JStr(d.camelHint.value)) else None
  {
    JObj(map["name" := JStr(d.name), "price" := JNum(d.price), "description" := JStr(d.description)]
         + OptionalField("imageUrl", d.imageUrl)
         + OptionalField(HintKey, d.camelHint))
  }

  // ---------------------------------------------------------------------------
  // The page's state

  class Page {
    const apiUrl: string
    var products: seq<Product>
    var isLoading: bool
    var error: Option<string>

    constructor (apiUrl: string)
      ensures this.apiUrl == apiUrl
      ensures products == [] && isLoading && error == None
    {
      this.apiUrl := apiUrl;
      products, isLoading, error := [], true, None;
    }

    /** The synchronous start of `fetchProducts`. */
    method BeginLoad()
      modifies this
      ensures isLoading && error == None
      ensures products == old(products)
    {
      isLoading, error := true, None;
    }

    /** The rest of `fetchProducts`, once the response is in: the normalised
        records on success; an empty list and a message on failure. */
    method FinishLoad(outcome: LoadOutcome, parseFloat: string -> real)
      modifies this
      ensures !isLoading
      ensures outcome.Loaded? ==> products == NormalizeAll(outcome.records, parseFloat) && error == old(error)
      ensures !outcome.Loaded? ==> products == [] && error == Some(LoadFailureMessage(outcome, apiUrl))
    {
      if outcome.Loaded? {
        products := NormalizeAll(outcome.records, parseFloat);
      } else {
        error := Some(LoadFailureMessage(outcome, apiUrl));
        products := [];
      }
      isLoading := false;
    }

    /** `fetchProducts`. */
    method FetchProducts(outcome: LoadOutcome, parseFloat: string -> real)
      modifies this
      ensures !isLoading
      ensures outcome.Loaded? ==> products == NormalizeAll(outcome.records, parseFloat) && error == None
      ensures !outcome.Loaded? ==> products == [] && error == Some(LoadFailureMessage(outcome, apiUrl))
    {
      BeginLoad();
      FinishLoad(outcome, parseFloat);
    }

    /** `handleAddProduct`: returns the request body it sends and whether the
        add succeeded. Success prepends the server's record, normalised;
        failure keeps the list and records a message. Neither touches `isLoading`,
        and success leaves an earlier error in place. */
    method HandleAddProduct(draft: Draft, outcome: AddOutcome, parseFloat: string -> real)
      returns (request: Json, ok: bool)
      modifies this
      ensures request == AddPayload(draft)
      ensures ok <==> outcome.Added?
      ensures ok ==> products == [Normalize(outcome.record, parseFloat)] + old(products) && error == old(error)
      ensures !ok ==> products == old(products) && error == Some(AddFailureMessage(outcome, apiUrl))
      ensures isLoading == old(isLoading)
    {
      request := AddPayload(draft);
      if outcome.Added? {
        products := [Normalize(outcome.record, parseFloat)] + products;
        ok := true;
      } else {
        error := Some(AddFailureMessage(outcome, apiUrl));
        ok := false;
      }
    }
  }
}
