# ShelfSpot product catalog in Dafny

ShelfSpot is a small product catalog with two parts. An Express server keeps an in-memory array of
product records, seeded with fifteen. It serves the array on `GET /api/products` and prepends
validated new records on `POST /api/products`. A Next.js client loads the catalog, adds products
through a form, searches them (with an AI name filter and a keyword fallback) and renders each one
as a card.

This project models that core:

- `ServerApi` (`server_api.dfy`) covers the server. `ProductStore` is a class whose `products`
  sequence is updated in place. `NewProduct` holds the request validation and the record
  construction.
- `HomePage` (`home_page.dfy`) covers the page component. `Page` is a class over `products`,
  `isLoading` and `error`. The module also has the record normalisation, the error-message
  logic and the add request body.
- `ProductListView` (`product_list_view.dfy`) covers the list component. `ProductList` is a class
  over the search term, the displayed products, `isSearching` and the search notice. The module
  also has the two search filters.
- `ProductCardView` (`product_card_view.dfy`) holds the card's derived values: hint, image
  source, placeholder badge, fallback image, description and price label.
- `SubmissionForm` (`submission_form.dfy`) has the form schema, the product data handed to the
  page, and `Form`, a class over the field values and `isSubmitting`.
- `CatalogFlow` (`catalog_flow.dfy`) holds lemmas that follow one product from the form through
  the server to the card.
- `JsValues`, `JsStrings`, `JsArrays` and `ProductTypes` hold the JavaScript behaviour the code
  relies on and the product record:
  - `undefined`, JSON values and truthiness;
  - ASCII `toLowerCase`, `trim`, `includes`, `split`/`slice`/`join`;
  - `filter` and the subsequence relation.

The product hint travels under three property names:
- `"data-ai-hint"`: the server writes it and the type declares it.
- `dataAiHint`: the client normaliser writes it and the card reads it.
- `data_ai_hint`: the normaliser also reads it.

They are three separate fields (`hyphenHint`, `camelHint`, `snakeHint`). Because of this, the
model keeps the fact that the hint the server stores never reaches the card
(`CatalogFlow.StoredHintNotShown`).

Values from the outside world are parameters:
- the two `crypto.randomUUID()` results (record id and image seed);
- the HTTP outcomes (records, a non-ok status, or a thrown value);
- the smart-search result (`Some(names)`, or `None` when it throws);
- `parseFloat`, `encodeURIComponent`, `toFixed(2)` and the schema's URL test.

Notes on what the code does:
- The server does not check that a price is positive. It only checks that it is a JSON number.
- A generated image URL is seeded by a second UUID, not by the record id.
- The server's default hint is lower-cased, while the card's fallback hint keeps the name's case
  (`CatalogFlow.SubmittedProductHints`).
- A non-ok load response is reported as a network error. Its own message starts with
  "Failed to fetch products", which the network test matches
  (`HomePage.NotOkLoadReportedAsNetworkError`).

## Model

| member | source | states |
|---|---|---|
| JsValues.OrElse | src/app/page.tsx:27 | `a \|\| b` on optional strings: the result is filled iff either is; it is `a` when `a` is filled and `b` otherwise |
| JsValues.OptionalField | src/app/page.tsx:77-81 | a key whose value is `undefined` is absent from the serialised body; a defined one maps to its string |
| JsStrings.Lower | server/index.js:51 | `toLowerCase` keeps the length and lower-cases each character |
| JsStrings.BlankIffAllSpace | src/components/app/product-list.tsx:29 | `!term.trim()` holds exactly when every character of the term is white space |
| JsStrings.IncludesIffOccurs | src/components/app/product-list.tsx:78 | `includes` holds exactly when the needle occurs at some offset |
| JsStrings.JoinSplit | server/index.js:51 | joining the parts of `split(sep)` with `sep` gives back the string |
| JsStrings.FirstTwoWords | src/components/app/product-card.tsx:15 | `split(' ').slice(0, 2).join(' ')` is the string up to its second space: a prefix that is the whole string or stops just before a space. It has one space if the string has any, else none. It is the whole string when that has at most one space, and it is empty only for the empty string |
| JsArrays.Filter | src/components/app/product-list.tsx:58 | `filter` gives a subsequence (same order, never longer) holding exactly the elements that pass the test, each as many times as in the input |
| JsArrays.FilterCongruent | src/components/app/product-list.tsx:58 | two tests that agree on every element give the same filter result |
| ServerApi.GeneratedImageUrl | server/index.js:50 | the default image is the picsum seed prefix, then the seed, then `/400/300` |
| ServerApi.DefaultHint | server/index.js:51 | the default hint is the lower-cased name up to its second space: a prefix that is the whole lower-cased name or stops just before a space, holding one space if the name has any and none otherwise. It is the whole lower-cased name when the name has at most one space, and it is non-empty for a non-empty name |
| ServerApi.NewProduct | server/index.js:39-52 | rejected (400) iff `name` is falsy, `price` is not a JSON number or `description` is falsy. When valid, a non-string `name` with no hint throws (500). Otherwise the record has the given id, copies name, price and description, uses the given image URL when truthy and a generated one otherwise, and uses the given hint when truthy and the default hint of the name otherwise |
| ServerApi.AnyNumericPriceAccepted | server/index.js:41 | any numeric price is accepted and stored, zero and negatives included |
| ServerApi.TextPriceRejected | server/index.js:41-43 | a price sent as a string is rejected with the missing-fields outcome |
| ServerApi.InitialProducts | server/index.js:11-27 | the store starts with fifteen records whose ids are pairwise distinct |
| ServerApi.ProductStore.constructor | server/index.js:11-27 | the store holds the seed records, and ids are unique |
| ServerApi.ProductStore.List | server/index.js:34-36 | GET answers 200 with the array exactly as it stands and changes nothing |
| ServerApi.ProductStore.Create | server/index.js:38-55 | On 201 the response is the stored record, the store is that record followed by the old store, and the length grows by one. On 400 (missing-fields message) or 500 the store is unchanged. Id uniqueness is kept when the id is fresh |
| HomePage.Normalize | src/app/page.tsx:22-28 | a string price is parsed and a number kept. `dataAiHint` becomes the camel-case value when it is truthy, else `data_ai_hint`. Every other field, `"data-ai-hint"` included, is carried over |
| HomePage.NormalizeAll | src/app/page.tsx:45-46 | the normalised list has the response's length and order, element by element |
| HomePage.NormalizeHintStable | src/app/page.tsx:27 | normalising a normalised record picks the same `dataAiHint` again |
| HomePage.NetworkLoadMessage | src/app/page.tsx:53 | the load network-error text is longer than, and ends with, the original message |
| HomePage.NetworkAddMessage | src/app/page.tsx:116 | the add network-error text is longer than, and ends with, the original message |
| HomePage.NetworkMessageIffNetworkFailure | src/app/page.tsx:49-55 | an `Error` is reported with the network text (on load and on add) exactly when its lower-cased message contains "failed to fetch" or it is a `TypeError` |
| HomePage.FailedToFetchPrefix | src/app/page.tsx:52 | a message beginning "Failed to fetch" passes the case-insensitive text match |
| HomePage.NotOkLoadReportedAsNetworkError | src/app/page.tsx:36-55 | the error thrown for a non-ok load always passes the network test, so the stored message is the network text |
| HomePage.NotOkAddMessage | src/app/page.tsx:91-98 | the error for a non-ok add is a string body as it is; else the non-empty string `message` of an object body; else a status line ending with the status text, headed "Server response: " when the body is not JSON and "Failed to add product: " (ending in a full stop) when it is JSON without such a message |
| HomePage.ServerRejectionShownVerbatim | src/app/page.tsx:91-98 | a 400 whose body is `{message}` is reported with that message, unless it matches the network test |
| HomePage.AddPayload | src/app/page.tsx:77-81 | the request body has name, price and description. It has `imageUrl` only when given, and `"data-ai-hint"` exactly when `dataAiHint` was given, with its value. It never has `dataAiHint` |
| HomePage.Page.constructor | src/app/page.tsx:17-19 | the page starts with no products, loading, and no error |
| HomePage.Page.BeginLoad | src/app/page.tsx:32-33 | a load begins with `isLoading` set and the error cleared |
| HomePage.Page.FinishLoad | src/app/page.tsx:34-67 | success stores the normalised records; failure (non-ok or thrown) stores the empty list and the failure message; `isLoading` ends false |
| HomePage.Page.FetchProducts | src/app/page.tsx:31-68 | after a load, the list is the normalised records with no error, or empty with the failure message; not loading |
| HomePage.Page.HandleAddProduct | src/app/page.tsx:74-129 | sends `AddPayload`. It returns true exactly on success, and then prepends the normalised server record. On failure the list is unchanged, the error is set to the failure message and it returns false. `isLoading` is untouched |
| ProductListView.AiResults | src/components/app/product-list.tsx:55-58 | the smart-search result is a subsequence of the catalog (same order) holding exactly the products whose name was returned, each as often as in the catalog |
| ProductListView.KeywordResults | src/components/app/product-list.tsx:77-80 | the fallback result is a subsequence of the catalog holding exactly the products whose lower-cased name, or non-empty lower-cased description, contains the lower-cased term, each as often as in the catalog |
| ProductListView.AiResultsDependOnlyOnListedNames | src/components/app/product-list.tsx:58 | duplicate, unknown or reordered names in the search result change nothing |
| ProductListView.AiResultsAllNamed | src/components/app/product-list.tsx:58 | when every catalog name is returned, the whole catalog is shown in order |
| ProductListView.KeywordResultsIgnoreCase | src/components/app/product-list.tsx:77-80 | terms that lower-case alike give the same fallback result |
| ProductListView.ProductList.constructor | src/components/app/product-list.tsx:19-22 | starts with an empty term, all products shown, not searching and no notice |
| ProductListView.ProductList.ResetIfBlank | src/components/app/product-list.tsx:24-42 | the two effects: with a blank term, show all products and clear the notice; otherwise change nothing |
| ProductListView.ProductList.SetAllProducts | src/components/app/product-list.tsx:24-42 | a new catalog is shown at once while the term is blank; a list searched with a non-blank term stays as it was |
| ProductListView.ProductList.SetSearchTerm | src/components/app/product-list.tsx:24-33 | typing a blank term shows all products and clears the notice |
| ProductListView.ProductList.StartSearch | src/components/app/product-list.tsx:45-53 | a search starts iff the term is not blank; a blank term shows all and clears the notice; a started search sets `isSearching` and clears the notice. It can be called from any state, including a blank term left with a filtered list and a notice, and afterwards the blank-term rule holds |
| ProductListView.ProductList.FinishSearch | src/components/app/product-list.tsx:54-84 | works on the term and catalog captured when the search started: shows the smart-search result, or the keyword result with the degraded-search notice; `isSearching` ends false; the result is a subsequence of the captured catalog |
| ProductListView.ProductList.HandleSearch | src/components/app/product-list.tsx:45-85 | From any state, a blank term shows all with no notice. Otherwise it shows the smart result with no notice, or the keyword result with the notice, and ends not searching. The shown list is always a subsequence of the catalog and never longer |
| ProductListView.ProductList.ClearSearch | src/components/app/product-list.tsx:134 | empties the term, shows all products and clears the notice |
| ProductCardView.HintValue | src/components/app/product-card.tsx:15 | the hint is never empty. It is `dataAiHint` when set; otherwise the name's first two space-separated words in their own case; "product image" for an empty name |
| ProductCardView.ImageSrc | src/components/app/product-card.tsx:16 | the image is the product's URL when set; otherwise the picsum seed prefix, the encoded hint, then `/600/450` |
| ProductCardView.BadgeIffGeneratedImage | src/components/app/product-card.tsx:34-38 | the placeholder badge is absent exactly when the card shows the product's own image URL |
| ProductCardView.FallbackImageSrc | src/components/app/product-card.tsx:29-32 | the error fallback URL is the picsum `fallback` seed prefix, the product id, then `/600/450` |
| ProductCardView.FallbackImagesDistinct | src/components/app/product-card.tsx:30-31 | distinct ids give distinct fallback URLs |
| ProductCardView.DescriptionText | src/components/app/product-card.tsx:46 | the shown description is never empty: the product's own text when it has one, "No description available." otherwise |
| ProductCardView.PriceLabel | src/components/app/product-card.tsx:53 | a non-zero price is shown with two decimals, a zero price as "N/A" |
| ProductCardView.HintIgnoresOtherSpellings | src/components/app/product-card.tsx:15 | the card's hint and generated image ignore `"data-ai-hint"` and `data_ai_hint` |
| SubmissionForm.SchemaErrors | src/components/app/product-submission-form.tsx:17-23 | each rule fails exactly on its condition: name shorter than 2 or longer than 100, price not positive, description shorter than 10 or longer than 5000, image URL non-empty and not a URL |
| SubmissionForm.ValidIff | src/components/app/product-submission-form.tsx:17-23 | the schema accepts exactly: name 2..100, positive price, description 10..5000, image URL absent, empty or a URL |
| SubmissionForm.DefaultsRejected | src/components/app/product-submission-form.tsx:37-43 | the default values fail on name, price and description |
| SubmissionForm.PriceFieldValue | src/components/app/product-submission-form.tsx:101 | `parseFloat(text) \|\| 0` is the parsed number, or 0 when it is NaN; it passes the price rule only for a positive parsed number |
| SubmissionForm.ToDraft | src/components/app/product-submission-form.tsx:48-54 | the product data copies name, price and description. An empty image URL becomes `undefined`. There is no hint and no id |
| SubmissionForm.PayloadHasNoHint | src/components/app/product-submission-form.tsx:48-54 | the request a form sends has no `"data-ai-hint"`, and has `imageUrl` exactly when the field is filled |
| SubmissionForm.Form.constructor | src/components/app/product-submission-form.tsx:35-44 | the form starts with the default values, not submitting |
| SubmissionForm.Form.Edit | src/components/app/product-submission-form.tsx:80-103 | editing replaces the values and nothing else |
| SubmissionForm.Form.Submit | src/components/app/product-submission-form.tsx:46-66 | Invalid values send nothing and change nothing. Valid values send the page's request and update the page as `handleAddProduct` does. They reset the form to its defaults only on success, and `isSubmitting` ends false |
| CatalogFlow.Received | src/app/page.tsx:101-102 | a stored record reaches the client with its hint under `"data-ai-hint"` only and its price as a number |
| CatalogFlow.ValidSubmissionAccepted | server/index.js:41-52 | every value the form accepts is accepted by the server. The record keeps the name, price and description, and its hint is the default hint of the name |
| CatalogFlow.StoredHintNotShown | src/components/app/product-card.tsx:15 | for a received record, the card's hint is the name's first two words, whatever hint the server stored |
| CatalogFlow.SubmittedProductHints | server/index.js:51 | a submitted product is stored with the lower-cased first two words; its card shows them in the name's own case |
| CatalogFlow.DeskLampHints | server/index.js:51 | for "Desk Lamp" the server stores "desk lamp" and the card uses "Desk Lamp" |
| CatalogFlow.ZeroPriceShownUnavailable | src/components/app/product-card.tsx:53 | a zero price passes the server and is shown as "N/A" |

## Left out

- The smart-search flow (a prompt to a language model) is not part of this model. Its answer is
  a parameter.
- Presentation: spinners, alerts, tabs, toasts, the header, the footer and the UI primitives.
  The toasts' texts are not modelled.
- HTTP and runtime plumbing: Express routing, body parsing, CORS, `fetch` and reading response
  bodies. The outcome of each exchange is a parameter.
- Concurrency is not modelled beyond the start and finish steps each async handler is split
  into: overlapping searches or loads, and the React effect and render scheduling, are out.
- `ProductListView.ProductList.FinishSearch`: the search-box input stays enabled during a search.
  If the term is cleared while the smart search is pending, the effects show every product, and
  the pending search then replaces that list with its filtered result under a blank term. The
  model allows this interleaving (`FinishSearch` takes the captured term and catalog, and does not
  promise `Valid()`), but the only composed search it states, `HandleSearch`, runs with nothing
  in between.
- Client records whose `name`, `description`, `imageUrl` or hint is not a string are not
  represented. The server stores a truthy non-string `name` or `description` whenever a hint is
  given, and stores any truthy `imageUrl` or `"data-ai-hint"` as sent (server/index.js:50-51).
  The card's `name.split` and the fallback's `toLowerCase` would throw on a non-string name or
  description. `CatalogFlow.Received` maps all such records to `None`.
- HomePage.NotOkAddMessage: an object body whose `message` is truthy but not a string (a number,
  say) would give an `Error` whose message is that value converted to text. The model does not
  convert JSON values to text and uses the "Failed to add product" status line instead.
- `crypto.randomUUID` is a parameter, and `Create` requires the new id to be fresh.
- Floating point is not modelled: prices are `real`, and `parseFloat`, `toFixed(2)` and the
  schema's number coercion are uninterpreted. NaN prices are not represented.
- Unicode is not modelled: `toLowerCase` is ASCII lower-casing, `trim` removes the ASCII white
  space characters, and schema lengths count characters (not UTF-16 code units).
  `encodeURIComponent` and the URL test are parameters.
- Delete is not modelled: the list component declares `onDeleteProduct` but nothing supplies or
  calls it, and the server has no delete route.
- `HomePage.AddFailureMessage`: an add error body whose `message` is truthy but not a string is
  given the status-line text, where the code would show that value converted to a string.
- Key order in JSON objects is not modelled (bodies are maps).
- The card's `typeof price === 'number'` test is taken as always true, since a normalised price
  is a number.
- `ProductCardView.DescriptionText`: "No description available." is shown when the description is
  empty, and also for a product whose description is exactly that text. The contract states the
  two implications, not an if-and-only-if.
- `SubmissionForm.Form.Submit`: `isSubmitting` is true only between the schema check and the
  page's answer. That step is not observable in one call, so the contract states only its final
  value.
