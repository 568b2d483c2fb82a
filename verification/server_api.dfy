/** The Express server (server/index.js): a module-level array of product
    records, `GET /api/products` returning it, and `POST /api/products`
    validating a JSON body, building a record and prepending it.

    The handler copies the submitted values without checking their types
    (only `price` must be a JSON number), so a stored record keeps `name`,
    `description`, `imageUrl` and the hint as JSON values. The two
    `crypto.randomUUID()` results (record id, image seed) are parameters. */
module ServerApi {
  import opened JsValues
  import opened JsStrings
  import opened ProductTypes

  datatype StoredProduct = StoredProduct(
    id: string,
    name: Json,
    price: real,
    description: Json,
    imageUrl: Json,
    hint: Json)   // stored under the key "data-ai-hint"

  /** The body of a response: the created record, an error message, or the
      framework's default error page when the handler throws. */
  datatype Response = Record(record: StoredProduct) | Message(text: string) | InternalError

  /** What the POST handler makes of a request body. */
  datatype Outcome =
    | Created(record: StoredProduct)
    | MissingFields   // rejected by the field check: 400
    | NameNotText     // `name.toLowerCase` is not a function: the handler throws, 500

  const MissingFieldsMessage := "Missing required fields: name, price, description"

  /** The default image, `https://picsum.photos/seed/${uuid}/400/300`. */
  function GeneratedImageUrl(seed: string): (url: string)
    ensures |url| == |PicsumSeedPrefix| + |seed| + 8
    ensures PicsumSeedPrefix <= url
    ensures url[|PicsumSeedPrefix|..|PicsumSeedPrefix| + |seed|] == seed
    ensures url[|PicsumSeedPrefix| + |seed|..] == "/400/300"
  {
    PicsumSeedPrefix + seed + "/400/300"
  }

  /** `!name || typeof price !== 'number' || !description` is false. */
  predicate HasRequiredFields(body: Json)
  {
    && Truthy(Get(body, "name"))
    && Get(body, "price").Some? && Get(body, "price").value.JNum?
    && Truthy(Get(body, "description"))
  }

  /** The default hint, `name.toLowerCase().split(" ").slice(0,2).join(" ")`:
      the lower-cased name up to its second space (one space if the name
      has any, none otherwise), the whole lower-cased name when it has at
      most one space, and never empty for a non-empty name. */
  function DefaultHint(name: string): (h: string)
    ensures h <= Lower(name)
    ensures h == Lower(name) || (|h| < |name| && Lower(name)[|h|] == ' ')
    ensures Count(h, ' ') == if Count(name, ' ') == 0 then 0 else 1
    ensures Count(name, ' ') <= 1 ==> h == Lower(name)
    ensures name != "" ==> h != ""
  {
    CountLower(name);
    FirstTwoWords(Lower(name))
  }

  /** The POST handler's validation and record construction. */
  function NewProduct(body: Json, id: string, imageSeed: string): (r: Outcome)
    ensures r.MissingFields? <==> !HasRequiredFields(body)
    ensures r.NameNotText? <==>
      HasRequiredFields(body) && !Truthy(Get(body, HintKey)) && !Get(body, "name").value.JStr?
    ensures r.Created? ==>
      && r.record.id == id
      && Get(body, "name") == Some(r.record.name)
      && Get(body, "price") == Some(JNum(r.record.price))
      && Get(body, "description") == Some(r.record.description)
      && Truthy(Some(r.record.name)) && Truthy(Some(r.record.description))
    ensures r.Created? ==>
      r.record.imageUrl ==
        if Truthy(Get(body, "imageUrl")) then Get(body, "imageUrl").value
        else JStr(GeneratedImageUrl(imageSeed))
    ensures r.Created? && Truthy(Get(body, HintKey)) ==> r.record.hint == Get(body, HintKey).value
    ensures r.Created? && !Truthy(Get(body, HintKey)) ==>
      exists name :: Get(body, "name") == Some(JStr(name)) && r.record.hint == JStr(DefaultHint(name))
    ensures r.Created? ==> Truthy(Some(r.record.imageUrl)) && Truthy(Some(r.record.hint))
  {
    if !HasRequiredFields(body) then MissingFields
    else
      var name := Get(body, "name").value;
      var imageUrl := Get(body, "imageUrl");
      var hint := Get(body, HintKey);
      var image := if Truthy(imageUrl) then imageUrl.value else JStr(GeneratedImageUrl(imageSeed));
      if Truthy(hint) then
        Created(StoredProduct(id, name, Get(body, "price").value.n, Get(body, "description").value, image, hint.value))
      else if name.JStr? then
        Created(StoredProduct(id, name, Get(body, "price").value.n, Get(body, "description").value, image,
                              JStr(DefaultHint(name.s))))
      else
        NameNotText
  }

  /** Validation checks only the JSON type of the price: zero and negative prices are accepted. */
  lemma AnyNumericPriceAccepted(name: string, price: real, description: string, id: string, imageSeed: string)
    requires name != "" && description != ""
    ensures var body := JObj(map["name" := JStr(name), "price" := JNum(price), "description" := JStr(description)]);
            NewProduct(body, id, imageSeed).Created? && NewProduct(body, id, imageSeed).record.price == price
  {
  }

  /** A price sent as numeric text is rejected, however it reads. */
  lemma TextPriceRejected(body: Json, id: string, imageSeed: string)
    requires Get(body, "price").Some? && Get(body, "price").value.JStr?
    ensures NewProduct(body, id, imageSeed) == MissingFields
  {
  }

  predicate UniqueIds(s: seq<StoredProduct>)
  {
    forall i, j :: 0 <= i < j < |s| ==> s[i].id != s[j].id
  }

  predicate IdIsFresh(s: seq<StoredProduct>, id: string)
  {
    forall i :: 0 <= i < |s| ==> s[i].id != id
  }

  function Seed(id: string, name: string, price: real, description: string, imageUrl: string, hint: string): StoredProduct
  {
    StoredProduct(id, JStr(name), price, JStr(description), JStr(imageUrl), JStr(hint))
  }

  // The seed records of server/index.js, in order.
  const OfficeChair := Seed("1", "Ergonomic Office Chair", 299.99, "High-back ergonomic chair with lumbar support and adjustable armrests.", "https://picsum.photos/seed/chair/400/300", "office chair")
  const DiningTable := Seed("2", "Modern Oak Dining Table", 450.00, "Solid oak dining table with a minimalist design, seats 6.", "https://picsum.photos/seed/table/400/300", "dining table")
  const GamingDesktop := Seed("3", "Gaming Desktop PC - Ryzen 7", 1200.00, "Powerful gaming desktop with AMD Ryzen 7, RTX 4070, 32GB RAM.", "https://picsum.photos/seed/desktop/400/300", "gaming pc")
  const Smartphone := Seed("4", "Latest Smartphone Pro Max", 999.00, "Flagship smartphone with a stunning display and pro-grade camera system.", "https://picsum.photos/seed/phone/400/300", "smartphone")
  const DeskLamp := Seed("5", "Adjustable Standing Desk Lamp", 79.50, "Modern LED desk lamp with adjustable brightness and color temperature.", "https://picsum.photos/seed/desklamp/400/300", "desk lamp")
  const Headphones := Seed("6", "Wireless Noise-Cancelling Headphones", 199.99, "Immersive sound experience with active noise cancellation and long battery life.", "https://picsum.photos/seed/headphones/400/300", "headphones audio")
  const CoffeeMaker := Seed("7", "Smart Coffee Maker", 89.00, "Wi-Fi enabled coffee maker, schedule your brews from your phone.", "https://picsum.photos/seed/coffeemaker/400/300", "coffee maker")
  const MessengerBag := Seed("8", "Leather Messenger Bag", 120.00, "Stylish and durable leather bag for laptops and daily essentials.", "https://picsum.photos/seed/messengerbag/400/300", "leather bag")
  const YogaMat := Seed("9", "Premium Yoga Mat", 45.00, "Eco-friendly, non-slip yoga mat for all types of practice.", "https://picsum.photos/seed/yogamat/400/300", "yoga mat")
  const BluetoothSpeaker := Seed("10", "Portable Bluetooth Speaker", 65.00, "Compact and waterproof Bluetooth speaker with rich sound.", "https://picsum.photos/seed/btspeaker/400/300", "bluetooth speaker")
  const MechanicalKeyboard := Seed("11", "Mechanical Keyboard", 150.00, "RGB backlit mechanical keyboard with customizable switches.", "https://picsum.photos/seed/keyboard/400/300", "mechanical keyboard")
  const Monitor4K := Seed("12", "4K Ultra HD Monitor", 350.00, "27-inch 4K UHD monitor with HDR support for crisp visuals.", "https://picsum.photos/seed/monitor/400/300", "4k monitor")
  const Smartwatch := Seed("13", "Smartwatch Series X", 249.00, "Feature-rich smartwatch with fitness tracking and notifications.", "https://picsum.photos/seed/smartwatch/400/300", "smartwatch wearable")
  const Bookshelf := Seed("14", "Bookshelf, 5-Tier", 90.00, "Modern and sturdy 5-tier bookshelf for home or office.", "https://picsum.photos/seed/bookshelf/400/300", "bookshelf furniture")
  const ElectricKettle := Seed("15", "Electric Kettle", 35.00, "Fast-boiling electric kettle with auto shut-off feature.", "https://picsum.photos/seed/kettle/400/300", "electric kettle")

  /** The fifteen records the store starts with; their ids are pairwise distinct. */
  function InitialProducts(): (s: seq<StoredProduct>)
    ensures |s| == 15
    ensures UniqueIds(s)
  {
    [ OfficeChair, DiningTable, GamingDesktop, Smartphone, DeskLamp,
      Headphones, CoffeeMaker, MessengerBag, YogaMat, BluetoothSpeaker,
      MechanicalKeyboard, Monitor4K, Smartwatch, Bookshelf, ElectricKettle ]
  }

  /** The server's product array and its two request handlers. */
  class ProductStore {
    var products: seq<StoredProduct>

    ghost predicate Valid()
      reads this
    {
      UniqueIds(products)
    }

    constructor ()
      ensures Valid()
      ensures products == InitialProducts()
    {
      products := InitialProducts();
    }

    /** `GET /api/products`: 200 with the array as it stands. */
    method List() returns (status: nat, body: seq<StoredProduct>)
      ensures status == 200
      ensures body == products
    {
      status, body := 200, products;
    }

    /** `POST /api/products`: 201 and the new record prepended with `unshift`,
        or 400 (or 500 when the handler throws) and the array unchanged. */
    method Create(body: Json, id: string, imageSeed: string) returns (status: nat, response: Response)
      requires Valid()
      requires IdIsFresh(products, id)
      modifies this
      ensures Valid()
      ensures match NewProduct(body, id, imageSeed)
        case Created(p) => status == 201 && response == Record(p) && products == [p] + old(products)
        case MissingFields => status == 400 && response == Message(MissingFieldsMessage) && products == old(products)
        case NameNotText => status == 500 && response == InternalError && products == old(products)
      ensures |products| == |old(products)| + (if status == 201 then 1 else 0)
      ensures status == 201 ==> response.Record? && products[0] == response.record && products[1..] == old(products)
    {
      match NewProduct(body, id, imageSeed)
      case Created(p) =>
        products := [p] + products;
        assert products[1..] == old(products);
        status, response := 201, Record(p);
      case MissingFields =>
        status, response := 400, Message(MissingFieldsMessage);
      case NameNotText =>
        status, response := 500, InternalError;
    }
  }
}
