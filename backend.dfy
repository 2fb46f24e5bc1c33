/** The price-enrichment service: the catalog loaded at startup, the gold
    quote, the per-item enrichment and the `/api/products` endpoint. */
module Backend {
  import opened Wrappers
  import opened JsonValues

  const GramsPerTroyOunce: real := 31.1035

  /** The fixed body text of every failed `/api/products` response. */
  const ApiErrorMessage: string := "Altın fiyatı alınamadı, API hatası."

  /** Why the gold price could not be obtained (logged, never shown). */
  datatype FetchError = MissingCredential | NetworkFailure | InvalidQuote

  /** What the quote provider answers to one request: no usable response
      (transport error or non-2xx status), or a decoded body whose `price`
      and `ask` fields are numbers or absent. */
  datatype Quote = QuoteUnavailable | QuoteBody(price: Option<real>, ask: Option<real>)

  /** Why one catalog entry could not be enriched: enriching it throws a
      TypeError unless the entry is an object whose `name` is a string. */
  datatype ProductError = NotAnObject | NameNotString

  /** The result of the catalog read at startup: the parsed file, or a read or
      parse failure. */
  datatype CatalogLoad = LoadFailed | Parsed(data: Json)

  datatype Response = Response(status: int, body: Json)

  /** The enriched `price` and `scoreOutOf5` fields. Their floating-point
      formulas are not part of this model, so the caller supplies them. */
  datatype Pricing = Pricing(price: (map<string, Json>, real) -> Json, score: map<string, Json> -> Json)

  // ---------------------------------------------------------------------------
  // Gold price
  // ---------------------------------------------------------------------------

  /** `!GOLD_API_KEY` is false: a key is set and is not the empty string. */
  predicate KeyConfigured(key: Option<string>) {
    key.Some? && key.value != ""
  }

  predicate TruthyNumber(x: Option<real>) {
    x.Some? && x.value != 0.0
  }

  /** `price || ask`, then the falsy check: the ounce price a quote body offers. */
  function OfferedOuncePrice(price: Option<real>, ask: Option<real>): (r: Option<real>)
    ensures TruthyNumber(price) ==> r == price
    ensures !TruthyNumber(price) && TruthyNumber(ask) ==> r == ask
    ensures !TruthyNumber(price) && !TruthyNumber(ask) ==> r == None
  {
    var chosen := if TruthyNumber(price) then price else ask;
    if TruthyNumber(chosen) then chosen else None
  }

  /** A quote the service accepts. */
  predicate QuoteValid(q: Quote) {
    q.QuoteBody? && OfferedOuncePrice(q.price, q.ask).Some?
  }

  /** The per-gram gold price: the credential check comes first and decides
      whether a request is made at all (`requested`); then the quote's price,
      falling back to its ask, is divided by the grams in a troy ounce. */
  method FetchGoldPrice(key: Option<string>, quote: Quote) returns (requested: bool, r: Result<real, FetchError>)
    ensures requested <==> KeyConfigured(key)
    ensures !KeyConfigured(key) ==> r == Failure(MissingCredential)
    ensures KeyConfigured(key) && quote.QuoteUnavailable? ==> r == Failure(NetworkFailure)
    ensures KeyConfigured(key) && quote.QuoteBody? && !QuoteValid(quote) ==> r == Failure(InvalidQuote)
    ensures r.Success? <==> KeyConfigured(key) && QuoteValid(quote)
    ensures r.Success? ==> r.value != 0.0
    ensures r.Success? ==> r.value * GramsPerTroyOunce == OfferedOuncePrice(quote.price, quote.ask).value
  {
    if !KeyConfigured(key) {
      return false, Failure(MissingCredential);
    }
    requested := true;
    if quote.QuoteUnavailable? {
      return requested, Failure(NetworkFailure);
    }
    var pricePerOunce := if TruthyNumber(quote.price) then quote.price else quote.ask;
    if !TruthyNumber(pricePerOunce) {
      return requested, Failure(InvalidQuote);
    }
    r := Success(pricePerOunce.value / GramsPerTroyOunce);
  }

  // ---------------------------------------------------------------------------
  // Slug id
  // ---------------------------------------------------------------------------

  /** The characters JavaScript's regular-expression class `\s` matches. */
  predicate IsWhitespace(c: char) {
    c == ' ' || c == '\t' || c == '\n' || c == '\r' || c == '\U{B}' || c == '\U{C}'
    || c == '\U{A0}' || c == '\U{1680}' || ('\U{2000}' <= c <= '\U{200A}')
    || c == '\U{2028}' || c == '\U{2029}' || c == '\U{202F}' || c == '\U{205F}'
    || c == '\U{3000}' || c == '\U{FEFF}'
  }

  predicate IsUpperAscii(c: char) {
    'A' <= c <= 'Z'
  }

  /** Lower-casing of one character, over ASCII only. */
  function ToLower(c: char): (r: char)
    ensures IsUpperAscii(c) ==> r as int == c as int + 32
    ensures !IsUpperAscii(c) ==> r == c
  {
    if IsUpperAscii(c) then (c as int + 32) as char else c
  }

  /** `s.replace(/\s/g, "-")` */
  function ReplaceWhitespace(s: string): (r: string)
    ensures |r| == |s|
    ensures forall i :: 0 <= i < |s| ==> r[i] == if IsWhitespace(s[i]) then '-' else s[i]
  {
    if s == [] then [] else [if IsWhitespace(s[0]) then '-' else s[0]] + ReplaceWhitespace(s[1..])
  }

  /** `s.toLowerCase()`, over ASCII. */
  function LowerCase(s: string): (r: string)
    ensures |r| == |s|
    ensures forall i :: 0 <= i < |s| ==> r[i] == ToLower(s[i])
  {
    if s == [] then [] else [ToLower(s[0])] + LowerCase(s[1..])
  }

  /** The id of a catalog entry: every whitespace character of its name
      becomes `-`, then the result is lower-cased. */
  function Slug(name: string): (id: string)
    ensures |id| == |name|
    ensures forall i :: 0 <= i < |id| ==> id[i] == ToLower(if IsWhitespace(name[i]) then '-' else name[i])
    ensures forall i :: 0 <= i < |id| ==> !IsWhitespace(id[i]) && !IsUpperAscii(id[i])
    ensures forall i :: 0 <= i < |id| ==> (id[i] == '-' <==> IsWhitespace(name[i]) || name[i] == '-')
  {
    LowerCase(ReplaceWhitespace(name))
  }

  /** Applying the slug transform to an id gives back the same id. */
  lemma {:induction false} SlugIdempotent(name: string)
    ensures Slug(Slug(name)) == Slug(name)
  {
    var id := Slug(name);
    var again := Slug(id);
    forall i | 0 <= i < |id|
      ensures again[i] == id[i]
    {
      assert ReplaceWhitespace(id)[i] == id[i];
      assert again[i] == ToLower(id[i]);
    }
  }

  /** Distinct names can share an id: ids are not unique. */
  lemma SlugNotInjective()
    ensures Slug("A B") == Slug("a-b") == "a-b"
  {
    assert ReplaceWhitespace("A B") == "A-B";
    assert ReplaceWhitespace("a-b") == "a-b";
  }

  // ---------------------------------------------------------------------------
  // Enrichment
  // ---------------------------------------------------------------------------

  /** `{ ...product, id, price, scoreOutOf5 }`: the entry with those three
      fields set and every other field as it was; it throws unless the entry is
      an object with a string `name`. */
  function CalculateProductData(product: Json, goldPrice: real, pricing: Pricing): (r: Result<Json, ProductError>)
    ensures r.Success? <==> product.JObj? && "name" in product.fields && product.fields["name"].JStr?
    ensures !product.JObj? ==> r == Failure(NotAnObject)
    ensures r.Success? ==> r.value.JObj? && r.value.fields.Keys == product.fields.Keys + {"id", "price", "scoreOutOf5"}
    ensures r.Success? ==> forall k :: k in product.fields && k != "id" && k != "price" && k != "scoreOutOf5" ==>
                             r.value.fields[k] == product.fields[k]
    ensures r.Success? ==> r.value.fields["id"] == JStr(Slug(product.fields["name"].s))
    ensures r.Success? ==> r.value.fields["price"] == pricing.price(product.fields, goldPrice)
    ensures r.Success? ==> r.value.fields["scoreOutOf5"] == pricing.score(product.fields)
  {
    if !product.JObj? then Failure(NotAnObject)
    else if "name" !in product.fields || !product.fields["name"].JStr? then Failure(NameNotString)
    else
      var fields := product.fields;
      Success(JObj(fields["id" := JStr(Slug(fields["name"].s))]
                         ["price" := pricing.price(fields, goldPrice)]
                         ["scoreOutOf5" := pricing.score(fields)]))
  }

  /** `items.map(p => calculateProductData(p, goldPrice))`: every entry enriched
      in order, or the first entry's error. */
  function EnrichAll(items: seq<Json>, goldPrice: real, pricing: Pricing): (r: Result<seq<Json>, ProductError>)
    ensures r.Success? <==> forall i :: 0 <= i < |items| ==> CalculateProductData(items[i], goldPrice, pricing).Success?
    ensures r.Success? ==> |r.value| == |items|
    ensures r.Success? ==> forall i :: 0 <= i < |items| ==>
                             r.value[i] == CalculateProductData(items[i], goldPrice, pricing).value
  {
    if items == [] then Success([])
    else
      match CalculateProductData(items[0], goldPrice, pricing)
      case Failure(e) => Failure(e)
      case Success(first) =>
        match EnrichAll(items[1..], goldPrice, pricing)
        case Failure(e) => Failure(e)
        case Success(rest) =>
          assert forall i :: 1 <= i < |items| ==> items[i] == items[1..][i - 1];
          Success([first] + rest)
  }

  /** Enriching an empty catalog succeeds with an empty list. */
  lemma EnrichEmpty(goldPrice: real, pricing: Pricing)
    ensures EnrichAll([], goldPrice, pricing) == Success([])
  {
  }

  /** The single response every failure produces. */
  function ErrorResponse(): (r: Response)
    ensures r.status == 500 && r.body.JObj? && r.body.fields.Keys == {"error"}
  {
    Response(500, JObj(map["error" := JStr(ApiErrorMessage)]))
  }

  // ---------------------------------------------------------------------------
  // The service
  // ---------------------------------------------------------------------------

  /** The running backend: the credential from the environment and the
      module-level `productsData`, assigned once at startup. */
  class Server {
    const apiKey: Option<string>
    var productsData: Json

    /** Startup: `productsData` starts as `[]` and is replaced by the parsed
        file only when reading and parsing both succeed. */
    constructor (apiKey: Option<string>, load: CatalogLoad)
      ensures this.apiKey == apiKey
      ensures load.LoadFailed? ==> productsData == JArr([])
      ensures load.Parsed? ==> productsData == load.data
    {
      this.apiKey := apiKey;
      productsData := JArr([]);
      if load.Parsed? {
        productsData := load.data;
      }
    }

    /** `GET /api/products`, with `quote` standing for the provider's answer.
        Either 200 with every catalog entry enriched in order, or the one
        fixed 500 response; `requested` says whether the quote was requested. */
    method GetProducts(quote: Quote, pricing: Pricing) returns (requested: bool, resp: Response)
      ensures requested <==> KeyConfigured(apiKey)
      ensures resp.status == 200 || resp == ErrorResponse()
      ensures resp.status == 200 <==>
                KeyConfigured(apiKey) && QuoteValid(quote) && productsData.JArr? &&
                EnrichAll(productsData.items, OfferedOuncePrice(quote.price, quote.ask).value / GramsPerTroyOunce, pricing).Success?
      ensures resp.status == 200 ==> resp.body.JArr? && |resp.body.items| == |productsData.items|
      ensures resp.status == 200 ==> forall i :: 0 <= i < |productsData.items| ==>
                resp.body.items[i] == CalculateProductData(productsData.items[i],
                  OfferedOuncePrice(quote.price, quote.ask).value / GramsPerTroyOunce, pricing).value
      ensures KeyConfigured(apiKey) && QuoteValid(quote) && productsData == JArr([]) ==> resp == Response(200, JArr([]))
    {
      var outcome;
      requested, outcome := FetchGoldPrice(apiKey, quote);
      if outcome.Failure? {
        return requested, ErrorResponse();
      }
      var goldPrice := outcome.value;
      assert goldPrice == OfferedOuncePrice(quote.price, quote.ask).value / GramsPerTroyOunce;
      if !productsData.JArr? {
        return requested, ErrorResponse();
      }
      var calculated := EnrichAll(productsData.items, goldPrice, pricing);
      if calculated.Failure? {
        return requested, ErrorResponse();
      }
      resp := Response(200, JArr(calculated.value));
    }
  }
}
