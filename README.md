# Product listing — a Dafny model of its enrichment service and carousel view

The system lists jewellery products. A backend loads a static catalog at
startup. On each `GET /api/products` it fetches the current gold price from a
quote provider and enriches every catalog entry with a slug `id`, a `price`
and a `scoreOutOf5`. A React frontend fetches that list once. It renders the
list as a horizontally scrolling carousel. Each card has its own colour picker,
image and star rating, and a bar shows the scroll progress.

This project models both halves in Dafny and proves what each promises:

- `wrappers.dfy` (`Wrappers`): `Option` for JavaScript's `undefined`, and
  `Result` for a thrown error.
- `json.dfy` (`JsonValues`): JSON values and JavaScript truthiness.
- `backend.dfy` (`Backend`) models `backend/api/index.js`:
  - the credential-then-quote check of `fetchGoldPrice`;
  - the slug id;
  - the object spread of `calculateProductData`;
  - the order-preserving `map` of the endpoint and its single error response;
  - the startup load of `productsData`, as the constructor of a `Server` class.
- `frontend.dfy` (`Frontend`) models `frontend/src/App.jsx`:
  - `RatingStars` as a method with the source's two loops;
  - the colour dots and the card image lookup;
  - a `ProductCard` class for each card's selected colour;
  - the scroll progress in exact `real` arithmetic;
  - the load transition and the render branch;
  - an `App` class that holds the component's state.

The network, the file system and the floating-point price formula are inputs.
The quote provider's answer is a `Quote`, the products request's answer is a
`ProductsResponse`, the catalog read is a `CatalogLoad`, and the price and
score fields come from a `Pricing` value that the caller supplies.

Some behaviours of the code worth knowing, each proved in the model:

- Only a falsy or absent `product.images` gives the placeholder image. A
  missing colour key gives `undefined` (`CardImage`,
  `PlaceholderOnlyWithoutImages`).
- Nothing makes ids unique: `SlugNotInjective` shows two names with the same id.
- Besides a missing key, a failed request and an unusable quote, two more cases
  throw inside the handler's `try` and give the same 500 response:
  - a catalog that parsed to something other than an array throws a
    TypeError at the `map` call;
  - an entry that is not an object with a string `name` throws a TypeError
    (a price field whose number conversion throws is listed under "Left out").
- An empty catalog gives `200 []` only when the key is set and the quote is
  valid, because the price is fetched first (`Server.GetProducts`).
- Rendering the carousel throws, and React unmounts the whole App, when any
  product is `null`, has a `price` that is not a number, or has a `name` or
  `scoreOutOf5` that React cannot render as a child. A NaN price, which
  `res.json` sends as `null`, is one such case (`Render`,
  `UnrenderableProductsUnmount`). Only thrown errors are modelled this way: a
  score that never lets rendering finish, and an image `src` whose conversion
  to a string throws, are listed under "Left out".
- The half slot of a rating is emitted with the same `star` class as a full
  one; only empty slots get `star empty`. Unless a style sheet draws it
  differently, 3.5 shows four filled stars. `Half` names the slot, not its
  drawing.

## Model

| member | source | states |
|---|---|---|
| `Backend.FetchGoldPrice` | backend/api/index.js:31-50 | The quote is requested exactly when the key is set and non-empty. A missing key fails with no request made. An unusable response fails. A quote whose price and ask are both falsy is rejected. On success the result times 31.1035 is the offered ounce price, and the result is never 0. |
| `Backend.OfferedOuncePrice` | backend/api/index.js:43-47 | `price` when it is truthy, otherwise `ask` when that is truthy, otherwise nothing. |
| `Backend.ReplaceWhitespace` | backend/api/index.js:58 | Keeps the length. Each character matched by JavaScript's `\s` becomes `-` and every other character is kept. |
| `Backend.LowerCase` | backend/api/index.js:58 | Keeps the length and lower-cases each character (ASCII). |
| `Backend.Slug` | backend/api/index.js:58 | The id has the name's length, and each character is the name's character with whitespace turned into `-`, then lower-cased. It contains no whitespace and no upper-case ASCII. Its `-` characters sit exactly where the name had whitespace or `-`. |
| `Backend.SlugIdempotent` | backend/api/index.js:58 | Applying the slug transform to an id returns that id. |
| `Backend.SlugNotInjective` | backend/api/index.js:58 | `"A B"` and `"a-b"` have the same id `"a-b"`, so ids are not unique. |
| `Backend.CalculateProductData` | backend/api/index.js:52-62 | Succeeds exactly for an object with a string `name`. The result has the entry's keys plus `id`, `price` and `scoreOutOf5`. Every other field is unchanged, `id` is the slug of `name`, and `price` and `scoreOutOf5` are the supplied values. A field whose conversion in the price formula throws is not modelled (see "Left out"). |
| `Backend.EnrichAll` | backend/api/index.js:68-70 | Succeeds exactly when every entry can be enriched. The result then has the same length and order, and element i is entry i enriched. |
| `Backend.EnrichEmpty` | backend/api/index.js:68-72 | An empty catalog enriches to an empty list, not an error. |
| `Backend.ErrorResponse` | backend/api/index.js:73-76 | Status 500 with a body whose only field is `error`. |
| `Backend.Server.constructor` | backend/api/index.js:20-28 | `productsData` is the parsed file when reading and parsing succeed, and `[]` otherwise. |
| `Backend.Server.GetProducts` | backend/api/index.js:65-77 | Either status 200 or the fixed error response, with no partial result. The status is 200 exactly when the key is set, the quote is valid, the catalog is an array and every entry can be enriched. The body then has the catalog's length and order, element i being entry i enriched with ounce price / 31.1035. An empty catalog with a valid quote gives `200 []`. |
| `Frontend.RatingStars` | frontend/src/App.jsx:12-41 | The two loops and the push build exactly `StarSlots(score)`. |
| `Frontend.StarSlotsShape` | frontend/src/App.jsx:13-38 | For a non-negative score there are floor(score) full slots, then one half slot if the score has a fraction, then `5 - full - half` empty slots, in that order. |
| `Frontend.FiveSlots` | frontend/src/App.jsx:13-38 | A score in [0, 5] gives exactly five slots. |
| `Frontend.HalfSlotIffFraction` | frontend/src/App.jsx:14 | A half slot appears if and only if the score is not a whole number. |
| `Frontend.StarsThreeAndHalf` | frontend/src/App.jsx:12-38 | A score of 3.5 gives full, full, full, half, empty. |
| `Frontend.ColorDots` | frontend/src/App.jsx:43-56 | One dot per colour option, in the options' order. |
| `Frontend.ExactlyOneActiveDot` | frontend/src/App.jsx:45-50 | For a selected colour among the options, exactly its dot is active. A colour whose code matches no option marks no dot. |
| `Frontend.CardImage` | frontend/src/App.jsx:61-63 | A falsy or absent `images` gives the placeholder. Otherwise the result is the entry for the selected code when `images` is an object holding that code, and `undefined` in every other case. |
| `Frontend.PlaceholderOnlyWithoutImages` | frontend/src/App.jsx:61-63 | An `images` object without the selected code gives `undefined`, not the placeholder. |
| `Frontend.ProductCard.constructor` | frontend/src/App.jsx:58-59 | A card, which exists only for a renderable product, starts with the first colour option. |
| `Frontend.ProductCard.ChooseColor` | frontend/src/App.jsx:52 | A click on a dot sets this card's colour to that option and changes nothing else. |
| `Frontend.ProductCard.CurrentImage` | frontend/src/App.jsx:61-63 | A product without a truthy `images` field shows the placeholder. An `images` object holding the selected colour's code gives that entry, and one without it gives `undefined`. A truthy `images` that is not an object (a string, number, `true` or an array) also gives `undefined`. |
| `Frontend.ScrollProgress` | frontend/src/App.jsx:106-109 | 0 when the scrollable distance is not positive, so there is no division by a non-positive number. Otherwise progress × maxScroll = scrollLeft × 100. |
| `Frontend.ProgressBounds` | frontend/src/App.jsx:106-109 | Within the scrollable range the progress is in [0, 100]. It is 0 at the start and 100 at the end. |
| `Frontend.ProgressMonotone` | frontend/src/App.jsx:106-109 | The progress never decreases as `scrollLeft` grows. |
| `Frontend.ProgressExample` | frontend/src/App.jsx:106-109 | Widths 1000/400 scrolled by 300 give 50. |
| `Frontend.Settled` | frontend/src/App.jsx:115-134 | Loading ends in every case. An array body becomes the products and leaves the error as it was. A non-array body or a failed request sets the matching error text and empties the products. |
| `Frontend.Render` | frontend/src/App.jsx:153-221 | Loading takes precedence. Otherwise an error or an empty list shows a message: the error text when set, otherwise the "no products" text, in red only for an error. A non-empty list holding a product that cannot be rendered unmounts the App. Only a non-empty list of renderable products shows the carousel, whose indicator width × count = 100 and whose left offset is the progress. The image `src` is not checked for a throw (see "Left out"). |
| `Frontend.LoadThenRender` | frontend/src/App.jsx:92-221 | From the initial state the view is loading. After the fetch settles, the carousel shows exactly for a non-empty array of renderable products, and the App unmounts, from a thrown error, exactly for an array holding any other product. A score whose rendering never finishes, and an image `src` whose conversion throws, are not modelled (see "Left out"). An empty array shows the "no products" text, and a failure or a non-array body shows its error text. |
| `Frontend.UnrenderableProductsUnmount` | frontend/src/App.jsx:76-188 | A `null` entry, which throws at `key={product.name}` (App.jsx:188), or an entry whose `price` is `null`, which throws at `toFixed` (App.jsx:77), unmounts the App instead of showing the carousel. |
| `Frontend.App.constructor` | frontend/src/App.jsx:93-99 | Mounting starts with no products, loading, no error, progress 0 and no carousel element. |
| `Frontend.App.SetCarouselRef` | frontend/src/App.jsx:186 | `carouselRef.current` becomes the given element. |
| `Frontend.App.FetchProducts` | frontend/src/App.jsx:116-132 | The new state is `Settled` of the old state and the request's outcome. The carousel element and the progress are untouched. |
| `Frontend.App.HandleScroll` | frontend/src/App.jsx:101-112 | With an element, the progress becomes `ScrollProgress` of its scroll geometry. Without one, the progress is unchanged. |
| `Frontend.App.Scroll` | frontend/src/App.jsx:147-151 | With an element, only its `scrollLeft` changes, by exactly offset × 320. Without one, nothing changes. |

## Left out

- Express, CORS, dotenv, `app.listen` and the default port: server plumbing with no logic.
- The HTTP calls themselves: each call is an input value (`Quote`, `ProductsResponse`).
  - The quote body's `price` and `ask` are numbers or absent. JavaScript's coercion of a string or boolean price in `/` is not modelled, and neither is a `null` body.
  - The literal `"process.env.REACT_APP_API_URL"` request target is not modelled: whatever it reaches is the `ProductsResponse`.
- Reading and parsing `products.json`: the result is an input (`CatalogLoad`). The error log line is not modelled.
- `console.error` logging of endpoint failures: every failure yields the same response, and the logged cause is not kept.
- Floating point:
  - The price formula `(p + 1) × w × g`, `toFixed(2)`/`parseFloat` and the `toFixed(1)` score are supplied by the caller through `Pricing`.
  - The gram price is the exact real quotient of the ounce price by 31.1035.
  - The scroll progress is exact real arithmetic.
  - NaN is not modelled. A NaN score would render a single half star.
  - Infinite or huge scores are not modelled. A `scoreOutOf5` text that `parseFloat` reads as `Infinity`, or as a number too large to loop over, keeps the first loop of `RatingStars` pushing stars until the page runs out of memory. The backend sends `"Infinity"` for a `popularityScore` of 1e308. The model still shows the carousel for such a product, because `Renderable` covers only thrown errors.
- Backend.Slug: lower-casing covers ASCII only. Unicode case mapping, which can change a string's length, is not modelled. JavaScript's `\s` class is modelled in full.
- Backend.CalculateProductData: a JSON object is modelled as a map, so the key order of the spread object is not kept.
- `res.json` serialisation of the response body is not modelled.
- The card's rendered text (the name, the price formatted by `toFixed(2)`, the `scoreOutOf5` text and its `parseFloat`) is not modelled. Whether rendering the name, price and score throws is modelled, by `Renderable`. Whether the image `src` throws is not (see the `Frontend.Render` line).
- Values whose conversion to a string or number throws are not modelled. Such a value is a JSON object with its own `toString` key, because JSON cannot hold a function: its inherited `valueOf` returns the object and its `toString` cannot be called. An array holding such a value throws the same way, through `join`.
- Backend.CalculateProductData: a `popularityScore` or `weight` of that kind throws a TypeError in the price formula of index.js:53 (and a `popularityScore` again at :54), which the endpoint turns into its 500 response. The model succeeds for every object with a string `name`, because the caller-supplied `Pricing` cannot fail. `Backend.EnrichAll` and `Backend.Server.GetProducts` inherit this: for such a catalog they give 200 where the source gives 500.
- Frontend.Render: React converts the card's image `src` (App.jsx:69) to an attribute string. An `images` entry of that kind for the selected colour therefore throws and unmounts the App. `Renderable` does not check the image, so the model shows the carousel for such a product. The same holds for an entry under a colour chosen later by a click.
- Frontend.LoadThenRender: its "exactly" conditions for the carousel and for unmounting inherit the `Frontend.Render` gap for an unconvertible image `src`, and the `Backend.CalculateProductData` gap for the same kind of value reaching the price formula.
- The browser's clamping of `scrollLeft` to the scrollable range is not modelled.
- Registering and removing the scroll listener is not modelled. That effect also calls `handleScroll` once when the products change, which is `App.HandleScroll`.
- JSX markup, CSS classes, inline styles and the CSS transition are rendering only.
- React batches its state updates. The model applies them in program order, which gives the same settled state.
