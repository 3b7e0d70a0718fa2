# Storefront product modal and category page, in Dafny

This project models the logic inside two UI components of a storefront.

- **The product detail modal** (`src/components/ProductDetailModal.tsx`) derives three values from a product record:
  - the image list, which keeps the non-empty image fields among `imagem1`..`imagem5` in order;
  - the formatted price, which adds the "R$ " prefix unless the price already mentions "R$";
  - the generated description, a fixed sentence built from the name and the lower-cased category, with "Produto" standing in for an empty category.

  It also keeps overlay state: whether the zoom overlay is open, whether the video overlay is open, and the selected image. When the modal is open on a product with a video, an auto-play activation is scheduled; it is cancelled as soon as either condition goes away.
- **The category page** (`src/pages/Categorias.tsx`) handles the result of one read of the product table. It counts the rows per distinct category label and turns the count table into one card per label. It also models the page's loading flag, the exact-match icon table, the cycling gradient palette and the URL a card navigates to.

Files:

- `wrappers.dfy`: module `Wrappers`. Holds `Option`.
- `product_detail.dfy`: module `ProductDetail`. Holds the product record, the pure view-model functions and their lemmas, and the class `ProductDetailModal` for the overlay state. Three client methods state what a mounted modal can and cannot do.
- `categories.dfy`: module `Categories`. Holds the counting loop over a map (`Tally`), the entries step (`Entries`), and the specification `ListsTally` with its lemmas. It also holds the lookups, the URL, and the class `CategoriesPage` for the page state.

Two behaviours of the code that a reader may not expect:

- The auto-play effect depends on the open flag and on the product's video URL, not on the whole product. So a new product with the same video URL does not cancel a pending activation (`ProductDetailModal.Rerender`).
- Closing the video overlay does not cancel a pending activation. Closing the main modal does not close a video overlay that is already open: the overlays are siblings of the dialog, not children of it.

## Model

| member | source | states |
|---|---|---|
| `ProductDetail.KeepNonEmpty` | src/components/ProductDetailModal.tsx:54 | Filtering by truthiness keeps only non-empty strings, never lengthens the list, and keeps exactly the values that occur non-empty in the input |
| `ProductDetail.KeepNonEmptyIsOrderedFilter` | src/components/ProductDetailModal.tsx:53-55 | The filtered list is an order-preserving subsequence of the input and holds each non-empty value exactly as often as the input does |
| `ProductDetail.KeepNonEmptyUnique` | src/components/ProductDetailModal.tsx:53-55 | Any order-preserving subsequence holding every non-empty value as often as the input, and no empty value, equals the filter: order and multiplicities determine the image list |
| `ProductDetail.ProductImages` | src/components/ProductDetailModal.tsx:53-55 | The image list has length 0 to 5, holds no empty entry, and is exactly the non-empty image fields in declared order (subsequence of the five fields, the same multiplicities apart from "") |
| `ProductDetail.Contains` | src/components/ProductDetailModal.tsx:58 | The substring test behind `includes`: it can succeed only when the searched text is no longer than the string, it succeeds when the string starts with the text, and the empty text is always found |
| `ProductDetail.ContainsIffOccurs` | src/components/ProductDetailModal.tsx:58 | The substring test used by the price check succeeds exactly when the marker occurs at some position of the price |
| `ProductDetail.PrefixedPriceHasMarker` | src/components/ProductDetailModal.tsx:61 | A price written with the "R$ " prefix contains "R$" |
| `ProductDetail.FormatPrice` | src/components/ProductDetailModal.tsx:57-62 | Defined for every string. The result always contains "R$". It equals the input exactly when the input contains "R$", and is "R$ " followed by the input otherwise. The input is always a suffix of the result |
| `ProductDetail.FormatPriceIdempotent` | src/components/ProductDetailModal.tsx:57-62 | Formatting an already formatted price changes nothing |
| `ProductDetail.CategoryOrFallback` | src/components/ProductDetailModal.tsx:65 | The category used in the description is never empty: it is the product's category, or "Produto" when that is empty |
| `ProductDetail.Description` | src/components/ProductDetailModal.tsx:64-67 | The description starts with the product name followed by " é um " and ends with the fixed sentence |
| `ProductDetail.DescriptionRoundTrip` | src/components/ProductDetailModal.tsx:64-66 | Reading back the part between the name prefix and the fixed sentence gives exactly the lower-cased category, and the lower-cased "Produto" when the category is empty |
| `ProductDetail.VideoOffered` | src/components/ProductDetailModal.tsx:45 | The condition of the auto-play effect, which also guards the play button (line 134): it holds exactly when the modal is open and the video URL is non-empty |
| `ProductDetail.ProductDetailModal.constructor` | src/components/ProductDetailModal.tsx:39-51 | On mount both overlays are closed and the selected index is 0. An activation is pending exactly when the modal is open and the product has a video |
| `ProductDetail.ProductDetailModal.Rerender` | src/components/ProductDetailModal.tsx:44-51 | When the open flag or the video URL changes, the pending activation is cancelled and rescheduled only if the new props offer a video. Otherwise it is kept. The overlay state is unchanged, and the invariant "pending only while open with a video" is kept |
| `ProductDetail.ProductDetailModal.Unmount` | src/components/ProductDetailModal.tsx:49 | The effect's cleanup cancels the pending activation and changes nothing else |
| `ProductDetail.ProductDetailModal.AutoPlayTimerFires` | src/components/ProductDetailModal.tsx:46-48 | When the delay elapses, the video overlay opens exactly if an activation was pending, and the activation is spent. The overlay can only open here while the modal is open on a product with a video |
| `ProductDetail.ProductDetailModal.ImageClick` | src/components/ProductDetailModal.tsx:69-72 | Clicking an image sets the selected index to the clicked one and opens the zoom overlay. The video overlay and the pending activation are unchanged |
| `ProductDetail.ProductDetailModal.CloseZoom` | src/components/ProductDetailModal.tsx:251 | The zoom overlay's close callback closes it and changes nothing else |
| `ProductDetail.ProductDetailModal.CloseVideo` | src/components/ProductDetailModal.tsx:260 | The video overlay's close callback closes it and changes nothing else; a pending activation is not cancelled |
| `ProductDetail.ProductDetailModal.PlayClick` | src/components/ProductDetailModal.tsx:134-141 | The play button opens the video overlay. It exists only in the open modal of a product with a video; otherwise nothing changes |
| `ProductDetail.ProductDetailModal.Dispatch` | src/components/ProductDetailModal.tsx:46-260 | Dispatches the timer callback (lines 46-48), the image clicks (119, 150), the play button (136) and the two close callbacks (251, 260). No user or timer event changes the props or schedules a new activation. The video overlay opens only while the modal is open on a product with a video |
| `ProductDetail.NoVideoNeverOpensVideo` | src/components/ProductDetailModal.tsx:44-51 | For a product without a video, the video overlay never opens, after any sequence of timer firings and clicks |
| `ProductDetail.ClosedBeforeDelayNeverOpensVideo` | src/components/ProductDetailModal.tsx:44-51 | If the modal is closed before the delay elapses, the video overlay never opens, after any sequence of timer firings and clicks |
| `ProductDetail.OpenWithVideoAutoPlays` | src/components/ProductDetailModal.tsx:44-51 | If the modal is open on a product with a video and the delay elapses, the video overlay is open and the zoom overlay is not |
| `Categories.RowsOf` | src/pages/Categorias.tsx:34 | The rows to count: a null payload gives no rows, a present payload gives its rows unchanged |
| `Categories.Tally` | src/pages/Categorias.tsx:34-38 | The count table has an entry for exactly the labels that occur in the rows. Each entry is the number of rows carrying that label, so every entry is at least 1 |
| `Categories.Entries` | src/pages/Categorias.tsx:40-43 | One card per table entry, in any order. The labels are distinct and are exactly the table's keys, and each card carries its label's count |
| `Categories.ListsTallySum` | src/pages/Categorias.tsx:34-43 | On a correct card list the counts add up to the number of fetched rows |
| `Categories.ListsTallyContents` | src/pages/Categorias.tsx:34-43 | Whatever the order of the cards, they hold exactly the (label, count) pairs the rows determine. There is one card per distinct label, every count is at least 1, and the counts sum to the number of rows |
| `Categories.TallyOfTwoLabels` | src/pages/Categorias.tsx:35-36 | Counting ["A","A","B"] gives exactly two cards, A with 2 and B with 1 |
| `Categories.TallyIsCaseSensitive` | src/pages/Categorias.tsx:35-36 | Grouping is by exact string equality: "Moda" and "moda" give two cards with count 1 each |
| `Categories.BuildCategoryStats` | src/pages/Categorias.tsx:34-43 | Counting then listing the entries gives a correct card list for the rows, whose counts sum to the number of rows |
| `Categories.CategoryIcon` | src/pages/Categorias.tsx:57-66 | A label gets the generic shopping-bag icon exactly when it is not one of the five listed labels; a listed label gets its own icon |
| `Categories.CategoryIconTable` | src/pages/Categorias.tsx:58-65 | Each of the five listed labels maps to its icon. A label differing only in letter case falls back to the shopping bag |
| `Categories.CategoryGradient` | src/pages/Categorias.tsx:68-80 | The card at position i gets palette entry i mod 8, so every card's gradient is one of the eight palette entries |
| `Categories.GradientPeriodic` | src/pages/Categorias.tsx:79 | Positions i and i+8 get the same gradient |
| `Categories.NeighbouringGradientsDiffer` | src/pages/Categorias.tsx:69-79 | Adjacent positions never get the same gradient |
| `Categories.CategoryUrl` | src/pages/Categorias.tsx:53-55 | The navigation URL starts with "/categoria-lista?categoria=" and ends with "&tipo=categoria" |
| `Categories.CategoryUrlRoundTrip` | src/pages/Categorias.tsx:54 | The part of the URL between the route and the type parameter is exactly the encoded label |
| `Categories.CategoryUrlInjective` | src/pages/Categorias.tsx:54 | With an injective encoder, different labels navigate to different URLs |
| `Categories.CategoriesPage.constructor` | src/pages/Categorias.tsx:16-17 | On mount the page has no cards and is loading |
| `Categories.CategoriesPage.FetchCategories` | src/pages/Categorias.tsx:24-51 | Loading ends on every outcome. On a query error the cards are unchanged. On success the cards are a correct card list for the rows (a null payload counts as no rows) and their counts sum to the number of rows. The page invariant is kept: no cards while loading, distinct labels, positive counts |
| `Categories.CategoriesPage.HandleCategoryClick` | src/pages/Categorias.tsx:53-55 | One handler run appends exactly one navigation, to the URL built from the label |
| `Categories.FailedFetchShowsNoCards` | src/pages/Categorias.tsx:24-51 | A mount whose query fails ends with no cards and not loading |

## Left out

- The database query: the page receives its outcome as a `QueryResult` value, either an error or a possibly-null list of labels. The table name, the projection and the non-null filter are not modelled.
- The runtime's `toLowerCase` and `encodeURIComponent` are passed in as function parameters. Their Unicode behaviour is not modelled.
- Timer delays and the event loop are reduced to one pending flag, and the 500 ms delay is not modelled. A firing is a method call the caller chooses when to make.
- Opening the purchase link in a new browser tab has no state to model. The `console.error` logging is left out.
- The JSX rendering is left out. This covers the dialog, carousel, tabs and usage panel, the skeleton shown while loading, the icon components and all styling. The zoom and video overlay components are opaque collaborators: only their open flags and close callbacks are modelled.
- Event propagation in the DOM is not modelled. `HandleCategoryClick` stands for one handler run, and the button's handler stops the event so that the card's handler does not also run.
- Inherited property names of a plain JavaScript object are not modelled. In the source, labels such as "constructor", "toString" or "__proto__" would hit inherited members of the count accumulator and of the icon table. The model treats both as exact-key maps.
- `Object.entries` lists entries in an order the runtime picks: integer-like keys first, then insertion order. `Entries` may produce any order, and the properties are stated up to order.
- Image fields that are null or undefined at run time are not modelled. The fields are strings, and only the empty string counts as falsy.
- Counts are unbounded naturals. JavaScript numbers would lose precision only past 2^53 rows.
- `Categories.CategoryGradient`: takes a non-negative index, since callers pass card positions. JavaScript's `%` on a negative index, which would give no palette entry, is not modelled.
- `ProductDetail.ProductDetailModal.Dispatch`: its contract only summarises its five cases. The exact new state of each case is stated by the method it calls.
