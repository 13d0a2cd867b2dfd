# ISAROMAS storefront core, in Dafny

This project models the core logic of the ISAROMAS storefront, a small Next.js shop for candles and aromas.
Customers browse a catalog, fill a cart and send the order as a prefilled messaging-app text. The model covers:

- **Cart engine** (`cart.dfy`, context/CartContext.tsx). The cart is a list of lines keyed by product id and variant, plus the open/closed flag of the cart drawer.
  - `CartEngine` is a class with the fields `items: seq<CartItem>` and `isCartOpen: bool`. The methods `AddToCart`, `RemoveFromCart` and `UpdateQuantity` are each proved against a specification function on the list (`WithAdded`, `WithoutLine`, `WithUpdate`). `ClearCart` and `ToggleCart` state their new fields directly. `RemoveFromCart` and `UpdateQuantity` keep the `Valid()` invariant (unique keys, positive quantities); `AddToCart` keeps it when it adds a positive amount; `Hydrate` keeps it when the loaded list is well formed.
  - The lemmas prove the merge and append cases of `addToCart`, exact removal and exact update, the totals, and that keys stay unique and quantities positive from the empty cart on, provided every add is positive.
  - The `reduce` folds for `totalItems` and `totalPrice` are proved equal to recursive sums.
- **Cart message** (`whatsapp.dfy`, utils/whatsapp.ts). `GenerateCartMessage` is the source's `+=` loop, proved equal to `CartMessage`. When product names, variant values and formatted amounts hold no newline, the layout of that message is proved line by line: the greeting, a blank line, one bullet per item in item order, then the total.
- **Checkout drawer** (`checkout.dfy`, components/CheckoutDrawer.tsx). Covers:
  - the customer form and its change handler, and the condition that enables the send button;
  - `generateWhatsAppMessage`, an imperative loop proved equal to `OrderSummary`. For every input the summary is proved to be its lines joined with newlines. When names, variant values, formatted amounts and form fields hold no newline, the line layout itself is proved;
  - the `handleCheckout` guard;
  - the "−", "+" and "Eliminar" buttons, which go through the cart engine.
- **Catalog** (`catalog.dfy`, app/catalogo/page.tsx and pages/catalogo.tsx). Covers:
  - the search and category filter: a case-insensitive substring match on name or description, plus an optional category;
  - the distinct categories, in order of first appearance;
  - the product count label;
  - how the page that normalises its products relates to the page that uses the raw catalog data.
- **Product normalisation** (`product.dfy`, types/product.ts). `imageFit` is clamped to "contain", "cover" or absent.
- **FAQ accordion** (`faq.dfy`, components/FAQ.tsx). A class with the single field `openItem`, updated by `ToggleItem`.

Support modules:

- `option.dfy`: the `Option` type.
- `seqs.dfy`: order-preserving subsequences.
- `text.dfy`: decimal rendering, line splitting, `join`, `toLowerCase`, `includes`.

Modelling choices:

- **Integers.** JavaScript numbers are modelled as mathematical integers.
- **Price formatters.** `formatPrice` and `toLocaleString` are function parameters of type `int -> string`, so every property holds for any formatter.
- **Truthiness.** JavaScript truthiness is written out explicitly:
  - `if (item.variant)` is `variant.Some?`.
  - `.filter(Boolean)` drops absent and empty values.
  - `if (formData.notes)` is `notes != ""`.
  - `selectedCategory ? … : true` lets both `null` and `""` through.
  - `if (savedCart)` requires a present, non-empty value.
- **Variant equality.** The `JSON.stringify` comparison of variants is modelled as datatype equality.

Behaviour of the code worth noting:

- The cart message greets "ISAROMA!" (utils/whatsapp.ts line 8), while the checkout summary greets "ISAROMAS!" (components/CheckoutDrawer.tsx).
- The total line of the cart message is written `*Total: …*`.
- A saved cart that fails to parse leaves `items` as they are; nothing resets them. At mount they are empty, so the cart starts empty either way.
- `addToCart` does not check its quantity, so "quantities are positive" holds only for callers that add positive amounts.

## Model

| member | source | states |
|---|---|---|
| Products.NormalizeProduct | types/product.ts:24-29 | the normalised `imageFit` is always "contain", "cover" or absent |
| Products.NormalizeFit | types/product.ts:27 | "contain" and "cover" are kept unchanged; any other value becomes absent |
| Products.NormalizeKeepsFields | types/product.ts:26 | every field other than `imageFit` is copied unchanged |
| Products.NormalizeIdempotent | types/product.ts:24-29 | normalising twice gives the same product as normalising once |
| Cart.FindLine | context/CartContext.tsx:58-61 | the result is -1 exactly when no line has the (id, variant) key; otherwise it is the first line with that key |
| Cart.WithoutLine | context/CartContext.tsx:74-78 | the result holds exactly the lines whose key differs, as an order-preserving subsequence of the input |
| Cart.WithoutLineCounts | context/CartContext.tsx:74-78 | removal drops every copy of the key's line and keeps each other line exactly as many times as before |
| Cart.ReduceQuantitiesIsSum | context/CartContext.tsx:97 | the left fold of `reduce` over quantities equals its start value plus the recursive sum |
| Cart.ReduceLinePricesIsSum | context/CartContext.tsx:98 | the left fold of `reduce` over price × quantity equals its start value plus the recursive sum |
| Cart.TotalItems | context/CartContext.tsx:97 | `totalItems` equals the sum of the quantities |
| Cart.TotalPrice | context/CartContext.tsx:98 | `totalPrice` equals the sum of price × quantity |
| Cart.SumsAppend | context/CartContext.tsx:97-98 | both totals split over concatenation of line lists |
| Cart.SumsRemoveAt | context/CartContext.tsx:97-98 | deleting one line lowers each total by that line's contribution |
| Cart.SumsUpdateAt | context/CartContext.tsx:97-98 | replacing one line changes each total by the difference of the two lines |
| Cart.TotalItemsBound | context/CartContext.tsx:97 | with positive quantities, `totalItems` is at least the number of lines and is 0 exactly for the empty cart |
| Cart.TotalPriceNonNegative | context/CartContext.tsx:98 | with positive quantities and non-negative prices, `totalPrice` is non-negative |
| Cart.AddMerges | context/CartContext.tsx:58-66 | when a line with the same key exists, that line's quantity grows by `quantity` and keeps its stored product, the length is unchanged and every other line is unchanged |
| Cart.AddAppends | context/CartContext.tsx:63-69 | when no line has the key, the new line `{product, quantity, variant}` is appended and earlier lines are unchanged |
| Cart.AddTotals | context/CartContext.tsx:56-70 | addToCart raises `totalItems` by `quantity` and `totalPrice` by the line's price × `quantity` |
| Cart.AddWellFormed | context/CartContext.tsx:56-70 | addToCart keeps keys unique, and keeps quantities positive when it adds a positive amount |
| Cart.RemoveAbsent | context/CartContext.tsx:74-78 | removeFromCart is a no-op when no line has the key |
| Cart.RemoveOne | context/CartContext.tsx:74-78 | with unique keys, removing the key of line i yields the list without line i, the others in order |
| Cart.RemoveTotals | context/CartContext.tsx:74-78 | removing line i shortens the list by one and lowers each total by that line's contribution |
| Cart.RemoveWellFormed | context/CartContext.tsx:74-78 | the filter keeps keys unique and quantities positive |
| Cart.UpdateNonPositiveRemoves | context/CartContext.tsx:80-84 | updateQuantity with quantity ≤ 0 gives the same list as removeFromCart: no line with the key remains and the rest keep their order |
| Cart.UpdateSets | context/CartContext.tsx:85-90 | a positive update sets matching lines to the absolute quantity (not a delta) and leaves the length and all other lines unchanged |
| Cart.UpdateOne | context/CartContext.tsx:85-90 | with unique keys, a positive update of line i's key changes only line i's quantity |
| Cart.UpdateTotals | context/CartContext.tsx:85-90 | a positive update of line i changes each total by that line's difference |
| Cart.UpdateWellFormed | context/CartContext.tsx:80-91 | updateQuantity keeps keys unique and quantities positive |
| Cart.ReplayWellFormed | context/CartContext.tsx:36-95 | from the empty cart, any sequence of add/remove/update/clear/toggle calls keeps keys unique and quantities ≥ 1, provided every add uses a positive amount |
| Cart.AddTwiceMerges | context/CartContext.tsx:58-66 | adding the same product and variant twice yields one line of quantity 2 |
| Cart.DifferentVariantsStaySeparate | context/CartContext.tsx:58-69 | adding one product with two different variants yields two lines of quantity 1 |
| Cart.CandleScenario | context/CartContext.tsx:56-98 | the "vela-1" example gives the expected line counts and totals: 2/2000, then 3/3000 on one line, then 4/4000 on two lines, then back to 3/3000 |
| Cart.CartEngine.constructor | context/CartContext.tsx:36-37 | the cart starts empty and closed |
| Cart.CartEngine.Hydrate | context/CartContext.tsx:40-49 | a present, non-empty saved value that parses replaces the items; a missing, empty or unparseable value leaves them; the open flag is untouched; the cart is valid afterwards when the loaded list is well formed, or when it was valid and nothing was loaded |
| Cart.CartEngine.AddToCart | context/CartContext.tsx:56-72 | the new items are `WithAdded` of the old ones, the cart is always left open, and the invariant is kept for positive amounts |
| Cart.CartEngine.RemoveFromCart | context/CartContext.tsx:74-78 | the new items are the old ones without the key's lines; the open flag and the invariant are kept |
| Cart.CartEngine.UpdateQuantity | context/CartContext.tsx:80-91 | the new items are `WithUpdate` of the old ones; the open flag and the invariant are kept |
| Cart.CartEngine.ClearCart | context/CartContext.tsx:93 | the items become empty and the open flag is unchanged |
| Cart.CartEngine.ToggleCart | context/CartContext.tsx:95 | the open flag is negated and the items are unchanged |
| Cart.CartEngine.ItemCount | context/CartContext.tsx:97 | the item count is the sum of the current quantities |
| Cart.CartEngine.PriceTotal | context/CartContext.tsx:98 | the price total is the sum of price × quantity over the current lines |
| Text.NatToDecimal | utils/whatsapp.ts:11 | `${quantity}` is a non-empty string of digits without a leading zero |
| Text.DecimalRoundTrip | utils/whatsapp.ts:11 | reading back the rendered digits gives the quantity |
| Text.ToLowerIdempotent | app/catalogo/page.tsx:37 | lower-casing twice is lower-casing once |
| Text.Includes | app/catalogo/page.tsx:37 | `includes` holds exactly when the term occurs at some position of the text |
| Text.IncludesEmpty | app/catalogo/page.tsx:37 | the empty term occurs in every text |
| WhatsApp.DetailValues | utils/whatsapp.ts:13-17 | the details are the non-empty values among aroma, color and size (at most three), in that order |
| WhatsApp.PresentValues | utils/whatsapp.ts:13-16 | the array literal without its undefined entries: aroma first, at most three values |
| WhatsApp.DetailValuesDropEmpty | utils/whatsapp.ts:13-17 | `filter(Boolean)` keeps the present values in order, each non-empty value as many times as the variant has it, and no empty one |
| WhatsApp.DetailValuesKeepRepeats | utils/whatsapp.ts:13-17 | a value repeated across aroma and color is listed once per field |
| WhatsApp.ItemTexts | utils/whatsapp.ts:10-21 | there is one bullet text per item |
| WhatsApp.ItemLinesSnoc | utils/whatsapp.ts:10-21 | one more item appends exactly its bullet line and a newline |
| WhatsApp.GenerateCartMessage | utils/whatsapp.ts:7-26 | the loop builds exactly `CartMessage`: the greeting, a blank line, the item lines in order, then the total |
| WhatsApp.GreetingOneLine | utils/whatsapp.ts:8 | the greeting is a single line |
| WhatsApp.ItemTextOneLine | utils/whatsapp.ts:11-20 | a bullet text is one line when the item's name, variant values and formatted price are |
| WhatsApp.ItemLinesSplit | utils/whatsapp.ts:10-21 | the item lines split into exactly the bullet texts, one per item, in order |
| WhatsApp.CartMessageLines | utils/whatsapp.ts:8-25 | when names, variant values and formatted amounts hold no newline, the message's lines are the greeting, a blank line, one bullet per item in item order, a blank line, the total line and two empty lines from the final two newlines |
| WhatsApp.CartMessageStart | utils/whatsapp.ts:8 | the message starts with the greeting followed by two newlines |
| WhatsApp.CartMessageEnd | utils/whatsapp.ts:23-25 | the message ends with a newline, the total line built from `totalPrice` and two newlines, not percent-encoded |
| WhatsApp.VariantShownIff | utils/whatsapp.ts:12-19 | when neither the name nor the formatted price contains "(", a "(" appears in the bullet exactly when the line has a variant |
| WhatsApp.ParenFromNameAlone | utils/whatsapp.ts:11 | a product name containing "(" puts one in a bullet without a variant, which is why `VariantShownIff` requires names and prices without one |
| WhatsApp.ItemTextParts | utils/whatsapp.ts:11-20 | every bullet is the bare bullet (quantity, name, price) with the variant part inserted after the name; that part is empty exactly without a variant and otherwise is " (" + the joined details + ")" |
| WhatsApp.GenderNeverShown | utils/whatsapp.ts:13-17 | the variant's gender never affects the bullet text |
| Checkout.WithField | components/CheckoutDrawer.tsx:17-20 | the named field gets the new value and every other field keeps its own |
| Checkout.SubmitEnabledIff | components/CheckoutDrawer.tsx:191 | the send button is enabled exactly when every field but the notes is non-empty |
| Checkout.NotesOptional | components/CheckoutDrawer.tsx:191 | editing the notes never changes whether the button is enabled |
| Checkout.GenerateWhatsAppMessage | components/CheckoutDrawer.tsx:22-55 | the `+=` steps and the item loop build exactly `OrderSummary`, before percent-encoding |
| Checkout.HeadShape | components/CheckoutDrawer.tsx:23-38 | the greeting, the item lines and the total form the lines greeting, blank, items, blank, total, blank |
| Checkout.CustomerShape | components/CheckoutDrawer.tsx:40-44 | the customer block is the header, name, phone and address lines in that order, then the notes line only when there are notes |
| Checkout.PaymentShape | components/CheckoutDrawer.tsx:46-51 | the payment block and the shipping warning form their lines in the source's order |
| Checkout.OrderSummaryUnlines | components/CheckoutDrawer.tsx:23-52 | the summary is its item lines and footer lines, each followed by a newline, then the final warning with no newline |
| Checkout.SummaryLinesOneLine | components/CheckoutDrawer.tsx:23-52 | with single-line inputs no summary line holds a newline |
| Checkout.FooterOneLine | components/CheckoutDrawer.tsx:38-51 | with single-line inputs no footer line holds a newline |
| Checkout.OrderSummaryLines | components/CheckoutDrawer.tsx:23-52 | when names, variant values, formatted amounts and form fields hold no newline, the summary's lines are the greeting, a blank line, the item bullets in order (same format as the cart message), the total, the customer block after the total, the payment block and the two warnings |
| Checkout.NotesLineIff | components/CheckoutDrawer.tsx:44 | the "Notas:" line is in the summary exactly when the notes are non-empty |
| Checkout.CheckoutDrawer.constructor | components/CheckoutDrawer.tsx:10-15 | the form starts with four empty fields |
| Checkout.CheckoutDrawer.HandleInputChange | components/CheckoutDrawer.tsx:17-20 | only the field named by the input changes |
| Checkout.CheckoutDrawer.HandleCheckout | components/CheckoutDrawer.tsx:57-67 | nothing is sent for an empty cart; otherwise the summary of the current items, total and form is sent, and the cart is neither cleared nor closed |
| Checkout.CheckoutDrawer.DecreaseQuantity | components/CheckoutDrawer.tsx:121 | the "−" button updates line i to its quantity minus one; on a valid cart it keeps the cart valid, removes exactly line i at quantity 1 and otherwise lowers only line i by one |
| Checkout.CheckoutDrawer.IncreaseQuantity | components/CheckoutDrawer.tsx:127 | the "+" button updates line i to its quantity plus one; on a valid cart it keeps the cart valid and raises only line i |
| Checkout.CheckoutDrawer.RemoveItem | components/CheckoutDrawer.tsx:134 | the "Eliminar" button removes line i's key; on a valid cart it keeps the cart valid and removes exactly line i |
| Checkout.DecreaseAtOneRemoves | components/CheckoutDrawer.tsx:121 | at quantity 1 the "−" button removes exactly that line |
| Checkout.DecreaseAboveOne | components/CheckoutDrawer.tsx:121 | above quantity 1 the "−" button lowers only that line by one |
| Checkout.IncreaseByOne | components/CheckoutDrawer.tsx:127 | the "+" button raises only that line by one |
| Catalog.FilterProducts | pages/catalogo.tsx:24-32 | a product is kept exactly when its name or description contains the term case-insensitively and the category test passes; the result is an order-preserving subsequence of the products (the same filter as app/catalogo/page.tsx lines 35-43) |
| Catalog.FilterCounts | pages/catalogo.tsx:24-32 | each kept product is shown as many times as the catalog lists it, and any other product never |
| Catalog.SearchIgnoresCase | app/catalogo/page.tsx:37-38 | lower-casing the term, or the product's name and description, changes no search verdict |
| Catalog.FilterIgnoresCase | app/catalogo/page.tsx:35-43 | a term typed in any case shows the same list as its lower-cased form |
| Catalog.SelectedCategoryOnly | app/catalogo/page.tsx:39 | with a category selected, every product shown has that category |
| Catalog.NoCategoryAllPass | pages/catalogo.tsx:28 | with no category selected, a product is kept exactly when it matches the search |
| Catalog.CategoryNarrows | app/catalogo/page.tsx:35-43 | the list with a category selected is an order-preserving subsequence of the list with none |
| Catalog.EmptyTermMatches | app/catalogo/page.tsx:37 | the empty search term matches every product |
| Catalog.ClearedFiltersShowAll | app/catalogo/page.tsx:161 | after "Limpiar filtros" (empty term, no category) the whole catalog is shown, in order |
| Catalog.CountLabelShowsLength | pages/catalogo.tsx:57 | the count shown is the decimal rendering of the filtered list's length |
| Catalog.SetAddAllKeeps | app/catalogo/page.tsx:30 | adding values to a `Set` keeps its earlier values in place and adds exactly the new ones |
| Catalog.SetAddAllNoDuplicates | app/catalogo/page.tsx:30 | a `Set` never holds a value twice |
| Catalog.SetAddAllOrder | app/catalogo/page.tsx:30-31 | the values a `Set` gains come out in order of first occurrence |
| Catalog.CategoriesDistinctInOrder | app/catalogo/page.tsx:29-32 | the categories list each product category exactly once, with no duplicates, in order of first appearance (the same computation as pages/catalogo.tsx lines 18-21) |
| Catalog.FilterCommutesWithNormalize | app/catalogo/page.tsx:26-43 | filtering the normalised products gives the normalised versions of the raw filtered products |
| Catalog.CategoriesIgnoreNormalize | app/catalogo/page.tsx:26-32 | both pages derive the same categories |
| Faq.Toggled | components/FAQ.tsx:44-46 | toggling the open item closes it; toggling any other item opens that one |
| Faq.OpenIsLastClicked | components/FAQ.tsx:42-46 | after any series of clicks from all-closed, the open item is none or the last one clicked |
| Faq.AtMostOneOpen | components/FAQ.tsx:42 | at most one item is open at a time |
| Faq.ToggleTwiceCloses | components/FAQ.tsx:45 | from all-closed, toggling the same item twice closes it again |
| Faq.FaqAccordion.constructor | components/FAQ.tsx:42 | initially no item is open |
| Faq.FaqAccordion.ToggleItem | components/FAQ.tsx:44-46 | the new open item is `Toggled` of the old one |
| Faq.FaqAccordion.Expanded | components/FAQ.tsx:72 | an item is drawn expanded exactly when it is the open one |

## Left out

- Saving the cart to `localStorage` and the `JSON.stringify`/`JSON.parse` serialisation (context/CartContext.tsx:41, 44, 51-54) are browser I/O. Loading is modelled with a `parse` parameter; a value that parses but is not a list of lines is not modelled.
- `encodeURIComponent`, the `wa.me` link and `window.open` (components/CheckoutDrawer.tsx:54, 61-62) are library calls and navigation. The messages are modelled up to, and not including, percent-encoding.
- `generateQueryMessage` (utils/whatsapp.ts:3-5) is left out. It is the percent-encoding of a fixed text and holds no logic of its own.
- `formatPrice` is not part of this model, and `toLocaleString` is a library call. Both are parameters of type `int -> string`.
- `toLowerCase` beyond Basic Latin and Latin-1 is left out. Other scripts and special foldings (such as `İ`) are not modelled, and the search treats those characters as already lower-case.
- Prices and quantities are integers. Floating-point values and their rendering are not modelled.
- Cart.CartEngine.AddToCart: the source increments the line object in place on a shallow copy (context/CartContext.tsx:64-65), so the old array sees the change too. The model updates one index of a fresh sequence, so it does not capture that aliasing, including a double increment if React runs the updater twice.
- Variant comparison through `JSON.stringify` depends on key order and drops absent fields. Datatype equality stands in for it, assuming variants are always built with the same key order.
- An `imageFit` that is not a string (a number, say) is outside the `Option<string>` type.
- The `useCart` guard that throws outside the provider, the mobile filter drawer, scroll animations and the other presentational components are rendering only.
- The drawer's own on-screen rendering of variant details (joined with " • ") is display only and is not modelled.
- Cart.ReplayWellFormed: quantities stay positive only when every add uses a positive amount. `addToCart` itself does not check its argument.
- Checkout.OrderSummaryLines: the notes field is a multi-line text area, so notes (or any other field) spanning several lines are ordinary input. The summary then has more lines than this lemma lists. For such input only Checkout.OrderSummaryUnlines describes the text: its lines, each followed by a newline, with every field written verbatim.
- Cart.SameLine: a product without variants is added with `null` by one product page (pages/productos/[id].tsx:18, 32) and with `undefined` by the other (app/productos/[id]/page.tsx:61). `JSON.stringify` gives `"null"` for the first and `undefined` for the second, so the source keeps them as different keys. The model maps both to `None` and so does not capture two lines for the same product added from both pages.
