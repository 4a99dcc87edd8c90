# Storefront model

A Dafny model of the logic of a small T-shirt storefront (a Next.js app whose
catalog and orders live in two Google Sheets):

- **the cart** on the home page (`app/page.tsx`): lines keyed by product id
  and size, merged on add, removed or re-quantified by key, summed for the
  total and for the header badge, and cleared when an order completes;
- **the products endpoint** (`app/api/products/route.ts`): the decode of the
  Products sheet into the catalog (active filter, per-cell defaults, the sizes
  list), the seven-cell row that POST and PUT write, the new-id rule, the
  first-match id lookup, and the soft delete that writes `"FALSE"` into
  column G;
- **the orders endpoint** (`app/api/orders/route.ts`): the eight-cell order
  row with its `"; "`-joined items summary and `$x.xx` total, the decode of
  stored rows into flat string records, and the outcomes of POST with and
  without a configured sheet;
- **the checkout form** (`components/CheckoutForm.tsx`): the field updates,
  the required-field check, the order assembled from the cart and its total,
  and the `isSubmitting` / `error` / `success` transitions.

Modules follow the source files: `Types` (the record types of
`types/index.ts`), `JsText` (the JavaScript string and number built-ins the
core relies on: `String(n)`, `toFixed(2)` on cents, `parseFloat`, `join`,
`split`, `trim`, `row[i] || ""`), `HomePage`, `ProductsRoute`, `OrdersRoute`
and `Checkout`.

State the source updates in place is a class: `HomePage.Storefront` (the
page's `cart`, `isCartOpen`, `isCheckoutOpen`), `ProductsRoute.ProductSheet`
(the Products sheet as a sequence of rows of text cells, row 0 the header)
and `Checkout.CheckoutForm` (`formData`, `isSubmitting`, `error`,
`success`). Each handler's new state is stated by a pure function (`AddLine`,
`SetQuantity`, `RemoveLine`, `DecodeCatalog`, `EncodeProductRow`,
`OverwriteFront`, `WriteCell`, `SetField`, `BuildOrder`), and the
properties the code promises are lemmas about those functions.

Prices and totals are integer cents. `toFixed(2)` of an amount is
`JsText.FormatCents`, and `parseFloat` of a price cell is `JsText.ParseCents`
(an optional `-`, digits, and optionally `.` with one or two digits), with
anything else read as "not a number", which the products decode turns into 0.

The Sheets calls become reads and writes of an in-memory table. Whether the
credentials are configured and the calls succeed is an input:
`ProductSheet.reachable` for the products endpoint and `OrdersRoute.Gateway`
for the orders endpoint. `Date.now()`, `new Date().toISOString()` and
`toLocaleString()` are inputs too: the timestamp and date strings.

Some edge cases the code has, as modelled:
- The `Products!A:A` read omits empty trailing cells, so an empty first cell
  never equals an id. PUT with id `""` answers 404.
- `findIndex` runs over the whole id column, header included.
- A merged cart line keeps the price snapshot taken when it was first added,
  so one more add raises the total by that snapshot's price, not by the price
  of the product passed in (`HomePage.UnitPrice`).
- PUT makes the row active whatever its flag was.
- The order total is the client's number. Nothing recomputes it from the
  items.

## Model

| member | source | states |
|---|---|---|
| HomePage.RemoveLine | app/page.tsx:98-100 | the filtered cart is no longer than the cart |
| HomePage.Matches | app/page.tsx:67 | no contract of its own: the cart's key test on product id and size; used by HasLine, LineIndex, AddLine, SetQuantity and RemoveLine, and RemoveLineMembers and OnlyLine state what it selects |
| HomePage.HasLine | app/page.tsx:70 | no contract of its own: the `if (existingItem)` test, some line is for the key; AddLine's ensures, LineIndex, AddToExistingLine and AddNewLine state its two branches |
| HomePage.RemoveLineMembers | app/page.tsx:99 | the filtered cart holds exactly the lines of the cart that are not for the key |
| HomePage.LineIndex | app/page.tsx:66-68 | the position `cart.find` stops at: the first line for the key, or the cart's length when there is none |
| HomePage.AddLine | app/page.tsx:65-80 | the cart keeps its length when the key already has a line and grows by one otherwise, and afterwards it has a line for the key; AddToExistingLine and AddNewLine give the full result |
| HomePage.UnitPrice | app/page.tsx:66-79 | with a line for the key, the price snapshot of that line; with none, the price of the product being added |
| HomePage.AddTimes | app/page.tsx:65-80 | no contract of its own: n successive adds of one key; AddRepeated states its result |
| HomePage.SetQuantity | app/page.tsx:84-95 | the cart never grows, and keeps its length for a non-zero quantity; SetZeroIsRemove, SetQuantityOfLine and SetQuantityAbsent give the full result |
| HomePage.TotalPrice | app/page.tsx:103 | no contract of its own: the `reduce` sum of price times quantity; TotalPriceAppend, TotalsOfSplit and Storefront.GetTotalPrice state its meaning |
| Types.LineTotal | app/page.tsx:103 | no contract of its own: price times quantity of one line, in cents; used by TotalPrice, Checkout.LineAmount and OrdersRoute.LineSegment, and OneMoreUnit, TotalsOfSplit and Checkout.AmountsReadBack state its meaning |
| HomePage.ItemCount | app/page.tsx:133 | no contract of its own: the `reduce` sum of quantities; ItemCountAppend, ItemCountAtLeastLines and Storefront.BadgeCount state its meaning |
| HomePage.ItemCountAtLeastLines | app/page.tsx:133 | in a well-formed cart the badge count is at least the number of lines |
| HomePage.OnlyLine | app/page.tsx:66-68 | in a well-formed cart no line other than a key's line is for that key |
| HomePage.AddToExistingLine | app/page.tsx:66-77 | in a well-formed cart, adding a key that has a line increments that line's quantity by 1 and leaves length, order and every other line unchanged |
| HomePage.AddNewLine | app/page.tsx:79 | adding a key with no line appends one line at the end, holding the product, quantity 1 and the size, and keeps the old lines as they were |
| HomePage.AddRepeated | app/page.tsx:65-80 | from a cart without the key, n adds give the old cart plus one line with quantity n |
| HomePage.TwoSizesTwoLines | app/page.tsx:65-80 | the same product added in two different sizes gives two new lines |
| HomePage.AddPreservesWellFormed | app/page.tsx:65-80 | adding keeps keys unique and quantities at least 1 |
| HomePage.RemoveAbsent | app/page.tsx:98-100 | removing a key with no line leaves the cart unchanged |
| HomePage.RemoveAppend | app/page.tsx:99 | the filter distributes over concatenation, so the kept lines stay in their order |
| HomePage.RemoveIdempotent | app/page.tsx:98-100 | removing twice is removing once |
| HomePage.RemoveOnlyLine | app/page.tsx:99 | when a line is the only one for its key, the filter drops just that line and keeps the rest in order |
| HomePage.RemoveExistingLine | app/page.tsx:98-100 | in a well-formed cart, removing a key that has a line drops exactly that line and keeps the others in order |
| HomePage.ConsWellFormed | app/page.tsx:99 | a line whose key no later line has can precede a well-formed cart and keep it well-formed |
| HomePage.RemovePreservesWellFormed | app/page.tsx:98-100 | removal keeps keys unique and quantities at least 1 |
| HomePage.SetZeroIsRemove | app/page.tsx:85-86 | `updateQuantity` with 0 gives the same cart as `removeFromCart` |
| HomePage.SetQuantityOfLine | app/page.tsx:88-94 | a non-zero quantity replaces the matching line's quantity and changes nothing else |
| HomePage.SetQuantityAbsent | app/page.tsx:84-95 | with no line for the key, `updateQuantity` leaves the cart unchanged, for any quantity |
| HomePage.SetQuantityPreservesWellFormed | app/page.tsx:84-95 | for any quantity at least 0 (what the cart's − and + buttons send), the invariant survives |
| HomePage.TotalPriceAppend | app/page.tsx:103 | the total of two carts joined is the sum of their totals |
| HomePage.ItemCountAppend | app/page.tsx:133 | the badge count of two carts joined is the sum of their counts |
| HomePage.TotalsOfSplit | app/page.tsx:102-104 | the total and the count are the parts before a line, the line, and the parts after it |
| HomePage.TotalsOfUpdate | app/page.tsx:102-104 | replacing one line changes the total and the count by the difference of the two lines |
| HomePage.BumpTotals | app/page.tsx:74 | one more unit on a line raises the total by that line's price and the count by 1 |
| HomePage.AddRaisesTotals | app/page.tsx:65-80 | one add raises the total by the unit price of the key's snapshot (or of the new product) and the badge count by 1 |
| HomePage.RemoveLowersTotal | app/page.tsx:98-104 | removing a line takes its price times quantity off the total |
| HomePage.TotalPriceExample | app/page.tsx:102-104 | two tees at 29.99 and one at 32.99 come to 92.97 |
| HomePage.Storefront.constructor | app/page.tsx:61-63 | the page starts with an empty cart and both panels closed |
| HomePage.Storefront.AddToCart | app/page.tsx:65-82 | the cart becomes `AddLine` of the old cart, the cart panel opens, and a well-formed cart stays well-formed |
| HomePage.Storefront.UpdateQuantity | app/page.tsx:84-96 | the cart becomes `SetQuantity` of the old cart, and stays well-formed for quantities at least 0 |
| HomePage.Storefront.RemoveFromCart | app/page.tsx:98-100 | the cart becomes `RemoveLine` of the old cart and stays well-formed |
| HomePage.Storefront.GetTotalPrice | app/page.tsx:102-104 | the `reduce` loop returns the sum of price times quantity over the lines, 0 for an empty cart |
| HomePage.Storefront.BadgeCount | app/page.tsx:131-135 | the badge is hidden exactly when the cart is empty and otherwise shows the sum of quantities |
| HomePage.Storefront.HandleCheckout | app/page.tsx:106-109 | the cart panel closes and the checkout form opens |
| HomePage.Storefront.HandleOrderComplete | app/page.tsx:111-114 | the cart is empty, with total and count 0, and the checkout form is closed |
| ProductsRoute.DecodeCatalog | app/api/products/route.ts:36-45 | the catalog has no more products than the sheet has rows |
| ProductsRoute.IsActive | app/api/products/route.ts:37 | no contract of its own: the seventh cell is "TRUE" or "true"; ActiveFlagExamples and CatalogMembership state its meaning |
| ProductsRoute.DecodePrice | app/api/products/route.ts:41 | no contract of its own: `parseFloat` of the third cell, 0 when that is not a number; UnreadablePriceIsZero and ProductRowRoundTrip state its meaning |
| ProductsRoute.DecodeSizes | app/api/products/route.ts:44 | the sizes list is empty exactly when the cell is empty or missing; SizesRoundTrip states the round trip |
| ProductsRoute.TrimAll | app/api/products/route.ts:44 | no contract of its own: `trim` applied to every piece of the split; used by DecodeSizes, and TrimSpacedParts and SizesRoundTrip state its meaning |
| ProductsRoute.DecodeProduct | app/api/products/route.ts:38-45 | no contract of its own: the per-cell defaults; ShortRowDefaults, ProductRowRoundTrip and SampleRowDecodes state its meaning |
| ProductsRoute.EncodeSizes | app/api/products/route.ts:133 | no contract of its own: `sizes.join(", ")`; SizesRoundTrip states that it decodes back |
| ProductsRoute.EncodeProductRow | app/api/products/route.ts:127-135 | the row has seven cells, starts with the id it was given and is active; ProductRowRoundTrip states that it decodes back |
| ProductsRoute.IdCell | app/api/products/route.ts:178 | no contract of its own: the first cell of a row, missing when the row is empty or that cell is "" (the read omits it); IdRowIndex and FindRow state the lookup built on it |
| ProductsRoute.Status | app/api/products/route.ts:226-281 | no contract of its own: the HTTP status of each answer; the ensures of ProductSheet.Post, Put and Delete state which status each handler answers |
| ProductsRoute.ProductSheet.DataRows | app/api/products/route.ts:30-34 | no contract of its own: the `Products!A2:G` read, the rows below the header; ProductSheet.Get states the catalog decoded from them |
| ProductsRoute.NewId | app/api/products/route.ts:124 | the new id is "1" when the id column returns 0 or 1 rows, otherwise `String` of the row count: a digit string that reads back as that count |
| ProductsRoute.IdColumnLength | app/api/products/route.ts:118-123 | the id-column read ends at the last row that has a non-empty first cell |
| ProductsRoute.IdRowIndex | app/api/products/route.ts:178 | the first row whose id cell equals the id, or the row count when there is none |
| ProductsRoute.FindRow | app/api/products/route.ts:178-180 | `findIndex` returns -1 exactly when no row's id cell equals the id, and otherwise the first row whose id cell does |
| ProductsRoute.OverwriteFront | app/api/products/route.ts:198-205 | a write over columns A to G replaces the first seven cells and keeps every later one |
| ProductsRoute.WriteCell | app/api/products/route.ts:257-264 | a one-cell write sets that cell, pads a short row with empty cells, and changes no other cell |
| ProductsRoute.CatalogAppend | app/api/products/route.ts:36-37 | the decode of two joined row lists is the join of their decodes: row order is kept |
| ProductsRoute.CatalogMembership | app/api/products/route.ts:36-45 | a product is in the catalog exactly when some active row decodes to it |
| ProductsRoute.CatalogReplaceRow | app/api/products/route.ts:36-45 | replacing one row splices that row's contribution into the catalog in place |
| ProductsRoute.ActiveFlagExamples | app/api/products/route.ts:37 | "TRUE" and "true" are active; "FALSE", "True", "" and a missing seventh cell are not |
| ProductsRoute.ShortRowDefaults | app/api/products/route.ts:37-44 | a short row decodes with "" for the missing id, name, description and image, [] for missing sizes, 0 for a missing price, and is not active |
| ProductsRoute.UnreadablePriceIsZero | app/api/products/route.ts:41 | a price cell that is not a number decodes to 0 |
| ProductsRoute.SizesRoundTrip | app/api/products/route.ts:44 | decoding the `", "`-joined sizes gives back any list of comma-free, trimmed labels other than [""] |
| ProductsRoute.ProductRowRoundTrip | app/api/products/route.ts:127-135 | the written row has seven cells, is active, and decodes to the product under the id it was given |
| ProductsRoute.SampleRowDecodes | app/api/products/route.ts:36-45 | a row for Classic White Tee at 29.99 in "S, M, L" decodes to that product with sizes S, M and L |
| ProductsRoute.CreateAppendsToCatalog | app/api/products/route.ts:127-145 | after POST's append below a header, the catalog is the old one plus the new product, under its new id, at the end |
| ProductsRoute.OverwriteDecodesAsWritten | app/api/products/route.ts:188-205 | a row whose columns A to G were rewritten decodes, and is active or not, exactly as the seven written cells are |
| ProductsRoute.UpdateReplacesInCatalog | app/api/products/route.ts:188-205 | PUT's write makes the row active and puts the updated product in that row's place in the catalog |
| ProductsRoute.SoftDeleteHidesRow | app/api/products/route.ts:256-264 | DELETE's write changes only column G, makes the row inactive and takes exactly that row's product out of the catalog |
| ProductsRoute.ProductSheet.constructor | app/api/products/route.ts:6-21 | the sheet holds the given rows and reachability |
| ProductsRoute.ProductSheet.Get | app/api/products/route.ts:24-108 | a readable sheet answers the decoded active data rows, and any failure answers the built-in catalog |
| ProductsRoute.ProductSheet.Post | app/api/products/route.ts:112-162 | on success the encoded row with the new id is appended and the product is answered under that id; on failure nothing changes; the status is 200 on success and 500 on failure |
| ProductsRoute.ProductSheet.Put | app/api/products/route.ts:166-223 | an unreadable sheet answers 500; an unknown id answers 404 and writes nothing; otherwise the status is 200, columns A to G of the first matching row are rewritten with the product and no other row changes |
| ProductsRoute.ProductSheet.Delete | app/api/products/route.ts:226-281 | a missing or empty id answers 400 before any lookup; an unknown id answers 404 and writes nothing; an unreadable sheet answers 500; otherwise the status is 200 and only cell G of the first matching row becomes "FALSE" |
| OrdersRoute.DecodeOrders | app/api/orders/route.ts:34-45 | every row becomes a record, with no filtering, in order and one for one |
| OrdersRoute.DecodeOrderRow | app/api/orders/route.ts:36-45 | no contract of its own: one row as an eight-field record; OrderRowRoundTrip and ShortOrderRowDefaults state its meaning |
| OrdersRoute.LineSegment | app/api/orders/route.ts:93-95 | no contract of its own: one line of the items summary; SegmentEndsWithLineTotal and NoSemicolonInSegment state its meaning |
| OrdersRoute.ItemsSummary | app/api/orders/route.ts:90-97 | no contract of its own: the segments joined with "; "; SummaryOneSegmentPerLine and SummaryAppend state its meaning |
| OrdersRoute.TotalCell | app/api/orders/route.ts:107 | no contract of its own: `$` and the total to two decimals; TotalCellReadsBack states its meaning |
| OrdersRoute.EncodeOrderRow | app/api/orders/route.ts:99-108 | the order row has eight cells; OrderRowRoundTrip states what each of them reads back as |
| OrdersRoute.ShortOrderRowDefaults | app/api/orders/route.ts:36-45 | a row with k < 8 cells decodes with "" in every one of the eight fields from position k on, the total always among them |
| OrdersRoute.ListedTotalIsStoredText | app/api/orders/route.ts:44 | a listed order's total is the stored cell's text |
| OrdersRoute.ListOrders | app/api/orders/route.ts:24-59 | a readable sheet answers the decoded rows, a failure answers 500 |
| OrdersRoute.Segments | app/api/orders/route.ts:90-96 | there is one segment per cart line |
| OrdersRoute.OrderRowRoundTrip | app/api/orders/route.ts:99-108 | the order row has eight cells, and the list decode reads back the order id, date, customer fields, items summary and total cell, in that order |
| OrdersRoute.TotalCellReadsBack | app/api/orders/route.ts:107 | the total cell is `$` followed by text that reads back as the order's total |
| OrdersRoute.TotalCellIgnoresItems | app/api/orders/route.ts:99-108 | changing the items changes the items cell only, never the total cell |
| OrdersRoute.TotalNotRecomputed | app/api/orders/route.ts:107 | an empty order claiming 5.00 is written with a total of "$5.00" although its items sum to 0 |
| OrdersRoute.SegmentEndsWithLineTotal | app/api/orders/route.ts:93-95 | each segment ends with `$` and the line's price times quantity to two decimals |
| OrdersRoute.SummaryAppend | app/api/orders/route.ts:90-97 | one more cart line appends "; " and its segment to the summary |
| OrdersRoute.NoSemicolonInDigits | app/api/orders/route.ts:93 | a digit string holds no ';' |
| OrdersRoute.NoSemicolonInAmount | app/api/orders/route.ts:93-95 | neither a quantity nor an amount holds a ';' |
| OrdersRoute.NoSemicolonInSegment | app/api/orders/route.ts:93-95 | a segment holds no ';' when the name and size hold none |
| OrdersRoute.SummaryOneSegmentPerLine | app/api/orders/route.ts:90-97 | split on ';', the summary gives one segment per cart line, in cart order |
| OrdersRoute.PostOrder | app/api/orders/route.ts:61-136 | a row is appended exactly when the sheet is configured and the append succeeds; without credentials the answer is success with the request's order id, a thrown error answers 500, and a successful append echoes the order id |
| Checkout.SetField | components/CheckoutForm.tsx:32-35 | the named field takes the value and the other three keep theirs |
| Checkout.GetField | components/CheckoutForm.tsx:32-35 | no contract of its own: the field that the input's `name` selects; SetField states its meaning |
| Checkout.HasEmptyField | components/CheckoutForm.tsx:44 | no contract of its own: the validation; HasEmptyFieldMeansSomeField states its meaning |
| Checkout.OrderId | components/CheckoutForm.tsx:52 | the id is "ORD-" followed by a non-empty digit string; OrderIdsDistinct states that different timestamps give different ids |
| Checkout.BuildOrder | components/CheckoutForm.tsx:51-60 | no contract of its own: the `OrderData` literal; OrderMatchesCart states its meaning |
| Checkout.LineAmount | components/CheckoutForm.tsx:133 | no contract of its own: the amount of one summary line; AmountsReadBack states its meaning |
| Checkout.TotalAmount | components/CheckoutForm.tsx:139 | no contract of its own: the summary's total; AmountsReadBack states its meaning |
| Checkout.HasEmptyFieldMeansSomeField | components/CheckoutForm.tsx:44 | the validation fails exactly when some field is empty |
| Checkout.OrderIdsDistinct | components/CheckoutForm.tsx:52 | two order ids are equal exactly when their timestamps are |
| Checkout.OrderMatchesCart | components/CheckoutForm.tsx:51-60 | given the page's total, the order's items are the cart, its total is their price-times-quantity sum, and its id and customer fields come from the timestamp and the form |
| Checkout.AmountsReadBack | components/CheckoutForm.tsx:133-139 | each summary line and the footer show `$` and text that reads back as the line's price times quantity and as the total |
| Checkout.CheckoutForm.constructor | components/CheckoutForm.tsx:13-27 | the form starts with the given cart and total, empty fields, no error, not submitting and not succeeded |
| Checkout.CheckoutForm.HandleChange | components/CheckoutForm.tsx:29-36 | the form data becomes `SetField` of the old data |
| Checkout.CheckoutForm.StartSubmit | components/CheckoutForm.tsx:38-60 | with an empty field the error is "Please fill in all fields", no order is built and `isSubmitting` is false; otherwise the error is cleared, `isSubmitting` is true and the order is built from the form, cart, total and timestamp |
| Checkout.CheckoutForm.FinishSubmit | components/CheckoutForm.tsx:62-84 | every exit leaves `isSubmitting` false; success sets `success` and schedules the completion; a failed request sets the retry error |
| Checkout.OpenCheckoutForm | app/page.tsx:185-191 | the page mounts a new form with its current cart and its `getTotalPrice()` |
| JsText.NatToString | app/api/products/route.ts:124 | `String(n)` is a non-empty digit string without a leading zero |
| JsText.NatToStringRoundTrip | app/api/products/route.ts:124 | the digits read back as the number |
| JsText.NatToStringInjective | components/CheckoutForm.tsx:52 | different numbers have different decimal strings |
| JsText.IntToString | app/api/orders/route.ts:93 | the decimal text of an integer is digits, behind a '-' when negative |
| JsText.FormatCents | app/api/orders/route.ts:107 | `toFixed(2)` ends with a point and exactly two digits |
| JsText.CentsRoundTrip | app/api/products/route.ts:41 | reading a `toFixed(2)` text back gives the same amount |
| JsText.ParseCents | app/api/products/route.ts:41 | no contract of its own: `parseFloat` of `[-]digits[.d[d]]` in cents, `None` for anything else; CentsRoundTrip and ProductsRoute.UnreadablePriceIsZero state its meaning |
| JsText.Join | app/api/orders/route.ts:97 | no contract of its own: `join`; JoinAppend, JoinSplit and SplitJoinSpaced state its meaning |
| JsText.Cell | app/api/products/route.ts:39-43 | no contract of its own: the i-th cell, or "" when the row is too short; ProductsRoute.ShortRowDefaults and OrdersRoute.ShortOrderRowDefaults state its meaning |
| JsText.JoinAppend | app/api/orders/route.ts:97 | joining one more part adds the separator and that part |
| JsText.Split | app/api/products/route.ts:44 | `split` gives at least one piece and no piece holds the separator |
| JsText.JoinSplit | app/api/products/route.ts:44 | joining the pieces of a split with the separator gives back the string |
| JsText.SplitJoinSpaced | app/api/products/route.ts:44 | splitting parts joined by a separator and a space gives back each part, the later ones behind that space |
| JsText.TrimStart | app/api/products/route.ts:44 | drops exactly the leading whitespace |
| JsText.TrimEnd | app/api/products/route.ts:44 | drops exactly the trailing whitespace |
| JsText.Trim | app/api/products/route.ts:44 | the result has no whitespace at either end |
| JsText.TrimOfTrimmed | app/api/products/route.ts:44 | trimming a trimmed string changes nothing |
| JsText.TrimDropsLeadingSpace | app/api/products/route.ts:44 | trimming a space in front of a trimmed string gives that string |

## Left out

- Google Sheets access (`getSheetsClient`, `GoogleAuth`, `JSON.parse` of the credentials, environment variables, the `values.get` / `append` / `update` calls) is foreign I/O. The sheets are in-memory tables, and whether a call succeeds is an input.
- The built-in catalogs (app/page.tsx:9-58 and app/api/products/route.ts:52-101) are data. GET on any error answers `DefaultListed`, which stands for them.
- JsText.ParseCents, ProductsRoute.DecodePrice: `parseFloat` reads a leading number of any form (exponents, more decimals, leading spaces, trailing text). The model reads `[-]digits[.d[d]]` only and maps every other cell to 0, as `|| 0` does for `NaN`.
- JsText.FormatCents: JavaScript numbers are IEEE doubles, and `price * quantity` and `toFixed(2)` can round. The model computes in exact integer cents.
- The number the sheet stores for a price: POST and PUT send a JS number with `USER_ENTERED`, and the sheet's own display of it is not modelled. The model writes the `toFixed(2)` text of the cents.
- `Date.now()`, `new Date().toISOString()` and `toLocaleString()` are inputs: a timestamp and two date strings.
- `fetch` to the orders endpoint and the 2-second `setTimeout` before `onOrderComplete` are out of model. `FinishSubmit` takes the request's outcome as a boolean and reports whether the completion was scheduled.
- React's batching of state updates and re-renders is out of model. Each handler applies its updates in order.
- A request body that is not JSON is out of model: that 500 path needs a parser the core does not contain.
- JsText.Trim: whitespace is the ASCII set plus no-break space and the byte-order mark. The other Unicode space separators and line terminators that `trim` also removes are not included.
- The Sheets API also drops empty trailing cells and rows from the `Products!A2:G` and `Orders!A2:H` reads. The model decodes the stored rows as they are, which gives the same catalog and the same records, except that trailing empty order rows would be listed.
- The `onClose` handlers and the `isCartOpen` toggle of the header button are panel visibility only.
- The presentational components (components/Cart.tsx, components/ProductCard.tsx, app/layout.tsx, src/Components/Hero/Hero.jsx, src/Components/Programs/Programs.jsx) are markup. Only the `quantity ± 1` arguments of the cart's buttons enter the model, through the `quantity >= 0` condition of `SetQuantityPreservesWellFormed`.
- ProductsRoute.ProductSheet.Post, ProductsRoute.ProductSheet.Put and ProductsRoute.ProductSheet.Delete: the id-column read and the write are one atomic step. The handlers await them separately (app/api/products/route.ts:118 and :138, :172 and :198, :241 and :257), so two concurrent POSTs can append rows with the same new id, and a row can move between the lookup and the write. Concurrent requests are not modelled.
- OrdersRoute.OrderRowRoundTrip: POST appends with `USER_ENTERED` (app/api/orders/route.ts:114), so the sheet may re-parse the locale date (:101), the `$x.xx` total (:107) and any cell starting with `=` or `+` into a date, a number or a formula. The model keeps every cell as the text written, so the read-back holds for the stored text only, not for what the sheet would display after re-parsing.
- ProductsRoute.ProductRowRoundTrip, ProductsRoute.CreateAppendsToCatalog, ProductsRoute.UpdateReplacesInCatalog: POST, PUT and DELETE write with `USER_ENTERED` (app/api/products/route.ts:141, :201, :260), so the sheet may re-parse any written cell: a name or description starting with `=` becomes a formula, and an id such as "007" is stored as the number 7 and read back as "7", after which a lookup of "007" answers 404. The model keeps every cell as the text written, so these round trips hold for the stored text only, not for what the sheet shows after re-parsing.
