# SmartGadgets storefront core, modelled in Dafny

SmartGadgets is an online electronics shop built on a serverless SQL
database (Cloudflare D1). This project models the shop's core:

- the **service layer**: the order, cart, product, category and customer
  services;
- the **admin product forms**: the create and edit forms, with their slug
  generators and gallery-image lists;
- the **JSON API endpoints** for orders, products and categories.

The model follows the source file by file:

- **Database.** The database is a `Store.Db` class. Its fields (tables) are
  reassigned by the service methods, and each method names the tables it
  may change in a field-level `modifies` clause.
- **SQL statements.** Statements the services build (WHERE clauses,
  positional parameters, `SET` lists) are data. `OrderService`,
  `ProductService` and `CategoryService` build them with the same loops
  and `push` steps as the source. They are then proved equal to reference
  functions that say which filters apply and which values bind to them.
- **Cart.** The cart service is a class whose `items`, `total` and
  `itemCount` fields are kept consistent (`Valid()`) by every method.
- **Forms.** The two admin forms are classes whose handlers update the
  name, slug and gallery state.
- **Endpoints.** An endpoint is a function from the request's parameters,
  the `Authorization` header, the configured API token and the service's
  outcome to a status code and JSON body.

Money is in integer cents throughout, as the database stores it. Anything
the code awaits from the database, the clock, or `JSON.parse` is a
parameter of the member that uses it.

## Model

| member | source | states |
|---|---|---|
| Text.LowerChar | src/components/admin/edit-product.tsx:159 | an ASCII capital is shifted by 32 to lower case; every other character is kept; the result is never a capital |
| Text.Lower | src/components/admin/edit-product.tsx:159 | `toLowerCase` keeps the length and lowers every character in place |
| Text.LowerFixed | src/components/admin/create-product.tsx:100 | lowering a string without capitals leaves it unchanged |
| Text.TrimStart | src/components/admin/edit-product.tsx:110 | the result is a suffix of the input; it starts with a non-space character; everything dropped is whitespace |
| Text.TrimEnd | src/components/admin/edit-product.tsx:110 | the result is a prefix of the input; it ends with a non-space character; everything dropped is whitespace |
| Text.Trim | src/components/admin/edit-product.tsx:110 | `trim()`: leading and trailing whitespace dropped |
| Text.TrimEdges | src/components/admin/edit-product.tsx:110 | `trim()` never lengthens and leaves no whitespace at either end |
| Text.TrimEmptyIffBlank | src/components/admin/create-product.tsx:121 | `img.trim() !== ''` fails exactly for strings made only of whitespace |
| Text.TrimFixed | src/components/admin/edit-product.tsx:110 | trimming a string without whitespace changes nothing |
| Text.IndexFrom | src/pages/api/orders.ts:8 | the first occurrence of the pattern at or after a position, or None when there is none |
| Text.IndexOf | src/pages/api/orders.ts:8 | the first occurrence of the pattern; None exactly when the pattern never occurs |
| Text.ReplaceFirst | src/pages/api/orders.ts:8 | `String.replace` with a string pattern splices the replacement over the first occurrence only; with no occurrence the input is returned |
| Text.Split | src/components/admin/edit-product.tsx:110 | `split(',')` gives at least one piece, and no piece holds the separator |
| Text.Join | src/pages/api/orders.ts:105 | `join(sep)`: the pieces with the separator between them (SplitJoin is its inverse) |
| Text.SplitJoin | src/components/admin/edit-product.tsx:110 | splitting a separator-free list joined with the separator gives the list back |
| Slug.DropRun | src/components/admin/create-product.tsx:102-103 | drops a maximal leading run of one character class and nothing else |
| Slug.CollapseShorter | src/components/admin/create-product.tsx:102-103 | collapsing runs into one hyphen never lengthens the text |
| Slug.CollapseChars | src/components/admin/edit-product.tsx:160 | after collapsing, every character is a hyphen or a character of the input outside the run class |
| Slug.CollapseHead | src/components/admin/edit-product.tsx:160 | the collapsed text is empty only for empty input, and starts with a hyphen exactly when the input starts with a run character |
| Slug.CollapseNoDouble | src/components/admin/create-product.tsx:103 | after replacing runs by one hyphen, no two hyphens are adjacent |
| Slug.CollapseFixed | src/components/admin/create-product.tsx:103 | text whose run characters are isolated hyphens is unchanged by collapsing |
| Slug.AlnumOnlyDropsRun | src/components/admin/edit-product.tsx:160 | dropping a run of non-alphanumerics keeps the same letters and digits |
| Slug.CollapseKeepsAlnum | src/components/admin/edit-product.tsx:160 | `replace(/[^a-z0-9]+/g, '-')` keeps exactly the letters and digits, in order |
| Slug.StripLeadingHyphens | src/components/admin/edit-product.tsx:161 | `^-+` removal: a suffix that does not start with a hyphen, and only hyphens were removed |
| Slug.StripTrailingHyphens | src/components/admin/edit-product.tsx:161 | `-+$` removal: a prefix that does not end with a hyphen, and only hyphens were removed |
| Slug.DropHyphensAppend | src/components/admin/edit-product.tsx:161 | removing hyphens distributes over concatenation |
| Slug.LeadingHyphensKeep | src/components/admin/edit-product.tsx:161 | removing the leading hyphens keeps every other character |
| Slug.TrailingHyphensKeep | src/components/admin/edit-product.tsx:161 | removing the trailing hyphens keeps every other character |
| Slug.StripKeepsNonHyphens | src/components/admin/edit-product.tsx:161 | stripping edge hyphens keeps every non-hyphen character |
| Slug.EditSlug | src/components/admin/edit-product.tsx:157-162 | the edit form's generateSlug: lower-case, runs of non-alphanumerics to one hyphen, edge hyphens stripped; the result never starts or ends with a hyphen |
| Slug.EditSlugShape | src/components/admin/edit-product.tsx:157-162 | the edit form's slug is lower-case letters, digits and hyphens, with no hyphen at either end and no double hyphen |
| Slug.EditSlugLettersAndDigits | src/components/admin/edit-product.tsx:157-162 | the edit form's slug holds exactly the lowered name's letters and digits, in order |
| Slug.EditSlugIdempotent | src/components/admin/edit-product.tsx:157-162 | regenerating the edit form's slug from a slug gives the same slug |
| Slug.DeletePunctuation | src/components/admin/create-product.tsx:101 | `replace(/[^a-z0-9\s-]/g, '')` keeps only letters, digits, whitespace and hyphens, and never lengthens |
| Slug.DeletePunctuationFixed | src/components/admin/create-product.tsx:101 | text made only of kept characters is unchanged |
| Slug.CreateSlug | src/components/admin/create-product.tsx:98-105 | the create form's generateSlug: lower-case, punctuation deleted, each whitespace run to one hyphen, each hyphen run to one hyphen, then `trim`; the result never starts or ends with whitespace |
| Slug.CreateSlugCoreShape | src/components/admin/create-product.tsx:98-103 | the first three steps give lower-case letters, digits and single hyphens, no longer than the name |
| Slug.CreateSlugShape | src/components/admin/create-product.tsx:98-105 | the create form's slug is lower-case letters, digits and hyphens, without double hyphens, no longer than the name |
| Slug.CreateSlugIdempotent | src/components/admin/create-product.tsx:98-105 | regenerating the create form's slug from a slug gives the same slug |
| Slug.CreateSlugKeepsEdgeHyphen | src/components/admin/create-product.tsx:104 | `trim('-')` ignores its argument and strips only whitespace, so " TV" becomes "-tv" |
| Slug.EditSlugStripsEdgeHyphen | src/components/admin/edit-product.tsx:161 | the edit form's slug for " TV" is "tv" |
| Slug.PunctuationDeleted | src/components/admin/create-product.tsx:101 | the create form deletes punctuation: "a.b" gives "ab" |
| Slug.PunctuationHyphenated | src/components/admin/edit-product.tsx:160 | the edit form turns punctuation into a hyphen: "a.b" gives "a-b" |
| Slug.RunLength | src/components/admin/create-product.tsx:102-103 | the leading run of a character class: every character before it is in the class, and the next one is not |
| Slug.LeadingHyphens | src/components/admin/edit-product.tsx:161 | the hyphens `^-+` matches: all hyphens, followed by a non-hyphen or the end |
| Slug.TrailingHyphens | src/components/admin/edit-product.tsx:161 | the hyphens `-+$` matches: all hyphens, preceded by a non-hyphen or the start |
| Gallery.NonBlank | src/components/admin/create-product.tsx:121 | `filter(img => img.trim() !== '')`: no kept entry is blank, and the list never grows |
| Gallery.NonBlankMembers | src/components/admin/create-product.tsx:121 | the kept entries are exactly the entries that are not blank |
| Gallery.BlankIsEmptyTrim | src/components/admin/create-product.tsx:121 | an entry counts as blank exactly when its `trim()` is the empty string |
| Gallery.NonBlankAppend | src/components/admin/create-product.tsx:121 | filtering distributes over concatenation |
| Gallery.NonBlankIdempotent | src/components/admin/edit-product.tsx:204 | filtering an already filtered gallery changes nothing |
| Gallery.RemoveAt | src/components/admin/create-product.tsx:119 | `filter((_, i) => i !== index)` drops the entry at an in-range index and shifts the rest; an out-of-range index changes nothing |
| Gallery.AddKeepsSubmitted | src/components/admin/create-product.tsx:114-116 | adding an empty input does not change what is submitted |
| Gallery.BlankingIsRemoving | src/components/admin/create-product.tsx:118-129 | blanking an input submits the same gallery as removing it |
| EditProduct.CommaList | src/components/admin/edit-product.tsx:110 | the comma fallback yields non-empty, trimmed pieces without commas |
| EditProduct.TrimAll | src/components/admin/edit-product.tsx:110 | `map(img => img.trim())` trims each piece in place |
| EditProduct.DropEmpty | src/components/admin/edit-product.tsx:110 | `filter(Boolean)` keeps only non-empty pieces of the input |
| EditProduct.DropEmptyFixed | src/components/admin/edit-product.tsx:110 | a list without empty strings is unchanged by `filter(Boolean)` |
| EditProduct.ParseGalleryImages | src/components/admin/edit-product.tsx:103-114 | a missing or empty value gives `['']`; an array is kept; a string is parsed as JSON (an array kept, another value `['']`), and falls back to the comma list when parsing fails |
| EditProduct.CommaListRoundTrip | src/components/admin/edit-product.tsx:110 | a gallery stored as a comma-joined string of trimmed, comma-free URLs is read back as the same list |
| EditProduct.FirstNonEmpty | src/components/admin/edit-product.tsx:122-123 | `a \|\| b \|\| ''`: empty exactly when both are absent or empty, else the first non-empty one |
| EditProduct.ParseAttribute | src/components/admin/edit-product.tsx:121-125 | one stored attribute as a form attribute: name and value by the `\|\|` fallbacks, sort order 0 when absent |
| EditProduct.ParseAttributes | src/components/admin/edit-product.tsx:119-126 | a non-array gives no attributes; otherwise one form row per attribute, named from `attribute_name` or `name`, valued from `attribute_value` or `value`, sort order 0 when absent |
| EditProduct.ParseStoredAttributes | src/components/admin/edit-product.tsx:119-126 | attributes read back from stored rows with non-empty names and values give the same rows |
| EditProduct.EditProductForm.constructor | src/components/admin/edit-product.tsx:116-171 | the form opens with the product's name; its slug regenerated from a non-empty name, else the stored slug; its gallery parsed; its attributes parsed |
| EditProduct.EditProductForm.SyncSlug | src/components/admin/edit-product.tsx:165-171 | the slug effect overwrites the slug whenever the name is non-empty and leaves it otherwise |
| EditProduct.EditProductForm.ChangeName | src/components/admin/edit-product.tsx:165-171 | typing a name sets it and, when non-empty, regenerates the slug, replacing any hand-edited slug |
| EditProduct.EditProductForm.AddGalleryImage | src/components/admin/edit-product.tsx:242-244 | appends one empty input |
| EditProduct.EditProductForm.RemoveGalleryImage | src/components/admin/edit-product.tsx:246-248 | removes the input at the index and does not touch the form's gallery value |
| EditProduct.EditProductForm.UpdateGalleryImage | src/components/admin/edit-product.tsx:250-255 | replaces the input at the index, keeps the others, and sets the form's value to the non-blank inputs |
| EditProduct.EditProductForm.SubmittedGallery | src/components/admin/edit-product.tsx:204 | the submitted gallery holds exactly the non-blank inputs |
| CreateProduct.CreateProductForm.constructor | src/components/admin/create-product.tsx:67-90 | the form opens with empty name and slug, one empty gallery input and an empty gallery value |
| CreateProduct.CreateProductForm.HandleNameChange | src/components/admin/create-product.tsx:107-112 | the name is always set; the slug is generated only while the slug is empty |
| CreateProduct.CreateProductForm.AddGalleryImage | src/components/admin/create-product.tsx:114-116 | appends one empty input |
| CreateProduct.CreateProductForm.RemoveGalleryImage | src/components/admin/create-product.tsx:118-122 | removes the input at the index and sets the form's value to the remaining non-blank inputs |
| CreateProduct.CreateProductForm.UpdateGalleryImage | src/components/admin/create-product.tsx:124-129 | replaces the input at the index and sets the form's value to the non-blank inputs |
| CreateProduct.CreateProductForm.SubmittedGallery | src/components/admin/create-product.tsx:154 | the submitted gallery holds exactly the non-blank inputs |
| CreateProduct.NameChangesKeepSlug | src/components/admin/create-product.tsx:107-112 | once a name has produced a non-empty slug, later name changes never alter it |
| Cart.FirstIndex | src/lib/services/cart.ts:47 | `findIndex`: the first line with the product id, or -1 when no line has it |
| Cart.FindIndex | src/lib/services/cart.ts:47 | the loop returns the first matching index, or -1 when none matches |
| Cart.AddLine | src/lib/services/cart.ts:38-70 | an existing line's quantity grows, capped at the stock, and the other lines are untouched; otherwise a new line is appended |
| Cart.SetQuantity | src/lib/services/cart.ts:72-87 | an unknown id changes nothing; a quantity of at most 0 removes the line; otherwise only that line's quantity changes, capped at its maximum |
| Cart.Without | src/lib/services/cart.ts:89-96 | the remaining lines are exactly those with another product id |
| Cart.WithoutAppend | src/lib/services/cart.ts:91 | removal distributes over concatenation |
| Cart.WithoutIdempotent | src/lib/services/cart.ts:89-96 | removing a product twice is the same as removing it once |
| Cart.WithoutAbsent | src/lib/services/cart.ts:89-96 | removing a product not in the cart changes nothing |
| Cart.WithoutSingle | src/lib/services/cart.ts:91 | with one line for the id, removal is the splice at its index |
| Cart.RemoveByZeroQuantity | src/lib/services/cart.ts:77-79 | in a cart with unique ids, setting a quantity of at most 0 is the same as removing the item |
| Cart.AddLineKeepsUnique | src/lib/services/cart.ts:47-65 | adding an item never creates a second line for one product |
| Cart.SetQuantityKeepsUnique | src/lib/services/cart.ts:72-87 | updating a quantity keeps product ids unique |
| Cart.WithoutKeepsUnique | src/lib/services/cart.ts:89-96 | removing an item keeps product ids unique |
| Cart.Total | src/lib/services/cart.ts:105 | the sum of price times quantity over the lines (its behaviour under replace and append is TotalReplace and TotalAppend) |
| Cart.ItemCount | src/lib/services/cart.ts:106 | the sum of quantities over the lines |
| Cart.TotalReplace | src/lib/services/cart.ts:104-113 | replacing one line changes the total and the count by exactly that line's difference |
| Cart.TotalAppend | src/lib/services/cart.ts:104-113 | appending a line adds its price times quantity to the total and its quantity to the count |
| Cart.AddLineTotals | src/lib/services/cart.ts:38-70 | adding an item raises the count by the quantity actually added after the stock cap, and the total by that quantity times the line's price |
| Cart.CartService.constructor | src/lib/services/cart.ts:35 | a new cart is empty and consistent |
| Cart.CartService.CalculateTotals | src/lib/services/cart.ts:104-113 | after recalculation the total and item count agree with the lines |
| Cart.CartService.AddItem | src/lib/services/cart.ts:38-70 | the lines become AddLine of the old lines, and the totals stay consistent |
| Cart.CartService.UpdateQuantity | src/lib/services/cart.ts:72-87 | the lines become SetQuantity of the old lines, and the totals stay consistent |
| Cart.CartService.RemoveItem | src/lib/services/cart.ts:89-96 | the filter loop leaves exactly the lines of other products, and the totals stay consistent |
| Cart.CartService.ClearCart | src/lib/services/cart.ts:98-102 | the cart is empty with total and count 0 |
| OrderService.ActiveProduct | src/lib/services/order.ts:229-237 | the product lookup finds a row exactly when the id exists with status 'active' |
| OrderService.Snapshots | src/lib/services/order.ts:243-251 | one snapshot per line, in order, each carrying its line |
| OrderService.LineError | src/lib/services/order.ts:229-241 | a line is refused when its product is missing or not active, or tracks inventory with less stock than the line asks for |
| OrderService.Subtotal | src/lib/services/order.ts:243-244 | the sum of quantity times client-sent unit price |
| OrderService.ValidateItems | src/lib/services/order.ts:227-252 | rejects exactly when some line is unknown, inactive or short of stock, with the first failing line's error; otherwise returns the subtotal and the snapshots |
| OrderService.RepeatedLinesNotAggregated | src/lib/services/order.ts:239-241 | two lines of 2 for a product with stock 3 each pass the stock check, and stock ends at -1 |
| OrderService.RoundHundredth | src/lib/services/order.ts:266 | `Math.round(n / 100)` on integers: the nearest integer to n/100, with halves rounded up |
| OrderService.Usable | src/lib/services/order.ts:257-260 | a code is usable when it matches, is active, has started and has not expired |
| OrderService.FindDiscount | src/lib/services/order.ts:257-262 | returns a usable code (active, matching, within its validity dates), or None when no code is usable |
| OrderService.LookupDiscount | src/lib/services/order.ts:256-262 | no lookup without a non-empty code; a code found is in the table and usable; none found means no code in the table is usable |
| OrderService.DiscountAmount | src/lib/services/order.ts:255-274 | no code, or a subtotal under the minimum, gives 0; a percentage is `Math.round(subtotal * value / 100)`, or the maximum when a non-zero one is set and is smaller; any other type gives the fixed value |
| OrderService.PercentageWithinSubtotal | src/lib/services/order.ts:265-269 | a percentage of at most 100 never discounts more than the subtotal, and is non-negative unless capped |
| OrderService.CappedIsMinimum | src/lib/services/order.ts:264-269 | any value meeting the capped-percentage contract is `Math.min(Math.round(subtotal * value / 100), maximum_discount_amount)`, and DiscountAmount returns it |
| OrderService.TenPercentExample | src/lib/services/order.ts:265-278 | 10% off 100.00 is 10.00 and the total is 90.00 |
| OrderService.FixedDiscountCanExceedSubtotal | src/lib/services/order.ts:271-278 | a fixed 5.00 discount on a 3.00 order gives a total of -2.00, since the fixed amount is not capped |
| OrderService.OrderTotal | src/lib/services/order.ts:275-278 | subtotal plus zero shipping plus zero tax minus the discount |
| OrderService.FirstCustomerWithEmail | src/lib/services/order.ts:283-285 | finds a customer with the email and returns its id, or None when no customer has it |
| OrderService.ResolvedCustomer | src/lib/services/order.ts:281-297 | a supplied customer id is used as is; otherwise the customer with the email, or a new customer with the phone in the notes |
| OrderService.Decrement | src/lib/services/order.ts:345-353 | stock falls by the quantity; the status becomes 'out_of_stock' when stock reaches 0 or less; no other column changes |
| OrderService.StockStep | src/lib/services/order.ts:345-353 | one stock update changes no set of product ids |
| OrderService.ApplyStock | src/lib/services/order.ts:328-354 | the stock loop keeps the set of product ids |
| OrderService.QuantityFor | src/lib/services/order.ts:344-354 | the total quantity the lines order of one product (the amount ApplyStockStock takes off) |
| OrderService.ApplyStockStock | src/lib/services/order.ts:328-354 | each product's stock falls by the total quantity ordered of it |
| OrderService.ApplyStockUntouched | src/lib/services/order.ts:328-354 | a product no line mentions is unchanged |
| OrderService.ApplyStockSingle | src/lib/services/order.ts:345-353 | a product ordered on one line loses that quantity, and is marked out of stock exactly when nothing is left |
| OrderService.ItemRows | src/lib/services/order.ts:329-342 | one order-item row per validated line, with its id, quantity, prices, name and SKU |
| OrderService.ResolveCustomer | src/lib/services/order.ts:281-297 | the customer table and the chosen id are those ResolvedCustomer gives |
| OrderService.InsertItems | src/lib/services/order.ts:328-354 | appends the item rows and applies every stock decrement |
| OrderService.InsertOrder | src/lib/services/order.ts:300-325 | stores the order under the next order id |
| OrderService.NewOrder | src/lib/services/order.ts:276-278 | total = subtotal + shipping + tax - discount, with shipping and tax 0; order and payment status 'pending' |
| OrderService.PlaceOrder | src/lib/services/order.ts:255-354 | after validation: resolves the customer, computes the discount, stores the order, its items and the new stock |
| OrderService.CreateOrder | src/lib/services/order.ts:222-357 | fails exactly when a line is invalid, throwing the first invalid line's error with nothing written; otherwise the customer, order, item rows and stock are all as specified |
| OrderService.StatusUpdate | src/lib/services/order.ts:364-385 | the statement binds one value per placeholder, with the order id last |
| OrderService.PaymentUpdate | src/lib/services/order.ts:398-409 | the statement binds one value per placeholder, with the order id last |
| OrderService.StatusUpdated | src/lib/services/order.ts:359-391 | the row after a status update: status and updated_at set, the status's timestamp stamped, notes replaced when given |
| OrderService.PaymentUpdated | src/lib/services/order.ts:393-412 | the row after a payment update: payment_status and updated_at set, the reference replaced when given |
| OrderService.StatusStampsPlaceholders | src/lib/services/order.ts:364-378 | the status, updated_at and status-timestamp assignments use exactly one `?`, the status |
| OrderService.StatusStampsEffect | src/lib/services/order.ts:364-378 | those assignments set the status, stamp updated_at, and stamp confirmed_at, ready_at or delivered_at only for the matching status |
| OrderService.StatusUpdateEffect | src/lib/services/order.ts:359-391 | running the status update sets the status, the notes when given, and the confirmed_at, ready_at or delivered_at timestamp only for the confirmed, ready_for_pickup or delivered status |
| OrderService.PaymentUpdateEffect | src/lib/services/order.ts:393-412 | running the payment update sets the payment status and the reference when given |
| OrderService.RunUpdate | src/lib/services/order.ts:387-388 | the UPDATE applies its assignments to the order whose id is bound last, and to no other order |
| OrderService.UpdateOrderStatus | src/lib/services/order.ts:359-391 | the order, if present, becomes StatusUpdated of itself; the returned order is the updated row |
| OrderService.UpdatePaymentStatus | src/lib/services/order.ts:393-412 | the order, if present, becomes PaymentUpdated of itself; the returned order is the updated row |
| OrderService.StatusUpdateKeepsTotals | src/lib/services/order.ts:364-383 | a status update never changes the amounts, the customer or the payment status |
| OrderService.ArgsOf | src/lib/services/order.ts:92-121 | the bound values number exactly the placeholders of the filters |
| OrderService.Keep | src/lib/services/order.ts:92-121 | every kept filter applies |
| OrderService.KeepMembers | src/lib/services/order.ts:92-121 | the kept filters are exactly the listed filters that apply |
| OrderService.KeepAscending | src/lib/services/order.ts:92-121 | keeping filters preserves their fixed order |
| OrderService.AllFiltersListed | src/lib/services/order.ts:92-121 | every order filter appears in the fixed list, in ascending order |
| OrderService.ListFilters | src/lib/services/order.ts:92-121 | the WHERE conditions are exactly the filters whose parameter is given, in source order |
| OrderService.FilterParams | src/lib/services/order.ts:92-121 | the bound values are those of the applied filters, in order |
| OrderService.OrderListQuery | src/lib/services/order.ts:92-133 | filters as above; LIMIT only for a non-zero limit; OFFSET only with it and a non-zero offset; filter values first, then limit, then offset |
| OrderService.PushFilters | src/lib/services/order.ts:92-121 | the push sequence yields the applied filters and their values |
| OrderService.PushCountFilters | src/lib/services/order.ts:155-160 | the count query's push sequence yields the same filters |
| OrderService.BuildOrderListing | src/lib/services/order.ts:82-162 | builds the listing query as OrderListQuery and the count query as written, with `slice(0, -2)` |
| OrderService.OrderCountQuery | src/lib/services/order.ts:151-162 | the corrected count query binds exactly the filter values, the prefix of the listing's parameters |
| OrderService.CountParamsAsWrittenAligned | src/lib/services/order.ts:153 | the count as written binds as many values as it has placeholders exactly when there are no filters or both LIMIT and OFFSET were pushed |
| OrderService.CountQueryAgreesWhenPaged | src/lib/services/order.ts:153 | with a non-zero limit and offset, the count as written equals the corrected one |
| OrderService.FirstPageCountCounterexample | src/lib/services/order.ts:153 | status 'pending', limit 20, offset 0: the count has one placeholder and binds no values |
| ProductService.ArgsOf | src/lib/services/product.ts:91-125 | the bound values number exactly the placeholders of the filters |
| ProductService.KeepMembers | src/lib/services/product.ts:91-125 | the kept filters are exactly the listed filters that apply |
| ProductService.KeepAscending | src/lib/services/product.ts:91-125 | keeping filters preserves their fixed order |
| ProductService.AllFiltersListed | src/lib/services/product.ts:91-125 | every product filter appears in the fixed list, in ascending order |
| ProductService.ProductFilters | src/lib/services/product.ts:91-125 | the WHERE conditions are exactly the filters that apply, in source order |
| ProductService.FilterParams | src/lib/services/product.ts:91-125 | the bound values are those of the applied filters, in order |
| ProductService.PushFirstFour | src/lib/services/product.ts:91-108 | the category, category-id, status and featured pushes yield those filters and values |
| ProductService.PushProductFilters | src/lib/services/product.ts:91-125 | the push sequence yields the applied filters and their values |
| ProductService.SortClause | src/lib/services/product.ts:129-146 | newest first by default; price or featured sorting when asked, otherwise created_at; direction as given or DESC; featured sorting adds newest-first |
| ProductService.BuildProductListing | src/lib/services/product.ts:64-192 | listing: the applied filters in order, their values, then LIMIT and OFFSET as for orders, then the sort; count: the same filters and exactly their values |
| ProductService.ZeroPriceBoundFilters | src/lib/services/product.ts:116-119 | a minimum price of 0 still filters, binding 0 |
| ProductService.FeaturedFalseFilters | src/lib/services/product.ts:105-108 | `featured: false` still filters, binding 0 |
| ProductService.SortOrderOf | src/lib/services/product.ts:298 | an attribute's sort order is its own, or 0 when absent |
| ProductService.AttributeRows | src/lib/services/product.ts:293-300 | one attribute row per attribute, in order, linked to the product |
| ProductService.InsertAttributes | src/lib/services/product.ts:293-300 | the attribute rows are appended to the table |
| ProductService.AttributesReplaced | src/lib/services/product.ts:335-346 | after replacing a product's attributes its rows are exactly the new list's rows, every other product's rows are kept, and a second delete gives the same table |
| ProductService.WithoutProduct | src/lib/services/product.ts:337 | the attribute rows of other products, never more than before |
| ProductService.WithoutProductAppend | src/lib/services/product.ts:337 | the delete distributes over concatenation |
| ProductService.WithoutProductNone | src/lib/services/product.ts:337 | deleting a product without rows changes nothing |
| ProductService.WithoutProductOwn | src/lib/services/product.ts:337 | rows all of one product are all deleted |
| ProductService.WithoutProductMembers | src/lib/services/product.ts:337 | the rows left are exactly those of other products |
| ProductService.NewProductRow | src/lib/services/product.ts:271-290 | the inserted row sets the listed columns; status defaults to 'active'; is_featured is 1 only for true; the gallery is stored as JSON or NULL; other columns keep their defaults |
| ProductService.CreateProduct | src/lib/services/product.ts:262-303 | stores the new row under the next id and appends the given attributes |
| ProductService.CreatedAttributes | src/lib/services/product.ts:293-305 | the attribute rows createProduct inserts: all of them when the list is present and non-empty, none otherwise |
| ProductService.CreatedAttributesBelong | src/lib/services/product.ts:293-300 | every created attribute row belongs to the new product and keeps its name and value |
| ProductService.GalleryStrings | src/lib/services/product.ts:312-314 | a gallery array is stored element by element, strings as themselves |
| ProductService.BoundValue | src/lib/services/product.ts:310-321 | is_featured binds 1 or 0 by truthiness; a gallery array binds as JSON; anything else binds as given |
| ProductService.UpdateColumns | src/lib/services/product.ts:310-322 | the forEach names at most one column per submitted entry |
| ProductService.UpdateColumnsMembers | src/lib/services/product.ts:310-322 | the SET columns are exactly the submitted keys other than `attributes` |
| ProductService.UpdateValues | src/lib/services/product.ts:310-322 | one bound value per SET column |
| ProductService.BuildProductUpdate | src/lib/services/product.ts:310-322 | the forEach loop yields those columns and values |
| ProductService.SetAllAssigned | src/lib/services/product.ts:328-332 | running the SET list equals overwriting the row with the assigned map, the last assignment winning |
| ProductService.UpdateProduct | src/lib/services/product.ts:305-349 | no SET column: nothing changes; otherwise the row is updated with updated_at and the attributes replaced when given; returns the row |
| ProductService.AttributesOnlyUpdateDropped | src/lib/services/product.ts:324-326 | the update is skipped exactly when every key is `attributes` |
| ProductService.AssignedKeys | src/lib/services/product.ts:310-322 | the assigned columns are exactly the SET columns |
| ProductService.AssignedValue | src/lib/services/product.ts:310-322 | with distinct keys, each key is assigned its own bound value |
| ProductService.UpdateWritesExactlyKeys | src/lib/services/product.ts:305-332 | updated_at gets the time; each submitted column its value; every other column is unchanged |
| ProductService.StockStatus | src/lib/services/product.ts:360-364 | out of stock exactly at quantity 0 or less; positive stock turns out-of-stock into active and keeps any other status |
| ProductService.Restocked | src/lib/services/product.ts:357-367 | sets the stock, the status per the CASE expression and updated_at, and nothing else |
| ProductService.UpdateStock | src/lib/services/product.ts:356-370 | the product, if present, becomes Restocked of itself and nothing else changes; the UPDATE's success flag is returned |
| ProductService.SoldOutThenRestocked | src/lib/services/product.ts:360-364 | an active product that sells out goes out of stock and comes back active on restock |
| ProductService.DiscontinuedComesBackActive | src/lib/services/product.ts:360-364 | a discontinued product set to 0 and then restocked becomes active |
| ProductService.InactiveStaysInactive | src/lib/services/product.ts:360-364 | restocking an inactive product leaves it inactive |
| CategoryService.BuildCategoryListing | src/lib/services/category.ts:25-46 | filters to active categories unless inactive ones are asked for; orders by sort_order, then name |
| CategoryService.IsActive | src/lib/services/category.ts:37 | a category is active when is_active is 1 |
| CategoryService.ListingSelection | src/lib/services/category.ts:36-38 | the listing holds exactly the active categories, or every category when inactive ones are included |
| CategoryService.ListingSortOrderFirst | src/lib/services/category.ts:40 | a category with a smaller sort_order is listed first |
| CategoryService.ReferencingIds | src/lib/services/category.ts:127-129 | the products the delete check counts include every active product the listing counts |
| CategoryService.ProductCount | src/lib/services/category.ts:29-32 | the listing's product_count: the category's active products |
| CategoryService.ReferencingCount | src/lib/services/category.ts:127-129 | the delete check's count: every product naming the category |
| CategoryService.ProductCountAtMostReferences | src/lib/services/category.ts:127-133 | the listed product_count never exceeds the number the delete check refuses on |
| CategoryService.ZeroCountStillRefused | src/lib/services/category.ts:127-133 | a category whose only product is inactive lists a count of 0, yet the delete check counts 1 |
| CategoryService.NewCategoryRow | src/lib/services/category.ts:72-82 | the inserted row sets the six columns; sort_order defaults to 0; parent_id is NULL when absent; other columns keep their defaults |
| CategoryService.CreateCategory | src/lib/services/category.ts:64-85 | stores the new row under the next id |
| CategoryService.UpdateColumns | src/lib/services/category.ts:107-110 | one SET column per submitted key, in order |
| CategoryService.UpdateValues | src/lib/services/category.ts:107-110 | one bound value per submitted key, as given |
| CategoryService.BuildCategoryUpdate | src/lib/services/category.ts:107-110 | the forEach loop yields those columns and values |
| CategoryService.SetAllAssigned | src/lib/services/category.ts:116-120 | running the SET list equals overwriting the row with the assigned map, the last assignment winning |
| CategoryService.UpdateCategory | src/lib/services/category.ts:95-123 | no fields: nothing changes; otherwise the row is updated with updated_at; returns the row |
| CategoryService.AssignedKeys | src/lib/services/category.ts:107-110 | the assigned columns are exactly the submitted keys |
| CategoryService.AssignedValue | src/lib/services/category.ts:107-110 | with distinct keys, each key is assigned its own value |
| CategoryService.UpdateWritesExactlyKeys | src/lib/services/category.ts:104-120 | updated_at gets the time; each submitted column its value; every other column is unchanged |
| CategoryService.DeleteCategory | src/lib/services/category.ts:125-137 | refuses with its message while any product references the category, leaving it; otherwise deletes exactly that category and returns the DELETE's success flag |
| CustomerService.OrZero | src/lib/services/customer.ts:25-26 | `x \|\| 0`: a truthy value is kept; anything else becomes 0 |
| CustomerService.ProcessRow | src/lib/services/customer.ts:18-28 | order_count and total_spent default to 0; id, name, email, notes, created_at, updated_at and last_order_date are copied |
| CustomerService.ProcessCustomerResults | src/lib/services/customer.ts:17-29 | processes each row in place |
| CustomerService.ProcessAppend | src/lib/services/customer.ts:17-29 | processing distributes over concatenation |
| CustomerService.LookupQueryOf | src/lib/services/customer.ts:38-58 | getById binds the id and getByEmail the email |
| CustomerService.FirstCustomer | src/lib/services/customer.ts:42-46 | a failed query gives null; no rows gives undefined; otherwise the first processed row |
| CustomerService.GetCustomer | src/lib/services/customer.ts:38-58 | issues the lookup for its key and returns FirstCustomer of the response |
| CustomerService.AllCustomers | src/lib/services/customer.ts:60-68 | a failed query gives no customers; otherwise the i-th customer is the i-th row processed |
| CustomerService.NotesValue | src/lib/services/customer.ts:84 | notes bind NULL exactly when absent or empty |
| CustomerService.InsertCustomer | src/lib/services/customer.ts:81-91 | a failed insert throws and stores nothing; otherwise the customer is appended under the next id |
| CustomerService.CreateAsWritten | src/lib/services/customer.ts:70-106 | with a subscription, create throws after the customer row is stored, because the statement it prepares is undefined |
| CustomerService.Create | src/lib/services/customer.ts:70-106 | stores the customer; with a subscription it also links it, or throws when linking fails |
| Api.ExtractToken | src/pages/api/orders.ts:8 | no header gives no token; otherwise removing the first "Bearer " gives the token when that leaves a non-empty string, and only an empty result falls back to removing the first "Token " |
| Api.BearerToken | src/pages/api/products.ts:58 | "Bearer t" yields t |
| Api.TokenSchemeKept | src/pages/api/products.ts:58 | a "Token x" header without "Bearer " in it yields the whole header, since the first replace already leaves it non-empty |
| Api.TokenHeaderExample | src/pages/api/categories.ts:39 | "Token abc" yields "Token abc", not "abc" |
| Api.WriteAuthorized | src/pages/api/products.ts:58-65 | a write is allowed only with a non-empty token equal to the configured one |
| Api.NoApiTokenNoWrites | src/pages/api/products.ts:60-65 | with no API token configured, no write is authorised |
| Api.OrUndefined | src/pages/api/orders.ts:12-17 | an empty query parameter counts as absent |
| Api.LimitOf | src/pages/api/orders.ts:18 | the parsed limit when given, else 20 |
| Api.PageOf | src/pages/api/orders.ts:19 | the parsed page when given, else 1 |
| Api.OffsetOf | src/pages/api/orders.ts:20 | page 1 starts at offset 0, and later pages at non-negative offsets |
| Api.TotalPages | src/pages/api/orders.ts:72 | `Math.ceil(total / limit)`: the least number of pages that holds the total; none for limit 0 |
| Api.TotalPagesExample | src/pages/api/products.ts:32 | 41 items at 20 per page make 3 pages; 40 make 2 |
| Api.PaginationOf | src/pages/api/products.ts:28-33 | the page, the limit, the total and TotalPages of the two |
| OrdersApi.ListParamsOf | src/pages/api/orders.ts:12-20 | each of status, payment_status, shipping_method, search, date_from and date_to passes through when non-empty and is dropped when empty; the limit defaults to 20 and the offset is that of the page (default 1) |
| OrdersApi.IsAdmin | src/pages/api/orders.ts:7-9 | admin exactly when the extracted token equals the configured one, absence included |
| OrdersApi.OrdersGetPlan | src/pages/api/orders.ts:26-63 | 400 for a non-admin with neither order number nor email; tracking for a non-admin with an order number; otherwise the listing |
| OrdersApi.TrackResponse | src/pages/api/orders.ts:36-51 | 404 for no order or an email mismatch; otherwise 200 with the order and one-page pagination |
| OrdersApi.OrdersGet | src/pages/api/orders.ts:4-92 | 400, tracking or listing per the plan; the listing carries its pagination; when the planned lookup or listing throws, exactly 500 with the fetch message |
| OrdersApi.UnconfiguredTokenAdmitsAnyone | src/pages/api/orders.ts:7-9 | with no API token configured and no header, undefined equals undefined and the caller is admin |
| OrdersApi.EmailOnlyFallsThrough | src/pages/api/orders.ts:26-63 | a non-admin with only an email gets the full listing, as if admin |
| OrdersApi.DefaultPageCountMisaligned | src/pages/api/orders.ts:18-20 | the default first page with a status filter gives a count query with fewer values than placeholders |
| OrdersApi.Missing | src/pages/api/orders.ts:99-100 | the listed fields that are absent or falsy, never more than were listed |
| OrdersApi.MissingMembers | src/pages/api/orders.ts:99-100 | the missing fields are exactly the required fields that are absent or falsy |
| OrdersApi.HasItems | src/pages/api/orders.ts:109 | the body has a non-empty items array |
| OrdersApi.OrderErrorMessage | src/lib/services/order.ts:236-240 | the two messages createOrder throws for an unavailable product and for short stock |
| OrdersApi.OrdersPost | src/pages/api/orders.ts:94-140 | 400 naming the missing fields; 400 without a non-empty items array; 201 with the order; 500 with createOrder's message |
| OrdersApi.MissingExample | src/pages/api/orders.ts:99-100 | with only name and email given, the other four fields are missing, in order |
| OrdersApi.JoinExample | src/pages/api/orders.ts:105 | the missing fields are joined with ", " |
| OrdersApi.MissingFieldsExample | src/pages/api/orders.ts:99-107 | with only name and email given, the 400 message names the other four fields |
| OrdersApi.EmptyItemsRefused | src/pages/api/orders.ts:109-114 | an empty items array passes the required check and fails the items check |
| ProductsApi.ListParamsOf | src/pages/api/products.ts:7-23 | category and search pass through when non-empty; status defaults to 'active'; featured only for "true"; limit and page offset as for orders; category id, price bounds and sort are never passed |
| ProductsApi.StatusAlwaysFiltered | src/pages/api/products.ts:8-18 | the public product listing always filters by status |
| ProductsApi.FeaturedOnlyForTrue | src/pages/api/products.ts:9-19 | the featured filter applies exactly for featured=true, binding 1 |
| ProductsApi.LimitZeroUnpaged | src/pages/api/products.ts:11-32 | limit=0 drops LIMIT and OFFSET and gives no page count |
| ProductsApi.ProductsGet | src/pages/api/products.ts:4-52 | 500 exactly when the service throws; otherwise 200 with the products and their pagination |
| ProductsApi.ValidProductBody | src/pages/api/products.ts:70-75 | name and slug truthy and price present, so a price of 0 passes |
| ProductsApi.ProductsPost | src/pages/api/products.ts:54-101 | 401 exactly without authorisation; 400 exactly when name, slug or price is missing; 201 with the product; when the authorised, valid create throws, exactly 500 with the thrown message |
| ProductsApi.PriceZeroAccepted | src/pages/api/products.ts:70 | a price of 0 is not refused as missing |
| ProductsApi.UnauthorizedBeforeValidation | src/pages/api/products.ts:57-65 | an unauthorised request gets the same answer whatever its body |
| CategoriesApi.IncludeInactive | src/pages/api/categories.ts:7 | inactive categories are included exactly for include_inactive=true |
| CategoriesApi.CategoriesGet | src/pages/api/categories.ts:4-33 | lists active categories unless include_inactive=true; 200 with the rows, or 500 with the fetch message |
| CategoriesApi.CategoriesPost | src/pages/api/categories.ts:35-82 | 401 exactly without authorisation; 400 exactly when name or slug is missing; 201 with the category; when the authorised, valid create throws, exactly 500 with the thrown message |
| Query.PushIf | src/lib/services/order.ts:92-121 | a conditional push appends the condition and its values only when it holds |
| Query.DropLastTwo | src/lib/services/order.ts:153 | `slice(0, -2)` keeps all but the last two values, or none of fewer than two |

## Left out

- **Database and network.** SQL is not executed. The listing and count results, join rows, `GROUP BY` aggregates (review counts, order totals per customer) and the `result.success` flags of `deleteCategory` and `updateStock` are parameters; the write itself is modelled as taking effect. The D1 driver, `fetch`, React, the DOM, `localStorage`, browser events, `window.location.reload` and `alert` are not modelled.
- **Read-only lookups are not modelled.** These are getOrderById, getOrderByNumber, getOrderStats, getProductById, getProductBySlug, getLowStockProducts, deleteProduct, getCategoryById and getCategoryBySlug. They are single SELECT or DELETE statements whose results would only be parameters here.
- **Money is integer cents.** The forms' conversion between dollars and cents (`Math.round(price * 100)`, `price / 100`) is floating-point and is not modelled.
- **The percentage discount** is computed on integers with exact round-half-up; the source's float division may round differently at exact halves.
- **Text is ASCII.** `toLowerCase`, `\s` and `trim` are modelled on ASCII; Unicode case mapping and Unicode whitespace are not.
- **JSON.** `JSON.parse` is a parameter of the gallery parser and `request.json()` a decoded map. Bodies that are not JSON are not modelled.
- **Query-string numbers.** `parseInt` of the limit and page parameters is taken as already parsed; `NaN` is not modelled.
- **Order numbers and clocks.** The order number is an opaque value the database assigns (the INSERT does not name it); it is taken as a parameter, and so is the clock.
- **Transactions.** D1 statements run one by one; what a failure between two of them would leave behind is not modelled, except in CustomerService.CreateAsWritten.
- **Schema defaults.** `is_active`, timestamps and the other unnamed product and category columns are a `defaults` row passed to those insert models. The order INSERT names neither status nor payment_status; OrderService.NewOrder assumes the schema default of both is 'pending'.
- **Binding non-scalars.** Undefined values, and arrays or objects other than the gallery, are bound as NULL in updateProduct and updateCategory. Non-string gallery elements are stored as empty strings.
- ProductService.UpdateProduct: takes the attributes list separately from the SET entries, whereas the source reads it from the same object.
- Api.OffsetOf: states only that page 1 is offset 0 and that offsets are non-negative for positive pages, not the product `(page - 1) * limit`, because that product is the whole body.
- EditProduct.EditProductForm.UpdateGalleryImage and CreateProduct.CreateProductForm.UpdateGalleryImage: require an index inside the list, because the forms only call them with the index of a rendered input. Assigning past the end of a JavaScript array, which would grow it, is not modelled.
- Cart.CartService.AddItem: the default argument `quantity = 1` is not modelled; callers always pass the quantity.
- CategoryService.BuildCategoryListing: the default argument `includeInactive = false` is not modelled; the flag is always passed (CategoriesApi.IncludeInactive gives it).
- The `/api/products/[id]` and `/api/categories/[id]` endpoints are not part of this model.

## Findings

| source | as written | input that shows it | evidently intended | confidence | as-written member | corrected member |
|---|---|---|---|---|---|---|
| src/lib/services/order.ts:153 | the count query takes `queryParams.slice(0, -2)`, dropping the last two values even when LIMIT or OFFSET was not pushed | status 'pending', limit 20, page 1 (the API's default first page): offset 0 pushes no OFFSET, and the count query has one placeholder but no values | bind exactly the filter values to the count query | not executed | OrderService.FirstPageCountCounterexample | OrderService.OrderCountQuery |
| src/lib/services/customer.ts:95 | create prepares `CUSTOMER_QUERIES.INSERT_CUSTOMER_SUBSCRIPTION`, which lines 1-15 do not define | any create with a subscription: the customer row is stored, then preparing `undefined` throws | link the customer to the subscription and return the new id | not executed | CustomerService.CreateAsWritten | CustomerService.Create |
