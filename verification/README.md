# GameVerse storefront: cart, checkout and refund

GameVerse is a Django storefront that sells games, DLC and memberships. This project models the part of it that moves money and products. The user record holds a cart, a library and a credit balance. The storefront views change them:

- add to cart and remove from cart;
- the cart page with its IVA (16 % value-added tax) pricing;
- checkout by credit, cash or card;
- credit top-up;
- product returns.

The model also covers the validators those views rely on: the password rule, the payment-method form, the card and top-up forms with their expiry rule, and the refund form. It also covers the admin column that lists a purchase's products.

Each view is a pure function of the user, the product catalog (a map from product id to product) and the request. A view with more than one outcome returns a `Step`: the user as persisted after the request, and an outcome naming the page or message shown. A request is either `Show` (GET) or `Submit(form)` (POST). Two views have a single outcome and return less: removal from the cart (`Cart.RemoveFromCart`) returns just the saved user, and the store marks (`Cart.StoreFlags`) return just the two flags.

Conventions:

- **Money** is an integer count of 1/10000 peso (`Money.Money`). Field values with two decimals form the subtype `Money2`. IVA is `subtotal × 16/100`, computed exactly, and is never rounded by the views.
- **Catalog lookups** that fail (`get_object_or_404`) become an outcome. Nothing is persisted before the lookup, so the user is returned unchanged.
- **Cart lines** whose id is 0 stand for entries with no product id. The pricing and purchase loops skip them, and removal always keeps them. No catalog product has id 0, because primary keys start at 1.
- **Time** enters as parameters: the current year and month for the expiry rule, and one timestamp string per request for library entries.

Modules:

| file | module | contents |
|---|---|---|
| options.dfy | Options | `Option` |
| money.dfy | Money | money units, IVA |
| models.dfy | Models | products, cart lines, library entries, purchases, users, the consistency invariant |
| seqs.dfy | Seqs | an order-preserving filter and its laws |
| forms.dfy | Forms | the form validators |
| cart.dfy | Cart | cart page, add, remove, store flags |
| checkout.dfy | Checkout | the purchase loop and the three payment paths |
| account.dfy | Account | credit top-up and product return |
| lifecycle.dfy | Lifecycle | properties that span several views |
| admin.dfy | Admin | the purchase products column |

## Model

| member | source | states |
|---|---|---|
| Money.Iva | App_GameVerse/views.py:366 | The tax on a two-decimal subtotal is exactly 16/100 of it, with no rounding. |
| Money.WithIva | App_GameVerse/views.py:409-411 | The checkout total is exactly 116/100 of the subtotal, and is never below a non-negative subtotal. |
| Money.TotalNotRounded | App_GameVerse/views.py:410-411 | A 19.99 subtotal gives a total of 23.1884, which is not a two-decimal amount: the view does not round. |
| Models.ParseKind | App_GameVerse/models.py:30-37 | Only the three declared labels Juego, DLC and Membresía name a product kind; any other label is rejected. |
| Models.KindRoundTrip | App_GameVerse/models.py:30-37 | Every product kind's label parses back to that kind. |
| Models.NewUser | App_GameVerse/models.py:74-81 | A new user has an empty cart, an empty library and a balance of 0.00, which is a valid credit field value. |
| Models.LibraryIds | App_GameVerse/views.py:255-256 | The owned-id set holds exactly the ids that have a library entry. |
| Models.CartIds | App_GameVerse/views.py:257 | The cart's id list has one id per line, in line order. |
| Forms.AllAlnum | App_GameVerse/forms.py:15 | True exactly when every character is an ASCII letter or digit. |
| Forms.Contains | App_GameVerse/forms.py:23 | True exactly when some character is in the given class. |
| Forms.CheckPassword | App_GameVerse/forms.py:13-24 | A password is accepted iff it is non-empty, all ASCII letters and digits, at least 8 long, and has a letter and a digit. A bad character, including the empty string, is reported first. Too short is reported exactly for all-alphanumeric strings of length 1 to 7. |
| Forms.CharacterCheckFirst | App_GameVerse/forms.py:15-16 | The empty string and "a!" fail the character check, not the length check. |
| Forms.LengthCheckSecond | App_GameVerse/forms.py:19-20 | "abc" passes the character check and fails on length. |
| Forms.MatchesAsWritten | App_GameVerse/forms.py:15 | The pattern as written matches a string iff it is a non-empty run of ASCII letters and digits, optionally followed by one newline. |
| Forms.MatchShape | App_GameVerse/forms.py:15 | The two shapes the pattern admits, a run alone or a run followed by a newline, are exactly the strings built as run, or run plus "\n". |
| Forms.CheckPasswordAsWritten | App_GameVerse/forms.py:13-24 | On strings without a newline, the rule as written gives the same verdict as the intended rule. |
| Forms.TrailingNewlineAccepted | App_GameVerse/forms.py:15 | "abcdef1\n" is accepted as written but refused by the intended all-alphanumeric rule. |
| Forms.ParseMethod | App_GameVerse/forms.py:110-114 | Only the labels Tarjeta, Efectivo and Credito name a payment method. |
| Forms.MethodRoundTrip | App_GameVerse/forms.py:110-114 | Every payment method's label parses back to that method. |
| Forms.CleanPaymentForm | App_GameVerse/forms.py:109-134 | The form is valid iff the choice is one of the three labels, the phone has 1 to 15 characters and the address 1 to 200; the cleaned method is the chosen one. |
| Forms.Bounded | App_GameVerse/forms.py:143-144 | An integer field is accepted iff it is present and within its bounds, and is then unchanged. |
| Forms.Expired | App_GameVerse/forms.py:158 | For months 1 to 12, a card is expired iff its month, counted from year 0, comes before the current month. |
| Forms.ExpiryAccepts | App_GameVerse/forms.py:150-159 | The expiry rule is skipped when month or year is missing or zero. With both non-zero, a card is refused iff its year is past, or it is this year and the month is past. |
| Forms.CardFormValid | App_GameVerse/forms.py:140-161 | The card form is valid iff the holder has 1 to 100 characters, the number exactly 16, the month is 1–12, the year 2024–2100, the CVV 3 or 4 characters, and the card is not expired. |
| Forms.CurrentMonthAccepted | App_GameVerse/forms.py:157-159 | A card that expires in the current month is accepted; one that expired last month is refused. |
| Forms.CleanTopUpForm | App_GameVerse/forms.py:167-189 | The top-up form is valid iff the amount has two decimals and at most 10 digits, holder 1–100, number 1–20, CVV 1–4, month and year in range, and not expired; the cleaned amount is the one entered. |
| Forms.NegativeTopUpAccepted | App_GameVerse/forms.py:168 | A negative amount of -50.00 passes the top-up form: no lower bound is declared. |
| Forms.ParseRefundChoice | App_GameVerse/forms.py:192-197 | Only "credito" and "tarjeta" name a refund method. |
| Forms.CleanRefundFormAsWritten | App_GameVerse/forms.py:204-213 | The form's clean step fails with a missing key exactly when the method is missing or not one of the two choices. |
| Forms.CleanRefundForm | App_GameVerse/forms.py:191-213 | A refund to credit is accepted with no bank data; a refund to card is accepted iff holder, number and bank are all non-empty; every other form is rejected. |
| Forms.RefundFormKeyError | App_GameVerse/forms.py:204-213 | Wherever the clean step as written does not fail, it agrees with the corrected form; an empty form makes it fail. |
| Cart.SubtotalConcat | App_GameVerse/views.py:361 | The subtotal of two carts joined is the sum of their subtotals. |
| Cart.Subtotal | App_GameVerse/views.py:409 | The sum of every line's price: 0 for an empty cart, the price of a single line, and not negative when no price is. |
| Cart.CheckoutTotal | App_GameVerse/views.py:409-411 | The cash and credit total is the subtotal of all lines plus the tax on it. |
| Cart.CardTotal | App_GameVerse/views.py:521 | The card total carries no tax: 116 times it is 100 times the cash and credit total. |
| Cart.ListedLines | App_GameVerse/views.py:344-349 | The cart page lists exactly the lines with a product id, in order, and fails iff one of them is missing from the catalog. |
| Cart.Summarize | App_GameVerse/views.py:342-367 | The page fails iff a listed id is missing. Otherwise the subtotal is the sum of the listed lines, the tax is 16/100 of it, and the total is subtotal plus tax. |
| Cart.SummaryAgreesWithCheckout | App_GameVerse/views.py:342-367 | For a cart of catalog products, the page total is the cash or credit checkout total and the page subtotal is the card total; the former is 116/100 of the latter. |
| Cart.AddToCart | App_GameVerse/views.py:300-329 | An unknown product is a 404, an owned one or one already in the cart leaves the user unchanged. Otherwise exactly one line with the catalog name and price is appended at the end. |
| Cart.RemoveFromCart | App_GameVerse/views.py:379-394 | Removal drops every line with a non-zero requested id, keeps every other line (id-less lines always), adds none, and touches neither library nor balance. |
| Cart.RemoveKeepsOrder | App_GameVerse/views.py:388 | Removing from a cart split in two removes from each part and keeps their order. |
| Cart.RemoveAbsent | App_GameVerse/views.py:388 | Removing an id that is not in the cart changes nothing; removing id 0 changes nothing either, since id-less lines are kept. |
| Cart.RemoveIdempotent | App_GameVerse/views.py:388 | Removing the same id twice is the same as removing it once. |
| Cart.AddThenRemove | App_GameVerse/views.py:320-326 | Removing a catalog product (non-zero id) just added restores the user. |
| Cart.AddRaisesSubtotal | App_GameVerse/views.py:320-326 | A successful add raises the cart subtotal by the product's price. |
| Cart.StoreFlags | App_GameVerse/views.py:253-267 | A signed-in user's product is flagged owned iff the library has it and in cart iff the cart has it; an anonymous visitor gets neither flag. |
| Cart.Shelf | App_GameVerse/views.py:251 | The store shelf holds exactly the catalog products marked available. |
| Cart.AddAgreesWithFlags | App_GameVerse/views.py:253-267 | For a catalog product the add view's outcome matches the store flags: owned, then in cart, then added; after an add the product is flagged in cart and not owned. |
| Cart.AddKeepsConsistent | App_GameVerse/views.py:312-326 | Adding keeps a consistent user consistent: cart ids distinct, library ids distinct, nothing owned in the cart. |
| Cart.RemoveKeepsConsistent | App_GameVerse/views.py:388-391 | Removing keeps a consistent user consistent. |
| Checkout.FreshMembers | App_GameVerse/views.py:437-449 | The ids a checkout buys are exactly the cart's non-zero ids that were not owned before. |
| Checkout.FreshDistinct | App_GameVerse/views.py:442-449 | No id is bought twice, because the duplicate check sees entries appended earlier in the same loop. |
| Checkout.FreshAllNew | App_GameVerse/views.py:437-449 | A cart of distinct, unowned products is bought whole, in cart order. |
| Checkout.FreshNone | App_GameVerse/views.py:437-449 | A cart whose lines are all owned or id-less buys nothing. |
| Checkout.DetailsFor | App_GameVerse/views.py:444 | One purchase detail per bought id, in order, with the catalog name. |
| Checkout.EntriesFor | App_GameVerse/views.py:445-449 | One library entry per bought id, in order, with the catalog name and the request's timestamp. |
| Checkout.ScanCart | App_GameVerse/views.py:437-449 | The purchase loop only appends: the details and library it started with stay as a prefix, and it adds as many entries as details. |
| Checkout.ScanCartSpec | App_GameVerse/views.py:437-449 | The purchase loop 404s iff some listed id is missing from the catalog. Otherwise it appends the details and library entries of the fresh ids, in order, to what it started with. |
| Checkout.Commit | App_GameVerse/views.py:451-466 | After the loop: a 404 or an all-owned cart persists nothing. Otherwise the cart is emptied, the library gains the bought entries, the adjusted balance is kept, and a Completada purchase of the bought details is recorded. |
| Checkout.BuyCart | App_GameVerse/views.py:397-507 | An empty cart is turned away unchanged and only a recorded purchase changes the user. A GET or an invalid form shows the taxed total; card goes to the card page; credit below the total is refused unchanged. Cash, or credit that covers the total, runs the loop: a 404 iff a listed product is missing, nothing bought iff no cart product is new, and otherwise a purchase. Credit is then deducted by the total; cash keeps the balance. |
| Checkout.PayByCard | App_GameVerse/views.py:510-567 | An empty cart is turned away unchanged. A GET or an invalid card form shows the bare subtotal unchanged. A valid form runs the loop: a 404 iff a listed product is missing, nothing bought iff no cart product is new, and otherwise a purchase that keeps the balance. |
| Checkout.RecordedPurchase | App_GameVerse/models.py:95-111 | Every purchase either checkout view records has status Completada, the method the buyer chose, that view's total, and the bought products in cart order. |
| Checkout.CreditCheckout | App_GameVerse/views.py:430-466 | Credit checkout is refused, with the user unchanged, iff the balance is below the total; after a purchase the new balance is the old one less the total, and not negative. |
| Checkout.AllOwnedChangesNothing | App_GameVerse/views.py:496-497 | When every cart product is owned, cash checkout records nothing and leaves cart, library and balance unchanged. |
| Checkout.AllOwnedChangesNothingByCard | App_GameVerse/views.py:557-558 | The same holds for card checkout. |
| Checkout.BoughtMeansOwned | App_GameVerse/views.py:437-461 | After a purchase every product that was in the cart is owned and the cart holds none of them. |
| Checkout.CashBuysWholeCart | App_GameVerse/views.py:469-499 | Paying cash for a consistent cart of catalog products buys every line, in cart order, and keeps the balance. |
| Checkout.CommitKeepsConsistent | App_GameVerse/views.py:451-461 | A recorded purchase keeps a consistent user consistent. |
| Checkout.CheckoutKeepsConsistent | App_GameVerse/views.py:397-567 | Both checkout views keep a consistent user consistent. |
| Account.TopUp | App_GameVerse/views.py:651-667 | The balance is raised by the entered amount iff a valid top-up form is submitted; otherwise the user is unchanged. |
| Account.TopUpsCommute | App_GameVerse/views.py:658-661 | Two accepted top-ups give the same user in either order, with the balance raised by both amounts. |
| Account.TopUpCanGoNegative | App_GameVerse/views.py:655-661 | Submitting -50.00 lowers the balance by 50.00. |
| Account.WithoutProduct | App_GameVerse/views.py:688 | Removal leaves no entry for the product, keeps every other entry and adds none. |
| Account.WithoutProductKeepsOrder | App_GameVerse/views.py:688 | Removing from a library split in two removes from each part, so kept entries stay in order. |
| Account.WithoutProductSingle | App_GameVerse/views.py:688 | A single entry is dropped iff it carries the product. |
| Account.WithoutProductAbsent | App_GameVerse/views.py:688 | A library without the product is left as it is. |
| Account.ReturnProduct | App_GameVerse/views.py:670-710 | An unknown product is a 404; an unowned one is refused; both leave the user unchanged. A return goes through iff a POST names credito or tarjeta: all entries for the product go, credito adds the product's current price, tarjeta keeps the balance. Any other method persists nothing. |
| Account.ReturnKeepsConsistent | App_GameVerse/views.py:688-706 | A return keeps a consistent user consistent. |
| Account.ReturnNeverLowersCredit | App_GameVerse/views.py:692-693 | With no negative prices a return never lowers the balance. |
| Lifecycle.ViewsKeepConsistent | App_GameVerse/views.py:300-710 | A new user is consistent, and each of the add, remove, checkout, card, top-up and return views keeps a consistent user consistent. |
| Lifecycle.ReturnUndoesCashPurchase | App_GameVerse/views.py:469-499 | Buying one product for cash and returning it for credit restores the library and leaves the cart empty, with the balance raised by the product's price. |
| Lifecycle.BuySingleForCash | App_GameVerse/views.py:469-494 | Cash for a one-line cart of a new product empties the cart and appends exactly that product's entry, keeping the balance. |
| Lifecycle.CreditExample | App_GameVerse/views.py:409-435 | A 19.99 and a 9.99 line cost 34.7768 with tax. A balance of 50.00 pays and keeps 15.2232; a balance of 10.00 is refused. |
| Admin.Join | App_GameVerse/admin.py:54 | An empty list joins to the empty string and a single part to itself. |
| Admin.JoinLength | App_GameVerse/admin.py:54 | n parts join to their total length plus n − 1 separators. |
| Admin.JoinSnoc | App_GameVerse/admin.py:54 | Joining one more part appends the separator and that part. |
| Admin.ItemName | App_GameVerse/admin.py:53 | A detail gives its nombre when that is a string, and "Sin nombre" when the key is missing. It is unreadable iff it is not an object or its nombre is not a string. |
| Admin.ItemNames | App_GameVerse/admin.py:53 | All names are read, in order, iff every detail is readable. |
| Admin.FormatProducts | App_GameVerse/admin.py:48-56 | Empty details show "Sin productos". Readable details show their names joined by ", ". Any unreadable detail, a non-empty object or string, or a scalar shows "Error al leer productos". |
| Admin.DetailsShowNames | App_GameVerse/admin.py:48-56 | Details as a checkout records them show exactly the product names, in purchase order, joined by ", ". |

## Left out

- Rendering, redirects, flash messages and the session writes of the chosen method and total (App_GameVerse/views.py:419-420) are left out. Each view returns an outcome instead.
- Admin CRUD views, sign-up, login, account edit, password change, routing and the admin list settings are left out. They are framework plumbing.
- Float round trip of cart prices (App_GameVerse/views.py:323, 352) is left out. A cart line stores the two-decimal catalog price, assumed to survive `float` and `Decimal(str(...))` unchanged.
- Save-time quantisation is left out. Django rounds a four-decimal total or balance to two decimals when it saves a `DecimalField`. The model keeps the exact values the views compute.
- Account.TopUp: a new balance wider than the ten digits of `Usuario.credito` (App_GameVerse/models.py:76-78) is not refused. The database would reject the save, and the model has no save step that could fail.
- Checkout.Commit: a purchase total or a balance wider than ten digits (App_GameVerse/models.py:76-78, 105) is not refused, for the same reason.
- Catalog prices are two-decimal amounts of any size. The ten-digit bound of `Producto.precio` (App_GameVerse/models.py:40) is not imposed on the catalog.
- Models.CreditFieldValid: the declared minimum of zero is not a global invariant. `MinValueValidator` is not run on save, and a top-up can be negative (Account.TopUpCanGoNegative).
- `Compra` declares only Tarjeta as a payment choice. The views still record Credito and Efectivo, and the model follows the views.
- Checkout.EntriesFor: every entry of one request carries the same timestamp. The source reads the clock once per entry and formats it to the minute.
- Form fields are taken as already-parsed values. Django's stripping of surrounding spaces and the parsing of integers and decimals are left out. A missing integer field is `None`; a value 0 behaves like a missing one in the expiry rule, as Python's truthiness makes it.
- Forms.CheckPassword: `\d` in Python matches any Unicode digit. This only matters for strings with non-ASCII characters, which the character check has already refused.
- Admin.FormatProducts: the "Sin productos" text is stated for an empty list only. A list whose single name is literally "Sin productos" also shows it.
- Concurrency between requests on the same user, and image upload storage, are left out.
- Three behaviours of the code are modelled as they are:
  - the tax is never rounded;
  - a missing product aborts the whole request;
  - the return view reads the method directly and never checks bank details, since it does not use the refund form.

## Findings

| source | as written | input that shows it | evidently intended | confidence | as-written member | corrected member |
|---|---|---|---|---|---|---|
| App_GameVerse/forms.py:15 | `re.match` with a pattern ending in `$`; Python's `$` also matches just before a final newline | "abcdef1\n" is accepted | only ASCII letters and digits | not executed | Forms.CheckPasswordAsWritten, Forms.TrailingNewlineAccepted | Forms.CheckPassword |
| App_GameVerse/forms.py:207 | `data["metodo"]` is read by indexing; a missing or invalid method has already been dropped from the cleaned data | a form with an empty method raises KeyError instead of a validation error | reject the form with a validation error | not executed | Forms.CleanRefundFormAsWritten, Forms.RefundFormKeyError | Forms.CleanRefundForm |
