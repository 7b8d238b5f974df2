# Retro Restaurant ordering core, in Dafny

This is a model of the ordering logic of the Retro Restaurant Streamlit app
(`chllange/attached_assets/Day_11_1758271893944.py`), with proofs about it. It covers:

- the fixed menu and its category filter;
- the session cart: add, update quantity, remove, clear, count and totals with 18% GST;
- phone number normalisation for WhatsApp;
- the order confirmation message and the `https://wa.me/` share link built from it;
- the checkout of the cart page, which validates the details, snapshots the cart into an
  order, stores it, builds the link and empties the cart;
- the review form's acceptance rule.

The modules are:

- `Results` holds `Option` and `Result`.
- `Text` holds the string helpers: digits, `str(int)`, `str.replace` on one character,
  ASCII upper-casing, and the `:.2f` / `:.1f` formats.
- `Catalog` holds the 24 menu items, the category, order type and payment method lists, the
  category filter and the lookup by id.
- `Phone` holds `normalize_phone`. `PhoneExamples` has worked inputs.
- `ShareLink` holds the message encoding, `get_whatsapp_url`, and a parser for the link that
  inverts it.
- `Pricing` holds cart lines, sums over a key order, and the GST rate.
- `Carts` models the cart dictionary as a map plus its insertion order, with the cart
  operations as functions on that value.
- `Orders` holds the order record and the loop that turns cart lines into order lines.
- `Message` holds `create_whatsapp_message`.
- `Reviews` holds the review record and the form's check.
- `Session` holds the checkout rules, the order a checkout records (`NewOrder`), and the
  class `AppSession`. Its fields are the menu, and the session's cart, orders, reviews and
  customer; its methods perform the page actions on them.

Money is modelled as follows:

- Prices, line totals and the subtotal are whole rupees (`int`). Every menu price is a whole
  number.
- The GST amount and the total are exact `real` values: subtotal × 18/100 and subtotal ×
  118/100.
- The two-decimal format rounds the exact value half away from zero. Every amount the app
  can produce is a multiple of 0.01, so no rounding actually happens.

## Model

| member | source | states |
|---|---|---|
| Catalog.CatalogIdsAreSerial | chllange/attached_assets/Day_11_1758271893944.py:64-172 | the i-th menu item has id "i+1" |
| Catalog.CatalogIdsUnique | chllange/attached_assets/Day_11_1758271893944.py:64-172 | no two menu items share an id |
| Catalog.NatToStringInjective | chllange/attached_assets/Day_11_1758271893944.py:64-172 | different numbers give different decimal ids |
| Catalog.CatalogCategoriesListed | chllange/attached_assets/Day_11_1758271893944.py:64-174 | every menu item's category is one of CATEGORIES |
| Catalog.CatalogPricesNonNegative | chllange/attached_assets/Day_11_1758271893944.py:64-172 | no menu price is negative |
| Catalog.FilterCategory | chllange/attached_assets/Day_11_1758271893944.py:430 | an item is in the filtered list iff it is in the menu with the chosen category; the list is no longer than the menu |
| Catalog.FilterCategoryCounts | chllange/attached_assets/Day_11_1758271893944.py:430 | each item of the chosen category appears as often as in the input, any other item not at all |
| Catalog.FilterCategoryOrdered | chllange/attached_assets/Day_11_1758271893944.py:430 | the filtered list is a subsequence of the input: the listing order is kept |
| Catalog.FilterCategorySingle | chllange/attached_assets/Day_11_1758271893944.py:430 | one item is kept exactly when it has the chosen category |
| Catalog.FilterCategoryAppend | chllange/attached_assets/Day_11_1758271893944.py:430 | filtering a concatenation concatenates the filtered parts, first part first |
| Catalog.MenuFor | chllange/attached_assets/Day_11_1758271893944.py:427-430 | "All" shows the whole menu; any other choice shows exactly the items of that category |
| Catalog.MenuForOrdered | chllange/attached_assets/Day_11_1758271893944.py:427-430 | every choice lists items in menu order; a category choice shows each of its items as often as the menu lists it, and nothing else |
| Catalog.FindItem | chllange/attached_assets/Day_11_1758271893944.py:290 | None iff no item has the id; otherwise a listed item with that id, and it is the first item with that id |
| Catalog.FindItemUnique | chllange/attached_assets/Day_11_1758271893944.py:290 | with unique ids, looking up an item's id returns that very item |
| Catalog.CatalogLookup | chllange/attached_assets/Day_11_1758271893944.py:290 | looking up the id of any menu item finds that item |
| Phone.DigitsAreDigits | chllange/attached_assets/Day_11_1758271893944.py:265 | stripping non-digits leaves only digits and never lengthens the string |
| Phone.DigitsAppend | chllange/attached_assets/Day_11_1758271893944.py:265 | the digits of a concatenation are the concatenated digits |
| Phone.DigitsOfDigits | chllange/attached_assets/Day_11_1758271893944.py:265 | an all-digit string is unchanged by stripping |
| Phone.Normalize | chllange/attached_assets/Day_11_1758271893944.py:262-275 | succeeds iff the input has 10 to 15 digits; the result is all digits with length 10..15; it is "91" + digits for a 10-digit number not starting with "91", else the digits; the failure message is "Invalid phone number format" |
| Phone.NormalizeIdempotent | chllange/attached_assets/Day_11_1758271893944.py:262-275 | normalising a normalised number gives it back |
| Phone.NormalizeIgnoresNonDigits | chllange/attached_assets/Day_11_1758271893944.py:265 | only the digits of the input affect the outcome |
| Phone.NormalizeDigitString | chllange/attached_assets/Day_11_1758271893944.py:267-275 | a 10..15-digit string normalises to itself, with "91" in front when needed |
| PhoneExamples.NormalizeTenDigits | chllange/attached_assets/Day_11_1758271893944.py:268-269 | "9876543210" becomes "919876543210" |
| PhoneExamples.NormalizeFormatted | chllange/attached_assets/Day_11_1758271893944.py:265-275 | "+91 98765 43210" becomes "919876543210" |
| PhoneExamples.NormalizeStripsLetters | chllange/attached_assets/Day_11_1758271893944.py:265-269 | "abc9876543210" becomes "919876543210" |
| PhoneExamples.NormalizeTooShort | chllange/attached_assets/Day_11_1758271893944.py:272-273 | "123" is refused with the format error |
| PhoneExamples.NormalizeLeading91 | chllange/attached_assets/Day_11_1758271893944.py:268 | a 10-digit number beginning with "91" is kept as it is, with no country code added |
| ShareLink.EncodeEscapesEachChar | chllange/attached_assets/Day_11_1758271893944.py:309 | the three chained replacements escape each newline, space and '*' on its own, character by character |
| ShareLink.EncodeHasNoEscapedChars | chllange/attached_assets/Day_11_1758271893944.py:309 | an encoded message has no newline, space or '*' left |
| ShareLink.DecodeEncode | chllange/attached_assets/Day_11_1758271893944.py:309 | decoding the encoding gives the message back, for a message that has no "%0A", "%20" or "%2A" of its own |
| ShareLink.EncodeNotInjective | chllange/attached_assets/Day_11_1758271893944.py:309 | "%20" and " " encode alike, because '%' is not escaped |
| ShareLink.ShareUrl | chllange/attached_assets/Day_11_1758271893944.py:306-310 | fails exactly when the phone does not normalise, with the same message; otherwise the link is "https://wa.me/" + the normalised number + "?text=" + the encoded message |
| ShareLink.ShareUrlExample | chllange/attached_assets/Day_11_1758271893944.py:306-310 | "9876543210" with the text "a b" gives "https://wa.me/919876543210?text=a%20b" |
| ShareLink.LeadingDigitsOf | chllange/attached_assets/Day_11_1758271893944.py:310 | the phone digits of a link end where "?text=" starts |
| ShareLink.ParseAssembled | chllange/attached_assets/Day_11_1758271893944.py:310 | a link made of a digit string and an encoded text parses back into the digit string and the decoded text |
| ShareLink.ShareUrlRoundTrip | chllange/attached_assets/Day_11_1758271893944.py:306-310 | for a phone that normalises and a message with no "%0A", "%20" or "%2A" of its own, the link parses back to the normalised phone and, once decoded, the message |
| Pricing.SumByAppend | chllange/attached_assets/Day_11_1758271893944.py:253 | appending a key adds its line's share to a cart sum |
| Pricing.SumByUpdate | chllange/attached_assets/Day_11_1758271893944.py:253 | replacing one line changes a cart sum by the difference of the two lines |
| Pricing.SumByRemove | chllange/attached_assets/Day_11_1758271893944.py:253 | deleting one key subtracts exactly its line from a cart sum |
| Pricing.CountAtLeastLines | chllange/attached_assets/Day_11_1758271893944.py:258-260 | when every quantity is at least 1, the item count is at least the number of lines |
| Pricing.TotalIsSubtotalWithTax | chllange/attached_assets/Day_11_1758271893944.py:251-256 | total = subtotal × 1.18 and GST × 100 = subtotal × 18 |
| Carts.CountBounds | chllange/attached_assets/Day_11_1758271893944.py:258-260 | the item count is at least the number of lines, and 0 exactly when the cart is empty |
| Carts.EmptyCart | chllange/attached_assets/Day_11_1758271893944.py:247-249 | the cleared cart is well formed, with count 0 and subtotal 0 |
| Carts.Add | chllange/attached_assets/Day_11_1758271893944.py:226-232 | the id is in the cart afterwards; a stored line gains 1 and keeps its item; a new line has quantity 1 and goes last in the key order; other lines are untouched |
| Carts.AddSpec | chllange/attached_assets/Day_11_1758271893944.py:226-232 | adding keeps the cart well formed, raises the count by 1, and raises the subtotal by the stored item's price (or the new item's price) |
| Carts.Remove | chllange/attached_assets/Day_11_1758271893944.py:242-245 | the id's line is gone; the other lines are kept; an absent id changes nothing |
| Carts.RemoveSpec | chllange/attached_assets/Day_11_1758271893944.py:242-245 | removing keeps the cart well formed and lowers the count and the subtotal by the removed line |
| Carts.RemoveIdempotent | chllange/attached_assets/Day_11_1758271893944.py:242-245 | removing twice is removing once |
| Carts.SetQuantity | chllange/attached_assets/Day_11_1758271893944.py:234-240 | a quantity of at most 0 removes the line; a positive one replaces the stored quantity in place; a positive one for an absent id is the error case |
| Carts.SetQuantitySpec | chllange/attached_assets/Day_11_1758271893944.py:234-240 | an update keeps the cart well formed; for a positive quantity the count and the subtotal move by the difference |
| Carts.SetSameQuantity | chllange/attached_assets/Day_11_1758271893944.py:234-240 | setting a line's current quantity leaves the cart as it was |
| Carts.AddThenRemove | chllange/attached_assets/Day_11_1758271893944.py:226-245 | adding a new item and then removing it restores the cart, key order included |
| Carts.RemoveKeyLast | chllange/attached_assets/Day_11_1758271893944.py:232-245 | deleting the key just appended restores the key order |
| Orders.LineFor | chllange/attached_assets/Day_11_1758271893944.py:589-594 | an order line's total is its unit price times its quantity |
| Orders.LinesTotalMatches | chllange/attached_assets/Day_11_1758271893944.py:585-601 | the order lines built from a cart add up to the cart's subtotal |
| Orders.OrderLinesSpec | chllange/attached_assets/Day_11_1758271893944.py:585-594 | one order line per cart entry, in the cart's order, copying id, quantity and price, with total = price × quantity; the lines add up to the cart sum |
| Orders.LinesMatchUnique | chllange/attached_assets/Day_11_1758271893944.py:585-594 | only one list of order lines matches a cart's entries in order |
| Orders.BuildOrderLines | chllange/attached_assets/Day_11_1758271893944.py:585-594 | the loop yields exactly the order lines of the cart's entries, in the cart's order |
| Orders.ShownRateIsConfigured | chllange/attached_assets/Day_11_1758271893944.py:294 | for an order taxed at 18%, the rate recomputed from the stored amounts is 18, including the zero-subtotal fallback |
| Orders.ChickenBiryaniExample | chllange/attached_assets/Day_11_1758271893944.py:251-256 | two Chicken Biryanis at 240 give subtotal 480, GST 86.4 and total 566.4 |
| Message.LabelAt | chllange/attached_assets/Day_11_1758271893944.py:284-285 | each character of a label is its source character upper-cased, with '-' turned into a space; the length is unchanged |
| Message.LabelExamples | chllange/attached_assets/Day_11_1758271893944.py:284-285 | "dine-in", "takeaway" and "upi-gpay" show as "DINE IN", "TAKEAWAY" and "UPI GPAY" |
| Message.ItemNameResolves | chllange/attached_assets/Day_11_1758271893944.py:290-291 | an item line shows the menu name for a menu id |
| Message.ItemNameFallback | chllange/attached_assets/Day_11_1758271893944.py:291 | an id on no menu item shows as "Item" |
| Message.ItemLinesSnoc | chllange/attached_assets/Day_11_1758271893944.py:288-292 | one more order line appends exactly one item line, numbered after the others |
| Message.ItemLinesSplit | chllange/attached_assets/Day_11_1758271893944.py:288-292 | the item lines split at any point, with the numbering carried on |
| Message.ItemLinesAt | chllange/attached_assets/Day_11_1758271893944.py:288-292 | the k-th order line appears as the item line numbered k+1 |
| Message.AppendItemLines | chllange/attached_assets/Day_11_1758271893944.py:287-292 | the loop appends the enumerated item lines, numbered from 1 |
| Message.CreateMessage | chllange/attached_assets/Day_11_1758271893944.py:277-304 | the accumulated text is exactly header, numbered item lines, bill summary and footer |
| Message.ShownRateText | chllange/attached_assets/Day_11_1758271893944.py:294-297 | an order taxed at 18% shows "GST (18.0%)" |
| Reviews.CheckReview | chllange/attached_assets/Day_11_1758271893944.py:659-663 | accepted iff the name is non-empty and the comment has at least 10 characters; missing fields iff the name or comment is empty; too short iff the comment has 1..9 characters |
| Reviews.Submit | chllange/attached_assets/Day_11_1758271893944.py:659-674 | an accepted review goes in at index 0 in front of the old list; a refused one changes nothing |
| Reviews.SubmitKeepsAcceptable | chllange/attached_assets/Day_11_1758271893944.py:659-674 | if every stored review passed the check, they still do after a submission |
| Reviews.CommentLengthBoundary | chllange/attached_assets/Day_11_1758271893944.py:661-663 | a 9-character comment is too short; a 10-character one is accepted |
| Session.CheckoutProblem | chllange/attached_assets/Day_11_1758271893944.py:565-573 | (with the empty-cart early return of lines 490-492) no problem iff the cart is non-empty, the name and phone are given and the phone normalises; an empty cart comes first, missing details next |
| Session.CheckoutPossible | chllange/attached_assets/Day_11_1758271893944.py:567-572 | a phone that normalises is never empty, so the phone-given check is implied |
| Session.NewOrderSpec | chllange/attached_assets/Day_11_1758271893944.py:585-606 | the order snapshots the cart: one line per cart line in order; subtotal = Σ line totals = cart subtotal; GST × 100 = subtotal × 18; total = subtotal + GST; the message shows "GST (18.0%)" |
| Session.ShareOrder | chllange/attached_assets/Day_11_1758271893944.py:612-614 | the message is the order's bill message and the link is the share link of that message to the phone |
| Session.AppSession.constructor | chllange/attached_assets/Day_11_1758271893944.py:179-188 | empty cart and customer; orders and reviews as loaded |
| Session.AppSession.CartCount | chllange/attached_assets/Day_11_1758271893944.py:258-260 | the count is the sum of the quantities over the cart's lines; it is at least the number of lines, and 0 exactly when the cart is empty |
| Session.AppSession.CartTotals | chllange/attached_assets/Day_11_1758271893944.py:251-256 | the subtotal is Σ price × quantity over the cart's lines; GST is 18% of the subtotal and the total is subtotal plus GST |
| Session.AppSession.AddToCart | chllange/attached_assets/Day_11_1758271893944.py:226-232 | the cart becomes `Add` of the old cart and stays well formed; the count rises by one |
| Session.AppSession.UpdateCartQuantity | chllange/attached_assets/Day_11_1758271893944.py:234-240 | the cart becomes `SetQuantity` of the old cart; on the error case it is unchanged and the method reports it |
| Session.AppSession.RemoveFromCart | chllange/attached_assets/Day_11_1758271893944.py:242-245 | the cart becomes `Remove` of the old cart |
| Session.AppSession.ClearCart | chllange/attached_assets/Day_11_1758271893944.py:247-249 | the cart is empty; count and subtotal are 0 |
| Session.AppSession.PlaceOrder | chllange/attached_assets/Day_11_1758271893944.py:575-617 | the customer is replaced, the order built from the old cart (`NewOrder`) is appended to the history, and the cart is emptied |
| Session.AppSession.Checkout | chllange/attached_assets/Day_11_1758271893944.py:565-617 | refused exactly when `CheckoutProblem` reports one, and then nothing changes; otherwise the customer is replaced, the order `NewOrder` of the old cart (see `Session.NewOrderSpec`) is appended, the message is that order's bill message, the link is the share link of the message, and the cart is emptied |
| Session.AppSession.SubmitReview | chllange/attached_assets/Day_11_1758271893944.py:659-674 | the verdict is `CheckReview`'s and the review list becomes `Submit` of the old one |

## Left out

- Loading and saving `orders.json` / `reviews.json` happen in lines 190-224. The stores are
  in-memory sequences. The loaded contents are constructor parameters. A save is a step that
  cannot fail (the source swallows every exception), so it is not modelled.
- `uuid.uuid4()` and `datetime.now()` are parameters of `Checkout` and `SubmitReview`.
- Streamlit rendering is not modelled: pages, columns, widgets, `st.rerun`, the hero and
  contact pages, and the cart counts shown in the UI. The rating radio's 1..5 range is a
  widget property, so `SubmitReview` takes any integer rating.
- The review average (line 641) is not modelled, because it is floating-point display.
- Floating point is not modelled. Prices are whole rupees. GST and total are exact reals.
  `:.2f` / `:.1f` round the exact value half away from zero. Binary-float effects of the
  source's `float` arithmetic are not modelled: the stored `gstAmount` of a 480-rupee order
  is the binary double computed for `480 * 0.18`, and no double equals 86.4 exactly, while
  the model stores 86.4 itself.
- `Message.Label`: upper-casing covers ASCII `a`-`z` only, not Python's full Unicode
  `str.upper`. The order types and payment methods are ASCII.
- `Message.CreateMessage` takes the menu as a parameter. The session passes `Catalog.MenuItems`,
  which the source reads as a global.
- `ShareLink.DecodeEncode`: the round trip is proved only for messages that contain no
  "%0A", "%20" or "%2A" themselves. The source does not escape '%', so the encoding is not
  injective (`ShareLink.EncodeNotInjective`).
- The "Failed to place order" branch (lines 632-633) catches any other exception. Nothing
  the model performs after validation can fail, so that branch is not reachable in the model.
- The cart is a value `Carts.Cart` held in a field of the session. The in-place
  `quantity += 1` on the shared line dictionary is modelled as replacing the line. No other
  object refers to it, so aliasing does not arise.
