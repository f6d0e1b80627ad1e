# Storefront core in Dafny

This project models the server-side rules of an online thangka storefront and the two small rule sets on its client. It proves properties of the model.

- **Cart document.** A per-user list of lines `{product, quantity, price}` with derived money fields. The operations add, remove, update a quantity, clear, and summarise.
- **Cart routes.** Each loads the user's cart or creates it lazily. Loading drops lines whose product has become unavailable. The routes check a request against the product catalog before changing the cart.
- **Order document.** Its closed enumerations and defaults, its totals, and the status timeline shown to customers.
- **Product document and routes.** Rating aggregation (one rating per user, appended, then the mean and count are recomputed), the discount percentage, the listing's pagination arithmetic, and field normalisation on create and update.
- **Post routes.** Like toggling, adding and deleting comments, author-only update and delete, and the defaults on create.
- **Checkout form.** The required-field scan, the e-mail pattern, and the order data built once the form passes.
- **Authentication reducer.** The initial state and the reducer over `{token, isAuthenticated, loading, user}`.

Documents the handlers change in place are classes: `Cart`, `Order`, `Product` and `Post`. Their methods carry `modifies` clauses and state the whole new state, mostly through specification functions on sequences, such as `AddLine`, `RemoveLines`, `UpdatedLines`, `Reconciled`, `ToggledLikes` and `CommentRemoval`. Lemmas about those functions carry the promised properties.

Other modelling conventions:
- A handler's lookup that finds nothing is a `null` reference.
- A handler's answer is `Reply<T>`: `Ok(value)`, or `Fail(status, message)` with the HTTP status.
- The product catalog is a map from product id to `Product` object.
- Money is an integer number of cents. The mean rating is a `real`.

Modules, one per source file plus three shared ones:

| file | module | models |
|---|---|---|
| common.dfy | `Common` | `Option`, `Reply`, identifiers, `parseInt(x) \|\| d` and `s \|\| d` |
| text.dfy | `Text` | JavaScript white space, `trim`, one-character `split`, tag lists, the e-mail pattern |
| line_items.dfy | `LineItems` | the line item shared by carts and orders, its sums, the product filter |
| cart.dfy | `CartModel` | server/models/Cart.js |
| cart_routes.dfy | `CartRoutes` | server/routes/cart.js |
| order.dfy | `OrderModel` | server/models/Order.js |
| product.dfy | `ProductModel` | server/models/Product.js |
| product_routes.dfy | `ProductRoutes` | server/routes/products.js |
| posts.dfy | `Posts` | server/routes/posts.js |
| checkout.dfy | `Checkout` | client/src/components/checkout/Checkout.js |
| auth.dfy | `Auth` | client/src/context/AuthContext.js |

## Model

| member | source | states |
|---|---|---|
| Common.FirstIndex | server/routes/posts.js:242 | the position found holds the first element passing the test; none iff no element passes |
| Common.FirstIndexAt | server/routes/posts.js:254 | an element passing the test with none passing before it is the one found |
| Common.IntOr | server/routes/products.js:45-46 | `parseInt(x) \|\| d`: the fallback, or the parsed value when it is non-zero; a non-zero fallback gives a non-zero result, and a non-zero parse is kept |
| Text.LeadingSpaces | client/src/components/checkout/Checkout.js:60 | counts the white space that starts the string: every counted character is white space and the next one is not |
| Text.TrailingSpaces | client/src/components/checkout/Checkout.js:60 | counts the white space that ends the string: every counted character is white space and the one before is not |
| Text.TrimmedEnd | client/src/components/checkout/Checkout.js:60 | where the trimmed part ends: never before the leading white space, only white space after it, and the character before it is not white space unless the string is all white space |
| Text.Trim | client/src/components/checkout/Checkout.js:60 | the result is one contiguous slice of the input with only white space before and after it; neither end of the result is white space; the result is empty iff the input is all white space |
| Text.TrimKeepsTrimmed | client/src/components/checkout/Checkout.js:60 | trimming a string without white space at either end gives it back |
| Text.Split | server/routes/posts.js:28 | a split has at least one piece and no piece contains the separator |
| Text.JoinSplit | server/routes/posts.js:28 | joining the pieces of a split with the separator restores the string |
| Text.SplitPiece | server/routes/posts.js:28 | a separator-free string splits to itself |
| Text.SplitAtSeparator | server/routes/posts.js:28 | a separator-free prefix followed by the separator is split off as the first piece |
| Text.SplitJoin | server/routes/posts.js:28 | splitting a join of separator-free pieces gives the pieces back |
| Text.SplitTags | server/routes/products.js:180 | a missing or empty field gives no tags; otherwise tag i is the trim of the i-th comma-separated piece, so each tag is trimmed and comma-free |
| Text.TrimAll | server/routes/products.js:180 | the i-th result is the trim of the i-th piece, and there are as many results as pieces |
| Text.TrimmedPieces | server/routes/products.js:180 | trimming comma-free pieces gives comma-free pieces that trim to themselves |
| Text.TrimmedPiece | server/routes/products.js:180 | trimming is idempotent and introduces no comma |
| Text.TagsAfterUpdate | server/routes/products.js:229 | a missing or empty tags field keeps the stored tags; otherwise the tags are exactly `SplitTags` of the field: tag i is the trim of the i-th comma-separated piece, trimmed and comma-free |
| Text.TagsRoundTrip | server/routes/posts.js:28 | a list of trimmed, comma-free tags written with commas reads back as the same list |
| Text.WordsHaveShape | client/src/components/checkout/Checkout.js:66-67 | a match of the pattern has no white space and exactly one `@` |
| Text.ShapeHasWords | client/src/components/checkout/Checkout.js:66-67 | a string of that shape matches the pattern |
| Text.EmailPatternShape | client/src/components/checkout/Checkout.js:66-67 | the pattern matches iff the string has no white space, exactly one `@` with something before it, and a `.` after the `@` with a character on each side |
| LineItems.SubtotalAppend | server/models/Cart.js:52 | the subtotal of a concatenation is the sum of the subtotals |
| LineItems.SubtotalUpdate | server/models/Cart.js:52 | replacing one line changes the subtotal by the difference of the two line totals |
| LineItems.TotalQuantityBound | server/models/Cart.js:107 | with every quantity at least 1, the unit count is at least the line count, and it is 0 iff there are no lines |
| LineItems.Retain | server/models/Cart.js:76 | the filter never grows the list and every line it keeps passes the test |
| LineItems.RetainMembers | server/models/Cart.js:76 | a line is kept iff it was there and passes; positive quantities stay positive |
| LineItems.RetainDistinct | server/models/Cart.js:76 | filtering never makes two lines name the same product |
| LineItems.RetainKeepsAll | server/routes/cart.js:23-27 | a filter every line passes returns its input |
| LineItems.RetainShortens | server/routes/cart.js:23-27 | a filter some line fails returns fewer lines |
| LineItems.RetainAppend | server/models/Cart.js:76 | the filter distributes over concatenation, so kept lines stay in order |
| LineItems.RetainAll | server/routes/cart.js:23-27 | the filter returns its input iff every line passes; a filter that keeps the length changes nothing |
| LineItems.RetainIdempotent | server/routes/cart.js:23-25 | filtering twice by the same test is filtering once |
| LineItems.SumLines | server/models/Cart.js:52 | the loop's sum equals the left fold of price times quantity |
| LineItems.Subtotal | server/models/Cart.js:52 | no lines give 0; lines with non-negative totals give a non-negative subtotal |
| LineItems.TotalQuantity | server/models/Cart.js:107 | no lines give 0 units; non-negative quantities give a non-negative count |
| CartModel.FindLine | server/models/Cart.js:59 | returns the first line for the product, or none iff no line names it |
| CartModel.AddLine | server/models/Cart.js:58-69 | a present product gains `quantity` on its first line, keeping its price and the line count; an absent one gets one new line at the end; no other line changes; distinct products and positive quantities are kept |
| CartModel.RemoveLines | server/models/Cart.js:75-78 | a line is kept iff it was there and does not name the product; the list never grows |
| CartModel.RemoveLinesSpec | server/models/Cart.js:75-78 | after a removal no line names the product, other lines are kept in order, and removing an absent product changes nothing |
| CartModel.UpdatedLines | server/models/Cart.js:81-91 | an absent product leaves the lines as they are; a positive quantity keeps the line count; a quantity of 0 or less keeps exactly the lines for other products |
| CartModel.UpdateToZeroIsRemove | server/models/Cart.js:84-86 | a quantity of 0 or less gives the same lines as removing the product, present or not |
| CartModel.UpdatePositiveSetsQuantity | server/models/Cart.js:87 | a positive quantity on a present product sets only that line's quantity and keeps the line count |
| CartModel.AddLineSubtotal | server/models/Cart.js:58-72 | an add raises the subtotal by quantity times the stored snapshot price, or times the given price for a new product |
| CartModel.AddTwiceOneLine | server/models/Cart.js:58-69 | adding a new product twice gives one line holding both quantities at the first price |
| CartModel.Cart.constructor | server/models/Cart.js:3-48 | a new cart is empty, its money fields are 0, its currency is `USD`, and it is valid |
| CartModel.Cart.CalculateTotals | server/models/Cart.js:51-55 | the subtotal is the sum of the line totals and the total adds shipping and tax; the lines, shipping, tax and currency stay |
| CartModel.Cart.AddItem | server/models/Cart.js:58-72 | the lines become `AddLine` of the old lines, the cart stays valid, and shipping, tax and currency stay |
| CartModel.Cart.RemoveItem | server/models/Cart.js:75-78 | the lines become `RemoveLines` of the old lines and the cart stays valid |
| CartModel.Cart.UpdateQuantity | server/models/Cart.js:81-91 | the lines become `UpdatedLines` of the old lines; the cart stays valid; a product not in the cart leaves the whole document unchanged |
| CartModel.Cart.ClearCart | server/models/Cart.js:94-101 | no lines, and subtotal, shipping, tax and total are all 0 |
| CartModel.Cart.GetSummary | server/models/Cart.js:104-114 | reports the line count, the unit count and the stored money fields; in a valid cart there are at least as many units as lines, and no units iff no lines |
| CartRoutes.Available | server/routes/cart.js:23-25 | a product is available iff it exists, is active and has stock above 0 |
| CartRoutes.Reconciled | server/routes/cart.js:23-30 | a line is kept iff it was there and its product is available; the list never grows |
| CartRoutes.ReconciledSpec | server/routes/cart.js:23-30 | loading keeps exactly the lines of available products, in order; a line is dropped iff its product is unavailable; a reconciled cart reconciles to itself |
| CartRoutes.GetCart | server/routes/cart.js:12-37 | no stored cart gives a new empty one in `USD` with subtotal, shipping, tax and total all 0; otherwise the lines become the reconciled lines, shipping, tax and currency stay, and the cart stays valid; a cart with nothing to drop is untouched |
| CartRoutes.AddCheck | server/routes/cart.js:44-64 | accepted iff the id is given, the quantity is at least 1, and the product exists, is active and has stock of at least the requested quantity; 404 exactly for a missing or inactive product; an accepted check carries the current price |
| CartRoutes.AddToCart | server/routes/cart.js:42-79 | a refused add touches no cart; an accepted one adds to the user's cart at the current price; a new cart has no shipping or tax and is in `USD`, an existing one keeps its shipping, tax and currency |
| CartRoutes.AddMayExceedStock | server/routes/cart.js:62 | a cart already holding an active product's whole stock still accepts one more unit, and the line then exceeds the stock |
| CartRoutes.UpdateCheck | server/routes/cart.js:86-108 | accepted iff the id is given, the quantity is at least 0, a cart exists, and a positive quantity finds the product with enough stock; 404 exactly for a missing cart |
| CartRoutes.UpdateCart | server/routes/cart.js:84-118 | the outcome is `UpdateCheck`; a refused update leaves the cart unchanged; an accepted one applies `UpdatedLines`, keeps shipping, tax and currency, and keeps the cart valid |
| CartRoutes.RemoveFromCart | server/routes/cart.js:123-138 | 404 iff there is no cart; otherwise every line for the product goes, and shipping, tax and currency stay |
| CartRoutes.ClearCart | server/routes/cart.js:143-156 | 404 iff there is no cart; otherwise no lines, all money fields 0, and the currency stays |
| CartRoutes.CartSummary | server/routes/cart.js:161-181 | no cart gives all zeros in `USD`; otherwise the stored cart's own summary; either way there are at least as many units as lines, and no units iff no lines |
| OrderModel.ParsePaymentMethod | server/models/Order.js:63-67 | exactly the three method names are accepted, each as the method it names |
| OrderModel.ParsePaymentStatus | server/models/Order.js:68-73 | exactly the five payment status names are accepted |
| OrderModel.ParseOrderStatus | server/models/Order.js:99-104 | exactly the six order status names are accepted |
| OrderModel.Timeline | server/models/Order.js:133-170 | the length is one for the placed step when the creation time is set, plus the stage of the status; the first entry is "Order Placed" dated at creation; then come the confirmed, shipped and delivered steps as far as the stage reaches, each with its label and its description and dated at the last update |
| OrderModel.TimelineLength | server/models/Order.js:144-167 | with the creation time set: 1 entry for pending or cancelled, 2 for confirmed or processing, 3 for shipped, 4 for delivered |
| OrderModel.TimelinePrefix | server/models/Order.js:144-167 | a status no further along has a prefix of the other's timeline |
| OrderModel.TimelineMonotone | server/models/Order.js:144-167 | timelines grow along the fulfilment path, and every timeline is a prefix of the delivered one |
| OrderModel.Order.GetStatusTimeline | server/models/Order.js:133-170 | the entries pushed are exactly `Timeline` of the order's status and dates |
| OrderModel.Order.constructor | server/models/Order.js:3-123 | a new order has pending payment and order status, no shipping or tax, `USD`, is not a gift, and has positive quantities and a complete address |
| OrderModel.Order.CalculateTotals | server/models/Order.js:126-130 | the subtotal is the sum of the line totals and the total adds shipping and tax; nothing else changes, and the order is valid after iff it was before |
| ProductModel.ParseCategory | server/models/Product.js:27-31 | exactly the six category names are accepted, each as the category it names |
| ProductModel.ParseCondition | server/models/Product.js:65-69 | no value gives `Good`; exactly the four condition names are accepted |
| ProductModel.RatingSum | server/models/Product.js:137 | no ratings sum to 0; non-negative ratings have a non-negative sum |
| ProductModel.MeanRating | server/models/Product.js:132-140 | no ratings give mean 0; otherwise the mean times the count is the rating sum |
| ProductModel.RatingSumBounds | server/models/Product.js:93-97 | ratings of 1 to 5 sum to between one and five times their number |
| ProductModel.MeanRatingBounds | server/models/Product.js:132-140 | no ratings give mean 0; a non-empty list of ratings of 1 to 5 has a mean between 1 and 5 |
| ProductModel.RatingSumAppend | server/models/Product.js:137 | appending a rating adds its value to the sum |
| ProductModel.Discount | server/models/Product.js:145-150 | 0 unless the original price is set, non-zero and above the price; otherwise the integer within one half of the percentage saved, halves rounding up; between 0 and 100 when the price is at least 0 |
| ProductModel.Product.constructor | server/models/Product.js:3-129 | a new product holds the given fields, including the active and featured flags, is valid, and has no ratings, mean 0 and count 0 |
| ProductModel.Product.CalculateAverageRating | server/models/Product.js:132-142 | the mean is the rating sum over the count (0 for none) and the count is the list length; nothing else changes |
| ProductModel.Product.DiscountPercentage | server/models/Product.js:145-150 | a valid product's discount lies in 0..100 |
| ProductRoutes.CeilDiv | server/routes/products.js:80 | the least integer at or above the exact quotient |
| ProductRoutes.CeilAbove | server/routes/products.js:80 | for a positive divisor, the negated floor of the negated quotient is the least integer at or above the quotient |
| ProductRoutes.CeilBelow | server/routes/products.js:80 | the same for a negative divisor, where the bounds flip |
| ProductRoutes.ListProducts | server/routes/products.js:45-90 | a page or limit that parses to a non-zero number is used as sent, a missing or zero page is 1 and limit is 12; skip is (page−1)·limit; totalPages is the rounded-up quotient `CeilDiv(total, limit)`; has-previous iff page > 1; has-next iff page < totalPages |
| ProductRoutes.PaginationMeaning | server/routes/products.js:71-89 | with a positive limit, totalPages pages hold all products and one fewer would not; has-next iff products remain after this page |
| ProductRoutes.PageWindow | server/routes/products.js:80-88 | for a positive limit, the rounded-up page count holds all products and one page fewer would not, and a page precedes the last iff its window ends before the last product |
| ProductRoutes.PageBeforeLast | server/routes/products.js:88 | a page precedes the last iff its window ends before the last product |
| ProductRoutes.NewProductData | server/routes/products.js:140-191 | accepted iff the price is at least 0, the category is known, images are uploaded, the stock is at least 0, the original price, when sent, parses and is at least 0 and the condition is known; a bad price, category or no images is 400, the rest `Fail(500, "Server error")`; otherwise stock 0 or NaN becomes 1, tags are split and trimmed, the size unit is the flat field, else the nested one, else `cm`, the condition is the one named or `Good`, active defaults to true and featured to false, images are the uploads |
| ProductRoutes.CreateProduct | server/routes/products.js:168-186 | fails exactly as the normalisation does; otherwise a new valid product with the normalised fields, the flags as sent or defaulted, and no ratings |
| ProductRoutes.MergeImages | server/routes/products.js:207-211 | no uploads keep the images; otherwise the uploads come last, after nothing when `replaceImages` is `'true'` and after the existing images otherwise |
| ProductRoutes.UpdateProduct | server/routes/products.js:202-235 | 404 iff no product; otherwise images merged, tags re-split when given, price, original price, stock, flags, category and condition set when sent and kept otherwise, a sent size sets the unit (default `cm`), ratings kept; a valid product stays valid iff the sent numbers are at least 0 |
| ProductRoutes.SetMedia | server/routes/products.js:207-211 | the images and tags part of an update, every other field kept |
| ProductRoutes.SetFields | server/routes/products.js:213-227 | the body fields of an update: each sent field written, each other one kept, the size unit as `UnitAfterUpdate` |
| ProductRoutes.UnitAfterUpdate | server/routes/products.js:218-223 | no `size` object keeps the stored unit; a sent one sets its unit, or `cm` when that is empty or missing |
| ProductRoutes.RatingCheck | server/routes/products.js:267-288 | accepted iff the rating is 1..5, the review is at most 500 characters, the product exists and the user has not rated it; 404 only for a missing product after valid input |
| ProductRoutes.RatingReply | server/routes/products.js:269-300 | accepted iff `RatingCheck` accepts and the product is within the schema's bounds; a refusal by the checks is that refusal; a product out of bounds is refused by the final save with `Fail(500, "Server error")` |
| ProductRoutes.SecondRatingRejected | server/routes/products.js:281-288 | once a user's rating is accepted, the next valid rating by that user is refused as a duplicate |
| ProductRoutes.SubmitRating | server/routes/products.js:265-302 | the outcome is `RatingReply`, for any product whose rating fields agree; a refused rating, including a product out of bounds, leaves the product unchanged; an accepted one is appended at the end, the mean and count are recomputed over the list including it, the product is valid, and every other field stays |
| ProductRoutes.RateTwice | server/routes/products.js:281-288 | rating the same product twice: if the first succeeds, the second is refused with 400 |
| Posts.Post.constructor | server/routes/posts.js:25-32 | a new post has the given fields and no likes or comments |
| Posts.CreatePost | server/routes/posts.js:12-42 | 400 iff title or content is empty; tags split and trimmed or none; image defaults to the empty string, `isPublished` to false |
| Posts.UpdatePost | server/routes/posts.js:100-136 | 404 for no post, 401 (unchanged) for a non-author; title, content and tags set only when non-empty; image and `isPublished` whenever given; likes and comments stay |
| Posts.DeletePost | server/routes/posts.js:141-163 | 404 for no post, 401 for a non-author, the store unchanged on both; otherwise exactly that post leaves the store |
| Posts.LikeCount | server/routes/posts.js:177 | a user's like count is 0 iff the user has no like |
| Posts.WithoutLikesOf | server/routes/posts.js:179 | keeps exactly the other users' likes, each user's count unchanged |
| Posts.WithoutLikesAppend | server/routes/posts.js:179 | the filter works piece by piece over concatenation, so the kept likes stay in their order |
| Posts.WithoutOne | server/routes/posts.js:179 | a single like is kept iff it is by another user |
| Posts.WithoutLikesLength | server/routes/posts.js:179 | the filter drops exactly as many likes as the user had |
| Posts.ToggleLikeSpec | server/routes/posts.js:177-183 | the like flips, the user holds at most one like, other users' likes stay, and two toggles from "not liked" restore the list |
| Posts.ToggledLikes | server/routes/posts.js:176-182 | the user's like is present after iff it was absent before; every other user's like count stays; a new like goes in front of the old likes, in their order; removing makes the list shorter |
| Posts.WithoutAbsent | server/routes/posts.js:179 | removing the likes of a user without any changes nothing |
| Posts.ToggleLike | server/routes/posts.js:168-191 | 404 iff no post; otherwise the likes become the toggled likes and nothing else changes |
| Posts.AddComment | server/routes/posts.js:196-228 | 400 for empty text, 404 for no post, 500 without a profile; otherwise the new comment, signed with the full name, goes in front, the old comments follow in order, and title, content, tags, image, publication and likes stay |
| Posts.FindComment | server/routes/posts.js:242 | the position found holds a comment with the id and no earlier one has it; none iff no comment has it |
| Posts.FirstCommentBy | server/routes/posts.js:254 | the position found holds a comment by the user and no earlier one is by the user; none iff the user has no comment |
| Posts.CommentRemoval | server/routes/posts.js:242-255 | 404 when no comment has the id, 401 when it is someone else's; otherwise exactly one comment, the requester's first, is removed and the rest keep their order |
| Posts.RemovedCommentPosition | server/routes/posts.js:254-255 | the removed comment is never after the requested one, and it is the requested one iff the requester has no earlier comment |
| Posts.DeleteTakesFirstOwnComment | server/routes/posts.js:254-255 | with two comments by the requester, deleting the second by id removes the first |
| Posts.DeleteComment | server/routes/posts.js:233-263 | 404 for no post; otherwise the comment removal, stored on success with title, content, tags, image, publication and likes kept, and the post unchanged on failure |
| Checkout.FieldIndex | client/src/components/checkout/Checkout.js:58 | each field's position in the fixed checking order |
| Checkout.FieldLabel | client/src/components/checkout/Checkout.js:61 | the field name shown in the message: non-empty, only lower-case letters and spaces, never starting or ending with a space |
| Checkout.FieldLabelsDistinct | client/src/components/checkout/Checkout.js:61 | different fields are reported under different labels |
| Checkout.FormCheck.Message | client/src/components/checkout/Checkout.js:61-70 | no message iff the form passes; a blank field's message is the fixed prefix followed by the field's label |
| Checkout.MessagesDistinct | client/src/components/checkout/Checkout.js:61-70 | different refusals show different messages |
| Checkout.RequiredFieldsDistinct | client/src/components/checkout/Checkout.js:58 | each field appears once in the checking order |
| Checkout.TrimmedEmpty | client/src/components/checkout/Checkout.js:60 | a field counts as blank iff it trims to nothing |
| Checkout.AllFilledRequired | client/src/components/checkout/Checkout.js:58-64 | every field is filled in iff none of the required fields is blank |
| Checkout.FirstBlankField | client/src/components/checkout/Checkout.js:58-64 | the first blank field found is blank, so the form is not all filled in, and every field checked before it is filled in |
| Checkout.Validation | client/src/components/checkout/Checkout.js:57-73 | passes iff all nine fields are filled in and the e-mail matches; a blank field reported is preceded only by filled-in ones; the e-mail is refused only when all fields are filled in |
| Checkout.ValidateForm | client/src/components/checkout/Checkout.js:57-73 | the early-return scan gives exactly `Validation` |
| Checkout.FilledAddressComplete | client/src/components/checkout/Checkout.js:85 | a fully filled-in form is an address with every required field |
| Checkout.CheckoutOrderData | client/src/components/checkout/Checkout.js:75-91 | order data exists iff the form passes; it copies the cart's lines and money fields, uses the form as the address, and sets `stripe` as the payment method |
| Auth.InitialState | client/src/context/AuthContext.js:6-11 | the stored token or null; authentication unknown (null); loading; no user |
| Auth.Reduce | client/src/context/AuthContext.js:13-46 | USER_LOADED authenticates, stops loading and sets the user; login or register success copies the payload and authenticates; the four failures clear token, user and authentication; other keys stay; unknown actions change nothing |
| Auth.FailureIdempotent | client/src/context/AuthContext.js:31-42 | after one failure or logout, any further one changes nothing |
| Auth.SessionEnds | client/src/context/AuthContext.js:22-42 | a failure after a login leaves no token, no user and no authentication |
| Auth.LoadedKeepsToken | client/src/context/AuthContext.js:6-21 | loading the user from the initial state keeps the stored token and authenticates |

## Code over design

The storefront's documented design and its code disagree in two places. The model follows the code.
- **Stock check on add.** The design asks that the stock cover the quantity already in the cart plus the requested quantity. The code compares the stock with the requested quantity only (server/routes/cart.js:62). `CartRoutes.AddCheck` models the code, and `CartRoutes.AddMayExceedStock` shows a line that then exceeds the stock.
- **Updating an absent product.** The design asks that an update of a product not in the cart fail as not found. The code succeeds without changing anything (server/models/Cart.js:90). `CartModel.Cart.UpdateQuantity` states that outcome.

The comment deletion removes the requester's first comment, which need not be the one whose id was given (server/routes/posts.js:254-255). The model keeps this. `Posts.DeleteTakesFirstOwnComment` exhibits it, and `Posts.RemovedCommentPosition` says when the two coincide.

## Left out

- Persistence is not modelled: `save`, `populate`, `findOne`, `findById`, `findByIdAndUpdate` and `remove`. A lookup result is an object or `null`; posts are a map for deletion.
- The authentication and admin middleware, and the server error branches (500) the model does not name, are not modelled.
- Request parsing is not modelled. `parseInt`/`parseFloat` results are given as `Option<int>`, with `None` for NaN. The create route's original price is the exception: it is parsed only when sent non-empty, so it is an `Option<Option<int>>` whose `Some(None)` is a sent but unparsable value, which the store refuses with 500. Money is whole cents, and IEEE rounding is not reproduced.
- For validator checks on fields the model does not carry, the model keeps only the checks on its own fields. Those fields are name, description, material, technique, artist, origin, size width and height, and shipping weight. A validation failure is reduced to one status and message, not the validator's error array.
- Product update: the fields the model carries are written as sent. Shipping weight, size width and height, name, description and the other body keys the spread copies are not modelled. The update runs no schema validators, so `ProductRoutes.UpdateProduct` states that a valid product stays valid exactly when the sent numbers are at least 0. Values the store would fail to cast, and category or condition names outside the enumerations, cannot be expressed in the request type.
- ProductRoutes.UpdateProduct: a present but empty `tags` field is treated as absent, whereas the spread would store it as given; a body carrying the rating fields is not modelled, so the ratings, mean and count are stated unchanged.
- Image uploads: the upload configuration and URL generation are file I/O. Uploads are given as their URL strings.
- The listing's database query is not modelled: filters, search, sort and the page of products returned. Only the pagination arithmetic is modelled.
- The single-product, featured and delete routes for products, and the list routes for posts, are plain queries. They are not modelled.
- ProductRoutes.RatingCheck: the review limit counts Unicode scalar values, as the validator's length check does for surrogate pairs. Recent validator versions also leave the variation selectors U+FE0E and U+FE0F out of the count; the model counts them, so a review padded with them can be refused here and accepted there.
- CartModel.Cart.AddItem: requires a quantity of at least 1, as the add route guarantees. The method's default quantity of 1 is not modelled, because the routes always pass one.
- Comment ids, rating dates and document timestamps are opaque values passed in. The model does not set `createdAt` or `updatedAt`.
- The commenting user's profile is an `Option` given to `Posts.AddComment`. Looking it up is not modelled.
- The read-then-write race between the stock check and the cart update is not modelled; every handler runs alone.
- Order creation, payment and status transitions are not modelled, because no code shown performs them.
- In the reducer, browser storage and request-header side effects are not modelled, nor are the asynchronous `loadUser`, `login` and `register` calls. The stored token is a parameter of `Auth.InitialState`.
- Auth.Reduce: a payload that is not an object contributes no properties when spread. The code throws on a null payload for a login or register success, and a string payload would spread its characters; neither is modelled.
- The checkout page's toasts, navigation and simulated payment delay are not modelled. `Checkout.FormCheck.Message` gives the toast text.
