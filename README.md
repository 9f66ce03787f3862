# Storefront cart and checkout, modelled in Dafny

This project models the core of a small demo storefront.

**The Express/Mongoose server** (`backend/server.js`) lists a product catalog and seeds it with ten fixed products the first time it is read. It keeps one shopping cart for a single mock user, and it places orders. It has these routes:

- `GET /api/products` lists the catalog.
- `GET /api/cart` returns the cart, creating an empty one if needed.
- `POST /api/cart` adds a product to the cart.
- `DELETE /api/cart/:id` removes a line from the cart.
- `PUT /api/cart/:id` sets a line's quantity.
- `POST /api/checkout` places an order and empties the cart.

**The React checkout form** (`frontend/src/components/CheckoutForm.jsx`) holds a name field and an email field. While the user types, it clears that field's error. It validates both fields before handing them to the caller. The email check is the unanchored pattern `\S+@\S+\.\S+`.

## Files

- `wrappers.dfy`: the `Option` type. A missing request field is modelled as `None`.
- `jsarray.dfy`: models of `Array.prototype.findIndex` (`FindIndex`) and of the `filter` that drops matching elements (`FilterOut`), with their laws.
- `backend.dfy`: the server's data, line by line:
  - the records `Product`, `LineItem`, `Order` and `Receipt`;
  - the seed table;
  - a `Cart` class whose fields `items` and `subTotal` are updated in place;
  - a `Server` class holding the catalog, the mock user's cart (`null` until first created) and the orders, with one method per route.
  - Every cart-changing method keeps the invariant `Cart.Valid()`:
    - the subtotal equals the sum of the line totals;
    - no product has two lines (for requests that use the canonical product id; see "Left out");
    - every quantity is at least 1.
  - Three client methods (`AddScenario`, `UpdateScenario`, `CheckoutScenario`) and `SeedOnce` state, as verified assertions, what the routes do on concrete data:
    - two headphones at 2999 give a single line of 5998;
    - raising it to three gives 8997;
    - checking out gives the order id `ORD-<stamp>-<suffix>` and leaves the cart empty;
    - listing the catalog twice seeds it only once.
- `checkout_form.dfy`: the form component:
  - ECMAScript white space, `trim` (`Trim`) and the email pattern.
  - The pattern is defined twice and the two definitions are proved equivalent: `MatchesEmailPattern` says which strings match, and `TestEmail` scans for a match, as a regex engine does.
  - The validation result is a function, `Validate`.
  - A `Form` class holds `formData` and `errors`, with `HandleChange`, `ValidateForm` and `HandleSubmit`.

Things the program gets from outside are parameters in the model:

- the ObjectIds Mongo assigns: the ten catalog ids for `ListProducts`, and a new line's id for `AddItem`;
- `Date.now()` and `Math.random()`: the stamp and suffix for `Checkout`;
- the order date (`now`).

Two behaviours of the code that a reader might not expect, both modelled as written:

- when a product already has a cart line, `POST /api/cart` recomputes that line's total from the catalog's `product.price` (server.js:232), not from the price stored in the line. Because catalog products are never changed, the two prices always agree here;
- the server's check on the customer's name and email (server.js:412) only rejects values that are missing or empty. A name made of spaces passes. Only the client form (CheckoutForm.jsx:30-38) rejects blank values.

`AcceptableFieldsNonEmpty` shows that whatever the form submits also passes the server's check.

## Model

| member | source | states |
|---|---|---|
| JsArray.FindIndex | backend/server.js:225-227 | the result is -1 exactly when no element has the key; otherwise it is the first index whose element has the key |
| JsArray.FilterOut | backend/server.js:321 | the result keeps exactly the elements whose key differs, and is no longer than the input |
| JsArray.FilterOutConcat | backend/server.js:321 | filtering a concatenation is the concatenation of the filtered parts |
| JsArray.FilterOutAbsent | backend/server.js:321 | when no element has the key, filtering returns the sequence unchanged |
| JsArray.FilterOutIdempotent | backend/server.js:321 | removing the same id twice is the same as removing it once |
| JsArray.FilterOutLength | backend/server.js:321 | the length is unchanged exactly when no element has the key |
| Backend.SumTotals | backend/server.js:245 | the subtotal `reduce`: a left fold adding each line's total to 0; the cart invariant and the checkout total are stated through it (no contract of its own, see the lemmas below) |
| Backend.SumTotalsBounds | backend/server.js:245 | with no negative line totals the subtotal is not negative and is at least every single line's total |
| Backend.SumTotalsAppend | backend/server.js:245 | the subtotal reduce distributes over concatenation of line lists |
| Backend.SumTotalsUpdate | backend/server.js:379 | replacing one line changes the subtotal by the difference of that line's totals |
| Backend.FindProduct | backend/server.js:212-218 | the product found has the requested id; none is found exactly when no catalog product has it |
| Backend.SeedRow | backend/server.js:89-170 | seed row n has id n and a positive price |
| Backend.SeedPrice | backend/server.js:89-170 | every seed price is positive |
| Backend.SeedProducts | backend/server.js:88-172 | the seed is ten products with ids 1 to 10, positive prices and the given ObjectIds, row by row from the fixed table |
| Backend.NewLine | backend/server.js:235-241 | a new line refers to the product, copies its price and has total price × quantity |
| Backend.OnlyLineOfProduct | backend/server.js:225-232 | when no product is on two lines, the line `findIndex` finds for a product is that product's only line, so updating it updates the product's whole quantity |
| Backend.FilterOutKeepsDistinct | backend/server.js:321 | removing lines keeps every product on at most one line |
| Backend.AppendKeepsDistinct | backend/server.js:224-241 | appending a line for a product not yet in the cart keeps every product on at most one line |
| Backend.Cart.Valid | backend/server.js:43-63 | the cart invariant every cart method keeps: the subtotal is the sum of the line totals, no product is on two lines, and every quantity is at least 1 (no contract of its own) |
| Backend.Cart.Create | backend/server.js:249-259 | the cart is created holding the given lines and subtotal |
| Backend.Cart.IncreaseLine | backend/server.js:231-232 | only line k changes: its quantity grows by q and its total is the new quantity × the unit price; the subtotal is still the sum of the totals |
| Backend.Cart.Push | backend/server.js:235-245 | the line is appended and the subtotal grows by its total; the cart invariant is kept |
| Backend.Cart.SetQuantity | backend/server.js:376-379 | only line k changes: it gets quantity q and total = its stored price × q; the subtotal is still the sum of the totals |
| Backend.Cart.RemoveLines | backend/server.js:321-324 | the lines become the filtered lines and the subtotal their sum; an absent id leaves the cart unchanged |
| Backend.Cart.Clear | backend/server.js:436-439 | the cart has no lines and subtotal 0 |
| Backend.AddFieldsMissing | backend/server.js:196 | a request passes the test of `!productId` and `!qty` exactly when both fields are present and the quantity is non-zero, so a quantity of 0 is reported as missing |
| Backend.QuantityInvalid | backend/server.js:351 | a quantity passes exactly when it is present and at least 1 |
| Backend.BlankField | backend/server.js:412 | a name or email passes exactly when it is present and has at least one character, white space included |
| Backend.ReceiptOf | backend/server.js:442-450 | the receipt repeats the order's id, customer name and email, items, total and date, with the message "Thank you for your order!" |
| Backend.OrderId | backend/server.js:423 | the order id is "ORD-" followed by the time stamp, "-" and the random suffix |
| Backend.Server.constructor | backend/server.js:66-78 | an empty database: no products, no cart for the mock user, no orders |
| Backend.Server.ListProducts | backend/server.js:83-189 | an empty catalog is seeded with the fixed ten products; a non-empty one is returned unchanged, so listing is idempotent; status 200 with the catalog |
| Backend.Server.GetCart | backend/server.js:280-304 | an existing cart is returned unchanged; otherwise an empty cart (no lines, subtotal 0) is created and returned; status 200 |
| Backend.Server.AddItem | backend/server.js:192-277 | 400 when the id or quantity is missing or zero, 400 when the quantity is negative, 404 for an unknown product, with nothing changed; otherwise 201, and the cart is created holding one line, or the product's line grows, or a new line is appended, with the subtotal kept equal to the sum |
| Backend.Server.RemoveItem | backend/server.js:307-343 | 404 without a cart; otherwise the lines with that id are removed and 200 returns the cart; an absent id changes nothing |
| Backend.Server.UpdateItem | backend/server.js:346-398 | 400 for a missing or non-positive quantity, 404 without a cart or without the line, with nothing changed; otherwise only that line is updated from its stored price, and 200 |
| Backend.Server.Checkout | backend/server.js:401-465 | 400 for a missing or empty item list, 400 for a missing or empty name or email, with nothing changed; otherwise one order with the submitted lines and their summed total is appended, the cart (if any) becomes empty, and the 201 receipt repeats the order's id, customer, items, total and date |
| Backend.AddScenario | backend/server.js:192-277 | adding two of a 2999 product to a new cart gives the single line with total 5998 |
| Backend.UpdateScenario | backend/server.js:346-398 | a quantity of 0 is refused; setting that line to 3 gives total 8997 |
| Backend.SeedOnce | backend/server.js:83-189 | listing an empty catalog gives the ten seeded products, the first priced 2999, and listing again gives the same response |
| Backend.CheckoutScenario | backend/server.js:401-465 | checking out the line of total 8997 gives a 201 receipt with total 8997 and id "ORD-1700000000000-K3Q9Z", records that order, and leaves the cart empty |
| CheckoutForm.TrimStart | frontend/src/components/CheckoutForm.jsx:30 | the result is a suffix of the input starting with non-space, and everything dropped is white space |
| CheckoutForm.TrimEnd | frontend/src/components/CheckoutForm.jsx:30 | the result is a prefix of the input ending with non-space, and everything dropped is white space |
| CheckoutForm.TrimEmptyIffBlank | frontend/src/components/CheckoutForm.jsx:30-34 | trimming leaves nothing exactly when every character is white space |
| CheckoutForm.Trim | frontend/src/components/CheckoutForm.jsx:30 | `trim()` is empty exactly when the string is blank |
| CheckoutForm.TrimKeepsEnds | frontend/src/components/CheckoutForm.jsx:34 | a non-empty trimmed string starts and ends with a non-space character |
| CheckoutForm.DottedRunSound | frontend/src/components/CheckoutForm.jsx:36 | a successful scan for `\S+\.\S` yields a non-space run ending in a '.' followed by non-space |
| CheckoutForm.DottedRunComplete | frontend/src/components/CheckoutForm.jsx:36 | such a run is always found by the scan |
| CheckoutForm.TestFromSound | frontend/src/components/CheckoutForm.jsx:36 | a successful scan yields a match of `\S+@\S+\.\S+` at the position found |
| CheckoutForm.TestFromComplete | frontend/src/components/CheckoutForm.jsx:36 | every match is found by a scan starting at or before its '@' |
| CheckoutForm.TestFromIff | frontend/src/components/CheckoutForm.jsx:36 | the scan from the start succeeds exactly when the pattern matches somewhere |
| CheckoutForm.TestEmail | frontend/src/components/CheckoutForm.jsx:36 | `test` is true exactly when some substring is non-space, '@', non-space, '.', non-space |
| CheckoutForm.PatternSurvivesPadding | frontend/src/components/CheckoutForm.jsx:36 | the pattern is unanchored: a matching string still matches with text added before or after |
| CheckoutForm.Text | frontend/src/components/CheckoutForm.jsx:19-37 | only the cleared message has empty text, so an error is "showing" exactly when it is not cleared |
| CheckoutForm.WithField | frontend/src/components/CheckoutForm.jsx:14-17 | the edited field takes the new value and the other field keeps its value |
| CheckoutForm.Validate | frontend/src/components/CheckoutForm.jsx:28-39 | the `newErrors` object: a name entry is always "Name is required", an email entry is "Email is required" or "Email is invalid", and no entry is the cleared message |
| CheckoutForm.ValidateMessages | frontend/src/components/CheckoutForm.jsx:27-39 | a name error exactly for a blank name, "Name is required"; an email error exactly for a blank or non-matching email, "Email is required" when blank and otherwise "Email is invalid" |
| CheckoutForm.ValidateEmptyIff | frontend/src/components/CheckoutForm.jsx:27-41 | the error object is empty exactly when the name is non-blank and the email is non-blank and matches |
| CheckoutForm.AcceptableFieldsNonEmpty | frontend/src/components/CheckoutForm.jsx:30-38 | an accepted form has a non-empty name and an email of at least five characters, so it passes the server's presence check |
| CheckoutForm.Form.constructor | frontend/src/components/CheckoutForm.jsx:5-10 | the form starts with empty fields and no errors |
| CheckoutForm.Form.HandleChange | frontend/src/components/CheckoutForm.jsx:12-25 | the edited field gets the value and the other field is kept; that field's error is cleared if one is showing, and the errors are otherwise unchanged |
| CheckoutForm.Form.ValidateForm | frontend/src/components/CheckoutForm.jsx:27-42 | the stored errors become the validation result, and the result is true exactly when there are none, that is when the form is acceptable |
| CheckoutForm.Form.HandleSubmit | frontend/src/components/CheckoutForm.jsx:44-49 | the form data is submitted exactly when it is acceptable, and the errors are refreshed |

## Left out

- MongoDB, Express and `cors`/`body-parser` plumbing, the connection and `app.listen`. The model replaces the collections with the `Server` fields, and mock-user lookups with the single `cart` field.
- `populate('items.productId')`. Responses carry the cart's lines with product ids, not the populated product documents.
- The 500 error paths. Mongoose schema validation is not modelled either, including validation of the line items submitted to checkout and the `min: 1` quantity rule. A database failure or a failed validation cannot occur in the model.
- JavaScript type coercion. `Number(qty)` of a string, `NaN`, fractional quantities and non-string names or emails are outside the model. Quantities are integers, and a missing field is `None`. The model treats a quantity of 0 as falsy, matching `!qty`.
- Backend.Server.ListProducts: takes exactly ten ObjectIds, which stand for the ids `insertMany` assigns. It does not require them to be distinct, and nothing in the model relies on it. The `count` field of the response is the length of `data` and is not stored separately.
- Backend.Server.Checkout: the order id is built from the given stamp and suffix. `Date.now()`, `Math.random().toString(36)` and the uniqueness of order ids are not modelled.
- The `GET /api/health` route. It has no state and no logic.
- Concurrency between routes is not modelled: each route runs to completion on its own.
- React rendering and the rest of the client (`App.jsx`, `Cart.jsx`, `ReceiptModal.jsx`, `ProductGrid.jsx`). `e.preventDefault()` is left out as well.
- CheckoutForm.Form.HandleChange: it reads the errors as they are when it runs. React's batching of `setErrors` and `setFormData`, and the stale `errors` closure, are not modelled.
- Unicode: strings are modelled as sequences of Unicode code points (Dafny's `char`), while JavaScript strings are UTF-16 code units. A lone surrogate cannot be represented, and a character outside the Basic Multilingual Plane is one `char` where JavaScript counts two. `trim` and `\s` are modelled on the ECMAScript white-space and line-terminator characters. All of these lie in the Basic Multilingual Plane, so the results of trimming and of the email pattern are unaffected. There is no normalisation.
- Product ids are compared as values. `Product.findById` (server.js:212) casts the request's id to an ObjectId, but `findIndex` (server.js:226) compares `item.productId.toString()` with the request's string. A non-canonical spelling of an existing id, such as upper-case hex, therefore finds the product but misses its line, and a second line for the same product is pushed (server.js:235). The model does not capture this. Its invariant that no product is on two lines holds only for requests that use the canonical id, which is what the client sends.
