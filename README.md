# Storefront cart and checkout, modelled in Dafny

This project models the client-side logic of a spice and grocery storefront.
It has two parts.

- **The cart store** (`CartStore`, in `cart_store.dfy`). The cart is an ordered
  list of lines. Each line is a product snapshot and a quantity, and lines are
  keyed by product id. The store offers `addItem`, `removeItem`,
  `updateQuantity`, `clearCart` and `getTotalPrice`. After every change it
  writes the list to a storage slot, with the bigint fields `productId`,
  `categoryId` and `price` turned into decimal strings. On start it reads the
  slot back and falls back to an empty cart when the slot is absent or cannot
  be decoded. Each list transform is a pure function. The store itself is the
  class `CartProvider`, with an `items` field and a `stored` field.
- **The checkout page** (`Checkout`, in `checkout_page.dfy`). It holds the
  delivery-form validator with its field-to-message error map, the order
  payload built from the cart, and the rule that the cart is cleared only
  after the order has been placed.

Two helper modules model the JavaScript built-ins these rely on:

- `JsString` models `String.prototype.trim` (ECMAScript white space and line
  terminators) and the regular expression `/^\d{n}$/`.
- `JsBigInt` models `bigint.toString()` and `BigInt(string)` as StringToBigInt
  (section 7.1.14 of ECMA-262) defines it: surrounding white space is skipped,
  a blank string is zero, a decimal literal may carry a sign, `0x`/`0o`/`0b`
  literals are accepted, and anything else throws.

Money is exact integer paise. `Wrappers` holds the `Option` type.

In three places the code does less than a cart is usually expected to do, and the model follows the code:

- `addItem` does not check that the quantity is at least 1. So "all
  quantities are positive" is proved only for callers that pass at least 1
  (`AddKeepsQuantitiesPositive`). `AddAdmitsNonPositive` shows the unchecked
  case.
- Decoding does not remove duplicate ids. If the slot holds two lines for one
  product, `addItem` raises both of them, as the code's `map` does, and
  `updateQuantity` sets both. Id uniqueness is therefore stated as a property
  that the operations preserve, not as a fact about every state.
- The validator writes its "Phone number is required" and "PIN code is
  required" messages but never shows them. A blank phone or PIN code always
  fails the digit test that follows, and that test overwrites the message
  (`BlankDigitFieldsShowDigitMessage`).

## Model

| member | source | states |
|---|---|---|
| JsString.TrimEmptyIff | src/frontend/src/pages/CheckoutPage.tsx:41 | `value.trim()` is empty exactly when every character of the value is white space |
| JsString.TrimPadded | src/frontend/src/pages/CheckoutPage.tsx:43 | trimming removes any white space padding on both sides and leaves the inner text unchanged |
| JsBigInt.NatToDecimal | src/frontend/src/state/cartStore.tsx:49-51 | `toString` writes a non-empty string of ASCII digits that has no leading zero unless the value is 0 |
| JsBigInt.DecimalRoundTrip | src/frontend/src/state/cartStore.tsx:31-33 | `BigInt(n.toString())` returns exactly `n` for every integer, negative and arbitrarily large values included |
| JsBigInt.DecimalInjective | src/frontend/src/state/cartStore.tsx:49-51 | two different bigints never get the same stored string |
| JsBigInt.ParseRejectsNonDigit | src/frontend/src/state/cartStore.tsx:36-38 | a stored field such as "2.5", "0.5", "-2.5" or "+1e3", which starts like a decimal number (a digit or a sign, but not `0` followed by `x`, `o` or `b`) and holds a non-digit later, makes `BigInt` throw |
| CartStore.BumpQuantity | src/frontend/src/state/cartStore.tsx:61-65 | the merge keeps the length and every product; lines for the id gain `q`, and every other line keeps its quantity |
| CartStore.SetQuantity | src/frontend/src/state/cartStore.tsx:80-82 | the update keeps the length and every product; lines for the id get exactly `q`, and every other line keeps its quantity |
| CartStore.RemoveLine | src/frontend/src/state/cartStore.tsx:71-73 | the filter keeps exactly the lines of all other products; no line for the id remains; an absent id leaves the list identical |
| CartStore.AddMergesExisting | src/frontend/src/state/cartStore.tsx:59-66 | with unique ids, adding a product that has a line gives the old list with only that line's quantity raised by `q` |
| CartStore.AddAppendsNew | src/frontend/src/state/cartStore.tsx:67 | adding a product with no line appends `{product, quantity}` at the end; the earlier lines are the old list in order |
| CartStore.AddKeepsIdsUnique | src/frontend/src/state/cartStore.tsx:57-69 | `addItem` keeps ids unique, and afterwards the product has exactly one line |
| CartStore.AddTwice | src/frontend/src/state/cartStore.tsx:57-69 | adding a product twice equals adding it once with the summed quantity, and the first snapshot is the one kept |
| CartStore.AddKeepsQuantitiesPositive | src/frontend/src/state/cartStore.tsx:57-69 | quantities stay at least 1 when the caller passes at least 1 |
| CartStore.AddAdmitsNonPositive | src/frontend/src/state/cartStore.tsx:57-69 | the store accepts a quantity of 0 without a check, and the resulting line breaks the positive-quantity invariant |
| CartStore.RemoveKeepsOrder | src/frontend/src/state/cartStore.tsx:72 | removal distributes over concatenation, so the lines that are kept stay in their original order |
| CartStore.RemoveCutsLine | src/frontend/src/state/cartStore.tsx:71-73 | with unique ids, removal cuts out exactly the product's line: `items[..k] + items[k+1..]` |
| CartStore.RemoveKeepsInvariants | src/frontend/src/state/cartStore.tsx:71-73 | removal keeps ids unique and quantities positive |
| CartStore.UpdateNonPositiveRemoves | src/frontend/src/state/cartStore.tsx:75-79 | a quantity of zero or less gives exactly the result of `removeItem`, and no line for the id remains |
| CartStore.UpdateSetsQuantity | src/frontend/src/state/cartStore.tsx:80-82 | with unique ids and a positive quantity, the product's line gets that quantity (not the sum), and nothing else changes |
| CartStore.UpdateAbsentIsNoOp | src/frontend/src/state/cartStore.tsx:75-82 | updating an id that has no line leaves the list unchanged, whatever the quantity |
| CartStore.UpdateKeepsInvariants | src/frontend/src/state/cartStore.tsx:75-82 | updating keeps ids unique, and keeps quantities positive for any quantity passed |
| CartStore.TotalAppend | src/frontend/src/state/cartStore.tsx:89-91 | the total of two line lists placed one after the other is the sum of their totals |
| CartStore.TotalReplace | src/frontend/src/state/cartStore.tsx:89-91 | replacing one line changes the total by the new line's amount minus the old line's |
| CartStore.TotalAfterAddExisting | src/frontend/src/state/cartStore.tsx:57-66 | adding `q` units of a product already in the cart raises the total by `q` times the price on its existing snapshot |
| CartStore.TotalAfterAddNew | src/frontend/src/state/cartStore.tsx:67 | adding `q` units of a new product raises the total by `q` times its price |
| CartStore.TotalAfterRemove | src/frontend/src/state/cartStore.tsx:71-73 | removing a product lowers the total by that product's price times its quantity |
| CartStore.TotalExample | src/frontend/src/state/cartStore.tsx:89-91 | lines costing 10000×2 and 2550×1 total 22550 paise |
| CartStore.Encode | src/frontend/src/state/cartStore.tsx:45-53 | the write gives one record per line, in line order |
| CartStore.Decode | src/frontend/src/state/cartStore.tsx:27-35 | a successful read gives one line per record, in order, each the decoding of its record |
| CartStore.DecodeEncode | src/frontend/src/state/cartStore.tsx:26-34 | decoding the encoded list returns the same lines in the same order, with ids, categories and prices exactly restored |
| CartStore.LoadSaved | src/frontend/src/state/cartStore.tsx:21-55 | a cart written by the effect loads back as the same cart |
| CartStore.LargeIdSurvives | src/frontend/src/state/cartStore.tsx:31 | the id 9007199254740993, which a double cannot hold exactly, survives a save and a reload |
| CartStore.DecodeFailsIff | src/frontend/src/state/cartStore.tsx:24-38 | the read fails exactly when at least one record has a bigint field that does not parse |
| CartStore.LoadFallsBack | src/frontend/src/state/cartStore.tsx:21-41 | an absent slot, an unparsable slot, or a record that does not decode all start the cart empty |
| CartStore.CartProvider.constructor | src/frontend/src/state/cartStore.tsx:21-55 | the initial items are the loaded slot, and the slot is rewritten with their encoding |
| CartStore.CartProvider.Save | src/frontend/src/state/cartStore.tsx:43-55 | afterwards the slot stores the encoding of the current items |
| CartStore.CartProvider.AddItem | src/frontend/src/state/cartStore.tsx:57-69 | the new items are the old ones with the product merged or appended, and they are persisted |
| CartStore.CartProvider.RemoveItem | src/frontend/src/state/cartStore.tsx:71-73 | the new items are the old ones without the product's lines, and they are persisted |
| CartStore.CartProvider.UpdateQuantity | src/frontend/src/state/cartStore.tsx:75-83 | the new items are the removal when the quantity is zero or less and the absolute set otherwise, and they are persisted |
| CartStore.CartProvider.ClearCart | src/frontend/src/state/cartStore.tsx:85-87 | the cart is empty, its total is 0, and the slot stores the empty list |
| CartStore.CartProvider.GetTotalPrice | src/frontend/src/state/cartStore.tsx:89-91 | returns the cart's total in paise without changing the cart |
| Checkout.WriteErrors | src/frontend/src/pages/CheckoutPage.tsx:39-48 | each failing test writes its key, and the later digit test replaces the "required" message for phone and PIN code |
| Checkout.BuildErrors | src/frontend/src/pages/CheckoutPage.tsx:38-49 | the error map's keys are exactly the failing fields, and each carries the message that remains after the overwrites |
| Checkout.ErrorKeys | src/frontend/src/pages/CheckoutPage.tsx:39-51 | field by field, a key is present if and only if its rule fails |
| Checkout.ValidIffNoErrors | src/frontend/src/pages/CheckoutPage.tsx:38-51 | the error map is empty if and only if every rule holds |
| Checkout.WhiteSpaceIsRequired | src/frontend/src/pages/CheckoutPage.tsx:41-46 | a name, address, city or state made only of white space is reported as required under its own key |
| Checkout.BlankDigitFieldsShowDigitMessage | src/frontend/src/pages/CheckoutPage.tsx:42-48 | a blank phone shows 'Phone must be 10 digits' and a blank PIN code shows 'PIN code must be 6 digits'; the two "required" messages never appear |
| Checkout.PaddedDigitsPass | src/frontend/src/pages/CheckoutPage.tsx:43-48 | ten (or six) ASCII digits with white space on either side pass the phone (or PIN code) rule |
| Checkout.BlankIsEmptyTrim | src/frontend/src/pages/CheckoutPage.tsx:41 | testing for white space only is the same as `!value.trim()` |
| Checkout.OrderLines | src/frontend/src/pages/CheckoutPage.tsx:59-62 | the payload has one entry per cart line, in cart order, carrying that line's product id and quantity |
| Checkout.OrderLinesUnique | src/frontend/src/pages/CheckoutPage.tsx:59-62 | a cart with unique ids gives a payload with unique product ids |
| Checkout.CheckoutPage.constructor | src/frontend/src/pages/CheckoutPage.tsx:19-29 | the page starts with an empty form, cash on delivery and no errors |
| Checkout.CheckoutPage.ValidateForm | src/frontend/src/pages/CheckoutPage.tsx:38-52 | the page shows the form's error map and reports valid exactly when every rule holds |
| Checkout.CheckoutPage.HandleSubmit | src/frontend/src/pages/CheckoutPage.tsx:54-76 | an invalid form sends nothing; a valid one sends the cart's lines with the form and payment method; the cart is cleared only when placement succeeds and is untouched otherwise |

## Left out

- Storage I/O and JSON: `localStorage.getItem`/`setItem` and the JSON text are not modelled. The slot is an abstract value: absent (no key, or an empty string), unparsable, or a list of records whose bigint fields are strings and whose other fields are all present. The source falls back to an empty cart only in four cases: nothing is stored, `JSON.parse` throws, the parsed value has no `map` method, or a record has no `product` object or has a bigint field that `BigInt` rejects. The `Unparsable` case stands for the first three of these after a non-empty read.
- Stored records the model cannot represent: the source checks nothing else about a record. A record with a missing `quantity`, `name` or other field loads with `undefined` in that field. A record with a number or boolean in a bigint field loads too, since `BigInt(5)` is `5n` and `BigInt(true)` is `1n`. Such records are not representable in the model, so what the source does with them is not modelled.
- Extra stored fields: the object spread `...item` would carry any extra field in a stored record; records here have exactly the product's fields.
- CartStore.CartProvider.GetTotalPrice: returns the exact sum in paise, not the source's floating-point rupee sum (`Number(price) * quantity / 100`, accumulated in doubles). Floating-point rounding and the display division by 100 are not modelled.
- Quantities are integers. A JavaScript number quantity could be fractional or NaN, and would then make `BigInt(item.quantity)` in `handleSubmit` throw. Neither case is modelled.
- React behaviour: effect scheduling, batching of `setItems` updaters, the context lookup `useCart` (a throw outside the provider), and multi-tab last-write-wins are framework or concurrency behaviour.
- Checkout.CheckoutPage.HandleSubmit: the remote place-order call is the function parameter `placeOrder`. The wait between sending and the answer is not modelled, so the cart cannot change during it. Navigation, `e.preventDefault()`, the error log and the redirect of an empty cart to the cart page are left out as page glue.
- The remote query hooks, the backend interface, routing, identity gating and all presentational pages are outside this model.
- Strings are sequences of Unicode scalar values, not UTF-16 code units, so lone surrogates are not represented.
