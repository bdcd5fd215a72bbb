# teddy-cheff cart, checkout and login model

This project is a Dafny model of the in-memory bookkeeping in `aa.js`, the only
script of a small food-ordering website. It proves properties of that model.
The model covers:

- **Cart store** (`cart.dfy`, module `Cart`). The cart is an ordered list of
  `{name, price, quantity}` lines keyed by name. `CartStore` is a class whose
  `items` field stands for the global `cart` variable. Its methods `Add`,
  `Remove`, `UpdateQuantity` and `Clear` are proved against the reference
  functions `Added`, `Removed` and `Updated`, which are defined item by item.
  Lemmas prove what those functions do:
  - the candidate shapes of each operation;
  - preservation of the invariant (names unique, quantities at least 1) by any
    sequence of actions (`Run`);
  - how the two totals move under each operation. The totals are the sidebar's
    sum of price × quantity and the badge's sum of quantities.
- **Order summary** (`summary.dfy`, module `OrderSummary`). This is the
  confirmation page's breakdown. There is one line per cart item, then the
  subtotal, the fixed delivery fee of 50 and the final total. An empty cart
  gets no summary; the page redirects to the menu instead.
- **Telebirr phone normaliser** (`phone.dfy`, module `Phone`). It keeps only
  the ASCII digits and at most the first ten of them.
- **Payment validation** (`payment.dfy`, module `Payment`). This is the submit
  handler's chain of checks over address, payment choice, phone, bank name and
  account number. It also holds the five-entry bank-code table.
- **Access gate and login** (`session.dfy`, module `Session`).
  `checkAuthentication` decides whether to redirect to the login page, redirect
  to the menu, or proceed. The login form accepts any pair of non-empty fields.
- **Handlers** (`checkout.dfy`, module `Checkout`). These are the checkout
  button, the order submit and cancel handlers, and logout. They are methods
  that clear the cart only where the script does.

Browser calls become inputs and outputs:

- the answers to confirmation dialogs are boolean parameters;
- the current form values and the page name are string parameters;
- redirects are returned outcome values;
- `saveCart` has no observable effect on the model.

Prices are non-negative integers (BIRR), not floating-point numbers.
Quantities are unbounded integers, so the invariant "quantity ≥ 1" is a real
claim: `updateQuantity` may add any delta.

Behaviour of the script worth noting; the model follows the code:

- Removing a name filters out every item with that name (`cart.filter`), not
  just one. Under the invariant there is only one.
- The submit handler checks only that the phone field has length 10. It does
  not check for digits. The field is all digits only because the input handler
  normalises it. `Payment.NormalizedPhoneAccepted` proves the combined
  behaviour: acceptance exactly when the typed text holds at least ten digits.
- JavaScript's `length` counts UTF-16 code units, so an astral character such
  as an emoji counts twice. The model's `Payment.Utf16Length` counts the same
  way, and `Payment.AstralPhoneAccepted` shows a nine-character value that the
  length check accepts. Stripping non-digits gives the same result per
  character as per code unit, because both halves of an astral character are
  non-digits.
- For a bank transfer, the value of the payment radio button is the bank code
  itself (`cbe`, `awash`, …). The bank name is looked up with that value. Any
  value other than `telebirr` and `cash` is treated as a bank transfer.
- A stored cart that cannot be parsed is not turned into an empty cart.
  `JSON.parse` throws on it.

## Model

| member | source | states |
|---|---|---|
| Cart.Find | aa.js:102 | the first index whose item has the given name, and none exactly when no item has it |
| Cart.Added | aa.js:101-112 | with the name present, only that item's quantity rises by 1 (its price and every other item and the order are unchanged); otherwise the new item with quantity 1 is appended at the end |
| Cart.CartStore.Add | aa.js:101-116 | the cart after the call is `Added` of the cart before; the invariant is kept |
| Cart.Removed | aa.js:120 | the result holds exactly the items of the input whose name differs, and none with that name |
| Cart.RemovedAppend | aa.js:120 | filtering distributes over concatenation, so the kept items stay in their original relative order |
| Cart.RemovedAbsent | aa.js:120 | an absent name leaves the cart unchanged |
| Cart.RemovedUnique | aa.js:119-123 | with unique names, removal deletes exactly the one item and keeps the rest in order |
| Cart.RemovedIdempotent | aa.js:119-123 | removing a name twice equals removing it once |
| Cart.CartStore.Remove | aa.js:119-123 | the cart after the call is `Removed` of the cart before; the invariant is kept |
| Cart.Updated | aa.js:126-139 | absent name: no change; quantity + change ≤ 0: identical to removing the name; otherwise only that item's quantity becomes quantity + change |
| Cart.RemovedIgnoresEntry | aa.js:130-133 | changing the quantity of the item first and then filtering its name gives the same cart as filtering alone |
| Cart.CartStore.UpdateQuantity | aa.js:126-139 | the cart after the in-place change (and removal at ≤ 0) is `Updated` of the cart before; the invariant is kept |
| Cart.UpdatedByMinusQuantity | aa.js:126-133 | `updateQuantity(n, -q)` on an item of quantity q equals `removeFromCart(n)` |
| Cart.UpdatedByMinusQuantityDeletes | aa.js:126-133 | with unique names, that call deletes exactly the item |
| Cart.AddedIsIncrement | aa.js:101-112 | for an item already in a cart with positive quantities, adding it equals `updateQuantity(name, 1)` |
| Cart.AddedTwice | aa.js:101-112 | adding a missing name twice leaves one appended item with quantity 2 |
| Cart.CartStore.Clear | aa.js:350 | the cart becomes empty, as in the submit, cancel and logout handlers |
| Cart.CartStore.constructor | aa.js:2 | the store starts from the cart read back from storage |
| Cart.AddedPreservesInv | aa.js:101-112 | adding keeps names unique and quantities ≥ 1 |
| Cart.RemovedKeepsNamesUnique | aa.js:120 | filtering a cart with unique names leaves a cart with unique names |
| Cart.RemovedPreservesInv | aa.js:119-120 | removing keeps names unique and quantities ≥ 1 |
| Cart.UpdatedPreservesInv | aa.js:126-139 | changing a quantity keeps names unique and quantities ≥ 1 |
| Cart.StepPreservesInv | aa.js:101-139 | each add, remove, change-quantity or clear action keeps the invariant |
| Cart.RunPreservesInv | aa.js:101-139 | from a cart satisfying the invariant, any sequence of those actions keeps it |
| Cart.SumOf | aa.js:173-178 | the `reduce` fold from 0, taken left to right; its properties are the `SumOf*` lemmas |
| Cart.TotalPrice | aa.js:173 | the sidebar total: the fold of price × quantity; see `TotalsLowerBound` and the `Totals*` lemmas |
| Cart.ItemCount | aa.js:178 | the badge count: the fold of quantities; see `ItemCountZeroIffEmpty` and the `Totals*` lemmas |
| Cart.SumOfAppend | aa.js:173 | the `reduce` fold of a concatenation is the sum of the folds |
| Cart.TotalsLowerBound | aa.js:173-179 | with quantities ≥ 1 the cart total is ≥ 0 and the item count is at least the number of lines |
| Cart.ItemCountZeroIffEmpty | aa.js:178 | with quantities ≥ 1 the badge count is 0 exactly for the empty cart |
| Cart.TotalsAdded | aa.js:101-112 | adding raises the item count by 1 and the total by the stored price of the item (the given price if it is new) |
| Cart.TotalsRemoved | aa.js:119-120 | with unique names, removing lowers the count by the item's quantity and the total by its price × quantity |
| Cart.TotalsUpdated | aa.js:126-139 | an absent name changes neither total; with unique names, changing by `change` moves the count by `change` and the total by price × change, or takes out the whole line when it deletes it |
| OrderSummary.Summarize | aa.js:214-246 | no summary exactly for the empty cart; otherwise the summary's lines are `Lines` of the cart and the final total is the subtotal plus the delivery fee |
| OrderSummary.Lines | aa.js:227-235 | one order line per cart item, in order, with its name, quantity and price × quantity |
| OrderSummary.SummaryRefusedIffEmpty | aa.js:219-224 | no summary is produced exactly when the cart is empty |
| OrderSummary.SummaryTotals | aa.js:238-245 | for a non-empty cart the subtotal is Σ price × quantity, the fee is 50 and the final total is the subtotal + 50 |
| OrderSummary.LinesTotalIsTotalPrice | aa.js:227-245 | the amounts on the order lines add up to the cart total |
| OrderSummary.SummaryLinesAddUp | aa.js:227-245 | the shown subtotal equals the sum of the shown line amounts |
| OrderSummary.SummaryAtLeastFee | aa.js:238-245 | with quantities ≥ 1 the final total is at least the delivery fee |
| OrderSummary.SummaryExample | aa.js:238-245 | Burger 100 × 2 and Fries 50 × 1 give subtotal 250, fee 50, final total 300 |
| Phone.Digits | aa.js:306 | `replace(/\D/g, '')` yields only digits and is no longer than its input |
| Phone.DigitsAppend | aa.js:306 | stripping distributes over concatenation, so the digits keep their order |
| Phone.DigitsFixedIffAllDigits | aa.js:306 | stripping leaves a string unchanged exactly when it holds only digits |
| Phone.Normalize | aa.js:306 | the normalised value holds only digits and has at most 10 characters |
| Phone.NormalizeIsPrefixOfDigits | aa.js:306 | the normalised value is the first min(10, digit count) digits of the input, in order |
| Phone.NormalizeIdempotent | aa.js:306 | normalising twice equals normalising once |
| Phone.NormalizeKeepsShortNumbers | aa.js:306 | a value of at most ten digits is left unchanged |
| Phone.NormalizeExample | aa.js:306 | "abc091-234-5678extra" normalises to "0912345678" |
| Payment.BankName | aa.js:287-294 | the table lookup `bankNames[code]`, defaulting to the empty string, is non-empty exactly for the five known codes |
| Payment.Utf16Length | aa.js:327 | JavaScript's `length`: at least the character count and at most twice it, and equal to it exactly when no character is astral |
| Payment.DigitsUtf16Length | aa.js:306-327 | a value of ASCII digits, as the normaliser leaves the field, has a `length` equal to its character count |
| Payment.Validate | aa.js:320-342 | rejects for a missing address exactly when the address is empty; for an invalid phone exactly when the address is filled, the choice is telebirr and the phone's `length` is not 10; for a missing account exactly when the address is filled, the choice is neither telebirr nor cash and the account is empty; an accepted form is described as "Telebirr: " + phone, "Cash on Delivery", or bank-name field + ": " + account for any other choice |
| Payment.BankNameTable | aa.js:287-294 | the table names a bank for exactly the five codes, and no two codes share a name |
| Payment.TelebirrAccepted | aa.js:325-331 | with an address, Telebirr is accepted exactly for a phone whose `length` is 10 and is described as "Telebirr: " + phone |
| Payment.AstralPhoneAccepted | aa.js:325-331 | "12345678" followed by an emoji has `length` 10 and is accepted, although it holds nine characters |
| Payment.CashAccepted | aa.js:332-333 | with an address, cash is always accepted as "Cash on Delivery" |
| Payment.BankTransferAccepted | aa.js:334-341 | with an address and an account number, every choice other than telebirr and cash is accepted as bank-name field + ": " + account, whatever that field holds; for a known code with the name filled in from the table of aa.js:287-294, the name is non-empty |
| Payment.NormalizedPhoneAccepted | aa.js:305-331 | with the phone field normalised, Telebirr is accepted exactly when the typed text held ≥ 10 digits, and the descriptor carries the first ten |
| Payment.ValidateExamples | aa.js:320-342 | phone "09123" is rejected; cbe with account 1234 gives "Commercial Bank of Ethiopia: 1234"; an empty address is rejected first; an unknown choice "card" with an empty bank name gives ": 1234" |
| Session.Contains | aa.js:10 | `String.prototype.includes`: some index starts a copy of the searched text; see `ContainsItself` and `NotContainsOtherOfSameLength` |
| Session.Gate | aa.js:5-24 | a redirect to login happens only when signed out on a protected page, and a redirect to the menu only when signed in on a page containing login.html |
| Session.GateSignedOut | aa.js:5-24 | signed out: redirect to login exactly on a page containing index.html or confirm.html, or the empty page; otherwise proceed; the inner login-page check never changes the outcome |
| Session.GateSignedIn | aa.js:17-23 | signed in: redirect to the menu exactly on a page containing login.html; otherwise proceed |
| Session.GateExamples | aa.js:5-24 | concrete decisions for the menu, confirmation and login pages, signed in and out |
| Session.LoginPageNotProtected | aa.js:10-11 | the login page itself is not one of the pages a signed-out visitor is redirected from |
| Session.LoginAccepted | aa.js:200 | `email && password`: both strings are non-empty; see `LoginExamples` and `SessionState.Login` |
| Session.SessionState.Login | aa.js:193-209 | accepted exactly when email and password are both non-empty; then the flag is set and the email stored; otherwise nothing changes |
| Session.LoginExamples | aa.js:200 | ("a@b.com", "x") is accepted; an empty email or an empty password is refused |
| Session.SessionState.SignOut | aa.js:383-384 | the login flag and the stored email are removed |
| Checkout.CheckoutTarget | aa.js:69-77 | the checkout button's target, the confirmation page or none; see `CheckoutReachesSummary` and `CheckoutIffBadgePositive` |
| Checkout.CheckoutReachesSummary | aa.js:69-77 | the checkout button leads to the confirmation page exactly when that page has a summary to show |
| Checkout.CheckoutIffBadgePositive | aa.js:69-77 | with quantities ≥ 1, checkout is allowed exactly when the badge count is positive |
| Checkout.SubmitOrder | aa.js:311-356 | every rejection leaves the cart untouched; a valid form that is not confirmed leaves it untouched; a valid confirmed form empties it and reports the descriptor |
| Checkout.CancelOrder | aa.js:359-372 | the cart is emptied exactly when the cancellation is confirmed, with no validation |
| Checkout.Logout | aa.js:376-391 | on confirmation the session is ended and the cart emptied; otherwise nothing changes |

## Left out

- DOM rendering and event wiring are presentation only and are not modelled.
  This covers `updateCartDisplay`'s HTML, `initializeCart` apart from the
  checkout button's empty-cart check, `setupAddToCartButtons`, `setupCartIcon`,
  the show/hide toggling of the payment fields, and the `DOMContentLoaded`
  listeners.
- Local storage is not modelled. That covers `saveCart`, the `isLoggedIn` and
  `userEmail` entries as text, and the `JSON.parse` of the stored cart. The
  store's constructor takes the stored cart as a value. It does not assume the
  invariant, because the script never checks it; the invariant lemmas start
  from a cart that satisfies it.
- `alert` and `confirm` dialogs and their texts are not modelled. Their answers
  are inputs, and `window.location` redirects are returned values.
- Deriving the current page name from `window.location` is browser URL parsing.
  The page name is an input.
- Prices are integers: the floating-point prices from `parseFloat` (NaN, and
  rounding in price × quantity) are not modelled.
- When no payment radio button is checked, `querySelector` returns null and the
  submit handler throws. The model takes the choice as a given string.
- `bankNames[code]` on an inherited object property such as `constructor`
  yields a non-empty value in JavaScript. The model's table returns `''` for
  every unknown code. The radio values are fixed by the page.
- The `required` flags that the payment-choice handler sets on the phone field
  (aa.js:275) and the account field (aa.js:296) are never cleared, so the
  browser's own form validation can stop a submit before the handler runs.
  Browser form validation is not modelled: `Checkout.SubmitOrder` models the
  handler once it runs.
- The unused `order_create` helper (aa.js:401-406) is not modelled: nothing
  calls it.
