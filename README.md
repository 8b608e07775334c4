# CareView pharmacy storefront and account forms

This project models the client-side logic of the CareView web app in Dafny.

The storefront (`Pharmacy`) covers:

- the filter over the product list by search term and category;
- the category drop-down;
- the message shown when nothing is listed;
- the cart, a list of lines replaced as a whole by add, remove and update, together with its badge.

The product tile (`ProductCard`) covers:

- the add button, which re-reads the stock before calling the cart;
- the quantity stepper;
- the discounted price.

The cart dialog (`CartModal`) covers the subtotal and the requests its −, + and trash buttons send back.

The four account forms (`Login`, `Signup`, `ResetPassword`, `ForgetPassword`) are modelled through their validation rules. The regular expressions they use are predicates over strings (`Patterns`). Each form yields the first failing rule's message per field, as its Yup schema does. The disabled submit button, the request bodies and the forgot-password page's submit handler are modelled too.

Prices are exact reals. Strings are sequences of characters. The JavaScript built-ins the components rely on are written out in `Text` and `Sequences`:

- `trim` and the regex class `\s` (one set of characters);
- ASCII `toLowerCase`;
- `includes`, `filter`, and `new Set` de-duplication.

The state that components keep is modelled as classes:

- `Pharmacy.CartStore`, for the cart;
- `ProductCard.Card`, for a tile's quantity and flags;
- `ForgetPassword.ForgetPasswordPage`, for the page's address and errors.

The methods of `Pharmacy.CartStore` and `ForgetPassword.ForgetPasswordPage` are proved against the functions that specify them. `ProductCard.Card` has no such function: each of its methods states, branch by branch, the new quantity, flags and notice.

Inputs stand in for what the code gets from outside: the fetched product list, the fresh stock figure (`StockFetch`), the truthiness of the add callback's result, and Yup's `.email()` verdict. Toasts are returned as `Notice` values and navigation as a returned route.

Where a reader would expect other behaviour, the model follows the code:

- The cart subtotal charges `finalPrice || price` and never applies a `discount` percentage. A line with only "50% off" is charged full price (`CartModal.SubtotalIgnoresDiscount`).
- Updating a cart line sets any quantity of 1 or more with no check against stock (`Pharmacy.PlusIgnoresStock`, `Pharmacy.UpdateSetsQuantity`). Stock bounds the quantity only on the tile, before the line is added: the stepper stays within the listed stock, and the add button re-reads the stock and refuses a quantity above it (`ProductCard.Card.HandleAddToCart`).
- The search matches the term as typed, untrimmed (`Pharmacy.SearchUsesUntrimmedTerm`). Only the decision whether to search at all looks at the trimmed term.

## Model

| member | source | states |
|---|---|---|
| Sequences.Filter | src/Components/Pharmacy/Pharmacy.jsx:43-51 | `Array.prototype.filter`: no longer than the input, every kept element is from the input and passes, every passing element occurs in the result |
| Sequences.FilterMultiplicity | src/Components/Pharmacy/Pharmacy.jsx:43-51 | a filter keeps every copy of a passing value and no copy of a failing one: the result's multiset is the input's restricted to the passing values |
| Sequences.FilterIsSubsequence | src/Components/Pharmacy/Pharmacy.jsx:43-60 | a filter keeps its input's order: the result is a subsequence |
| Sequences.FilterFilter | src/Components/Pharmacy/Pharmacy.jsx:40-61 | two filters in a row equal one filter by the conjunction of their predicates |
| Sequences.FilterAll | src/Components/Pharmacy/Pharmacy.jsx:40-61 | a filter whose predicate holds everywhere returns its input unchanged |
| Sequences.FilterExtensional | src/Components/Pharmacy/Pharmacy.jsx:40-61 | filters with pointwise equal predicates give equal results |
| Sequences.Distinct | src/Components/Pharmacy/Pharmacy.jsx:105-109 | `[...new Set(s)]`: same elements as `s`, each exactly once |
| Sequences.DistinctPrefix | src/Components/Pharmacy/Pharmacy.jsx:105-109 | first occurrence wins: de-duplicating a prefix gives a prefix of the de-duplicated whole |
| Sequences.MultisetRemoveMatching | src/Components/CartModal/CartModal.jsx:7-12 | taking a matching element out of two permutations leaves two permutations (step of the reordering proof) |
| Text.TrimStart | src/Components/Pharmacy/Pharmacy.jsx:42 | removes a leading run of `\s` characters only, and leaves no such character first |
| Text.TrimEnd | src/Components/Pharmacy/Pharmacy.jsx:42 | removes a trailing run of `\s` characters only, and leaves no such character last |
| Text.TrimEmptyIffBlank | src/Components/ForgetPassword/ForgetPassword.jsx:21 | `s.trim()` is empty exactly when every character of `s` is white space |
| Text.Trim | src/Components/Pharmacy/Pharmacy.jsx:42 | `trim()`: the slice of the input that starts where the leading white space ends; only white space lies before and after it, and its first and last characters are not white space |
| Text.TrimSplitsInput | src/Components/Pharmacy/Pharmacy.jsx:42 | the input is leading white space, then the trimmed text at the index where that white space ends, then trailing white space only |
| Text.ToLower | src/Components/Pharmacy/Pharmacy.jsx:46-50 | `toLowerCase`: same length, each upper-case letter replaced by its lower-case letter (code point + 32), every other character kept |
| Text.ToLowerIdempotent | src/Components/Pharmacy/Pharmacy.jsx:46-50 | lower-casing twice is lower-casing once, and leaves no upper-case letter |
| Text.Contains | src/Components/Pharmacy/Pharmacy.jsx:47 | `includes`: the empty string is always included, and an included string is no longer than the text |
| Text.NatToText | src/Components/ProductCard/ProductCard.jsx:29 | a count inside a template literal is rendered as decimal digits with no leading zero |
| Text.NatToTextRoundTrip | src/Components/ProductCard/ProductCard.jsx:29 | the rendered digits read back as the count: the rendering loses nothing |
| Text.IntToText | src/Components/ProductCard/ProductCard.jsx:53 | a figure is rendered as its decimal digits, preceded by '-' exactly when negative; the digits read back as its magnitude |
| Text.IntToTextInjective | src/Components/ProductCard/ProductCard.jsx:29 | different figures are rendered as different texts |
| Pharmacy.MatchesSearch | src/Components/Pharmacy/Pharmacy.jsx:44-50 | the search test: the empty term matches every product, and a matched term is no longer than the name or the description |
| Pharmacy.MatchesCategory | src/Components/Pharmacy/Pharmacy.jsx:56-59 | the category test: a matched product has a category, of the selection's length and non-empty |
| Pharmacy.FilterProducts | src/Components/Pharmacy/Pharmacy.jsx:39-64 | the listed products are no more than the products, each one of them, and each of the selected category unless "all" |
| Pharmacy.FilterProductsIsOnePass | src/Components/Pharmacy/Pharmacy.jsx:39-64 | the search pass followed by the category pass is one filter by "passes both" |
| Pharmacy.FilterProductsSpec | src/Components/Pharmacy/Pharmacy.jsx:39-64 | the listed products are a subsequence of the products; a product is listed iff its name or description contains the untrimmed term (when the trimmed term is non-empty) and its category equals the selection ignoring case (unless "all"); a blank term with "all" lists everything |
| Pharmacy.SearchUsesUntrimmedTerm | src/Components/Pharmacy/Pharmacy.jsx:42-50 | a product found by its full name, whose description is no longer than the term, disappears once a trailing space is typed after the term |
| Pharmacy.SearchIgnoresCase | src/Components/Pharmacy/Pharmacy.jsx:42-50 | a term typed in any case lists the same products as its lower-case form |
| Pharmacy.CategoryStrings | src/Components/Pharmacy/Pharmacy.jsx:106-108 | holds a string exactly when some product has that string as its category |
| Pharmacy.CategoryStringsAppend | src/Components/Pharmacy/Pharmacy.jsx:106-108 | the category strings of two product lists put together are the two lists' strings in order |
| Pharmacy.Categories | src/Components/Pharmacy/Pharmacy.jsx:103-110 | the drop-down list starts with "all" and every other entry is a category string of the products |
| Pharmacy.CategoriesSpec | src/Components/Pharmacy/Pharmacy.jsx:103-110 | "all" first, then each string category exactly once and nothing else; with no products only "all" |
| Pharmacy.CategoriesFirstOccurrenceOrder | src/Components/Pharmacy/Pharmacy.jsx:103-110 | categories appear in order of first occurrence: the list for a prefix of the products is a prefix of the list |
| Pharmacy.ListingOf | src/Components/Pharmacy/Pharmacy.jsx:206-225 | cards exactly when something passes the filter, otherwise the message chosen by whether the search box holds any text |
| Pharmacy.BlankTermIgnoredButQuoted | src/Components/Pharmacy/Pharmacy.jsx:222-224 | a term of spaces only filters like the empty term, yet the empty-result message quotes it as a search |
| Pharmacy.MergeQuantity | src/Components/Pharmacy/Pharmacy.jsx:73-77 | the `map` keeps the length and every line's product, and leaves every line of another id as it was |
| Pharmacy.Added | src/Components/Pharmacy/Pharmacy.jsx:66-82 | after an add the id has a line; the cart grows by one line exactly when the id was absent |
| Pharmacy.Removed | src/Components/Pharmacy/Pharmacy.jsx:84-86 | removal never lengthens the cart and leaves no line with the id |
| Pharmacy.SetQuantity | src/Components/Pharmacy/Pharmacy.jsx:94-100 | the `map` keeps the length and every line's product, and leaves every line of another id as it was |
| Pharmacy.Updated | src/Components/Pharmacy/Pharmacy.jsx:88-101 | below 1 the id's lines are gone and the cart is no longer; otherwise length and products are kept |
| Pharmacy.AddToExistingLine | src/Components/Pharmacy/Pharmacy.jsx:67-78 | adding an id already in the cart adds the quantity to that line only; length, order and other lines unchanged |
| Pharmacy.AddNewLine | src/Components/Pharmacy/Pharmacy.jsx:72-80 | adding a new id appends exactly one line, the product plus the quantity, at the end |
| Pharmacy.AddKeepsCartValid | src/Components/Pharmacy/Pharmacy.jsx:66-82 | adding a positive quantity keeps one line per id and every quantity at least 1, and the id is then in the cart |
| Pharmacy.AddTwiceMerges | src/Components/Pharmacy/Pharmacy.jsx:66-82 | two adds of a new product leave one line holding the sum of the quantities |
| Pharmacy.RemovedSpec | src/Components/Pharmacy/Pharmacy.jsx:84-86 | removal drops every line with the id, keeps the others in order, changes nothing for an absent id, keeps the cart valid |
| Pharmacy.RemovedKeepsUniqueIds | src/Components/Pharmacy/Pharmacy.jsx:84-86 | removal keeps one line per id |
| Pharmacy.RemovedShrinks | src/Components/Pharmacy/Pharmacy.jsx:84-86 | removing an id that is present makes the cart shorter |
| Pharmacy.UpdateBelowOneRemoves | src/Components/Pharmacy/Pharmacy.jsx:88-92 | an update to any value below 1 is exactly a removal |
| Pharmacy.UpdateSetsQuantity | src/Components/Pharmacy/Pharmacy.jsx:94-100 | an update to 1 or more replaces the matching line's quantity only, with no stock clamp |
| Pharmacy.UpdateAbsentIsNoOp | src/Components/Pharmacy/Pharmacy.jsx:94-100 | an update to 1 or more of an id with no line leaves the cart unchanged |
| Pharmacy.UpdateKeepsCartValid | src/Components/Pharmacy/Pharmacy.jsx:88-101 | every update keeps one line per id and every quantity at least 1 |
| Pharmacy.ApplyRequest | src/Components/Pharmacy/Pharmacy.jsx:84-101 | a dialog request never lengthens the cart; a removal leaves no line with the id; an update to 1 or more keeps the length |
| Pharmacy.MinusLowersByOne | src/Components/CartModal/CartModal.jsx:77-81 | − on a line at quantity 2 or more lowers that line's quantity by exactly one and changes nothing else |
| Pharmacy.MinusAtOneRemovesLine | src/Components/CartModal/CartModal.jsx:77-81 | − on a line at quantity 1 removes the line through the update's floor rule |
| Pharmacy.PlusIgnoresStock | src/Components/CartModal/CartModal.jsx:94-98 | + raises the line's quantity by one whatever the stock, other lines unchanged |
| Pharmacy.TrashRemovesLine | src/Components/CartModal/CartModal.jsx:109-111 | the trash button removes the line and shortens the cart |
| Pharmacy.EveryRunKeepsCartValid | src/Components/Pharmacy/Pharmacy.jsx:66-101 | from a valid cart, any run of positive adds, removals and updates keeps one line per id and quantities at least 1 |
| Pharmacy.BadgeCount | src/Components/Pharmacy/Pharmacy.jsx:136-139 | the `reduce` over the quantities: 0 for no lines, never negative when no quantity is |
| Pharmacy.Badge | src/Components/Pharmacy/Pharmacy.jsx:134-139 | the badge is shown exactly when the cart has a line, and then shows the quantity sum |
| Pharmacy.BadgeAtLeastLines | src/Components/Pharmacy/Pharmacy.jsx:134-139 | the badge of a valid cart counts at least one item per line, so a shown badge is at least 1 |
| Pharmacy.BadgeAfterAdd | src/Components/Pharmacy/Pharmacy.jsx:66-82 | an add raises the badge sum by exactly the quantity added |
| Pharmacy.BadgeAppend | src/Components/Pharmacy/Pharmacy.jsx:136-139 | the badge sum is additive over concatenated line lists |
| Pharmacy.BadgeAfterMerge | src/Components/Pharmacy/Pharmacy.jsx:136-139 | merging into the one line with an id raises the badge sum by the extra quantity |
| Pharmacy.CartStore.constructor | src/Components/Pharmacy/Pharmacy.jsx:14 | the cart starts empty |
| Pharmacy.CartStore.AddToCart | src/Components/Pharmacy/Pharmacy.jsx:66-82 | the new cart is the merge-or-append of the old one, and stays valid |
| Pharmacy.CartStore.RemoveFromCart | src/Components/Pharmacy/Pharmacy.jsx:84-86 | the new cart is the old one without the id's lines, and stays valid |
| Pharmacy.CartStore.UpdateCartItem | src/Components/Pharmacy/Pharmacy.jsx:88-101 | below 1 delegates to removal, otherwise sets the quantity; the cart stays valid |
| Pharmacy.CartStore.Handle | src/Components/Pharmacy/Pharmacy.jsx:284-289 | a cart-dialog request is applied through `onUpdate` or `onRemove`; the cart stays valid |
| Pharmacy.AddFromCard | src/Components/Pharmacy/Pharmacy.jsx:208-213 | a tile wired to `addToCart` puts the line in the cart but, seeing an undefined result, keeps its quantity and never shows "Added!" |
| Pharmacy.AddFromCardConfirmed | src/Components/ProductCard/ProductCard.jsx:33-43 | with a truthy add result the cart holds the line, the tile shows "Added!", its stepper is back at 1, and it is out of stock once the fresh stock is used up |
| ProductCard.NoticeText | src/Components/ProductCard/ProductCard.jsx:24-53 | each toast text begins with its own letter, and the two stock toasts quote the figure |
| ProductCard.NoticeTextInjective | src/Components/ProductCard/ProductCard.jsx:24-53 | no two toasts share a text: the text tells which check failed and the exact figure |
| ProductCard.DiscountPercent | src/Components/ProductCard/ProductCard.jsx:59 | the discount, or 0 when there is none |
| ProductCard.DiscountedPrice | src/Components/ProductCard/ProductCard.jsx:59 | the full price with no discount, nothing at 100% |
| ProductCard.DiscountedPriceBounds | src/Components/ProductCard/ProductCard.jsx:59 | the tile price is price × (1 − discount/100), the full price without a discount, and between 0 and the price for a percentage in [0, 100] |
| ProductCard.Card.constructor | src/Components/ProductCard/ProductCard.jsx:7-10 | quantity starts at 1, not added, out of stock iff the listed stock is 0 |
| ProductCard.Card.StepperShown | src/Components/ProductCard/ProductCard.jsx:113-130 | a shown stepper on a valid tile whose listed stock exceeds 1 always has an enabled button |
| ProductCard.Card.DecreaseEnabled | src/Components/ProductCard/ProductCard.jsx:119 | within the stepper's bounds, minus is disabled exactly at quantity 1 |
| ProductCard.Card.IncreaseEnabled | src/Components/ProductCard/ProductCard.jsx:130 | within the bounds and with stock, plus is disabled exactly at the listed stock; never enabled with a listed stock of 1 or less |
| ProductCard.Card.HandleAddToCart | src/Components/ProductCard/ProductCard.jsx:12-48 | failed check: toast, no change; fresh stock 0: out of stock and toast; quantity above fresh stock: "Only N" toast, no change; otherwise the callback with (product, quantity), and only a truthy result marks the tile added, resets quantity to 1 and sets out of stock iff the stock is used up; an out-of-stock tile never becomes in stock again, and fresh stock 0 hides the stepper |
| ProductCard.Card.HandleQuantityChange | src/Components/ProductCard/ProductCard.jsx:50-57 | values below 1 ignored; above a positive listed stock a "Maximum available" notice and no change; otherwise set; the quantity stays at least 1 |
| ProductCard.Card.PressDecrease | src/Components/ProductCard/ProductCard.jsx:115-119 | the enabled minus button lowers the quantity by one, never below 1 |
| ProductCard.Card.PressIncrease | src/Components/ProductCard/ProductCard.jsx:126-130 | the enabled plus button raises the quantity by one, never past the listed stock, with no notice |
| CartModal.UnitPrice | src/Components/CartModal/CartModal.jsx:10 | the final price when present and non-zero, the base price when it is missing or zero |
| CartModal.LineTotal | src/Components/CartModal/CartModal.jsx:10 | a line's amount: 0 at quantity 0, never negative for a non-negative price and quantity |
| CartModal.SubtotalFrom | src/Components/CartModal/CartModal.jsx:7-12 | the `reduce` never falls below its start value when no line total is negative |
| CartModal.Subtotal | src/Components/CartModal/CartModal.jsx:6-12 | 0 for no lines, never negative when no line total is |
| CartModal.FoldIsSum | src/Components/CartModal/CartModal.jsx:7-12 | the `reduce` from any start value is that value plus the sum of the line totals |
| CartModal.SubtotalIsLineSum | src/Components/CartModal/CartModal.jsx:6-12 | the subtotal is the sum of (finalPrice or price) × quantity over the lines; an empty cart folds to 0 |
| CartModal.LineSumAppend | src/Components/CartModal/CartModal.jsx:7-12 | the sum of line totals is additive over concatenation |
| CartModal.SubtotalAppend | src/Components/CartModal/CartModal.jsx:7-12 | the subtotal of two line lists put together is the sum of their subtotals |
| CartModal.LineSumPermutation | src/Components/CartModal/CartModal.jsx:7-12 | reordering the lines does not change the sum of line totals |
| CartModal.SubtotalPermutation | src/Components/CartModal/CartModal.jsx:7-12 | reordering the lines does not change the subtotal |
| CartModal.SubtotalIgnoresDiscount | src/Components/CartModal/CartModal.jsx:10 | 10 × 2 plus a "50% off" 20 × 1 without a final price comes to 40: the discount is never applied |
| CartModal.BodyOf | src/Components/CartModal/CartModal.jsx:32-38 | "Your cart is empty" iff there are no lines; otherwise the lines with the subtotal block |
| CartModal.MinusRequest | src/Components/CartModal/CartModal.jsx:77-81 | − asks to update the line's id to exactly one less than its quantity, below 1 at quantity 1 |
| CartModal.PlusRequest | src/Components/CartModal/CartModal.jsx:94-98 | + asks to update the line's id to exactly one more than its quantity, at least 2 from a valid line |
| CartModal.TrashRequest | src/Components/CartModal/CartModal.jsx:109-111 | trash asks to remove the line's id |
| Patterns.EmailPattern | src/Components/ForgetPassword/ForgetPassword.jsx:14 | `/^[^\s@]+@[^\s@]+\.[^\s@]+$/`: an accepted address holds an '@' and at least 5 characters |
| Patterns.EmailPatternIsShape | src/Components/ForgetPassword/ForgetPassword.jsx:14 | a string the email regex accepts has no white space, one '@' not first, and a dot strictly inside the domain |
| Patterns.ShapeIsEmailPattern | src/Components/ForgetPassword/ForgetPassword.jsx:14 | every string of that shape is accepted by the email regex |
| Patterns.EmailPatternShape | src/Components/Login/Login.jsx:28 | the email regex accepts exactly the strings of that shape |
| Patterns.UsernamePattern | src/Components/Login/Login.jsx:30 | `/^[a-zA-Z0-9_.]{3,20}$/`: an accepted user name holds no '@' and no white space |
| Patterns.NamePattern | src/Components/Signup/Signup.jsx:28 | `/^[A-Za-z]{3,}$/`: an accepted name holds no white space and no digit |
| Patterns.PhonePattern | src/Components/Signup/Signup.jsx:40 | the Egyptian mobile pattern: an accepted number has 10 to 13 characters and no white space |
| Patterns.PhonePatternShape | src/Components/Signup/Signup.jsx:37-42 | an accepted phone number has 10, 11 or 13 characters, '1' then nine digits at the end, a '+' first iff 13 long, digits elsewhere |
| Patterns.PhoneMessageExamples | src/Components/Signup/Signup.jsx:41 | both numbers quoted in the phone error message are accepted |
| Patterns.Lookahead | src/Components/Login/Login.jsx:37 | `(?=.*[k])` at the start: when it succeeds, a class-k character occurs |
| Patterns.HasAllClasses | src/Components/Login/Login.jsx:37 | the four lookaheads together: when they succeed, each class occurs |
| Patterns.FirstLine | src/Components/Login/Login.jsx:37 | the longest prefix without a line terminator |
| Patterns.FirstLineIsLongestRun | src/Components/Login/Login.jsx:37 | a terminator-free run from the start stays within the first line |
| Patterns.LookaheadFirstLine | src/Components/Login/Login.jsx:37 | a `(?=.*[k])` lookahead succeeds exactly when the first line holds a class-k character |
| Patterns.SingleLineLookahead | src/Components/Signup/Signup.jsx:50 | on a single line, a lookahead succeeds iff the class occurs anywhere |
| Patterns.LineBreakHidesClass | src/Components/ResetPassword/ResetPassword.jsx:23 | a class character that follows a line break does not satisfy the lookahead |
| Patterns.PasswordError | src/Components/ResetPassword/ResetPassword.jsx:19-25 | "Password is required" when empty, the minimum-length message below 8, the class message without all four classes, no error otherwise |
| Patterns.PasswordAccepted | src/Components/Signup/Signup.jsx:46-52 | an accepted password has 8 or more characters and each of upper, lower, digit and `@$!%*?&`; on one line these suffice |
| Patterns.ConfirmError | src/Components/ResetPassword/ResetPassword.jsx:26-28 | "Confirm password is required" when empty, "Passwords must match" when non-empty and different, no error iff non-empty and equal |
| Patterns.Record | src/Components/Login/Login.jsx:23-40 | one field's message is stored and every other field's entry is left as it was |
| Login.IdentifierAccepted | src/Components/Login/Login.jsx:26-31 | an identifier the `test` accepts is non-empty and holds no white space |
| Login.IdentifierError | src/Components/Login/Login.jsx:24-32 | "Username or email is required" when empty; otherwise no error iff the `test` accepts, else "Invalid email or username" |
| Login.IdentifierAcceptance | src/Components/Login/Login.jsx:26-31 | with an '@' accepted iff of the email shape; without one iff 3 to 20 characters from `[A-Za-z0-9_.]` |
| Login.LoginErrors | src/Components/Login/Login.jsx:23-40 | each field's entry is its first failing rule's message, and only the two fields appear |
| Login.LoginValidIff | src/Components/Login/Login.jsx:23-40 | no errors iff a non-empty accepted identifier and a password of 8 or more with all four classes |
| Login.SubmitDisabled | src/Components/Login/Login.jsx:220-222 | a running submission disables the button, and an enabled button means an empty errors object |
| Login.SubmitDisabledIff | src/Components/Login/Login.jsx:220-222 | after validation the button is disabled iff a field fails or a submission is running; before any validation it is enabled |
| Login.LoginSubmit | src/Components/Login/Login.jsx:41-56 | a request is posted iff the values validate, carrying them unchanged |
| Login.SubmittedRequestIsValid | src/Components/Login/Login.jsx:41-56 | a posted request always has an accepted identifier and a strong password |
| Signup.NameError | src/Components/Signup/Signup.jsx:25-36 | the required message when empty; no error iff 3 or more ASCII letters only |
| Signup.PhoneError | src/Components/Signup/Signup.jsx:37-42 | the required message when empty; no error iff the Egyptian pattern matches |
| Signup.EmailError | src/Components/Signup/Signup.jsx:43-45 | the required message when empty, the invalid-address message when non-empty and refused by the library check, no error iff non-empty and accepted |
| Signup.FieldError | src/Components/Signup/Signup.jsx:24-56 | no message for a name outside the six fields; for each field, no message exactly when all its rules hold |
| Signup.SignupErrors | src/Components/Signup/Signup.jsx:24-56 | each of the six fields' entries is its first failing rule's message |
| Signup.SignupValidIff | src/Components/Signup/Signup.jsx:24-56 | no errors iff both names, the phone, the email and the password pass and the confirmation equals the password |
| Signup.ToPayload | src/Components/Signup/Signup.jsx:59-68 | the payload maps back to the values it was built from, the phone sent as `phoneNumber` |
| Signup.PayloadRoundTrip | src/Components/Signup/Signup.jsx:59-68 | the payload mapping only renames `phone` to `phoneNumber`: it is inverted by the reverse mapping both ways |
| Signup.SignupSubmit | src/Components/Signup/Signup.jsx:57-69 | a payload is posted iff the values validate, and it maps back to exactly those values |
| Signup.SubmittedPayloadIsValid | src/Components/Signup/Signup.jsx:57-69 | a posted payload has letter-only names, a phone of 10, 11 or 13 characters, a strong password and an equal confirmation |
| ResetPassword.ResetErrors | src/Components/ResetPassword/ResetPassword.jsx:18-29 | each field's entry is its first failing rule's message |
| ResetPassword.ResetValidIff | src/Components/ResetPassword/ResetPassword.jsx:18-29 | no errors iff a strong password and an equal confirmation; a mismatch is reported even when the password fails |
| ResetPassword.ResetSubmit | src/Components/ResetPassword/ResetPassword.jsx:30-39 | the two values are posted iff they validate, and then they are equal |
| ForgetPassword.ValidationErrors | src/Components/ForgetPassword/ForgetPassword.jsx:16-25 | at most the email entry; "Email is required." when the trimmed address is empty, the invalid-address message when it is not but the untrimmed address misses the pattern, no error otherwise |
| ForgetPassword.Reported | src/Components/ForgetPassword/ForgetPassword.jsx:22-24 | an errors object holding exactly one message, for the email field |
| ForgetPassword.BlankIsRequired | src/Components/ForgetPassword/ForgetPassword.jsx:21-22 | "Email is required." exactly when the address is white space only |
| ForgetPassword.SurroundingSpaceIsInvalid | src/Components/ForgetPassword/ForgetPassword.jsx:23-24 | a non-blank address holding any white space is reported as invalid, never as missing |
| ForgetPassword.AcceptedEmailShape | src/Components/ForgetPassword/ForgetPassword.jsx:14 | an accepted address has the email shape and is also accepted by the sign-in identifier rule |
| ForgetPassword.ForgetPasswordPage.constructor | src/Components/ForgetPassword/ForgetPassword.jsx:10-11 | the page starts with an empty address and no errors |
| ForgetPassword.ForgetPasswordPage.ShownError | src/Components/ForgetPassword/ForgetPassword.jsx:85-89 | a message is shown under the field iff the errors hold one for the email, and it is that message (the submit handler then ties it to the address) |
| ForgetPassword.ForgetPasswordPage.ChangeEmail | src/Components/ForgetPassword/ForgetPassword.jsx:77-80 | typing replaces the address |
| ForgetPassword.ForgetPasswordPage.HandleSubmit | src/Components/ForgetPassword/ForgetPassword.jsx:16-34 | the errors become the validation result; a message is shown under the field iff there is no navigation; "Email is required." for a blank address, the invalid-address message for a non-blank one the pattern refuses; navigation to "/checkmail" iff there is no error |

## Left out

- Fetching the product list and the fresh stock figure is not modelled, because it is network I/O. The list is an argument and the fetch result is a `StockFetch` value. The loading spinner and the fetch error banner of the storefront are not modelled.
- The axios posts of the three Formik forms are not modelled, nor `localStorage`, `alert` and `navigate` after them, because they are I/O. A form's model ends at the request body it would post.
- Toasts, the "Added!" reset `setTimeout`, and the auth-context mirror of the forgot-password address are not modelled, because they are side effects and timers. Toasts are returned as values.
- `toFixed(2)` display rounding is not modelled. Prices and subtotals are exact reals, and JavaScript floating-point rounding is not reproduced.
- Concurrent adds and the stale `cart` closure in `removeFromCart` and `updateCartItem` are not modelled, because they are framework scheduling effects. Every cart operation applies to the current cart, one at a time.
- Yup's built-in `.email()` check on the sign-up email is not modelled, because it is library code. `Signup.EmailError` takes its verdict as a boolean.
- Formik's touched/blur wiring and its validation timing are not modelled. The errors are those of a full validation of the current values.
- The browser's own constraint check on the forgot-password input is not modelled (`type="email"` and `required`, src/Components/ForgetPassword/ForgetPassword.jsx:75-81). That check can stop a submission before `handleSubmit` runs, and it is browser code. `HandleSubmit` is modelled for every address.
- Unicode case mapping is not modelled: `toLowerCase` is ASCII only.
- Yup's `.min(8)` counts UTF-16 code units, while the model counts code points. The two agree on text without astral characters.
- A product whose `category` is not a string is not modelled. It counts as having no category, whereas the source's filter would throw on a truthy non-string category.
- A fresh product record without a `stockQuantity` field is not modelled.
- The tile's hover state, image fallback and label texts are not modelled, because they are presentation only.
- Pagination is not modelled, because its links go nowhere.
- ProductCard.Card.HandleAddToCart: the `await` between the stock check and the callback is not modelled. The callback's truthiness is a parameter, and its effect on the cart is modelled by `Pharmacy.AddFromCard`.

## Findings

| source | as written | input that shows it | evidently intended | confidence | as-written member | corrected member |
|---|---|---|---|---|---|---|
| src/Components/Pharmacy/Pharmacy.jsx:66-82 with src/Components/ProductCard/ProductCard.jsx:33-43 | `addToCart` returns `undefined`, so the tile's `if (success)` branch never runs | any add with a fresh stock of at least the chosen quantity: the cart gets the line, but the tile keeps its quantity, never shows "Added!", and is not marked out of stock after the last items are taken | the tile confirms the add, resets its stepper to 1, and disables itself once the fresh stock is used up | high; not executed | Pharmacy.AddFromCard | Pharmacy.AddFromCardConfirmed |
