# VorSilvester storefront — a Dafny model of its core

VorSilvester sells tickets for a New Year's Eve ball: a ball ticket
("Báljegy", 6000 HUF), a dinner ticket ("Vacsorajegy", 5000 HUF) and a table
booking ("Asztalfoglalás", 12000 HUF, a party of 6 by default). A React client
keeps a cart in component state and posts the order to a small Express server,
which keeps users and orders in two JSON files and issues JWTs for an admin
and for registered customers. An admin panel lists every order; a customer's
"my tickets" page lists that customer's orders. Both pages summarise an
order's attendees with the same `renderKinek` formatter.

The model has six modules:

- `Wrappers` — `Option`.
- `Seqs` — `Filter`, which stands for `Array.prototype.filter`, and
  `FlatMap`, a loop that pushes each element's pieces, with their lemmas
  (membership, order, concatenation, emptiness).
- `Text` — the JavaScript string operations the core relies on: `trim` over
  ECMAScript white space, `toLowerCase` for Basic Latin and Latin-1, `join`,
  and decimal rendering of numbers in template literals.
- `Attendees` — the attendee groups of an order. `RenderKinek` is the
  formatter, written as the loop the source runs, and proved equal to
  `Parts`, the parts each entry gives, concatenated in order. Lemmas cover what the summary shows and
  when it is empty.
- `CartModel` — the ticket catalogue and the cart lines. Class `Cart` holds the
  cart as a sequence field. Its methods `Add`, `ChangeQty`, `RemoveItem`,
  `SetAttendeeName` and `SetTableField` are the client's state updaters, and
  each is proved equal to a pure function of the old cart. `Checkout` is the
  `handleCheckout` gate and builds the order payload. The lemmas give each
  update's effect line by line, show the cart invariant (distinct ids, quantity
  1..10, one name slot per ticket) is preserved, and relate the cart total to
  the updates.
- `Server` — the order and user stores (`StoreFile`, read through `ReadJson`),
  the `auth(role)` middleware (`Authorize`), and class `Backend` with one
  method per handler. The lemmas cover listing, case-insensitive e-mail
  matching, and the uniqueness the handlers keep.
- `Storefront` — the client and server joined: an order that passes
  `Checkout` is accepted by `POST /api/orders`, and its summary is non-empty.
  Two worked scenarios apply the operations to concrete data, and the
  verifier checks each step. In the first, a
  cart with two ball tickets and one name is refused at checkout, then accepted
  once the second name is filled in. In the second, an e-mail is registered,
  a second registration in other letter case is refused, and a login with the
  wrong password and then the right one follows.

Everything the server gets from outside is a parameter:

- `jwt.verify` is a function from token to optional claims.
- `bcrypt.compare` is a password-matching predicate.
- The password hash, `Date.now()` ids, timestamps and environment variables
  are given values.

A file is either `Unreadable` (missing, or not valid JSON), `EmptyText`, or
the list of records it holds.

JavaScript falsiness of a string field is modelled as the empty string. A
field that may be absent is an `Option`. `Number(x || d)` over a size is
`SizeOr`.

Some behaviour of the code that a reader might not expect, which the model keeps:

- A negative `total` is stored as sent: `Number(total) || 0` replaces only
  `NaN` and `0`.
- `setAttendeeName` writes any index without checking it against the
  quantity, so a write past the quantity leaves more names than tickets.
  The model keeps the write, and proves the cart invariant only for
  in-range indices.
- `setTableField` stores `Math.max(1, Number(value || 1))` without rounding.
  The model takes the size input as an optional integer.
- Order ids are never checked for uniqueness by the server. The model takes
  the id as supplied, and proves distinct ids are kept when the supplied id
  is fresh.

## Model

| member | source | states |
|---|---|---|
| `Text.Trim` | src/App.jsx:111 | definition: `s.trim()`, removing ECMAScript white space and line terminators at both ends |
| `Text.IsBlank` | src/App.jsx:111 | definition: the falsy-or-blank test `!n \|\| !n.trim()` on a string |
| `Text.LowerChar` | server/index.js:94 | definition: `toLowerCase` on one character, for Basic Latin and the Latin-1 capitals (U+00C0 to U+00DE, except U+00D7) |
| `Text.Lower` | server/index.js:94 | definition: `String(x).toLowerCase()`, character by character |
| `Text.CaseEq` | server/index.js:107 | definition: the e-mail comparison `String(a).toLowerCase() === String(b).toLowerCase()`, also used at lines 94, 122 and 159 |
| `Text.BlankIffNoVisibleChar` | src/App.jsx:111 | the checkout's blank test `!n \|\| !n.trim()` holds exactly when the name has no non-white-space character |
| `Text.TrimStart` | src/App.jsx:117 | trimming the front removes only white space and leaves a suffix of the input that starts with a visible character (or is empty) |
| `Text.TrimEnd` | src/App.jsx:117 | trimming the back removes only white space and leaves a prefix of the input that ends with a visible character (or is empty) |
| `Text.Join` | src/App.jsx:136 | definition: `parts.join(sep)`, with the separator between consecutive parts only (also used at src/components/AdminPanel.jsx:18 and 20) |
| `Text.IntToString` | src/App.jsx:132 | definition: how an integer appears in a template literal, `${n}`, with a leading "-" for a negative |
| `Text.JoinEmptyIff` | src/App.jsx:136 | a join of non-empty parts is empty exactly when there are no parts |
| `Text.NatToString` | src/App.jsx:132 | a number in a template literal renders as a non-empty string of decimal digits with no leading zero |
| `Text.NatToStringRoundTrip` | src/App.jsx:134 | reading the rendered digits back gives the number: a quantity's decimal rendering loses nothing |
| `Seqs.Filter` | src/App.jsx:74 | definition: `Array.prototype.filter`, the elements satisfying the predicate in their original order (also at server/index.js:159 and src/components/AdminPanel.jsx:17) |
| `Seqs.FlatMap` | src/components/AdminPanel.jsx:9-19 | definition: a loop that pushes, for each element in turn, the pieces it gives |
| `Seqs.FilterMembership` | src/App.jsx:74 | an element is kept by `filter` exactly when it is in the input and satisfies the predicate |
| `Seqs.FilterAppend` | server/index.js:159 | filtering a concatenation filters each half, keeping order |
| `Seqs.FlatMapAppend` | src/components/UserTickets.jsx:10-19 | pushing the pieces of a concatenation pushes those of each half, in order |
| `Attendees.NamesOf` | src/components/AdminPanel.jsx:17 | definition: `a?.names \|\| a?.attendees \|\| []`, where a present array wins even when empty and a `null` entry gives [] |
| `Attendees.Chunk` | src/components/AdminPanel.jsx:12-14 | definition: "Asztalfoglalás", then " – N fő" for a truthy size, then " – NAME névre" for a non-empty name |
| `Attendees.EntryParts` | src/components/AdminPanel.jsx:11-18 | definition: the parts one entry pushes, the chunk for a table group and then the joined non-empty names if there are any |
| `Attendees.Parts` | src/components/AdminPanel.jsx:9-19 | definition: the parts of all entries, entry by entry in input order |
| `Attendees.RenderKinek` | src/components/AdminPanel.jsx:7-21 | a non-array gives ""; otherwise the loop's result is the parts of the entries, in order, joined by " \| " (the copy at src/components/UserTickets.jsx:7-21 is identical) |
| `Attendees.PushEntry` | src/components/AdminPanel.jsx:11-18 | one pass of the loop appends exactly the entry's parts: the table chunk for a table group, then the joined non-empty names if there are any |
| `Attendees.PartsAppend` | src/components/UserTickets.jsx:10-19 | the parts of a concatenation of entries are the parts of each half, so the summary keeps the order of the groups |
| `Attendees.EntryPartsShape` | src/components/AdminPanel.jsx:11-18 | a table group contributes its chunk first; every entry then contributes one part of joined names exactly when some name is non-empty, and nothing else, so the count of parts is (table ? 1 : 0) + (names ? 1 : 0) and the names part comes last; a name is shown exactly when it is among the entry's names and non-empty |
| `Attendees.NamesArrayWins` | src/components/UserTickets.jsx:17 | a `names` array takes precedence even when empty: the `attendees` fallback is then not consulted |
| `Attendees.ChunkShape` | src/components/AdminPanel.jsx:12-14 | the chunk starts with "Asztalfoglalás"; the size suffix appears iff a non-zero size is present, the name suffix iff a non-empty name is; with neither the chunk is the bare label |
| `Attendees.PartsNonEmpty` | src/components/UserTickets.jsx:14-18 | every part pushed is non-empty |
| `Attendees.EntryPartsEmptyIff` | src/components/AdminPanel.jsx:11-18 | an entry contributes nothing exactly when it is not a table group and has no non-empty name |
| `Attendees.PartsEmptyIff` | src/components/UserTickets.jsx:9-19 | no part is pushed exactly when every entry contributes nothing |
| `Attendees.RenderEmptyIff` | src/components/AdminPanel.jsx:7-21 | the summary is "" exactly when every entry contributes nothing |
| `CartModel.SizeOr` | src/App.jsx:130 | definition: `Number(x \|\| d)` on a table size, where an absent or zero size gives the default (6 here, 0 at line 116) |
| `CartModel.Added` | src/App.jsx:40-59 | definition: the cart `add(t)` produces, bumping the first line with the ticket's id or appending a new line |
| `CartModel.QtyChanged` | src/App.jsx:61-72 | definition: the cart `changeQty(id, d)` produces, line by line |
| `CartModel.Removed` | src/App.jsx:74 | definition: the cart `removeItem(id)` produces, the lines with another id |
| `CartModel.NameSet` | src/App.jsx:76-86 | definition: the cart `setAttendeeName(id, index, value)` produces, line by line |
| `CartModel.TableSet` | src/App.jsx:88-99 | definition: the cart `setTableField(id, field, value)` produces, line by line |
| `CartModel.LineComplete` | src/App.jsx:108-121 | definition: the completeness rule, independent of `trim`. A ticket line needs at least `qty` names, each with a visible character. The table line needs a name with a visible character and a size `Number(tableSize \|\| 0)` of at least 1 |
| `CartModel.Clamp` | src/App.jsx:65 | the new quantity is between 1 and 10: a quantity already in range is kept, one below 1 becomes 1 and one above 10 becomes 10 |
| `CartModel.PadNames` | src/App.jsx:47 | the `while` loop pushing "" yields the names padded with "" up to the quantity |
| `CartModel.ResizedShape` | src/App.jsx:46-47 | slicing to the new quantity and padding yields exactly that many names, the retained ones first and "" after |
| `CartModel.FindIndex` | src/App.jsx:42 | `findIndex` returns the first line with the ticket's id, or -1 when there is none |
| `CartModel.Cart.constructor` | src/App.jsx:22 | the cart starts empty and well-formed |
| `CartModel.Cart.Add` | src/App.jsx:40-59 | the cart becomes `Added(old cart, ticket)` and the cart invariant is kept |
| `CartModel.Cart.ChangeQty` | src/App.jsx:61-72 | the cart becomes `QtyChanged(old cart, id, d)`, each line updated by the `map` loop, and the invariant is kept |
| `CartModel.Cart.RemoveItem` | src/App.jsx:74 | the cart becomes the lines with another id, and the invariant is kept |
| `CartModel.Cart.SetAttendeeName` | src/App.jsx:76-86 | the cart becomes `NameSet(old cart, id, index, value)`, and the invariant is kept when the index is below the line's quantity |
| `CartModel.Cart.SetTableField` | src/App.jsx:88-99 | the cart becomes `TableSet(old cart, id, edit)`, and the invariant is kept |
| `CartModel.CheckLine` | src/App.jsx:109-121 | the trim-based test of one line passes exactly when the line is complete: a ticket line has a visible name in each of its `qty` slots; the table line has a visible name and a size of at least 1 |
| `CartModel.Cart.Checkout` | src/App.jsx:103-148 | a missing name, e-mail or an empty cart is rejected first; otherwise the first incomplete line is reported (by title for a ticket line, as table details for the table line); the order is submitted exactly when every line is complete, and the payload is then `Payload(cart, ...)` |
| `CartModel.WithQtyShape` | src/App.jsx:65-70 | a quantity change keeps the line's id, title, description and price, resizes the names to the new quantity keeping the retained prefix, and normalises the table line's fields to `Number(tableSize \|\| 6)` and `tableName \|\| ""` while other lines keep theirs |
| `CartModel.AddExisting` | src/App.jsx:42-53 | adding a ticket already in the cart adds no line; that line keeps its id, title, description and price, its quantity rises by one up to 10, its names are resized keeping the retained prefix, and its table fields are normalised as above; every other line is unchanged |
| `CartModel.AddNew` | src/App.jsx:55-57 | adding a new ticket appends one line with the ticket's id, title, description and price, quantity 1 and one empty name; the table line also gets size 6 and an empty name |
| `CartModel.ChangeQtyEffect` | src/App.jsx:61-72 | lines with the id keep their id, title, description and price, get quantity `max(1, min(10, qty + d))`, names of that length keeping the retained prefix, and normalised table fields; other lines are unchanged |
| `CartModel.RemoveItemEffect` | src/App.jsx:74 | a line survives removal exactly when it was in the cart with another id; no survivor has the id; removal distributes over concatenation, so order is kept |
| `CartModel.SetAttendeeNameEffect` | src/App.jsx:76-86 | with an index below a matching line's quantity, only that slot of that line changes |
| `CartModel.WithSlotShape` | src/App.jsx:80-82 | the names are padded to at least the quantity, a non-negative index receives the value (padding with "" past the end), and every other slot keeps its name |
| `CartModel.SetTableFieldEffect` | src/App.jsx:88-99 | only the table line changes, and it keeps its id, title, description, price, quantity and names; a size edit stores the input when it is at least 1 and exactly 1 otherwise (also for an empty input); a name edit stores the name verbatim; the other field is kept |
| `CartModel.AddPreservesWellFormed` | src/App.jsx:40-59 | `add` keeps ids distinct, quantities in 1..10 and one name slot per ticket |
| `CartModel.QtyChangedPreservesWellFormed` | src/App.jsx:61-72 | `changeQty` keeps the cart invariant |
| `CartModel.RemovedPreservesWellFormed` | src/App.jsx:74 | `removeItem` keeps the cart invariant |
| `CartModel.NameSetPreservesWellFormed` | src/App.jsx:76-86 | `setAttendeeName` with an index below the quantity keeps the cart invariant |
| `CartModel.TableSetPreservesWellFormed` | src/App.jsx:88-99 | `setTableField` keeps the cart invariant |
| `CartModel.Total` | src/App.jsx:101 | definition: the fold `cart.reduce((s, x) => s + x.price * x.qty, 0)` |
| `CartModel.TotalAppend` | src/App.jsx:101 | the total of a concatenation is the sum of the totals |
| `CartModel.TotalUpdate` | src/App.jsx:101 | replacing one line changes the total by the difference of the two lines' amounts |
| `CartModel.TotalAfterAdd` | src/App.jsx:101 | adding a ticket raises the total by its price, unless its line is already at 10 |
| `CartModel.TotalAfterRemove` | src/App.jsx:101 | removing a line lowers the total by that line's price times quantity |
| `CartModel.TotalNonNegative` | src/App.jsx:101 | with non-negative prices the total is non-negative |
| `CartModel.ItemText` | src/App.jsx:128-135 | definition: "TITLE (Q db)" for a ticket line, and "TITLE (Q db, SIZE fő, név: NAME)" for the table line, with size `Number(tableSize \|\| 6)` |
| `CartModel.GroupOf` | src/App.jsx:137-144 | definition: the attendee group of one line, holding the id, the title and the names cut to the quantity, plus the table name and `Number(tableSize \|\| 6)` on the table line |
| `CartModel.Payload` | src/App.jsx:124-148 | definition: the order body, with the item texts joined by ", ", one group per line, the note, the cart total and the client's timestamp |
| `CartModel.PayloadOfCompleteCart` | src/App.jsx:124-148 | the payload of a complete cart carries the name, e-mail, note, cart total and the client's timestamp, has a non-empty item text, and one group per line with its id, its title and its names cut to its quantity (the first `qty` names whenever the line has that many, as every ticket line of a complete cart does, all visible there); the table line's group also carries its name and `Number(tableSize \|\| 6)` |
| `Server.ReadJson` | server/index.js:60-67 | definition: the records of a readable file, and [] for a missing, unparsable or empty one |
| `Server.StoreRoundTrip` | server/index.js:60-71 | a list written is read back unchanged; an unreadable or empty file reads as the empty list |
| `Server.BearerToken` | server/index.js:78-79 | definition: the header with a leading "Bearer " removed, or the whole header when it has no such prefix; a missing header is "" |
| `Server.Authorize` | server/index.js:75-88 | 401 exactly when the token does not verify; 403 exactly when it verifies with another role than the required one; a verified token with the required role, or any verified token when no role is required, is admitted with its claims |
| `Server.WrongRoleForbidden` | server/index.js:81 | an admin token is refused with 403 on the user route, and a user token on the admin route |
| `Server.EmailTaken` | server/index.js:107 | true exactly when some stored user's e-mail equals the given one ignoring case |
| `Server.FindUser` | server/index.js:122 | none exactly when no e-mail matches; otherwise the first matching user |
| `Server.EnvOr` | server/index.js:56-57 | definition: `process.env.X \|\| dflt`, where an unset or empty variable gives the default |
| `Server.Backend.constructor` | server/index.js:55-57 | the admin e-mail and password come from the environment, with defaults "admin@example.com" and "admin123" |
| `Server.Backend.Login` | server/index.js:91-100 | 400 exactly when e-mail or password is missing; a token exactly when the e-mail matches the admin's ignoring case and the password matches exactly, carrying the e-mail as typed and the admin role; otherwise 401 |
| `Server.Backend.Register` | server/index.js:102-115 | 400 for a missing field; 400 with the duplicate message exactly when the e-mail is taken ignoring case; otherwise the user is prepended and the file rewritten, or replaced by the one user when it was unreadable; the file changes only on success |
| `Server.Backend.UserLogin` | server/index.js:117-129 | 400 for a missing field; 401 when no user matches; a user-role token with the stored e-mail, name and id exactly when the first matching user's hash matches the password; otherwise 401 |
| `Server.Backend.SubmitOrder` | server/index.js:131-150 | 400 exactly when name, e-mail or items is missing, leaving the file as it was; otherwise the order is prepended under the supplied id and saved |
| `Server.Backend.AllOrders` | server/index.js:152-155 | the middleware's refusal for a non-admin token; otherwise the whole stored list |
| `Server.Backend.MyOrders` | server/index.js:157-161 | the middleware's refusal for a non-user token; otherwise the stored orders whose e-mail matches the token's ignoring case |
| `Server.OrdersOf` | server/index.js:159 | definition: the stored orders whose e-mail equals the token's ignoring case, in stored order |
| `Server.OrdersOfExactly` | server/index.js:159 | a user's listing holds exactly the stored orders with a matching e-mail, in stored order |
| `Server.NewOrderListedFirst` | server/index.js:146-147 | a newly saved order heads the listing of every user whose e-mail matches it, and no one else's listing changes |
| `Server.SubmitThenList` | server/index.js:131-161 | after an accepted order the admin list starts with it and the customer's listing contains it |
| `Server.Accepted` | server/index.js:132-145 | definition: the stored order for an accepted request, with the supplied id, status "pending" and the defaults filled in |
| `Server.MissingOrderFields` | server/index.js:133 | definition: the 400 test `!name \|\| !email \|\| !items` |
| `Server.AcceptedDefaults` | server/index.js:132-145 | an accepted order has status "pending" and keeps the id, name, e-mail, items, and any supplied attendees, note and total unchanged; absent attendees become [], an absent note "", an absent total 0, and an absent or empty timestamp the server's clock |
| `Server.FreshIdKeepsIdsDistinct` | server/index.js:136 | prepending an order with a fresh id keeps order ids distinct |
| `Server.RegisterKeepsEmailsUnique` | server/index.js:107-113 | registration keeps stored e-mails unique ignoring case |
| `Storefront.CheckedOutOrderAccepted` | src/App.jsx:124-148 | the payload of a cart that passes checkout is never rejected by the server, and the stored order keeps the e-mail, the cart total, the "pending" status and the client's timestamp |
| `Storefront.CheckedOutSummaryNonEmpty` | src/components/AdminPanel.jsx:7-21 | the attendee summary of an order placed from a well-formed, complete cart is never empty, both for the posted body and for the order the server stores and the order lists render |
| `Storefront.CheckoutScenario` | src/App.jsx:103-122 | worked example with no contract: two ball tickets with one name are refused at that line; once both names are filled in, the cart is submitted with the names in order |
| `Storefront.AccountScenario` | server/index.js:102-129 | worked example with no contract: a second registration of the same e-mail in other letter case is refused, a wrong password gets 401, and the right one gets a user-role token |

## Left out

- Rendering, routing, the Alt+A shortcut and HUF formatting: user interface, not part of the cart or server logic.
- `src/auth.js` (token storage, the `api` fetch wrapper), and the form components `LoginForm`, `UserLogin` and `TicketCard`: client plumbing around the modelled handlers.
- Clearing the cart and the note after a successful post, and the alert on a failed post: these follow network I/O.
- The alert texts of `handleCheckout`: `Checkout` returns which check failed, and for a ticket line its title, in place of the message.
- JWT signing and verification, the secret and the 7-day expiry: `verify` is a parameter and `TokenIssued` carries the signed claims.
- bcrypt hashing and comparison: the hash is a given value, and the comparison is a parameter.
- `Date.now()`, `Math.random()` and `new Date().toISOString()`: given values.
- Directory creation, JSON serialisation, a JSON file that holds something other than an array, and concurrent requests: file system I/O.
- The static file server and the SPA fallback: not request logic.
- `Number()` coercion of non-numeric input, NaN and fractional sizes: sizes, quantities and totals are integers or absent.
- JavaScript values of other types where strings are expected: a missing or falsy string is "", and a `null` entry in an order's attendee list is `None`. Non-string names inside a names array are left out.
- `toLowerCase` beyond Latin-1 (Greek, Cyrillic and so on), and locale-sensitive mappings.
- Sparse arrays: a name written past the end pads the gap with "". JavaScript leaves holes there instead. `slice` keeps them, and `names.some(...)` in `handleCheckout` skips them, so in the source a hole inside the first `qty` slots would pass checkout where the model's "" fails it. The attendee inputs only ever write an index below the quantity, and within the quantity the slots are already padded with "", so no such hole arises from the page.
- The `Array.isArray(x.attendees)` fallback to `[]`: every cart line the client creates has an array.
- `setTableField` with a field name other than `tableSize` or `tableName`: it copies the line unchanged. `TableEdit` cannot express it.
- `CartModel.Cart.SetAttendeeName`: keeps the cart invariant only for an index below the line's quantity, because the source writes an index beyond it, leaving more names than tickets.
