# Dravaya front end: a verified model of its client-side logic

This project models in Dafny the decision and request-shaping logic of the Dravaya
vendor-payout front end, a React application. It also models the two small local data
structures of its storefront. The money itself is held behind HTTP endpoints that are not
part of this model. What is modelled is what the browser decides before and after calling
them:

- **Payouts.**
  - The guard chain of the payout form.
  - Beneficiary and payout-mode compatibility.
  - The payload builders of the vendor-payout and fund-transfer clients.
  - The merchant and payout reference formats.
  - Bounded status polling.
  - The webhook pass-through.
- **Beneficiaries.** Form validation and the create/update payload, the active toggle,
  edit and reset of the form, and phone and IFSC input normalisation.
- **Top-ups.**
  - The vendor's amount bounds.
  - The admin's approve and reject prompts with their call arguments.
  - The pending-only action buttons.
  - The per-request `processing` flags.
  - The action whitelist, payload and list query of the top-up client.
- **Vendors.** The status-to-action mapping, badge classes, the local status update, and the
  action whitelist, body and list query of the vendor client.
- **Access.** Sign-up checks, login status gating and role routing, and the route guard.
- **Transactions.** Request body and endpoint, row transformation, and page clamping.
- **Storefront.** The local cart and order store, and the category page:
  - category normalisation;
  - available brands and price range;
  - filtering and sorting;
  - brand toggling.

  Both run over the constant product table.

Module layout: one module per source file, plus shared modules that model the JavaScript
built-ins the source relies on:

- `Wrappers`: `Option` and `Result`.
- `JsText`: ASCII case mapping, `trim`, `split`/`join`, `parseInt`, digit strings, and
  string order for `sort()`.
- `JsNumber`: decimal numbers, `parseFloat`, `Number(...)` and `String(number)`.
- `JsValue`: JavaScript values with truthiness, `String(v)`, optional chaining and objects
  as maps.
- `Query`: `URLSearchParams` append, lookup and serialisation.

Numbers are exact decimals (`units / 10^scale`), never binary floating point. Product
prices are whole rupees. Product ratings are stored in tenths (4.8 is 48); this is exact
because every rating in the table has one decimal.

Time, randomness, network replies, prompts and confirmation dialogs are parameters:

- `Date.now()` is a `nat`.
- `Math.random()` is given by the base-36 digits it prints after `0.`.
- A network call's outcome is `Ok(reply)` or `Err(message)`.
- `prompt()` is `Option<string>`, with `None` for Cancel.
- `confirm()` is a `bool`.

React state is a class whose fields are the `useState` variables. Each handler is a method
that states the whole new state. localStorage is a class field: `Cart.Store.items` and
`Cart.Store.orders`.

## Model

| member | source | states |
|---|---|---|
| PayoutsPage.FindBeneficiary | src/pages/PayoutsPage.jsx:71-72 | returns the first beneficiary whose id, read as a string, equals the selected id; when it returns none, no beneficiary has that id |
| PayoutsPage.SuggestedMode | src/pages/PayoutsPage.jsx:250-257 | the mode is `transfer_type` upper-cased when that is a truthy string; when `transfer_type` is falsy it is `payment_mode` upper-cased when that is a truthy string; with neither it is 'UPI'; it throws a TypeError exactly when the value chosen this way is truthy but not a string; a successful mode contains no lower-case letter |
| PayoutsPage.SendDecision | src/pages/PayoutsPage.jsx:53-93 | alerts, in this order: a missing beneficiary, then a missing mode, then a non-numeric or non-positive amount, each if and only if it happens; 'not found' alerts exactly when no beneficiary matches; to proceed, the beneficiary must support the mode and the dialog must be confirmed; the amount sent is `parseFloat` of the input; declining sends nothing |
| PayoutsPage.PayoutRequestAccepted | src/pages/PayoutsPage.jsx:105-126 | the page's request uses the saved beneficiary with the integer id the page parsed; the client accepts its transfer type; `parseFloat` reads the page's amount back unchanged; the narration is the notes or 'Vendor payout' |
| PayoutsPage.WithBalance | src/pages/PayoutsPage.jsx:133-137 | the new wallet has `balance` set to the given value and keeps every other field of the old wallet |
| PayoutsPage.NewWallet | src/pages/PayoutsPage.jsx:128-137 | the balance becomes the reply's `balance_after` exactly when the reply has a wallet with that field defined; otherwise the wallet is unchanged |
| PayoutsPage.Page.constructor | src/pages/PayoutsPage.jsx:8-17 | the form starts with all four fields empty and nothing is being sent |
| PayoutsPage.Page.SelectBeneficiary | src/pages/PayoutsPage.jsx:250-257 | sets the selected id; the mode becomes the beneficiary's suggested mode, or '' when no beneficiary matches |
| PayoutsPage.Page.SelectPayoutMode | src/pages/PayoutsPage.jsx:277-295 | a mode the selected beneficiary cannot support raises the matching alert and leaves the form unchanged; otherwise only the mode changes, upper-cased |
| PayoutsPage.Page.SetAmount | src/pages/PayoutsPage.jsx:330 | only the amount field changes |
| PayoutsPage.Page.SendPayout | src/pages/PayoutsPage.jsx:50-162 | an alert or a declined dialog sends nothing and changes no state; a request is posted if and only if the decision proceeds, a user is stored and the id parses as an integer; a missing user or a bad id alerts instead; the posted request is the page's payout request; the reply is then handled as `HandleReply` states (the success alert with the transaction's reference, the TypeError for a null reply), and `sending` ends false |
| PayoutsPage.Page.HandleReply | src/pages/PayoutsPage.jsx:128-161 | a success reply updates the balance; when it names a transaction it alerts 'Payment initiated successfully! Transaction ID: ' followed by the transaction's `merchant_reference_id` and clears the form, and when it has none the reference read throws, the TypeError is alerted and the form is kept; a null reply alerts the TypeError and changes nothing; any other non-success reply changes nothing and alerts nothing; a thrown error alerts with its message or the fallback and keeps the form |
| PayoutsPage.ReplyOutcome | src/pages/PayoutsPage.jsx:128-161 | the reply decides the wallet, form and alert uniquely; only a success changes the wallet; only a success naming its transaction clears the form; the page alerts nothing exactly when the reply is a non-null non-success |
| VendorPayoutApi.GeneratePayoutReferenceId | src/lib/vendor-payout-api.js:12-16 | the reference starts with 'PAYOUT_' |
| VendorPayoutApi.PayoutReferenceDecodes | src/lib/vendor-payout-api.js:12-16 | the timestamp and the random part can be read back from the reference: the digits after 'PAYOUT_' are the timestamp, and what follows the next '_' is the random token |
| VendorPayoutApi.PayoutReferenceRandomPart | src/lib/vendor-payout-api.js:14 | the random part has at most 6 characters, each a digit or an upper-case letter |
| VendorPayoutApi.IfTruthy | src/lib/vendor-payout-api.js:80-86 | an optional field is present exactly when its value is truthy, and then carries that value |
| VendorPayoutApi.InitiateVendorPayoutPayload | src/lib/vendor-payout-api.js:44-86 | it throws exactly when a saved beneficiary is used and its id is not an integer or a truthy transfer type is not a string, never in manual mode; `vendor_id` and the parsed amount are always sent; a saved beneficiary sends its integer id and no `ben_*` field, plus the transfer type upper-cased only when supplied; manual UPI sends only the VPA, and any other manual type sends exactly the account number, IFSC and bank name; narration and reference id are sent only when truthy |
| PaymentApi.VendorPart | src/lib/payment-api.js:12 | the first 8 characters of a string vendor id, or 'VENDOR' when the id is missing or empty; a vendor id that is neither missing nor a string throws |
| PaymentApi.GenerateMerchantReferenceId | src/lib/payment-api.js:11-16 | the reference is 'VND', then the vendor part, the timestamp's digits and the random token, each at its stated position |
| PaymentApi.InitiateFundTransferPayload | src/lib/payment-api.js:30-49 | a missing beneficiary throws; phone and amount are sent as `String(...)`, the narration defaults to 'PAYNINJA Fund Transfer', UPI adds only the VPA, and every other mode adds exactly the account number, IFSC and bank name |
| PaymentApi.TransferAmountReadsBack | src/lib/payment-api.js:36 | the amount sent as a string parses back to the same number |
| PaymentApi.StatusRequestBody | src/lib/payment-api.js:80-90 | the status request body holds exactly `merchant_reference_id` |
| PaymentApi.FirstTerminal | src/lib/payment-api.js:144-149 | finds the first attempt whose reply status is neither 'processing' nor 'pending'; when it finds none, none exists |
| PaymentApi.FirstTerminalIsFirst | src/lib/payment-api.js:144-149 | a terminal attempt with no terminal attempt before it is the one found |
| PaymentApi.FirstTerminalNone | src/lib/payment-api.js:162-164 | when no attempt is terminal, none is found |
| PaymentApi.PollTransactionStatus | src/lib/payment-api.js:141-164 | `maxAttempts` defaults to 60; returns the first terminal reply among the first `maxAttempts` attempts, after exactly that many calls; errored attempts do not stop the polling; with no terminal reply it fails with the timeout error after `maxAttempts` calls; it never makes more than `maxAttempts` calls and waits once fewer than it calls |
| PaymentApi.HandleWebhook | src/lib/payment-api.js:172-176 | the webhook data is returned unchanged |
| BeneficiariesPage.SubmitRequest | src/pages/BeneficiariesPage.jsx:74-105 | builds the payload step by step as the handler does and returns exactly `Submission` |
| BeneficiariesPage.Submission | src/pages/BeneficiariesPage.jsx:74-120 | UPI fails with the VPA message if and only if the VPA is falsy; any other type fails with the bank-details message if and only if the account number, IFSC or bank name is falsy; otherwise it sends `vendor_id`, name, phone, type and `is_active: true`, with only the VPA for UPI or exactly the three bank fields otherwise; it is an update with `id` set to the edited id exactly when one is being edited, else a create |
| BeneficiariesPage.OrEmpty | src/pages/BeneficiariesPage.jsx:131-137 | `v \|\| ''`: a falsy value becomes '' and a truthy one is kept |
| BeneficiariesPage.EditForm | src/pages/BeneficiariesPage.jsx:128-138 | each of the six text fields is the beneficiary's value when that is truthy and '' otherwise; the type is `transfer_type` when truthy, else 'UPI', so it is always truthy |
| BeneficiariesPage.EditFormOfComplete | src/pages/BeneficiariesPage.jsx:130-138 | for a beneficiary whose fields are all filled, the edit form is exactly those fields |
| BeneficiariesPage.SanitizePhone | src/pages/BeneficiariesPage.jsx:276 | the phone is a prefix of the input's digits, of length min(10, number of digits); with `DigitsOnlyAppend` and `DigitsOnlyChar` the digits are the input's digits in the order typed |
| BeneficiariesPage.SanitizePhoneIdempotent | src/pages/BeneficiariesPage.jsx:276 | sanitising a sanitised phone changes nothing |
| BeneficiariesPage.NormalizeIfscStable | src/pages/BeneficiariesPage.jsx:339 | the upper-cased IFSC has no lower-case letter, and upper-casing it again changes nothing |
| BeneficiariesPage.ToggledStatus | src/pages/BeneficiariesPage.jsx:154 | the new status is the negation of the current `is_active` |
| BeneficiariesPage.FindById | src/pages/BeneficiariesPage.jsx:151 | finds the first beneficiary whose id strictly equals the given id; when it finds none, none matches |
| BeneficiariesPage.ToggleRequest | src/pages/BeneficiariesPage.jsx:144-161 | a toggle is sent exactly when a user is stored and the beneficiary exists; it carries only the id, the user's id as `vendor_id`, and the negated `is_active` |
| BeneficiariesPage.SuccessMessage | src/pages/BeneficiariesPage.jsx:107 | the reply's message when truthy, else the default for update or create; always truthy |
| BeneficiariesPage.Page.constructor | src/pages/BeneficiariesPage.jsx:6-23 | the page starts with the initial empty UPI form, no edit in progress and no messages |
| BeneficiariesPage.Page.ResetForm | src/pages/BeneficiariesPage.jsx:197-211 | restores the initial form, hides it, clears the edited id and both messages |
| BeneficiariesPage.Page.Edit | src/pages/BeneficiariesPage.jsx:128-142 | the edited id and the edit form are set, the form is shown, and the messages are cleared |
| BeneficiariesPage.Page.SetPhone | src/pages/BeneficiariesPage.jsx:276 | only the phone field changes, to the sanitised input |
| BeneficiariesPage.Page.SetIfsc | src/pages/BeneficiariesPage.jsx:339 | only the IFSC field changes, to the upper-cased input |
| BeneficiariesPage.Page.HandleSubmit | src/pages/BeneficiariesPage.jsx:59-126 | no stored user gives the authentication error and changes nothing else; a validation failure of `Submission` shows its error, sends nothing and keeps the form; otherwise the request sent is exactly `Submission`'s request for the form and the user's id; a successful save resets the form and leaves the success message empty; a reply that is not a success keeps the form, with a TypeError for a null reply; a thrown error shows its message or the fallback and keeps the form |
| BeneficiariesPage.Page.HandleSubmitKeepingMessage | src/pages/BeneficiariesPage.jsx:106-118 | corrected handler: it sends exactly what `HandleSubmit` sends, and a successful save resets the form and keeps a non-empty success message |
| BeneficiariesPage.Page.HandleStatusChange | src/pages/BeneficiariesPage.jsx:144-171 | the request sent is exactly the toggle request for the current list; no stored user alerts the authentication message; an unknown id alerts nothing; after a request, a success reply alerts 'Status updated successfully', a null reply a TypeError, any other reply nothing, and a thrown error its message or 'Failed to update status' |
| VendorDashboard.ValidateTopUpAmount | src/pages/VendorDashboard.jsx:55-64 | a refused amount carries one of the two messages: invalid amount, or amount too large |
| VendorDashboard.ValidateTopUpAmountCases | src/pages/VendorDashboard.jsx:55-64 | accepted if and only if the amount parses, is positive and is at most 1,000,000, and then it is the parsed number; 'invalid' exactly when it does not parse or is at most 0; 'too large' exactly when it is positive and above 1,000,000 |
| VendorDashboard.AcceptsPrintedAmount | src/pages/VendorDashboard.jsx:55-64 | every positive amount up to 1,000,000, typed as its decimal string, is accepted as itself |
| VendorDashboard.RefusesPrintedAmountAboveMax | src/pages/VendorDashboard.jsx:61-64 | every amount above 1,000,000 is refused as too large |
| VendorDashboard.RefusesPrintedAmountAtMostZero | src/pages/VendorDashboard.jsx:55-59 | every zero or negative amount is refused as invalid |
| VendorDashboard.AcceptsMaximum | src/pages/VendorDashboard.jsx:61-64 | exactly 1,000,000 is accepted |
| VendorDashboard.TransactionSign | src/pages/VendorDashboard.jsx:184 | '+' if and only if the type is 'topup', otherwise '-' |
| VendorDashboard.Dashboard.constructor | src/pages/VendorDashboard.jsx:8-13 | the form is hidden and empty, with no messages |
| VendorDashboard.Dashboard.HandleTopUpRequest | src/pages/VendorDashboard.jsx:50-87 | a refused amount shows its message and sends nothing; no stored user shows the authentication error and keeps the form; the request is sent if and only if the amount is valid and a user is stored, with the user's id and the parsed amount; success shows the reply's message or the default, hides the form and clears the amount; a null reply shows the TypeError, and any other non-success reply shows nothing, both keeping the form open with its amount; a thrown error shows its message or the fallback and keeps the form; `submitting` ends false |
| TopupRequestsPage.StartApprove | src/pages/TopUpRequestsPage.jsx:51-69 | cancelling the notes prompt makes no call; no stored user gives the admin alert; otherwise it calls 'approve' with the user's id, null for empty notes and a null rejection reason |
| TopupRequestsPage.StartReject | src/pages/TopUpRequestsPage.jsx:83-104 | a cancelled or blank reason gives the 'required' alert if and only if it happens; a call is 'reject' with a non-blank reason, null admin notes and a stored user |
| TopupRequestsPage.ApproveBody | src/pages/TopUpRequestsPage.jsx:51-69 | a body is sent exactly when the prompt was answered and a user is stored; it is an 'approve' body, with `admin_notes` only for non-empty notes |
| TopupRequestsPage.RejectBody | src/pages/TopUpRequestsPage.jsx:83-104 | a body is sent exactly when the reason is non-blank and a user is stored; it has exactly the four keys, with action 'reject' and the reason |
| TopupRequestsPage.StartedCallsAreWellFormed | src/pages/TopUpRequestsPage.jsx:63-104 | approve sends a null rejection reason; reject sends null admin notes and a truthy reason |
| TopupRequestsPage.Actions | src/pages/TopUpRequestsPage.jsx:258-275 | approve and reject are offered if and only if the status is 'pending' |
| TopupRequestsPage.BadgeClass | src/pages/TopUpRequestsPage.jsx:118-129 | approved is green, pending yellow, rejected red, anything else grey |
| TopupRequestsPage.BadgesDistinct | src/pages/TopUpRequestsPage.jsx:118-129 | each of the three known statuses gets a class no other status gets |
| TopupRequestsPage.LastEventFor | src/pages/TopUpRequestsPage.jsx:61-115 | the event returned has the key and no later event has it; none is returned exactly when no event has the key |
| TopupRequestsPage.FlagFollowsLastEvent | src/pages/TopUpRequestsPage.jsx:61-115 | with functional updates, a request's flag is its last event's action while it runs and null after it ends, whatever other requests do |
| TopupRequestsPage.StaleFlagsWhenCallsOverlap | src/pages/TopUpRequestsPage.jsx:61-80 | with the captured `processing` closure, two overlapping approvals lose each other's flags |
| TopupRequestsPage.Page.constructor | src/pages/TopUpRequestsPage.jsx:12 | no request is flagged |
| TopupRequestsPage.Page.Begin | src/pages/TopUpRequestsPage.jsx:61 | a started call flags its request with the action, and the map read at that moment is captured |
| TopupRequestsPage.Page.SettleWithCaptured | src/pages/TopUpRequestsPage.jsx:78-80 | as written: the flags become the captured map with this request cleared |
| TopupRequestsPage.Page.Settle | src/pages/TopUpRequestsPage.jsx:78-80 | corrected: this request's flag becomes null and every other flag is kept |
| TopupApi.ListTopupRequestsUrl | src/lib/topup-api.js:20-39 | `status` is present unless it is missing or 'all'; `vendor_id`, `page` and `limit` are present only when truthy; no other parameter is present; the URL gets '?' only when a parameter exists |
| TopupApi.ProcessTopupRequestBody | src/lib/topup-api.js:72-90 | any action other than approve or reject throws; the payload always has the request id, action and admin id, plus `admin_notes` and `rejection_reason` exactly when each is truthy |
| VendorsPage.Actions | src/pages/VendorsPage.jsx:169-192 | pending offers only approve, active only suspend, suspended only activate, and any other status nothing |
| VendorsPage.OfferedActionsAccepted | src/pages/VendorsPage.jsx:169-192 | every offered action passes the client's whitelist |
| VendorsPage.BadgeClass | src/pages/VendorsPage.jsx:75-86 | active is green, pending yellow, suspended red, anything else grey |
| VendorsPage.BadgesDistinct | src/pages/VendorsPage.jsx:75-86 | each of the three known statuses gets a class no other status gets |
| VendorsPage.WithStatus | src/pages/VendorsPage.jsx:56-62 | the same length and order; a vendor with the matching id gets only its status changed, and every other vendor is unchanged |
| VendorsPage.WithStatusIdempotent | src/pages/VendorsPage.jsx:56-62 | applying the same status update twice is the same as once |
| VendorsPage.Page.constructor | src/pages/VendorsPage.jsx:5 | the page holds the given vendor list and has not crashed |
| VendorsPage.Page.HandleStatusChange | src/pages/VendorsPage.jsx:50-73 | a success reply alerts its message or the default; the list takes the replied status for that vendor, except that when a vendor matches and the reply has no `data.vendor` the state updater throws at render, the list is kept and the page is marked crashed; a null reply alerts a TypeError, any other reply alerts nothing, and neither changes the list; a thrown error alerts its message or the fallback |
| VendorApi.GetAllVendorsUrl | src/lib/vendor-api.js:20-39 | `status` is present unless it is missing or 'all'; `role`, `page` and `limit` are present only when truthy; no other parameter is present; the URL gets '?' only when a parameter exists |
| VendorApi.UpdateVendorStatusBody | src/lib/vendor-api.js:129-143 | throws if and only if the action is not approve, suspend or activate; otherwise the body is exactly `vendor_id` and `action` |
| Query.LookupFinds | src/lib/topup-api.js:21-34 | a lookup finds nothing exactly when no parameter has that name, and what it finds is a stored pair |
| Query.LookupAppend | src/lib/topup-api.js:21-34 | appending keeps an earlier value of a name and adds the new one only for a name not yet present |
| Query.LookupAppendIf | src/lib/topup-api.js:23-34 | the same for a conditional append |
| Query.LookupOfFourAppends | src/lib/topup-api.js:21-34 | after four conditional appends of distinct names, each name is present exactly when its condition held, and no other name is present |
| Query.Serialize | src/lib/topup-api.js:36 | the query string is empty if and only if there are no parameters |
| Query.WithQueryMark | src/lib/topup-api.js:37-39 | the URL contains '?' if and only if there are parameters, and is the bare path otherwise |
| Login.SignUpCheck | src/components/Login.jsx:22-33 | mismatched passwords are refused first, then a password shorter than 6, each if and only if it applies; otherwise sign-up proceeds |
| Login.LoginResult | src/components/Login.jsx:66-88 | a reply without a user is the invalid-response error; a pending or suspended user is refused with its message; navigation happens if and only if a user is present and not blocked; an admin goes to /admin/dashboard and every other role to /vendor/dashboard |
| Login.StoredAfterLogin | src/lib/auth-api.js:71-76 | the stored user becomes the reply's user whenever one is present, whatever its status; otherwise the stored user is unchanged |
| Login.LoginForm.constructor | src/components/Login.jsx:6-12 | the form starts in login mode, empty and not loading |
| Login.LoginForm.HandleSignUp | src/components/Login.jsx:15-55 | `signUp` is called if and only if both checks pass; a failed check shows its message and keeps the fields; success clears all three fields and shows the pending-approval message; a thrown error shows its message or 'Sign up failed'; loading ends false |
| Login.LoginForm.SignUpTimerFired | src/components/Login.jsx:46-49 | switches to login mode and clears the success message, changing nothing else |
| Login.LoginForm.HandleLogin | src/components/Login.jsx:57-94 | navigates exactly to the login result's path when it allows one, else shows the refusal or thrown message; fields are kept and loading ends false |
| App.RouteFor | src/App.jsx:51-167 | only the two-segment /admin/... and /vendor/... routes are guarded; /admin routes allow only 'admin', /vendor dashboard routes only 'vendor' |
| App.AccessAsWritten | src/App.jsx:39-43 | as written, every redirect goes to /vendor; `GuardedPathsAsWritten` states the guard itself |
| App.GuardedPathsAsWritten | src/App.jsx:39-43 | as written, a guarded route shows its page if and only if a user is stored and the user's role is one the route allows, and otherwise redirects to /vendor; so an /admin page is shown only to an admin and a /vendor page only to a vendor, whatever the account's status |
| App.Access | src/App.jsx:39-43 | the corrected guard: every redirect goes to /vendor |
| App.GuardedPaths | src/App.jsx:105-167 | under the corrected guard, an /admin page is shown only to a stored admin who is not pending or suspended, and a /vendor page only to such a vendor |
| App.OpenPaths | src/App.jsx:51-102 | /login redirects to /vendor, and the home and category pages are shown to anyone |
| App.PendingVendorReachesDashboard | src/lib/auth-api.js:71-76 | a pending vendor's login is refused on the form, but the user is stored and the guard as written opens /vendor/dashboard; the corrected guard redirects |
| App.RefusedLoginOpensNoGuardedPage | src/components/Login.jsx:73-81 | after a refused pending or suspended login, the corrected guard shows only unguarded pages |
| TransactionsPage.ListEndpoint | src/pages/TransactionsPage.jsx:72-74 | admin posts to the admin list endpoint and every other role to the vendor endpoint |
| TransactionsPage.RequestBody | src/pages/TransactionsPage.jsx:40-69 | no user or no user id throws; the body always has the page and a limit of the page size; `vendor_id` is present if and only if the role is 'vendor'; status and transfer type are present, upper-cased, only when their filter is not 'all' |
| TransactionsPage.ToRow | src/pages/TransactionsPage.jsx:95-113 | for a transaction that is not null or undefined, each of the 17 row fields: the top-level fields are copied; amount, type, narration, status and payment mode come from `transaction`, the two times from `timestamps` and the name from `beneficiary`, each through optional chaining; `vendor_email` and `vendor_id` fall back to the reply-level values |
| TransactionsPage.ListingOf | src/pages/TransactionsPage.jsx:85-125 | an error empties the list and alerts its message; a null reply, a `transactions` value that is neither an array nor falsy, or a null or undefined entry in it throws a TypeError, which empties the list and alerts; a reply that is not a success with data empties the list without an alert; a success reply with an array maps each transaction to its row, one for one and in order, with the reply's pagination or null and no alert; the list alerts if and only if one of those errors occurs |
| TransactionsPage.ListingKeepsOrder | src/pages/TransactionsPage.jsx:92-110 | the rows' ids are the reply's transaction ids, in the reply's order |
| TransactionsPage.PreviousPage | src/pages/TransactionsPage.jsx:183 | never below 1; one less when above 1 |
| TransactionsPage.NextPage | src/pages/TransactionsPage.jsx:190 | never above the page count; one more when below it |
| TransactionsPage.PagingStaysInRange | src/pages/TransactionsPage.jsx:183-190 | from a page in range, both buttons stay in range, and previous undoes next except on the last page |
| TransactionsPage.Page.constructor | src/pages/TransactionsPage.jsx:25-38 | the role is the stored user's role, or 'vendor', or '' without a user; filters 'all', page 1, no rows |
| TransactionsPage.Page.SetTypeFilter | src/pages/TransactionsPage.jsx:141-142 | sets the type filter and resets the page to 1 |
| TransactionsPage.Page.SetStatusFilter | src/pages/TransactionsPage.jsx:158-159 | sets the status filter and resets the page to 1 |
| TransactionsPage.Page.Previous | src/pages/TransactionsPage.jsx:183 | the page moves back and stays at least 1 |
| TransactionsPage.Page.Next | src/pages/TransactionsPage.jsx:190 | the page moves on and stays at most the page count |
| TransactionsPage.Page.Fetch | src/pages/TransactionsPage.jsx:17-129 | nothing is fetched before a role is known; a fetch posts to the role's endpoint with the current page, and `vendor_id` exactly for vendors; the list and pagination become the reply's listing; a missing user empties the list and alerts |
| Cart.NewItem | src/lib/cart-utils.js:36-44 | a new cart line copies the product's id and price and carries the given quantity |
| Cart.FindIndex | src/lib/cart-utils.js:31 | finds the first line with the id; when it finds none, no line has it |
| Cart.Without | src/lib/cart-utils.js:53 | no remaining line has the removed id, and the cart does not grow |
| Cart.AddedLines | src/lib/cart-utils.js:29-49 | adding an id already present raises only that line's quantity and adds no line; adding a new id appends exactly one line |
| Cart.CountAndTotalAdded | src/lib/cart-utils.js:81-90 | adding raises the count by the quantity and the total by the quantity times the line's price |
| Cart.CountAppend | src/lib/cart-utils.js:87-90 | the item count is additive over concatenation |
| Cart.TotalAppend | src/lib/cart-utils.js:81-84 | the total is additive over concatenation |
| Cart.WithoutLines | src/lib/cart-utils.js:52-56 | with unique ids, removing deletes exactly the line with that id and keeps the others in order; removing an absent id changes nothing |
| Cart.CountAndTotalRemoved | src/lib/cart-utils.js:81-90 | deleting a line lowers the count by its quantity and the total by its price times quantity |
| Cart.AddedKeepsUniqueIds | src/lib/cart-utils.js:29-49 | adding keeps line ids unique |
| Cart.WithoutKeepsUniqueIds | src/lib/cart-utils.js:52-56 | removing keeps line ids unique |
| Cart.UpdatedKeepsUniqueIds | src/lib/cart-utils.js:59-72 | updating keeps line ids unique |
| Cart.UpdatedLines | src/lib/cart-utils.js:59-72 | an absent id leaves the cart unchanged; a quantity of at most 0 removes the line; a positive quantity sets only that line's quantity |
| Cart.OrderId | src/lib/cart-utils.js:96 | the order id starts with 'ORD-' |
| Cart.OrderIdDecodes | src/lib/cart-utils.js:96 | the timestamp and the 9-character random token can be read back from the order id, on either side of the second '-' |
| Cart.FindOrder | src/lib/cart-utils.js:123-126 | returns the first stored order whose `orderId` is strictly equal to the id, as `find` does; returns none exactly when no stored order has it |
| Cart.FindSavedOrder | src/lib/cart-utils.js:93-126 | after an order with a fresh id is saved, looking that id up returns that order |
| Cart.Store.constructor | src/lib/cart-utils.js:7-15 | an empty cart and no orders |
| Cart.Store.AddToCart | src/lib/cart-utils.js:29-49 | the quantity defaults to 1; the cart becomes the added cart, ids stay unique, the count rises by the quantity, and orders are untouched |
| Cart.Store.RemoveFromCart | src/lib/cart-utils.js:52-56 | the line with the id is removed, ids stay unique, and an absent id changes nothing |
| Cart.Store.UpdateCartQuantity | src/lib/cart-utils.js:59-72 | the cart becomes the updated cart and ids stay unique |
| Cart.Store.ClearCart | src/lib/cart-utils.js:75-78 | the cart is empty, so total and count are 0 |
| Cart.Store.SaveOrder | src/lib/cart-utils.js:93-109 | appends exactly one order, whose keys are the given order's plus `orderId` and `orderDate`; it keeps the given fields and adds an 'ORD-' id and the date; the cart is untouched |
| MockProducts.ProductIds | src/lib/mock-products.js:4-220 | there are 15 products with ids 1 to 15, in order |
| MockProducts.ProductCategories | src/lib/mock-products.js:2-220 | each product's category is one of the three categories: five speakers, then five watches, then five headphones |
| MockProducts.ProductsDiscounted | src/lib/mock-products.js:4-220 | every product has 0 < `price` < `originalPrice` |
| MockProducts.FindById | src/lib/mock-products.js:224 | finds a product with that id; returns none only when no product has it |
| MockProducts.ProductByIdFinds | src/lib/mock-products.js:223-225 | `getProductById` returns a table product whose id is `parseInt(id)`, and returns none only when the id does not parse or no product has it |
| MockProducts.ProductsByCategory | src/lib/mock-products.js:228-230 | every product returned has the requested category |
| MockProducts.ProductsByCategoryMembers | src/lib/mock-products.js:228-230 | a product is returned if and only if it is in the table with that category |
| MockProducts.InCategory | src/lib/mock-products.js:229 | the filter keeps only table products of the category and never grows the list |
| MockProducts.ProductsPerCategory | src/lib/mock-products.js:228-230 | each category returns exactly its five products, in table order |
| CategoryPage.Capitalize | src/pages/CategoryPage.jsx:56 | the word keeps its length, its first letter is not lower-case and the rest are not upper-case, and it is the same word ignoring case |
| CategoryPage.Capitalized | src/pages/CategoryPage.jsx:55-56 | each word capitalised, in order |
| CategoryPage.NormalizeCategoryLower | src/pages/CategoryPage.jsx:54-57 | ignoring case, normalising replaces each '-' with a space |
| CategoryPage.FindCategory | src/pages/CategoryPage.jsx:61-64 | returns the first category matching the normalised or the raw parameter, ignoring case; when it returns none, no category matches |
| CategoryPage.BannerFor | src/pages/CategoryPage.jsx:7-29 | a banner exists if and only if the name is one of the three categories |
| CategoryPage.MatchesIgnoringCase | src/pages/CategoryPage.jsx:61-64 | a category name without spaces matches if and only if it equals the parameter ignoring case |
| CategoryPage.ResolveIgnoresCase | src/pages/CategoryPage.jsx:44-82 | the URL parameter resolves to a category if and only if that category equals the parameter ignoring case |
| CategoryPage.ResolveByCase | src/pages/CategoryPage.jsx:44-82 | the parameter resolves to Speakers, Watches or Headphones by case-insensitive comparison, and to nothing otherwise |
| CategoryPage.InsertBrand | src/pages/CategoryPage.jsx:87-88 | inserting into a strictly sorted brand list keeps it strictly sorted and adds exactly that brand |
| CategoryPage.AvailableBrands | src/pages/CategoryPage.jsx:86-89 | strictly sorted, and it holds exactly the brands of the products |
| CategoryPage.StrictlySortedDistinct | src/pages/CategoryPage.jsx:87 | a strictly sorted brand list has no duplicates |
| CategoryPage.MinPrice | src/pages/CategoryPage.jsx:96 | a price of some product, and at most every price |
| CategoryPage.MaxPrice | src/pages/CategoryPage.jsx:97 | a price of some product, and at least every price |
| CategoryPage.PriceRange | src/pages/CategoryPage.jsx:92-99 | {0, 0} for no products; otherwise the bounds are prices of products and enclose every price |
| CategoryPage.FilterBy | src/pages/CategoryPage.jsx:102-122 | every product kept meets the criteria, and the list never grows |
| CategoryPage.FilterBySubMultiset | src/pages/CategoryPage.jsx:102-122 | the result is a sub-multiset of the products |
| CategoryPage.FilterByMembers | src/pages/CategoryPage.jsx:102-122 | a product is kept if and only if it is listed and meets the criteria |
| CategoryPage.FilterByTwice | src/pages/CategoryPage.jsx:106-121 | filtering by one criterion and then another equals filtering once by both |
| CategoryPage.FilterByAppend | src/pages/CategoryPage.jsx:102-122 | filtering distributes over concatenation, so the original order is kept |
| CategoryPage.FilterByNothing | src/pages/CategoryPage.jsx:103-122 | with no brands and no bounds, every product is kept in order |
| CategoryPage.FilterByCombined | src/pages/CategoryPage.jsx:106-121 | the three successive filters are one filter by the combined criteria |
| CategoryPage.ApplyFilters | src/pages/CategoryPage.jsx:102-122 | brand filtering applies only when brands are selected; price bounds are inclusive; an empty or unparsable bound is ignored; the result is the filter by the criteria read from the page |
| CategoryPage.Insert | src/pages/CategoryPage.jsx:125-141 | inserting adds exactly that product to the multiset |
| CategoryPage.Sort | src/pages/CategoryPage.jsx:125-141 | sorting is a permutation |
| CategoryPage.InsertSorted | src/pages/CategoryPage.jsx:125-141 | inserting into a sorted list keeps it sorted |
| CategoryPage.InsertTies | src/pages/CategoryPage.jsx:125-141 | an inserted product goes in front of the products of equal rank, whose order is unchanged |
| CategoryPage.SortSorted | src/pages/CategoryPage.jsx:126-137 | the sorted list is ordered by ascending price, descending price or descending rating |
| CategoryPage.SortStable | src/pages/CategoryPage.jsx:125-141 | products of equal rank keep their relative order (`Array.prototype.sort` is stable) |
| CategoryPage.FilteredProducts | src/pages/CategoryPage.jsx:102-144 | holds exactly the listed products that meet the criteria, as a permutation of the filtered list; 'default' or any unknown key keeps the original order; 'price-low', 'price-high' and 'rating' order the list, and ties keep their original order |
| CategoryPage.Without | src/pages/CategoryPage.jsx:150 | removes every occurrence of that brand and nothing else; removing an absent brand changes nothing |
| CategoryPage.ToggledFlips | src/pages/CategoryPage.jsx:147-153 | toggling flips the brand's membership, leaves every other brand as it was, and appends a brand that was absent |
| CategoryPage.ToggledTwice | src/pages/CategoryPage.jsx:147-153 | toggling twice restores the selection as a set, and exactly when the brand was absent |
| CategoryPage.ToggledTwiceShowsSame | src/pages/CategoryPage.jsx:102-153 | toggling a brand twice shows the same products |
| CategoryPage.InactiveFiltersShowAll | src/pages/CategoryPage.jsx:164 | with no active filters, every product is shown in table order |
| CategoryPage.Page.constructor | src/pages/CategoryPage.jsx:33-42 | no category, products or banner; filters empty and the sort is 'default' |
| CategoryPage.Page.LoadCategory | src/pages/CategoryPage.jsx:44-83 | a recognised parameter sets the category, its products and banner, resets the filters and sort, and hides the filter panel; an empty or unknown parameter gives 'Products', no products and no banner, with the filters kept |
| CategoryPage.Page.ToggleBrand | src/pages/CategoryPage.jsx:147-153 | only the brand selection changes, by the toggle |
| CategoryPage.Page.ClearFilters | src/pages/CategoryPage.jsx:156-161 | brands, bounds and sort are reset, so no filter is active; the rest is kept |
| JsText.JoinSplit | src/pages/CategoryPage.jsx:54-57 | joining the parts of a split with another separator replaces that character, and rejoining with the same separator gives the input back |
| JsText.TrimEmptyIffBlank | src/pages/TopUpRequestsPage.jsx:85 | `trim()` is empty if and only if every character is whitespace |
| JsText.DigitsOnlyKeepsDigits | src/pages/BeneficiariesPage.jsx:276 | removing non-digits keeps every digit, each as many times as it occurs |
| JsText.DigitsOnlyAppend | src/pages/BeneficiariesPage.jsx:276 | removing non-digits from a concatenation is removing them from each part, in order |
| JsText.ToUpperIdempotent | src/pages/BeneficiariesPage.jsx:339 | upper-casing twice is upper-casing once |
| JsText.ParseIntOfIntToString | src/pages/PayoutsPage.jsx:106 | `parseInt(String(i), 10)` is `i` for every integer, where `String` writes plain digits (see Left out for 10^21 and above) |
| JsText.StrLessTotal | src/pages/CategoryPage.jsx:88 | the string order `sort()` uses is total |
| JsText.StrLessTransitive | src/pages/CategoryPage.jsx:88 | the string order `sort()` uses is transitive |
| JsNumber.ParseFloatOfNumberToString | src/lib/vendor-payout-api.js:49 | `parseFloat(String(n))` is `n` for every number |
| JsNumber.ParseIntOfNumberToString | src/lib/vendor-payout-api.js:55 | `parseInt(String(n), 10)` is `n` truncated toward zero, where `String` writes plain decimals (see Left out for exponent form) |
| JsValue.ParseFloatValueReadsString | src/lib/vendor-payout-api.js:49 | `parseFloat` of any value is `parseFloat` of its string form |
| JsValue.ParseIntValueReadsString | src/lib/vendor-payout-api.js:55 | `parseInt` of any value is `parseInt` of its string form |
| JsValue.RandomToken | src/lib/vendor-payout-api.js:14 | the random token has at most the requested length and no lower-case letter |

## Left out

- HTTP transport. The `fetch` calls, `response.json()` and the throws on a response that
  is not ok are left out. Each call's outcome is a parameter (`Ok(reply)` or
  `Err(message)`). The list fetches that run after a successful action (`fetchRequests`,
  `fetchStats`, `fetchBeneficiaries`, `fetchTransactions`, the wallet refresh after a
  payout) are not modelled, because their result is another server reply.
- Server behaviour. Wallet debits, top-up crediting, reversal and reconciliation run
  behind the endpoints, so no contract here claims anything about them.
- Browser storage. localStorage is a class field, `Cart.Store.items` and
  `Cart.Store.orders`. The `JSON.parse` fallbacks and the write failures of
  `saveCart`/`saveOrder` are not modelled. The stored user is a parameter of the pages
  that read it.
- Binary floating point. Amounts are exact decimals, so binary64 rounding is not
  modelled. Neither are exponent forms beyond decimal `e` notation, `Infinity`, and
  hexadecimal, octal or binary literals in `Number(...)`.
- `parseInt` without a radix, in `CategoryPage.Bound` and `MockProducts.ProductById`, is
  read as decimal. The source's `parseInt(minPrice)` would read a '0x' prefix as
  hexadecimal; the model does not.
- CategoryPage.FilteredProducts: requires a sort key other than 'name'. The 'name' sort
  uses `localeCompare`, which is locale-dependent and not modelled.
- The 'rating' sort is modelled on ratings in tenths. This is exact for the table, whose
  ratings all have one decimal.
- Locale formatting (`toLocaleString`, `Intl`, `formatPrice`) and the ProductCard
  discount percentage are presentation only.
- `setTimeout`. The polling waits are counted, not timed. The 3-second sign-up timer is
  the separate method `Login.LoginForm.SignUpTimerFired`.
- URL encoding. `URLSearchParams` is modelled as an ordered list of name/value pairs.
  Percent-encoding of the serialised query is not modelled.
- Routing. React Router's route ranking is replaced by a lookup on the path's segments.
  Splitting the URL into segments is not modelled.
- Object identity. JavaScript `===` on objects and arrays compares references; the model
  compares values (`JsValue.StrictEquals`).
- Case mapping is ASCII-only. Whitespace for `trim()` is the ASCII set, no-break space
  and the byte-order mark. The other Unicode space characters are not modelled.
- CategoryPage.BannerFor: returns only the title and features of a banner. The subtitle,
  description and image are presentation only.
- The render-time 'not found' view of the category page and all JSX markup are left out.
- The filter-panel show/hide button of the category page is left out; only its reset in
  `LoadCategory` is modelled.
- JsNumber.NumberToString: always writes plain decimal digits. JavaScript's `String(n)`
  switches to exponent form ('1e+21', '1e-7') when |n| is at least 10^21 or below
  10^-6. So JsNumber.ParseIntOfNumberToString and JsText.ParseIntOfIntToString (through
  `JsText.IntToString`) hold for the model's `String`, but not for JavaScript's in those
  ranges: `parseInt(String(1e21), 10)` is 1. The amounts the pages handle are far inside
  the plain range.
- JsNumber.ParseIntOfNumberToString: false in JavaScript for |n| of at least 10^21 or
  non-zero and below 10^-6, because of the exponent form described above.
- JsText.ParseIntOfIntToString: false in JavaScript for |i| of at least 10^21, for the
  same reason.
- String length and order. A Dafny `string` is a sequence of Unicode characters, while
  JavaScript counts, slices and compares UTF-16 code units. Outside the Basic
  Multilingual Plane a character is two units. The members below differ from JavaScript
  only for such input.
- Login.SignUpCheck: counts characters, not UTF-16 units, so '😀😀😀' is 3 long here and
  refused, while JavaScript counts 6 and accepts it.
- PaymentApi.VendorPart: takes the first 8 characters rather than 8 UTF-16 units.
- JsText.StrLess: orders by character code rather than by UTF-16 unit, so the order
  `sort()` gives differs for characters outside the Basic Multilingual Plane.
- Engine error text. Reading a property of `null` or `undefined` throws a `TypeError`.
  The model gives that error the message 'TypeError', not the engine's own text.

## Findings

| source | as written | input that shows it | evidently intended | confidence | as-written member | corrected member |
|---|---|---|---|---|---|---|
| src/pages/BeneficiariesPage.jsx:107-117 | `setSuccess(message)` is followed at once by `resetForm()`, which calls `setSuccess('')` (line 210), so the success message is always cleared | any successful create or update reply | the success message is shown after the form resets | high; not executed | BeneficiariesPage.Page.HandleSubmit | BeneficiariesPage.Page.HandleSubmitKeepingMessage |
| src/pages/TopUpRequestsPage.jsx:61-115 | `setProcessing({ ...processing, ... })` spreads the `processing` map captured when the handler started, so a call that finishes late can drop or bring back another request's flag | approve request 1, approve request 2 before 1 finishes, then 1 finishes: request 2's flag is lost while its call runs | each request's flag is set and cleared alone (a functional update) | high; not executed | TopupRequestsPage.StaleFlagsWhenCallsOverlap | TopupRequestsPage.FlagFollowsLastEvent |
| src/lib/auth-api.js:71-76 | `login` stores the user before the form checks its status, and `ProtectedRoute` (src/App.jsx:40-41) checks only the role, so a refused pending or suspended user still reaches the guarded pages | a login reply with a vendor whose status is 'pending', followed by navigation to /vendor/dashboard | a user refused at login opens no guarded page | medium; not executed | App.PendingVendorReachesDashboard | App.RefusedLoginOpensNoGuardedPage |
