# Chat-shop bot core, modelled in Dafny

The bot is a Telegram (and VK) front end for an OpenCart storefront. A customer browses the
catalog, keeps a shopping cart in Redis, gives a name, phone, email and address in a checkout
dialogue, pays through a payment gateway, and the paid order is mirrored into the storefront.
Customers can also open support tickets, which administrators answer and close.

This project models the sequential logic under that glue:

- `cart_service.dfy` (`CartStore`): the Redis cart, one hash per user under `cart:{user_id}`.
  It is a class whose methods rewrite a map of keys to hashes, with expiry times kept per key.
- `cart_handlers.dfy` (`CartHandlers`): the add, increase, decrease, remove and clear buttons,
  as operations on the cart store.
- `fsm.dfy` (`Fsm`): the per-user conversation state and data bag of the chat framework.
- `checkout.dfy` (`Checkout`): the checkout dialogue. `Step` is a pure transition function
  over (state, data, event), and each handler method is proved to perform that step on the
  conversation context. The start router is registered before the checkout router, so
  `/start`, `/help`, `/cart` and the main-menu button never reach checkout, and `/start`
  and the main-menu button clear the conversation and fetch or create the sender's
  profile; `Step` includes that routing.
- `routing.dfy` (`Routing`): which handler a text message reaches, given the conversation
  state and whether the sender is an administrator, with the routers tried in registration
  order.
- `order_service.dfy` (`Orders`), `user_service.dfy` (`Users`): the bot's own order and user
  tables, as maps keyed by id inside classes.
- `payment.dfy` (`Payment`): creating an order from a confirmed checkout, reconciling it
  with the gateway's verdict, mirroring it into the storefront, and cancelling.
- `support.dfy` (`Support`): the support-ticket records, and the handlers that open,
  answer and close tickets.
- `pagination.dfy`, `formatting.dfy`, `vk_helpers.dfy`: the pure helpers for paging,
  truncation, Markdown and HTML escaping, status labels, list chunking, profile links and
  VK attachment strings.
- `text.dfy`, `catalog.dfy`, `rows.dfy`: shared pieces. These cover Python string
  behaviour, the storefront catalog as a partial map, and "newest first" queries.

Money is exact, in kopecks. Timestamps are an input `now`. Whether a database commit
succeeds is an input `commitOk`. The gateway's verdict and the storefront's replies are
inputs too.

## Model

| member | source | states |
|---|---|---|
| CartStore.CartKeyInjective | app/services/cart.py:38-40 | two users with the same key `cart:{user_id}` are the same user, so one user's operations never touch another's cart |
| CartStore.CartService.OtherCartsUnchanged | app/services/cart.py:38-40 | if an operation changed only one user's key, every other user's cart reads as it did before |
| CartStore.CartService.AddItem | app/services/cart.py:62-84 | an existing line's quantity grows by the added amount and keeps its options; a new line gets the amount and the given options, or `{}`; no other line changes; the key's expiry becomes 7·24·3600 seconds; other users' keys are untouched; the call reports success |
| CartStore.CartService.RemoveItem | app/services/cart.py:90-97 | the result is true exactly when the line existed; the line is gone afterwards; removing an absent line changes nothing; other users' keys are untouched |
| CartStore.CartService.UpdateQuantity | app/services/cart.py:103-127 | a quantity of 0 or less removes the line like `remove_item`; a positive quantity replaces the quantity of an existing line and resets the expiry; an absent line is refused (false) and never created; other users' keys are untouched |
| CartStore.CartService.GetCart | app/services/cart.py:133-180 | the items are exactly the stored lines whose product the catalog resolves, once each, with the catalog's product, the line's quantity and options, and subtotal price × quantity; unresolved lines are left in storage; the total is Σ price × quantity over the kept items; an empty cart gives no items and total 0 |
| CartStore.CartService.GetItemCount | app/services/cart.py:186-191 | the count is the number of distinct products in the cart, not the sum of quantities |
| CartStore.CartService.ClearCart | app/services/cart.py:197-204 | the user's cart is empty and has no expiry afterwards; other users' keys are untouched |
| CartStore.ViewQuantitiesPositive | app/services/cart.py:157-175 | over stored quantities that are all positive, every item of the view has a quantity of at least 1 and subtotal price × quantity |
| CartStore.SetQuantityKeepsPositive | app/services/cart.py:111-124 | `update_quantity` keeps every stored quantity positive: a non-positive value removes the line instead of storing it |
| CartStore.EmptyViewIffNothingResolves | app/services/cart.py:144-180 | the view has no items exactly when no stored product is in the catalog |
| CartHandlers.FindQuantity | app/handlers/cart.py:94-98 | the for/break loop finds the quantity of the first item for the product, or 0 |
| CartHandlers.QuantityInView | app/handlers/cart.py:91-98 | on a `get_cart` view, the loop finds the stored quantity of a product that is stored and in the catalog, and 0 otherwise |
| CartHandlers.FirstMatch | app/handlers/cart.py:95-98 | the loop stops at the first item for the product |
| CartHandlers.NoMatch | app/handlers/cart.py:94-98 | when no item is for the product, the loop leaves the quantity at 0 |
| CartHandlers.AddToCart | app/handlers/cart.py:18-45 | an unknown product or one with quantity ≤ 0 leaves the cart unchanged and says which; otherwise exactly one unit is added (new line with 1, or old quantity + 1), no other line changes, and the answer carries the number of distinct products; other users' carts are unchanged |
| CartHandlers.Redraw | app/handlers/cart.py:109-110 | the cart redraw adds the error answer exactly when the refreshed cart shows items, because `format_cart_summary` raises for such a cart |
| CartHandlers.IncreaseQuantity | app/handlers/cart.py:83-122 | a product the view does not show is answered "not in the cart" and the store is unchanged; otherwise its quantity becomes the shown one + 1, and the only answer is the error one whenever the cart still shows items, which it always does from a positive quantity, so "increased" is never sent then; other users' carts are unchanged |
| CartHandlers.DecreaseQuantity | app/handlers/cart.py:125-175 | a product the view does not show is answered "not in the cart" and nothing changes; from quantity 1 the line is removed, from q > 1 the quantity becomes q − 1; that answer comes first, and the error answer follows exactly when the cart still shows items; other users' carts are unchanged |
| CartHandlers.RemoveFromCart | app/handlers/cart.py:178-211 | "not found" is answered exactly when no line existed, and the error answer follows exactly when the cart still shows items; the line is gone afterwards; other users' carts are unchanged |
| CartHandlers.ClearCart | app/handlers/cart.py:214-221 | the cart is empty afterwards; other users' carts are unchanged |
| CartHandlers.DecreaseKeepsPositive | app/handlers/cart.py:105-106 | starting from positive quantities, the increase and decrease buttons keep every stored quantity positive; the decrease from 1 removes the line instead of storing 0 |
| Checkout.DefaultName | app/handlers/checkout.py:46 | the default name is the stored profile's first name when a profile exists (None when that name is missing), else the sender's first name |
| Checkout.OnName | app/handlers/checkout.py:98-105 | a stripped name is accepted exactly when it has at least 2 characters; acceptance stores it and moves to the phone step; rejection changes nothing |
| Checkout.OnPhone | app/handlers/checkout.py:121-135 | a stripped phone is accepted exactly when it holds at least 10 digit characters; acceptance stores the raw stripped text, asks for the same text to be saved to the profile and moves to the email step; rejection changes nothing |
| Checkout.OnEmail | app/handlers/checkout.py:177-189 | a stripped email is accepted exactly when it contains both '@' and '.'; acceptance stores it, asks for it to be saved to the profile and moves to the address step; rejection changes nothing |
| Checkout.OnAddress | app/handlers/checkout.py:217-224 | a stripped address is accepted exactly when it has at least 10 characters; acceptance stores it and moves to confirmation; rejection changes nothing |
| Checkout.OnText | app/handlers/checkout.py:95-224 | a text message in one of the four input states goes to that state's handler; a rejected or unrouted text changes nothing; profile writes only come from the phone and email steps and carry validated values that are also stored in the data |
| Checkout.Step | app/handlers/checkout.py:26-289 | one update: `/start` and the main-menu button clear state and data and ask for the sender's profile to be fetched or created (the only updates that do), `/help` and `/cart` are handled elsewhere and change nothing, other texts go to the checkout text handlers; a rejected or unrouted update changes nothing; the comment state is only left, never entered; profile writes carry validated values; the order is cancelled exactly on cancel in the confirmation state, which clears state and data; every other update only adds keys to the data |
| Checkout.OnMessage | app/handlers/__init__.py:11-19 | a text message as the routers in registration order see it: `/start` (first word `/start` or `/start@`) clears state and data and asks for the profile to be fetched or created, `/help` and `/cart` change nothing, and every other text reaches the checkout handlers stripped; only `/start` resets or touches the profile, and nothing else removes keys from the data |
| Checkout.StartResets | app/handlers/start.py:22-36 | whatever the checkout state, a `/start` message clears the state and the data and asks for the sender's profile to be fetched or created, exactly as the main-menu button does |
| Checkout.OpenMainMenu | app/handlers/start.py:22-121 | `cmd_start` and `callback_start`: the conversation ends cleared as `Step` clears it; the user table changes exactly as `get_or_create_user` (an existing row refreshed, an unknown id inserted and logged as newest); the main menu is answered exactly when that call returns, and the error answer, with the table unchanged, exactly when its needed commit fails |
| Checkout.TextReachingCheckout | app/handlers/__init__.py:11-15 | a text that is not one of the start router's commands is handled by the checkout router exactly as its stripped text in the current state |
| Routing.HandlerFor | app/handlers/__init__.py:11-19 | the handler a text reaches, with each handler characterised exactly: `/start` always goes to `cmd_start`; `/help` and `/cart` to the start router; in the checkout input states every other text to the checkout handlers; an administrator's `/admin` to the panel unless checkout took it; in the support waiting-message state every text the earlier routers leave to `support_save_ticket`; an administrator's `/ticket_N` to the ticket details and, in the waiting-response state, every other remaining text to the response handler; a non-administrator reaches only the start, checkout and ticket-message handlers |
| Routing.OrderFiltersExclusive | app/handlers/admin.py:118 | no text passes both filters of `admin_order_details`: a text that starts with "/order_" and a digit has a first word other than "/order" or "/order@" |
| Checkout.StepKeepsDraftValid | app/handlers/checkout.py:74-262 | every update keeps the draft valid: from the phone step on a name is stored, from the email step on a phone with ≥ 10 digits, from the address step on a skipped or valid email, and at confirmation "Самовывоз" or an address of ≥ 10 characters |
| Checkout.TextKeepsDraftValid | app/handlers/checkout.py:95-224 | the text handlers keep the draft valid |
| Checkout.RunKeepsDraftValid | app/handlers/checkout.py:74-289 | any sequence of updates keeps a valid draft valid |
| Checkout.ConfirmedDraftIsValid | app/handlers/checkout.py:262 | a conversation that starts empty reaches confirmation only with a name, a valid phone, a skipped or valid email and a pickup or full address |
| Checkout.CommentNeverEntered | app/states/checkout.py:13 | no sequence of updates enters the declared `waiting_comment` state: no handler moves into it |
| Checkout.OversizedPhoneAccepted | app/handlers/checkout.py:121-135 | as written: the phone "+7 (912) 345 - 67 - 89" (22 characters, 11 digits) is accepted and sent to the profile, yet it is longer than the 20-character phone columns, so the draft can no longer be inserted as an order |
| Checkout.OnTextFitting | app/handlers/checkout.py:95-224 | corrected: a name, phone or email longer than the column it is stored in is refused in its own step with nothing changed; every other text is handled as the source handles it |
| Checkout.FittingTextKeepsInsertable | app/database/models.py:70-72 | corrected: with the width checks, a draft the order table accepts stays acceptable after any text, and every profile write fits its column |
| Checkout.StartCheckout | app/handlers/checkout.py:26-65 | performs `Step` for the checkout button: with no visible cart items state and data are untouched; otherwise the state is the name step and `default_name` is stored |
| Checkout.SkipName | app/handlers/checkout.py:74-81 | performs `Step` for the skip button: the stored default name (or the sender's first name) becomes the name, and the phone step follows |
| Checkout.ProcessName | app/handlers/checkout.py:95-105 | performs the checkout text handler for the stripped text in the name step, which is `Step` for every text that reaches the checkout router (Checkout.TextReachingCheckout) |
| Checkout.ProcessPhone | app/handlers/checkout.py:118-135 | performs the checkout text handler for the stripped text in the phone step, which is `Step` for every text that reaches the checkout router; the profile row takes the accepted phone exactly when the commit succeeds, the phone fits the 20-character column and the user exists, and the user table is unchanged otherwise |
| Checkout.SkipEmail | app/handlers/checkout.py:152-156 | performs `Step` for the skip button: the email is stored as None and the address step follows |
| Checkout.ProcessEmail | app/handlers/checkout.py:174-189 | performs the checkout text handler for the stripped text in the email step, which is `Step` for every text that reaches the checkout router; the profile row takes the accepted email exactly when the commit succeeds, the email fits the 255-character column and the user exists, and the user table is unchanged otherwise |
| Checkout.SkipAddress | app/handlers/checkout.py:206-210 | performs `Step` for the skip button: the address is "Самовывоз" and confirmation follows |
| Checkout.ProcessAddress | app/handlers/checkout.py:214-224 | performs the checkout text handler for the stripped text in the address step, which is `Step` for every text that reaches the checkout router (Checkout.TextReachingCheckout) |
| Checkout.ShowOrderConfirmation | app/handlers/checkout.py:227-262 | the state becomes confirmation and the data is unchanged |
| Checkout.EditOrder | app/handlers/checkout.py:271-274 | performs `Step` for edit: back to the name step with the collected data kept |
| Checkout.CancelOrder | app/handlers/checkout.py:286-289 | performs `Step` for cancel: state and data are cleared, and nothing but the conversation may change |
| Orders.Snapshot | app/services/order.py:40-49 | one snapshot per cart item, in cart order, each holding the product's id, name, model and price and the item's quantity |
| Orders.SnapshotKeepsTotal | app/services/order.py:40-49 | the snapshots are worth Σ price × quantity of the cart items they copy |
| Orders.TextField | app/services/order.py:56-60 | `delivery_data.get(key, default)`: the default for an absent key, None for a stored None, the text for a stored text (a number under such a key makes the insert fail, see CreateOrder) |
| Orders.NewOrder | app/services/order.py:52-62 | the inserted row is "pending", for the cart's total, with the snapshotted items, no payment label, no storefront link and no payment time; name and phone default to "", email, address and comment to None |
| Orders.AmountMatchesItems | app/services/order.py:52-61 | for a cart as `get_cart` totals it, the order's amount equals Σ price × quantity over its snapshotted items |
| Orders.WithStatus | app/services/order.py:116-125 | any status is written with no transition check; `paid_at` is stamped exactly when the new status is "paid"; nothing but status, `updated_at` and `paid_at` changes |
| Orders.OrderService.GetOrder | app/services/order.py:76-106 | the stored row for the id, or None when there is none |
| Orders.OrderService.CreateOrder | app/services/order.py:19-74 | the call returns exactly when the commit succeeds and the row fits the table (no number under a text key, name ≤ 255, phone ≤ 20, email ≤ 255 characters); then the new pending row is inserted under the next id and returned; otherwise it rolls back, raises and nothing changes |
| Orders.OrderService.UpdateStatus | app/services/order.py:108-135 | the row becomes `WithStatus` of itself; a missing id is no error; a failed commit leaves the table unchanged and returns false |
| Orders.OrderService.UpdatePaymentLabel | app/services/order.py:137-159 | only the payment label and `updated_at` of the row change; a failed commit changes nothing and returns false |
| Orders.OrderService.UpdateOpencartOrderId | app/services/order.py:161-183 | only the storefront order id and `updated_at` of the row change; a failed commit changes nothing and returns false |
| Orders.OrderService.Newest | app/services/order.py:193-198 | the stored orders a filter accepts, newest first, at most `limit`; an accepted order left out is older than every listed one and the limit was reached |
| Orders.OrderService.GetUserOrders | app/services/order.py:185-200 | only the user's orders, newest first, at most `limit`, and no newer order of the user is left out |
| Orders.OrderService.GetRecentOrders | app/services/order.py:205-219 | the newest orders, at most `limit`, and no newer order is left out |
| Orders.OrderService.GetPendingOrders | app/services/order.py:224-233 | exactly the pending orders, each once, newest first |
| Rows.NewestRows | app/services/order.py:193-198 | a `where … order by id desc limit n` query over a table keyed by its ids: at most n accepted rows, stored, in descending id order, and no accepted row newer than the last listed one is left out |
| Rows.AcceptedRows | app/services/order.py:227-230 | a `where … order by id desc` query with no limit: every accepted row and only those, in descending id order |
| Rows.SelectSpec | app/services/order.py:193-198 | the filtered scan lists exactly the accepted rows with ids 1 … next−1, each once, in strictly descending id order |
| Rows.NewestLimited | app/services/order.py:193-198 | the first `limit` ids of that scan: all accepted, descending, and an accepted id left out is below every listed one and the limit was reached |
| Users.Refreshed | app/services/user.py:45-57 | when a supplied non-empty field differs from the stored one, username, first and last name are all overwritten with the supplied values (None ones too) and `updated_at` is stamped; otherwise the row is returned unchanged; id, phone, email, storefront link and creation time never change |
| Users.RefreshIdempotent | app/services/user.py:45-57 | a second refresh with the same profile writes nothing, whatever the time |
| Users.NewUser | app/services/user.py:59-65 | a new row has the given id, username and names, is active, and has no phone, email or storefront link yet |
| Users.Latest | app/services/user.py:164 | the last-inserted users, newest first, as many as the limit allows |
| Users.UserService.GetUser | app/services/user.py:79-87 | the stored row for the id, or None |
| Users.UserService.GetOrCreateUser | app/services/user.py:18-77 | an existing user with nothing new is returned and nothing is written; an existing user with a differing non-empty field is refreshed; an unknown id is inserted and becomes the newest user; the call raises exactly when a needed commit fails, and then nothing changes |
| Users.UserService.UpdatePhone | app/services/user.py:89-111 | true exactly when the commit succeeds and the phone fits the 20-character column; then only the phone and `updated_at` of the row change, and a missing user is no error; otherwise nothing changes |
| Users.UserService.UpdateEmail | app/services/user.py:113-135 | true exactly when the commit succeeds and the email is None or fits the 255-character column; then only the email and `updated_at` of the row change; otherwise nothing changes |
| Users.UserService.UpdateOpencartId | app/services/user.py:137-159 | only the storefront customer id and `updated_at` of the row change; a failed commit changes nothing and returns false |
| Users.UserService.GetAllUsers | app/services/user.py:161-166 | newest first: the i-th listed user is the one inserted i-th from the end, and exactly min(`limit`, number of users) are listed |
| Users.UserService.DistinctCount | app/services/user.py:164 | the insertion log is no longer than the table, because it lists each user once |
| Payment.TextOr | app/handlers/payment.py:151 | `a or default` for an optional text column: the value when it is a non-empty text, else the default |
| Payment.FallbackEmail | app/handlers/payment.py:126 | the fallback address `tg{id}@wifiobd.ru` is a non-empty text containing '@' |
| Payment.CustomerRequestFor | app/handlers/payment.py:123-128 | the storefront customer gets the order's name or else the profile's first name, the order's email or else the fallback address (never empty), and the order's phone or "" |
| Payment.ProductsOf | app/handlers/payment.py:136-144 | one storefront product per order item, in order, with the item's id, name, model, quantity and price |
| Payment.ProductsKeepTotal | app/handlers/payment.py:136-144 | the mirrored products are worth Σ price × quantity of the order items |
| Payment.OrderRequestFor | app/handlers/payment.py:146-171 | the mirror order carries the linked customer id or 0, a non-empty name (order name, else profile first name, else "Customer"), the email fallback, the phone or "", "Самовывоз" as shipping method exactly when the address is "Самовывоз" and "Доставка" otherwise, the order's items and status 2 |
| Payment.ConfirmedOrderCarriesDraft | app/handlers/payment.py:31-47 | an order created from a confirmed checkout has a phone with ≥ 10 digits, an address that is "Самовывоз" or ≥ 10 characters, and an email that is absent or has '@' and '.' |
| Payment.MirrorOfConfirmedOrder | app/handlers/payment.py:151-153 | the storefront receives the phone exactly as typed at checkout, and ships by pickup exactly when the address step was skipped |
| Payment.MirrorTotalIsAmount | app/handlers/payment.py:136-155 | for a cart as `get_cart` totals it, the mirrored products are worth the amount the customer was charged |
| Payment.ConfirmAndCreateOrder | app/handlers/payment.py:24-86 | an empty cart creates no order; an insert that fails (failed commit, or a draft the table refuses) creates none; otherwise a pending order for the cart is created under the next id; when the gateway call fails the order stays pending with no label, otherwise the label is recorded; the conversation is cleared on every path |
| Payment.BuildProducts | app/handlers/payment.py:136-144 | the append loop builds exactly `ProductsOf` the order items |
| Payment.CheckPayment | app/handlers/payment.py:89-222 | a missing order is reported; an order already "paid" returns at once with no write, no cart clear and no mirror; gateway "pending" or error changes nothing; when the status update rolls back, the expired order raises on the next read and the error answer follows with nothing changed; on success with a successful commit (and only then) the order is marked paid, then the owner's cart is emptied while other carts stay, then the mirroring happens as `MirrorOrder` states, and the order stays paid whatever the storefront does |
| Payment.MirrorOrder | app/handlers/payment.py:117-182 | a storefront customer is requested only when the profile has no storefront id, and its id is stored only when the reply has one; a failed customer request ends the mirroring; the mirror order is requested otherwise, and its id is recorded on the bot order only when the reply has one |
| Payment.CancelPayment | app/handlers/payment.py:225-264 | a missing order is reported; only a "paid" order is refused; any other status, "completed" or "cancelled" included, is overwritten with "cancelled" when the commit succeeds; a rolled-back update ends in the error answer with nothing changed |
| Support.Answered | app/handlers/support.py:261-263 | a reply sets the administrator's response, status "answered" and `answered_at`, and nothing else |
| Support.Closed | app/handlers/support.py:320-321 | closing sets status "closed" and `closed_at`, whatever the status was, and nothing else |
| Support.CloseKeepsAnswer | app/handlers/support.py:261-263 | a closed ticket still carries the administrator's response, its answer time, its message and its user |
| Support.AnswerAfterCloseUndoesClosedStatus | app/handlers/support.py:261-263 | a reply to a closed ticket sets it back to "answered" (there is no guard) and keeps its `closed_at` |
| Support.Preview | app/handlers/support.py:145 | the list preview is the message when it has at most 50 characters, else its first 50 characters and "..."; never longer than 53 |
| Support.StoredTicketId | app/handlers/support.py:242-245 | a ticket id is found in the conversation data exactly when `ticket_id` holds a non-zero integer |
| Support.TicketDesk.Newest | app/handlers/support.py:128-141 | the stored tickets a filter accepts, newest first, at most `limit`; an accepted ticket left out is older than every listed one and the limit was reached |
| Support.TicketDesk.OpenTickets | app/handlers/support.py:123-145 | the administrators' list holds only open tickets, newest first, at most 20, and no newer open ticket is left out |
| Support.TicketDesk.CloseTicket | app/handlers/support.py:304-323 | an unknown ticket is reported and nothing changes; any other ticket becomes `Closed` when the commit succeeds |
| Support.NewestListsNewTicket | app/handlers/support.py:128-141 | the newest ticket, when open, heads the administrators' list |
| Support.SupportStart | app/handlers/support.py:28-31 | the dialogue waits for the user's message, and the data is kept |
| Support.SaveTicket | app/handlers/support.py:48-113 | with a successful commit an open ticket with the user's id and text is stored under the next id and heads the administrators' list; a failed commit stores nothing; the conversation is cleared on both paths; it receives exactly the texts `Routing.HandlerFor` sends to it |
| Support.ReplyTicketStart | app/handlers/support.py:217-224 | the dialogue waits for the response and remembers the ticket id |
| Support.SendTicketResponse | app/handlers/support.py:238-301 | no ticket id in the data, or an unknown ticket, changes no ticket; otherwise the ticket becomes `Answered` with the text when the commit succeeds, before and whatever the message to the user does; the conversation is cleared on every path; it receives exactly the texts `Routing.HandlerFor` sends to it |
| Pagination.PaginateItems | app/utils/pagination.py:9-28 | for a non-negative page and page size the page is the slice [page·perPage, page·perPage + perPage) of the list, clipped to it, with at most perPage items; there is a previous page exactly when page > 0, and a next page exactly when (page + 1)·perPage < the list's length |
| Pagination.FloorDiv | app/utils/pagination.py:108 | Python's `//`: the quotient rounded towards minus infinity, for either sign of the divisor |
| Pagination.TotalPages | app/utils/pagination.py:106-108 | `calculate_total_pages` raises exactly when the page size is 0 |
| Pagination.TotalPagesIsCeiling | app/utils/pagination.py:106-108 | for a positive page size the page count n is ⌈total / perPage⌉: (n − 1)·perPage < total ≤ n·perPage |
| Pagination.PageBetween | app/utils/pagination.py:21-24 | page k − 1 runs from where the first k − 1 pages stop to where the first k pages stop |
| Pagination.PagesUpToIsPrefix | app/utils/pagination.py:21-24 | pages 0 … k − 1 laid end to end are the first min(k·perPage, length) items |
| Pagination.PagesCoverItems | app/utils/pagination.py:106-108 | reading pages 0 … total_pages − 1 in order gives back the whole list, each item once |
| Pagination.PageWithinCount | app/utils/pagination.py:21-26 | a page has items exactly when its number is below the page count, and has a next page exactly when the next number is below it |
| Pagination.Indicator | app/utils/pagination.py:59-63 | the indicator is "page+1/total" when the total is given and non-zero, else "page+1" |
| Pagination.CreatePaginationButtons | app/utils/pagination.py:31-76 | one to three buttons in order: a "◀️" button with callback "{prefix}:{page−1}" exactly when there is a previous page, always the indicator with callback "noop", and a "▶️" button with callback "{prefix}:{page+1}" exactly when there is a next page |
| Pagination.CallbackNamesPage | app/utils/pagination.py:56 | a navigation callback starts with the prefix and ":", and the text after them reads back as the page it was made for |
| Formatting.FormatProductName | app/utils/formatting.py:18-22 | a name of at most max_length characters is returned unchanged; a longer one becomes its first max_length − 3 characters and "...", exactly max_length long, when max_length ≥ 3 |
| Formatting.EscapeMarkdown | app/utils/formatting.py:114-117 | the output is one character longer per escaped character, and every special character in it directly follows a backslash |
| Formatting.MarkdownRoundTrip | app/utils/formatting.py:114-117 | dropping the backslash in front of each special character gives back the input, so nothing but the backslashes was added |
| Formatting.StatusEmoji | app/utils/formatting.py:90-99 | each of the five statuses has its emoji and every other string gets "❓" |
| Formatting.StatusText | app/utils/formatting.py:102-111 | each of the five statuses has its Russian name and every other string gets "Неизвестно" |
| Formatting.StatusLabelsIdentify | app/utils/formatting.py:90-111 | a known status never shows a fallback label, and no other status shares its text or its emoji |
| Formatting.OrderStatusesLabelled | app/utils/formatting.py:102-111 | "pending", "paid" and "cancelled", the statuses the order table writes, have their own names |
| Formatting.CardDescription | app/utils/formatting.py:124-126 | a present description within the limit is shown as is; a longer one becomes its first description_length characters and "..."; a missing or empty one becomes "Описание отсутствует" |
| Formatting.CardStock | app/utils/formatting.py:128-130 | the card says "В наличии" with "✅" exactly when quantity > 0 |
| Formatting.CardStockAgreesWithCatalog | app/utils/formatting.py:128-130 | the card calls a product in stock exactly when the catalog does (quantity > 0) |
| Formatting.CartSummary | app/utils/formatting.py:37-42 | an empty cart gives the fixed empty-cart text; a non-empty one raises, since the item formatter reads a dictionary's keys as attributes |
| Formatting.BreadcrumbsLength | app/utils/formatting.py:161-163 | the trail starts with the first element, ends with the last, and is as long as the elements plus one " › " between each pair of neighbours |
| VkHelpers.TruncateText | app/utils/vk_helpers.py:37-41 | a text within the limit is returned unchanged; a longer one becomes its first max_length − len(suffix) characters and the suffix, exactly max_length long, when max_length ≥ len(suffix) |
| VkHelpers.ProductNameIsTruncation | app/utils/vk_helpers.py:37-41 | the Telegram name shortener is the VK truncation with the "..." suffix |
| VkHelpers.HtmlEscaped | app/utils/vk_helpers.py:44-55 | the escaped text contains no raw <, >, " or ' |
| VkHelpers.ReplaceCharAppend | app/utils/vk_helpers.py:54 | `str.replace` of one character works piece by piece over a concatenation |
| VkHelpers.ReplacementStep | app/utils/vk_helpers.py:53-54 | one more pass of the replacement loop is one more replacement on each character |
| VkHelpers.EntityAfterAll | app/utils/vk_helpers.py:46-54 | after the five passes each character has become its entity: "&" is replaced first, so no later pass touches an entity written before |
| VkHelpers.FullyEscaped | app/utils/vk_helpers.py:46-54 | the five passes over the whole text give the character-by-character escaping |
| VkHelpers.EscapeHtml | app/utils/vk_helpers.py:44-55 | the loop over the replacements returns exactly `HtmlEscaped` of the text |
| VkHelpers.HtmlRoundTrip | app/utils/vk_helpers.py:44-55 | decoding the five entities gives back the input |
| VkHelpers.MatchAt | app/utils/vk_helpers.py:66 | a match whose first group ends at i has the first i characters as its type |
| VkHelpers.SearchSkips | app/utils/vk_helpers.py:66 | the regex engine's backtracking passes over the group ends that cannot match |
| VkHelpers.TailLayout | app/utils/vk_helpers.py:66 | `\d+_(\d+)` matches when digits, "_" and digits to the end follow, and reads both numbers |
| VkHelpers.TailFails | app/utils/vk_helpers.py:66 | `\d+_(\d+)` fails when the digits run to the end or no digit follows |
| VkHelpers.TailParts | app/utils/vk_helpers.py:66-71 | after `n`, "_", `m` the tail reads back the values of `n` and `m` |
| VkHelpers.MatchAfterMinus | app/utils/vk_helpers.py:66-71 | type, "-", digits, "_", digits match with the minus in the owner group and the owner negative |
| VkHelpers.ParseAfterMinusAsWritten | app/utils/vk_helpers.py:63-75 | as written, a letters type followed by "-", digits, "_", digits is read as that type, the negative owner and the media id |
| VkHelpers.ParseAfterMinusLetters | app/utils/vk_helpers.py:63-75 | the letters-only parser reads the same string the same way |
| VkHelpers.NegativeOwnerAsWritten | app/utils/vk_helpers.py:58-75 | as written, an attachment built with a negative owner reads back as built |
| VkHelpers.NegativeOwnerLetters | app/utils/vk_helpers.py:58-75 | the letters-only parser reads an attachment with a negative owner back as built |
| VkHelpers.NoMatchPastOwner | app/utils/vk_helpers.py:66 | a first group that takes in the last digit before "_", or more, leaves no match |
| VkHelpers.ParseAllWord | app/utils/vk_helpers.py:66-71 | as written, on word characters that end in digits, "_", digits, the greedy first group backtracks only to one character before "_", leaving one digit to the owner |
| VkHelpers.ParseLettersFirst | app/utils/vk_helpers.py:66-71 | the letters-only parser splits letters, digits, "_", digits after the letters |
| VkHelpers.LettersDigitsParseAsWritten | app/utils/vk_helpers.py:63-75 | as written, type, owner digits, "_", media digits parse as the type plus all owner digits but the last, owner = that last digit |
| VkHelpers.NonNegativeOwnerAsWritten | app/utils/vk_helpers.py:58-75 | as written, an attachment with a non-negative owner reads back with the owner's digits but the last moved into the type and owner = owner % 10 |
| VkHelpers.LettersDigitsParse | app/utils/vk_helpers.py:63-75 | the letters-only parser reads type, owner digits, "_", media digits back as the three parts |
| VkHelpers.NonNegativeOwnerLetters | app/utils/vk_helpers.py:58-75 | the letters-only parser reads an attachment with a non-negative owner back as built |
| VkHelpers.AttachmentRoundTripIff | app/utils/vk_helpers.py:58-75 | for a non-empty letters type t and a media id m ≥ 0, `parse_vk_attachment(build_vk_attachment(t, o, m))` returns (t, o, m) exactly when o < 10; for o ≥ 10 it returns type t + str(o // 10) and owner o % 10 |
| VkHelpers.AttachmentCounterexample | app/utils/vk_helpers.py:66 | "photo123_456", built from ("photo", 123, 456), parses as type "photo12", owner 3, media 456 |
| VkHelpers.AttachmentLettersRoundTrip | app/utils/vk_helpers.py:58-75 | with the type limited to letters, every attachment built from a non-empty letters type reads back as built |
| VkHelpers.ChunkList | app/utils/vk_helpers.py:122-124 | a zero size raises (`range` step 0); a negative size gives no chunks; a positive size gives ⌈len / size⌉ chunks |
| VkHelpers.ChunkIsPage | app/utils/vk_helpers.py:124 | chunk k is page k of the list with `size` items per page |
| VkHelpers.FullPage | app/utils/vk_helpers.py:124 | every page before the last one holds exactly `size` items |
| VkHelpers.ChunksConcat | app/utils/vk_helpers.py:122-124 | the chunks laid end to end give back the list |
| VkHelpers.ChunksRebuild | app/utils/vk_helpers.py:122-124 | for a positive size the chunks give back the list, every chunk but the last has exactly `size` items, and the last one is not empty |
| VkHelpers.ChunksArePages | app/utils/vk_helpers.py:124 | the first k chunks laid end to end are the first k pages |
| VkHelpers.ProfileUrl | app/utils/vk_helpers.py:114-119 | "https://vk.com/id{n}" for n > 0 and "https://vk.com/club{−n}" otherwise |
| VkHelpers.ValidateUserId | app/utils/vk_helpers.py:107-111 | an id is valid exactly when it is non-zero |
| VkHelpers.ProfileUrlInjective | app/utils/vk_helpers.py:107-119 | different ids get different pages, and a valid id gets a user page exactly when it is positive |
| VkHelpers.Label | app/utils/vk_helpers.py:88 | `status_map.get(status.lower(), status)`: the label of the lower-cased status, or the status unchanged when it has none |
| VkHelpers.FormatOrderStatus | app/utils/vk_helpers.py:78-88 | a known lower-cased order status gets its label, any other status is returned unchanged |
| VkHelpers.FormatPaymentStatus | app/utils/vk_helpers.py:91-99 | a known lower-cased payment status gets its label, any other status is returned unchanged |
| VkHelpers.LabelIgnoresCase | app/utils/vk_helpers.py:88 | when the lower-cased status has a label, the status and its lower-case form get that same label, and (no label being its own key) it is never shown as its raw lower-case text |
| Text.FirstWord | app/handlers/start.py:22 | the first word of `text.split()`, which the command filters compare: a prefix of the left-stripped text without whitespace, ending at whitespace or at the end |
| Text.Strip | app/handlers/checkout.py:98 | `str.strip()` over Python's whole whitespace set, \x1c–\x1f and the Unicode spaces included: the result neither starts nor ends with whitespace and is no longer than the input |
| Text.StripLeft | app/handlers/checkout.py:98 | the leading part of `strip`: a suffix of the input that does not start with whitespace, everything cut off being whitespace |
| Text.StripRight | app/handlers/checkout.py:98 | the trailing part of `strip`: a prefix of the input that does not end with whitespace, everything cut off being whitespace |
| Text.DigitsOf | app/handlers/checkout.py:124 | the digit filter returns only digit characters and is no longer than the input |
| Text.Lower | app/utils/vk_helpers.py:88 | `str.lower()` on ASCII: same length, each capital letter lowered and every other character kept |
| Text.IntToStringRoundTrip | app/utils/pagination.py:56 | the decimal text of an integer reads back as that integer |
| Text.IntToStringInjective | app/services/cart.py:40 | different integers have different decimal texts |
| Text.SliceTo | app/utils/formatting.py:22 | Python's `s[:k]`: the first k elements, clipped to the length, a negative k counting from the end |
| Text.Slice | app/utils/pagination.py:24 | Python's `s[a:b]`: each bound placed as Python places it, and empty when the bounds cross |
| Text.NatToString | app/utils/pagination.py:56 | `str(n)` for n ≥ 0: a non-empty run of digits with no leading zero |
| VkHelpers.ReplaceChar | app/utils/vk_helpers.py:54 | `str.replace` of one character: text without that character is returned unchanged |
| Text.NatToStringRoundTrip | app/utils/pagination.py:56 | reading the digits of `str(n)` back gives n |

## Left out

- Floating point: the source converts prices to `float` and sums the cart total as `float`. The model uses exact integer kopecks and does not model rounding, `format_price` or `format_date`.
- Time: the Redis expiry of a cart key is recorded as the number of seconds set, but keys never expire in the model. `datetime.utcnow()` is an input `now`, and the throttling cache is not modelled.
- Newest-first order: `order_by(created_at.desc())` on orders and tickets is modelled as descending autoincrement id, and on users (`get_all_users`) as the reverse of the insertion log `joined`. This agrees with the source only while `now` does not go backwards between inserts.
- Database failures: one input `commitOk` per handler decides whether that handler's database writes commit. Failures of reads, and a different outcome for each of several writes in one handler, are not modelled. Rows the database refuses are modelled where the checkout can produce them: the widths of the phone and email columns (`UpdatePhone`, `UpdateEmail`) and of the order's name, phone and email columns, and a number under an order text column (`Orders.Insertable`).
- Users.UserService.GetOrCreateUser: the 255-character widths of username, first name and last name are not checked. Telegram keeps these fields shorter.
- Users.UserService.UpdatePhone and Users.UserService.UpdateEmail: a value too long for its column is refused even when no row has the id. Whether PostgreSQL checks the length for an update that touches no row depends on its query plan.
- Orders.OrderService.CreateOrder and Support.SaveTicket: the foreign key to the user table is not checked. An order or ticket for an id without a user row is refused by the database, but the model inserts it. An id normally has a user row from `/start` before it reaches these handlers.
- Orders.OrderService.UpdatePaymentLabel: the label `order_{id}_{unix time}` is taken to fit its 255-character column and to be unique, as its order id makes it.
- Messages without text (photos, stickers, voice) are not modelled: every handler input is a text. In the source, `message.text` is then None: the checkout text handlers raise at `.strip()`, outside any try block, so the update ends unanswered with the conversation unchanged, and `support_save_ticket` inserts None into the non-null ticket text, which fails like a failed commit.
- Redis failures: the cart service's Redis calls always succeed in the model. `add_item`, `update_quantity`, `remove_item` and `clear_cart` returning False on a Redis error, `get_cart` returning an empty cart on one, and the handlers' "could not add" and error answers that follow, are not modelled.
- The payment gateway and the storefront HTTP API are foreign calls. Their answers are inputs: the verdict is success, pending or error, and each storefront request returns a reply or raises. The payment label `order_{id}_{unix time}` depends on the clock and is an input.
- The storefront catalog queries are replaced by a partial map from product id to product. Only in-stock = quantity > 0 is kept from them.
- Messages, keyboards, message editing and every send failure are left out. Each handler returns which answers it gives instead, in order; that Telegram refuses a second answer to the same callback is not modelled. Admin broadcasts and the admin filter are not part of this model.
- Concurrency: the hget/hset read-modify-write race in `add_item` and interleaved async handlers are not modelled. The model handles one event at a time.
- `parse_callback_data` and `extract_command_args` rely on JSON and regex library parsing and are not modelled. Neither are `create_mention`, `format_datetime` or the order-list handler `show_my_orders`.
- Letters, digits and case are classified as ASCII only. `\w`, `\d`, `str.isdigit` and `str.lower` are not modelled for other Unicode letters, digits or case mappings. Whitespace for `strip` and `split` is Python's whole set.
- Commands addressed to a bot by mention (`/start@name` with a non-empty name) need the bot's username, which is not modelled: such a message is treated as text that reaches checkout.
- The other routers' updates (catalog, payment, admin and support callbacks and their own conversation states) are outside `Checkout.Step`, except the main-menu button and the start router's commands.
- The VK status labels are the characters the source file holds, which were saved double-encoded. The model returns those characters, not the Russian text they were meant to be.
- Formatting.FormatProductName: the result is not stated for a long name when max_length < 3, where Python's negative slice bound cuts from the end. The body models that case.
- VkHelpers.TruncateText: the result is not stated for a long text when max_length < len(suffix). The body models that case.
- Formatting.CardDescription: the result for a missing description is stated only when the limit is at least the placeholder's length, and the cut is stated only for a non-negative limit. The body models the other cases.
- Formatting.CartSummary: for a non-empty cart it only states that the call raises. The source's item formatter reads dictionary keys as attributes, so that path cannot produce text.
- VkHelpers.AttachmentRoundTripIff: stated for media ids ≥ 0 only. A negative media id gives "_-" in the attachment, which the pattern never matches.
- Text.Strip: its own contract states only that no whitespace is left at either end. That the result is the input with the whitespace cut from both ends is stated by Text.StripLeft and Text.StripRight.
- Text.DigitsOf: its contract states that only digits are returned, not that every digit of the input is kept in order. The body keeps them.
- VkHelpers.ReplaceChar: its contract covers only text without the character. The replacement itself is stated through VkHelpers.ReplaceCharAppend and VkHelpers.EntityAfterAll.

## Findings

| source | as written | input that shows it | evidently intended | confidence | as-written member | corrected member |
|---|---|---|---|---|---|---|
| app/utils/vk_helpers.py:66 | the pattern `(\w+)(-?\d+)_(\d+)` lets the type group take digits, and greedy matching leaves the owner group only the last digit of a non-negative owner id | `build_vk_attachment("photo", 123, 456)` is "photo123_456", which parses as type "photo12", owner 3, media 456 | the type is letters only (`[A-Za-z]+`), so every attachment the bot builds parses back as built | high (proved on the model; not executed) | VkHelpers.AttachmentCounterexample, VkHelpers.AttachmentRoundTripIff | VkHelpers.AttachmentLettersRoundTrip |
| app/handlers/checkout.py:121-135 | the phone check counts digits and never bounds the length, while the profile and order phone columns are `String(20)` | "+7 (912) 345 - 67 - 89" has 11 digits in 22 characters: it is accepted, `update_phone` fails and is ignored, and every confirmation of that draft ends in the order-creation error | a name, phone or email is refused in its own step when it does not fit the column that stores it, so a confirmed draft can always be inserted | high (proved on the model; not executed) | Checkout.OversizedPhoneAccepted | Checkout.OnTextFitting, Checkout.FittingTextKeepsInsertable |
