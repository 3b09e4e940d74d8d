# Freelance marketplace backend: conversations, messages, orders and registration

This project models the request handlers of a freelance-marketplace
backend: its conversation service, message service, order/payment service
and the registration/login logic. The document database becomes four
in-memory collections, each held in insertion order: conversations,
messages, orders and users. Each handler becomes one operation over them.

- A **conversation** has a storage id (`_id`) that the database assigns. It
  also has a composite id: the seller's id followed by the buyer's id. It
  carries two read flags, the text of its last message and timestamps.
  Messages are tagged with the conversation's composite id, not its storage
  id.
- An **order** snapshots a gig and carries a `payment_intent`. That value
  is `"temporary"` for an order created directly, or the payment
  provider's intent id. An order also has a completion flag.
- The module-wide payment-provider client handle (`stripe`) is a class
  field. It is set up once from the environment and set up again on demand
  when it is missing.
- Registration refuses a username that the regular expression
  `^[^\s@]+@[^\s@]+\.[^\s@]+$` matches. That language is defined twice: as
  the regex, and as a shape (no white space, exactly one `@`, a non-empty
  part before it, a domain with an inner dot). A lemma proves the two
  definitions accept the same strings.

Module layout: `Common` (shared values and error shapes), `Seqs` (the
database's `find`, `findOne` and `sort` over a collection), `Conversations`,
`Messages`, `Orders`, `Usernames`, `Auth`.

Modelling choices:
- Collections are sequences, so `findOne` is "first match in insertion
  order". The database's id allocator is a fresh-id parameter (`sid`). The
  clock is a parameter (`now`).
- The environment (`process.env.STRIPE_SECRET_KEY`) is an `Env` value.
- Password hashing, hash comparison, token signing and the payment
  provider's create-intent call are function parameters.
- Failures are values. `Http(status, message)` is what the handler passes
  to `next(createError(...))`. `Reply(status, message)` is a response sent
  directly. `Db` and `Provider` wrap errors forwarded unchanged.
- The schema files (`models/*.js`) are not part of this model. The model
  assumes the schema facts the handlers depend on:
  - `Conversation.id` has a unique index.
  - Conversations carry timestamps, and every update sets `updatedAt`.
  - `User.username` and `User.email` have unique indexes.
  - `Order.isCompleted` defaults to false.
- When a registration duplicates both username and email, the model
  reports the username.

## Model

| member | source | states |
|---|---|---|
| Conversations.NewConversation | controllers/conversationcontroller.js:12-23 | composite id is `userId ++ to` for a seller caller and `to ++ userId` otherwise; the caller holds its own role and the counterpart the other; the id always equals `sellerId ++ buyerId`; the creator's read flag is true, the counterpart's false (exactly one flag holds) |
| Conversations.CompositeIdFollowsRoles | controllers/conversationcontroller.js:12-14 | a seller starting a conversation with a buyer and that buyer starting one with the seller compute the same composite id |
| Conversations.ConversationStore.Create | controllers/conversationcontroller.js:12-32 | saves exactly the built conversation, appended; a composite id already present fails with a duplicate-key database error and changes nothing; unique storage and composite ids are preserved |
| Conversations.Apply | controllers/conversationcontroller.js:37-47 | an edit changes only the read flags, the last message and `updatedAt`; the caller's flag becomes true; `updateConversation` leaves the counterpart's flag as it was; the other edits make the counterpart's flag false |
| Conversations.UpdateById | controllers/conversationcontroller.js:37-47 | `findOneAndUpdate` by composite id edits exactly the conversation with that id, keeps every other conversation and every id, and changes nothing when no conversation has that id |
| Conversations.UpdateByIdIdempotent | controllers/conversationcontroller.js:37-47 | applying the same update twice gives the same collection as applying it once |
| Conversations.ConversationStore.Update | controllers/conversationcontroller.js:37-49 | the collection becomes the `updateConversation` edit of the old one; the answer is the stored conversation with that id with the caller's own read flag set and `updatedAt` stamped, or null when no conversation has that id |
| Conversations.GetSingleConversation | controllers/conversationcontroller.js:60-71 | a storage-id match is preferred; otherwise a composite-id match; 404 "Not found!" exactly when neither exists |
| Conversations.GetConversations | controllers/conversationcontroller.js:90-92 | returns exactly the conversations whose seller (seller caller) or buyer (buyer caller) is the caller, each as often as stored, ordered by `updatedAt`, newest first |
| Conversations.NewConversationListedForBoth | controllers/conversationcontroller.js:90-92 | a newly created conversation is listed for the creator in its role and for the counterpart in the other role |
| Conversations.GetConversationByGig | controllers/conversationcontroller.js:122-144 | 404 "Gig not found!" for a missing gig; otherwise a stored conversation between the caller and the gig's owner in either role assignment; a 404 "No conversation found" reply exactly when none exists |
| Conversations.CreatedConversationFoundByGig | controllers/conversationcontroller.js:131-136 | after a conversation with a gig's owner is created, the by-gig lookup finds a conversation |
| Conversations.FindByIdUnique | controllers/conversationcontroller.js:37-39 | with unique composite ids, lookup by composite id returns the one conversation with that id |
| Conversations.FindBySidUnique | controllers/conversationcontroller.js:60 | with unique storage ids, lookup by storage id returns the one conversation with that id |
| Messages.CreateMessage | controllers/messagecontroller.js:5-35 | an unknown conversation storage id fails 404 and changes neither collection; otherwise exactly one message is appended, tagged with the conversation's composite id; that conversation gets the sender's read flags and the text as last message |
| Messages.CreateMessageSummary | controllers/messagecontroller.js:21-29 | after a message the conversation has `lastMessage == desc`, `readBySeller == isSeller`, `readByBuyer == !isSeller`; no other field and no other conversation changes |
| Messages.Thread | controllers/messagecontroller.js:40 | the messages returned are exactly those tagged with the given id, each as often as it is stored |
| Messages.GetMessages | controllers/messagecontroller.js:40-48 | messages tagged with the parameter if there are any; otherwise the messages of the conversation whose storage id is the parameter; otherwise none; in each case every returned message is stored and appears as often as it is stored |
| Messages.SameMessagesBySidOrId | controllers/messagecontroller.js:40-47 | a conversation's storage id and composite id return the same messages, provided no message is tagged with the storage id and the composite id is no conversation's storage id |
| Messages.NewMessageVisible | controllers/messagecontroller.js:13-19 | after a message is appended, the query by its composite id returns the earlier messages of that conversation followed by the new one |
| Messages.MarkAsRead | controllers/messagecontroller.js:56-64 | sets the flags to `(isSeller, !isSeller)` on the conversation with that composite id and changes no other field; an unknown id changes nothing; the reply is always the success text |
| Orders.OrderFromGig | controllers/ordercontroller.js:37-45 | an order snapshots the gig: `cover` as `img`, `title`, `price`, the owner as `sellerId`; the caller is the buyer; the order is not completed |
| Orders.OrderStore.CreateOrder | controllers/ordercontroller.js:32-52 | a missing gig fails 404 and creates no order; otherwise exactly one order is appended with the gig snapshot and `payment_intent == "temporary"` |
| Orders.GetOrders | controllers/ordercontroller.js:56-58 | returns exactly the orders whose seller (seller caller) or buyer (buyer caller) is the caller, each as often as stored |
| Orders.NewOrderListedForBoth | controllers/ordercontroller.js:56-58 | a new order is listed for its buyer as buyer and for the gig's owner as seller |
| Orders.ApplyOrderEdit | controllers/ordercontroller.js:67-73 | confirmation changes only `isCompleted`, to true; a payment update changes only `payment_intent` |
| Orders.UpdateOrder | controllers/ordercontroller.js:67-73 | `findByIdAndUpdate` edits exactly the order with that storage id and changes nothing for an unknown id |
| Orders.UpdateOrderIdempotent | controllers/ordercontroller.js:67-74 | confirming twice, or writing the same payment intent twice, equals doing it once |
| Orders.ConfirmIgnoresPayment | controllers/ordercontroller.js:67-74 | confirmation completes the order whatever its payment intent |
| Orders.OrderStore.ConfirmOrder | controllers/ordercontroller.js:65-78 | the order becomes completed and nothing else changes; success is reported even for an unknown id |
| Orders.OrderStore.UpdatePaymentStatus | controllers/ordercontroller.js:169-181 | overwrites only the order's `payment_intent` with the caller-supplied value; success is always reported |
| Orders.InitializeStripe | controllers/ordercontroller.js:10-27 | a client exists exactly when the secret key is set and non-empty, and it holds that key |
| Orders.StripeHandle.constructor | controllers/ordercontroller.js:30 | at module load the handle is initialised from the environment |
| Orders.FindCustomer | controllers/ordercontroller.js:107 | finds a user with the caller's id, or none exactly when no user has it |
| Orders.PaymentRequestFor | controllers/ordercontroller.js:118-146 | amount sent is `gig.price * 100` in `usd`; the receipt goes to the customer's email; metadata names the gig, the buyer and the gig's owner; the shipping name and country fall back to email and `"IN"` |
| Orders.OrderStore.CreatePaymentIntent | controllers/ordercontroller.js:80-167 | a missing handle is re-initialised once, and if still missing fails 500; the checks run in order (handle, gig 404, customer 404) and a failed check makes no provider call and creates no order; on provider success exactly one order is created with the intent id and the gig's price, and the client secret is returned; a provider error is forwarded and creates no order |
| Usernames.EmailShapeIsRegex | controllers/authcontroller.js:9-10 | the regex `^[^\s@]+@[^\s@]+\.[^\s@]+$` matches exactly the strings with no white space, exactly one `@`, a non-empty local part and a domain holding a `.` that is neither its first nor its last character |
| Usernames.NoAtNeverRefused | controllers/authcontroller.js:9-10 | a username without `@` is never matched |
| Usernames.SpaceNeverRefused | controllers/authcontroller.js:9-10 | a username holding white space is never matched |
| Usernames.SampleEmailRefused | controllers/authcontroller.js:9-10 | `a@b.com` is matched |
| Auth.CheckUsername | controllers/authcontroller.js:9-17 | a 400 with the email-username message exactly for usernames the regex matches |
| Auth.NewUser | controllers/authcontroller.js:19-23 | the stored password is the hash of the submitted password; the other submitted fields are kept |
| Auth.ClassifySaveError | controllers/authcontroller.js:44-66 | a duplicate-key error (11000) becomes a 400 whose message starts with `Username`, `Email` or the field name, followed by the quoted value; any other error is forwarded unchanged |
| Auth.DuplicateMessagesDiffer | controllers/authcontroller.js:48-61 | a duplicated username and a duplicated email never produce the same error |
| Auth.UserStore.Register | controllers/authcontroller.js:6-68 | an email-shaped username fails 400 and changes nothing; a taken username or email fails through the classification and changes nothing; otherwise exactly the new user is appended and the answer is its session |
| Auth.WithoutPassword | controllers/authcontroller.js:35 | the response keeps every field of the user except the password, which it has no place for |
| Auth.SessionFor | controllers/authcontroller.js:27-41 | the response is the user's public fields plus a token signed over exactly the user's id and `isSeller` |
| Auth.Login | controllers/authcontroller.js:70-88 | 404 exactly when no user has the username; otherwise the first user with that username decides: its session when the password check against its stored hash passes, the 400 when it fails |
| Auth.LoginByPasswordCheck | controllers/authcontroller.js:72-86 | with unique usernames, any stored user logs in with a password its hash accepts and gets its own session, and gets the 400 with one its hash refuses |
| Auth.RegisterThenLogin | controllers/authcontroller.js:19-88 | after registering, logging in with the same username and password gives the same session, provided the comparison accepts a password against its own hash |
| Auth.GetMe | controllers/authcontroller.js:112-116 | 404 exactly when no user has the caller's id; otherwise that user's fields without the password |
| Seqs.Filter | controllers/ordercontroller.js:56-58 | `find` keeps exactly the matching documents, each as often as stored |
| Seqs.FindFirst | controllers/conversationcontroller.js:131-136 | `findOne` returns the first stored matching document, or none exactly when nothing matches |
| Seqs.SortDesc | controllers/conversationcontroller.js:92 | `.sort({ updatedAt: -1 })` returns the same documents ordered by the key, largest first |

## Left out

- The realtime relay (Socket.io rooms in server.js) is not modelled. It is
  transport-level publish/subscribe and keeps no state of its own.
- Concurrency between requests is not modelled, and neither is the
  read-modify-write race in `createMessage`. Each request runs to
  completion.
- The conversation update inside `createMessage` cannot fail in the model.
  The message append and the conversation update happen together.
- Database failures other than the unique-index violations named above are
  not modelled. This covers connection errors, schema validation of
  required fields, and cast errors for malformed ids. An unknown id simply
  matches nothing. This matters where a composite id reaches a storage-id
  lookup: the first step of `getSingleConversation`
  (controllers/conversationcontroller.js:60) and the conversation lookup of
  `getMessages` (controllers/messagecontroller.js:44). With the default
  ObjectId storage ids, such a lookup may fail with a cast error instead
  of finding nothing. `GetSingleConversation`'s composite-id fallback and
  `SameMessagesBySidOrId` rely on the lookup finding nothing.
- Success status codes (200, 201) are not modelled. They are fixed per
  handler.
- Cookies, `logout`, and the `debugConversations` logging dump are not
  modelled. Neither is any console output.
- Floating-point behaviour of `gig.price * 100` is not modelled. Prices are
  integers, and the ×100 relation is stated over integers.
- The payment provider's SDK is not modelled. It is one function from
  (client, request) to either an intent `(id, client_secret)` or an error.
  Initialising the SDK never throws in the model.
- bcrypt and jwt are function parameters. So the model states "stored
  password == hash(password)", not "hash ≠ plain text", which depends on
  bcrypt.
- Registration takes a fixed set of body fields. The spread of arbitrary
  request-body fields into the user document is not modelled.
- `controllers/uploadcontroller.js`, the `routes/*.js` files and the
  Express setup in `server.js` are not part of this model. They are foreign
  calls and framework wiring.
