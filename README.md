# Order and User services: request handling

This project models the request handlers of two services in a small
e-commerce system, written as Flask-RESTX resources over MongoDB collections.
The User service runs in two revisions side by side.

- the Order service (`src/order_service/app/routes.py`):
  - create an order;
  - list orders by status;
  - change an order's status;
  - change an order's denormalised contact details (`userEmails`, `deliveryAddress`).
- the User service, in both revisions that the gateway serves (`src/user_service_v1/app/routes.py`, `src/user_service_v2/app/routes.py`):
  - list users;
  - create a user, refusing email addresses already in use;
  - fetch a user;
  - update a user's contact details, then publish a user-updated event so
    the Order service can copy the new contact details.

Each validation step becomes a function that returns `Pass` or
`Abort(code, message)`. Each step stops at the first failure, and the
messages and status codes are the ones the handlers use. Every validator
comes with a predicate, such as `CreateAccepted` or `UpdateAccepted`, that
states in one condition which bodies it accepts. Its contract proves that it
passes exactly on those bodies.

The collections are classes whose `seq<Dict>` field the handlers update in
place. A JSON body and a stored document are both an ordered `Dict`, the way
Python keeps a dict's keys in insertion order:
- `d[k] = v` is `Assign`: an existing key keeps its place, a new key goes last.
- Mongo's `$set` is `SetFields`.
- `find_one` is `FindOne`, the first match in natural order.
- `find` is `Find`.

The fresh UUID (`uuid1` for orders, `uuid4` for users) and the current time are parameters. A fresh id is
required to be unused by any stored document. Every publication of the
user-updated event is recorded on a ghost `outbox`.

Module layout:
- `values.dfy`: JSON values, Python truthiness, dict lookup, assignment and `$set`.
- `checks.dfy`: the checks every service shares: allowed keys, the delivery address and email lists.
- `collection.dfy`: the Mongo filters `{k: q}` and `{k: {'$in': qs}}`, `find_one`, `find`, and the lemmas about re-finding a document after `$set`.
- `order_service.dfy`: the Order service.
- `users.dfy`: the users collection's invariant and the event payload.
- `user_service_v2.dfy`, `user_service_v1.dfy`: the two User service revisions.
- `revisions.dfy`: proofs that the two revisions give the same answers, the same stored users and the same events, except for one error message.

## Model

| member | source | states |
|---|---|---|
| Values.Truthy | src/order_service/app/routes.py:60-63 | Python's `not` is true exactly on None, False, 0, "", [] and {} |
| Values.SetFields | src/order_service/app/routes.py:146 | `$set` keeps every key of the document at its place, and every position after them holds a key of the update |
| Values.Get | src/order_service/app/routes.py:60-67 | a lookup finds a value exactly when the key is present, and the value found belongs to an entry with that key |
| Values.Assign | src/order_service/app/routes.py:91-95 | `d[k] = v` keeps the dict's length when k is present and adds one entry otherwise; every other position keeps its key; a new key is appended last |
| Values.AssignGet | src/order_service/app/routes.py:91-95 | after `d[k] = v`, looking up k gives v and every other key gives what it gave before |
| Values.SetFieldsGet | src/order_service/app/routes.py:146 | a `$set` gives every key of the update the update's value, leaves every other key's value unchanged, and keeps keys distinct |
| Checks.Filled | src/order_service/app/routes.py:60-63 | `key not in d or not d[key]` fails exactly when `d.get(key)` is truthy |
| Checks.FirstForeignKey | src/order_service/app/routes.py:54-58 | finds nothing exactly when every key is allowed; otherwise it returns the first key, in body order, that is not allowed |
| Checks.CheckAllowedFields | src/order_service/app/routes.py:54-58 | passes exactly when every key of the body is allowed; otherwise 400 `Invalid field: k` for a foreign key k |
| Checks.ForeignKeyIgnoresValues | src/order_service/app/routes.py:54-58 | the allowed-key check depends only on the body's keys, not on its values |
| Checks.FirstBadField | src/order_service/app/routes.py:73-76 | finds nothing exactly when every named field is present with an acceptable value; otherwise the first failing name in the list's order |
| Checks.CheckAddress | src/order_service/app/routes.py:78-85 | passes exactly when the address is an object whose five fields are all strings; otherwise 400 with either `must be an object` or `must contain a valid f` |
| Collection.Matches | src/order_service/app/routes.py:137 | the filter `{key: q}` matches a document whose field equals q, and matches only documents that have the field unless q is null |
| Collection.MatchesAny | src/user_service_v2/app/routes.py:83 | the filter `{key: {'$in': qs}}` matches exactly when the filter for some element of qs does; an empty list matches nothing |
| Collection.FindOne | src/order_service/app/routes.py:137 | returns nothing exactly when no document matches; otherwise a matching position with no match before it |
| Collection.Find | src/order_service/app/routes.py:113 | returns only documents of the collection that match the filter, every such document, and no more documents than there are |
| Collection.FindCount | src/order_service/app/routes.py:113 | `find` returns each matching document as many times as the collection holds it, and nothing else |
| Collection.FindAppend | src/order_service/app/routes.py:113 | `find` keeps natural order: the matches of a concatenation are the first part's matches followed by the second's |
| Collection.FindOneIs | src/order_service/app/routes.py:137 | a match with no match before it is the one `find_one` returns |
| Collection.RefindAfterSet | src/order_service/app/routes.py:146-147 | when the `$set` leaves the filtered field alone, the re-read after `update_one` finds the same document, now updated |
| Collection.SetWithTime | src/order_service/app/routes.py:198-200 | after stamping `updatedAt` and `$set`, the document has the new time, the body's fields, and its own value for every other field |
| OrderService.CheckItem | src/order_service/app/routes.py:71-76 | passes exactly on an object carrying `itemId`, `quantity` and `price` as strings or numbers; a failure is a 400 |
| OrderService.CheckItemList | src/order_service/app/routes.py:70-76 | passes exactly when every item of the list is valid; a failure is a 400 |
| OrderService.CheckItems | src/order_service/app/routes.py:70-72 | how Python iterates `items`: a list passes exactly when all its items are valid; an empty string or dict passes; a non-empty string or dict gets a 400; any other value is not iterable and gets a 500 |
| OrderService.ValidateCreate | src/order_service/app/routes.py:53-85 | passes exactly when the body has only allowed keys, non-empty `items` that are valid, non-empty `userEmails`, a valid `deliveryAddress` and any `orderStatus`; aborts with 400, or with 500 only for a non-iterable truthy `items` |
| OrderService.CheckStatus | src/order_service/app/routes.py:132-134 | passes exactly when `orderStatus` is present and one of the three statuses; otherwise 400 `Invalid or missing orderStatus` |
| OrderService.ValidateDetails | src/order_service/app/routes.py:168-190 | passes exactly when the body has only contact keys, at least one of them, an email list of valid addresses when given, and a valid address when given; a failure is a 400 |
| OrderService.CheckStatusQuery | src/order_service/app/routes.py:107-110 | passes exactly when the `status` parameter is one of the three statuses; otherwise 400 `Invalid or missing status parameter` |
| OrderService.NewOrder | src/order_service/app/routes.py:89-95 | the stored order has exactly the body's keys plus `createdAt`, `updatedAt` and `orderId` |
| OrderService.OrderStore.CreateOrder | src/order_service/app/routes.py:38-98 | a refused body leaves the orders unchanged and answers with the validator's code and message; an accepted one is appended with its stamps and id and returned; order ids stay unique |
| OrderService.OrderStore.ListByStatus | src/order_service/app/routes.py:102-114 | a bad status gives 400; otherwise the answer holds exactly the stored orders whose `orderStatus` matches |
| OrderService.OrderStore.UpdateStatus | src/order_service/app/routes.py:126-149 | a bad status gives 400 and an unknown id gives 404, both with nothing changed; otherwise exactly the first order with that id takes the `$set`, and the answer is that order before and after |
| OrderService.OrderStore.UpdateDetails | src/order_service/app/routes.py:161-203 | a refused body gives its 400 and an unknown id gives 404, both with nothing changed; otherwise exactly the matching order takes the body and the time, and the answer is that order before and after |
| OrderService.KeepIdsUnique | src/order_service/app/routes.py:146 | a `$set` that does not carry `orderId` keeps every order's id a string and keeps the ids unique |
| OrderService.CreateRejectsForeignKey | src/order_service/app/routes.py:54-58 | a body carrying `orderId`, or any other foreign key, is refused with a 400 naming a foreign key |
| OrderService.CreateIgnoresStatusValue | src/order_service/app/routes.py:66-67 | creation requires `orderStatus` but never checks its value: replacing the value changes no verdict |
| OrderService.NewOrderStamps | src/order_service/app/routes.py:89-95 | a new order has the server's `orderId` and `createdAt == updatedAt == now`, whatever the body said; every other field is the body's |
| OrderService.StatusChangeFields | src/order_service/app/routes.py:142-146 | a status update changes `orderStatus` and `updatedAt` and no other field |
| OrderService.DetailsChangeFields | src/order_service/app/routes.py:197-200 | a details update changes the contact fields the body gives, plus `updatedAt`; every other field keeps its value |
| OrderService.EmptyEmailListAccepted | src/order_service/app/routes.py:177-180 | an empty `userEmails` list passes the details check |
| OrderService.SameAddressRule | src/order_service/app/routes.py:183-190 | an address that creation accepts is also accepted by a details update |
| Users.KeepUsersValid | src/user_service_v2/app/routes.py:161-163 | a `$set` that leaves `userId` alone keeps user ids unique and keeps every user's `emails` and `deliveryAddress` |
| Users.FindUser | src/user_service_v2/app/routes.py:158 | in a valid collection, `find_one` on a user's id returns that user |
| Users.AddUserValid | src/user_service_v2/app/routes.py:87-92 | inserting a user with a fresh id and both contact fields keeps the collection valid |
| UserServiceV2.ValidateCreate | src/user_service_v2/app/routes.py:62-80 | passes exactly when the body has only allowed keys, non-empty `emails` and a valid `deliveryAddress`; a failure is a 400 |
| UserServiceV2.CheckEmailsFree | src/user_service_v2/app/routes.py:82-85 | passes exactly when `emails` is a list without operator documents (a document whose first key starts with `$` and that is not a DBRef) and no stored user lists any of its elements; a non-list or an operator document gets a 500; an address in use gets a 400 |
| UserServiceV2.NewUser | src/user_service_v2/app/routes.py:86-91 | the stored user has exactly the body's keys plus `userId`, `createdAt` and `updatedAt` |
| UserServiceV2.ValidateUpdate | src/user_service_v2/app/routes.py:136-156 | passes exactly when the body has only contact keys, at least one of them, valid emails when given and a valid address when given; a failure is a 400 |
| UserServiceV2.UpdateEvent | src/user_service_v2/app/routes.py:164-168 | the event carries the user's id and the `emails` and `deliveryAddress` entries of the updated user, both of which must be present |
| UserServiceV2.UserStore.ListUsers | src/user_service_v2/app/routes.py:38-46 | answers every stored user |
| UserServiceV2.UserStore.GetUser | src/user_service_v2/app/routes.py:105-119 | 404 `User not found` exactly when no user has the id; otherwise a stored user with that id |
| UserServiceV2.UserStore.CreateUser | src/user_service_v2/app/routes.py:49-94 | a refused body or an address in use leaves the users unchanged and gives that error; otherwise the stamped user with its new id is appended and returned; nothing is published |
| UserServiceV2.UserStore.UpdateUser | src/user_service_v2/app/routes.py:122-169 | errors 400 and 404 leave the users and the outbox unchanged; on success exactly the matching user takes the `$set`, the answer is that user before and after, and exactly one event with the user's id, new emails and new address is published |
| UserServiceV2.CreateRejectsForeignKey | src/user_service_v2/app/routes.py:62-68 | a body carrying `userId`, or any other foreign key, is refused with a 400 naming a foreign key |
| UserServiceV2.DuplicateEmailRejected | src/user_service_v2/app/routes.py:82-85 | an address that some stored user already lists makes creation fail with 400 `One or more email addresses are already in use`, or with 500 when the list also holds an operator document (a DBRef is not one) |
| UserServiceV2.OperatorEmailRefused | src/user_service_v2/app/routes.py:82-85 | an emails list holding the operator document `{"$gt": ""}` makes creation fail with 500 |
| UserServiceV2.DBRefEmailCompared | src/user_service_v2/app/routes.py:82-85 | a DBRef `{"$ref": "users", "$id": "x"}` in the emails list is no operator: creation fails with 400 exactly when a stored user's `emails` matches it, and passes otherwise |
| UserServiceV2.NewUserStamps | src/user_service_v2/app/routes.py:86-91 | a new user has the server's `userId` and `createdAt == updatedAt == now`; every other field is the body's |
| UserServiceV2.UpdateChangeFields | src/user_service_v2/app/routes.py:161-163 | an update changes the contact fields the body gives, plus `updatedAt`; `userId`, the names, the phone number and `createdAt` keep their values |
| UserServiceV1.ValidateCreate | src/user_service_v1/app/routes.py:61-79 | as in revision 2: passes exactly on bodies with allowed keys, non-empty `emails` and a valid address; a failure is a 400 |
| UserServiceV1.CheckEmailsFree | src/user_service_v1/app/routes.py:81-84 | passes exactly when `emails` is a list without operator documents (a document whose first key starts with `$` and that is not a DBRef) and no stored user lists any of its elements; a non-list or an operator document gets a 500; an address in use gets a 400 |
| UserServiceV1.NewUser | src/user_service_v1/app/routes.py:85-90 | the stored user has exactly the body's keys plus `userId`, `createdAt` and `updatedAt` |
| UserServiceV1.ValidateUpdate | src/user_service_v1/app/routes.py:134-154 | passes exactly when the body has only contact keys, at least one of them, valid emails when given and a valid address when given; a failure is a 400 |
| UserServiceV1.UpdateEvent | src/user_service_v1/app/routes.py:163-166 | the event carries the user's id and the updated user's `emails` and `deliveryAddress`, or `[]` and `{}` when the user lacks them |
| UserServiceV1.UserStore.ListUsers | src/user_service_v1/app/routes.py:33-42 | answers every stored user |
| UserServiceV1.UserStore.GetUser | src/user_service_v1/app/routes.py:104-119 | 404 `User not found` exactly when no user has the id; otherwise a stored user with that id |
| UserServiceV1.UserStore.CreateUser | src/user_service_v1/app/routes.py:45-93 | a refused body or an address in use leaves the users unchanged; otherwise the stamped user is appended and returned; nothing is published |
| UserServiceV1.UserStore.UpdateUser | src/user_service_v1/app/routes.py:122-167 | errors leave the users and the outbox unchanged; on success exactly the matching user takes the `$set` and exactly one event is published, read with the `.get` defaults |
| UserServiceV1.CreateRejectsForeignKey | src/user_service_v1/app/routes.py:61-67 | a body carrying `userId`, or any other foreign key, is refused with a 400 naming a foreign key |
| UserServiceV1.DuplicateEmailRejected | src/user_service_v1/app/routes.py:81-84 | an address that some stored user already lists makes creation fail with 400, or with 500 when the list also holds an operator document (a DBRef is not one) |
| UserServiceV1.OperatorEmailRefused | src/user_service_v1/app/routes.py:81-84 | an emails list holding the operator document `{"$gt": ""}` makes creation fail with 500 |
| UserServiceV1.DBRefEmailCompared | src/user_service_v1/app/routes.py:81-84 | a DBRef `{"$ref": "users", "$id": "x"}` in the emails list is no operator: creation fails with 400 exactly when a stored user's `emails` matches it, and passes otherwise |
| UserServiceV1.NewUserStamps | src/user_service_v1/app/routes.py:85-90 | a new user has the server's `userId` and `createdAt == updatedAt == now`; every other field is the body's |
| UserServiceV1.UpdateChangeFields | src/user_service_v1/app/routes.py:159-162 | an update changes the contact fields the body gives, plus `updatedAt`; every other field keeps its value |
| Revisions.SameCreateValidation | src/user_service_v1/app/routes.py:61-79 | the two revisions give every creation body the same verdict and message |
| Revisions.UpdateValidationAgrees | src/user_service_v1/app/routes.py:134-154 | the two revisions accept the same update bodies; their answers are equal except for the email-list message, which says "a list" in revision 1 and "an array" in revision 2 |
| Revisions.SamePayload | src/user_service_v1/app/routes.py:163-166 | for a user that has both contact fields, `.get` with defaults and plain indexing build the same event |
| Revisions.CreateAgrees | src/user_service_v1/app/routes.py:45-93 | the same creation against the same users gives the same answer and the same collection in both revisions |
| Revisions.UpdateAgrees | src/user_service_v1/app/routes.py:122-167 | the same update against the same users gives the same collection and publishes the same events in both revisions; the answers are equal except for the email-list message |

## Left out

- HTTP routing, Flask-RESTX response marshalling and Mongo's `_id`/`ObjectId` are not modelled. A handler returns the stored document itself, not its marshalled form.
- Parsing the request body is not modelled. Every body is taken to be a JSON object, so neither revision 1's `Invalid JSON data` abort nor a body that is a list or a scalar is modelled.
- A parsed JSON object never repeats a key; where a JSON text repeats one, Python keeps the last value. `UpdateDetails` and `UpdateUser` require a body with distinct keys. `CreateOrder`, `UpdateStatus` and `CreateUser` accept any `Dict`, and on a repeated key they read its first value, not its last. Nested objects such as items and `deliveryAddress` are also taken to have distinct keys, and a lookup in them reads the first entry with the key.
- `uuid.uuid1()` (order ids), `uuid.uuid4()` (user ids) and `datetime.utcnow()` are parameters. That a fresh id differs from every stored one is a precondition, not something proved.
- The internals of `publish_user_update_event` are not part of this model: `events.py` is not part of it, and neither are the broker, retries or an exception raised while publishing. A publication is one entry on the ghost `outbox`.
- The modelled handlers contain no consumer of the user-updated event, no version counter and no dead-letter path, so none of these is modelled.
- JSON numbers are unbounded integers, so floats are not modelled. A Python `bool` counts as an `int`, so `True` is accepted as an item's `quantity` or `price`, as the handlers do.
- Mongo's query semantics go only as far as the handlers use them: single-field equality, membership in an array field, and `$in`. Mongo's refusal of an `$in` that is not an array, or that holds a document whose first key starts with `$` and that is not a DBRef (it carries both `$ref` and `$id`), becomes a 500. Connection failures and other server errors are not modelled.
- Values.SetFields: new fields are appended in the order of the update. The server appends the new fields of a `$set` in lexicographic order of their names, so a stored document's field order can differ from the model's. Field values and the set of fields are the same, and no handler's check depends on field order.
- The storage encoding holds integers of at most 64 bits. The driver refuses to encode a larger integer, the handler's uncaught error answers 500, and nothing is written or published. No validator bounds an integer, so such a value can reach `CreateOrder` (for example an item's `quantity`), `CreateUser` (for example `phoneNumber`; an `emails` element reaches the `$in` query first), and `UpdateDetails` and `UpdateUser` (an extra field inside `deliveryAddress`, which the address check does not look at). The model does not capture this refusal. Its integers are unbounded, so in the model these handlers store the value, and `UpdateUser` publishes the event.
- Requests are handled one at a time. Concurrent requests, including two creations racing past the duplicate-email check, are not modelled.
- A user update does not check whether its new emails are already in use by another user. The model keeps this behaviour, and `UserStore.UpdateUser` stores such emails.
- UserServiceV2.UserStore.UpdateUser: revision 2 reads `new_user["emails"]`, which would raise for a user without emails. The model only allows stores whose users all carry both contact fields, the invariant that creation and `$set` keep, so that `KeyError` path cannot arise and is not modelled.
