# Menu builder: a verified model of its core

The application lets restaurant owners build digital menus. A **user** owns
**restaurants**. A restaurant holds **menus**, a menu holds **categories**,
and a category holds **items**. Categories and items carry an integer
`order` that sorts them among their siblings. A restaurant has a Stripe
subscription (`subscriptionId`, `subscriptionStatus`, `stripeCustomerId`)
that webhook events drive. Item images and restaurant logos live in S3.

This project models, in Dafny:

- **The schema.** The initial migration's tables, their foreign keys, their
  `ON DELETE CASCADE` rules, the unique e-mail and the column defaults.
  `Schema.Database` holds one id-keyed map per table. Its `Valid()`
  predicate says every key is a uuid in the text form the database writes,
  every foreign key resolves, and no two users share an e-mail. The
  `Delete*Row` methods carry out the cascade.
- **The column types.** A value sent to a uuid, INTEGER or DECIMAL(10,2)
  column that the column cannot hold makes the query fail. The model returns
  `DatabaseError` for it. DECIMAL(10,2) rounds a price to cents.
- **The backend services.**
  - The restaurant service: the owner-or-admin guard `findOne`, `findAll`,
    `create`, `update`, `remove`, `findByStripeCustomerId` and `save`.
  - The menu service: lookups behind that guard, the order a new category or
    item receives, the bulk reorders and item deletion.
  - The subscription service: the webhook state machine, cancellation,
    customer reuse, and the two pure views of Stripe objects.
  - The auth service: register, login and `validateUser`.
  - The storage service's key strings.
- **The client.**
  - The two drag-and-drop handlers (`MenuOrganizer`, `MenuBuilder`). Each
    is a splice-out/splice-in move followed by renumbering to 0..n-1.
  - The organizer's expanded-category set.
  - The registration page's password checks and loading flag.

Service operations that change tables are methods over a `Database` with
`modifies db`. Pure decisions are functions, and the properties relating
them are lemmas.

Calls into other systems are parameters of the model:

- S3's upload reply (`UploadReply`) and delete outcome (`deleteOk`).
- Stripe's verified webhook event (`Option<Event>`), whether its customer
  lookup or creation succeeds (`customerOk`), its new customer id, the
  subscription it creates, and the outcome of a cancellation.
- bcrypt (`hash`, `matches`) and the JWT signer (`sign`), as uninterpreted
  functions.
- uuid generation, as a fresh id in uuid text form that is not yet in the
  table.
- `Date.now()`, as a natural number.
- `signUp`'s outcome on the client.

Where the design description and the code disagree, the model follows the
code:

- **First order is 1.** The first category of a menu, and the first item
  of a category, gets order `1`, because the code computes
  `(last?.order ?? 0) + 1`. The design description says the first gets `0`.
- **A failed delete aborts.** A failed image or logo deletion throws and
  aborts `deleteItem`, `update` and `remove` before the row changes. The
  design description calls the deletion best-effort.
- **Order default.** The database default `order = 0` is recorded, but it
  never applies, because the services always supply an order.
- **Dead check.** `createSubscription`'s `!restaurant` check cannot fire,
  because `findOne` has already thrown for a missing restaurant.

## Model

| member | source | states |
|---|---|---|
| Schema.MigrationOrder | backend/src/migrations/1698000000000-CreateInitialTables.ts:4-99 | Both `up` and `down` name all six tables. `up` creates every table after the table its foreign key points to. `down` drops every table before the table its foreign key points to, children first. |
| Schema.Database.constructor | backend/src/migrations/1698000000000-CreateInitialTables.ts:4-89 | The freshly migrated database is empty and satisfies the integrity invariant. |
| Schema.Database.DeleteItemRow | backend/src/migrations/1698000000000-CreateInitialTables.ts:64-76 | Deleting an item removes that row only and keeps the invariant. |
| Schema.Database.DeleteCategoryRow | backend/src/migrations/1698000000000-CreateInitialTables.ts:50-59 | Deleting a category removes it and exactly the items that pointed at it (ON DELETE CASCADE). No item is left with a missing category. |
| Schema.Database.DeleteMenuRow | backend/src/migrations/1698000000000-CreateInitialTables.ts:36-59 | Deleting a menu removes its categories and, through them, their items. Everything else survives and the invariant holds. |
| Schema.Database.DeleteRestaurantRow | backend/src/migrations/1698000000000-CreateInitialTables.ts:20-88 | Deleting a restaurant removes its menus, categories, items and analytics rows. The users table is untouched. |
| Schema.Database.DeleteUserRow | backend/src/migrations/1698000000000-CreateInitialTables.ts:7-31 | Deleting a user removes the user and cascades through the user's restaurants down to their items and analytics. Every survivor still has its parent. |
| Entities.CentsNearest | backend/src/migrations/1698000000000-CreateInitialTables.ts:68 | The cents a DECIMAL(_, 2) column keeps are the whole number of cents nearest the given price, within half a cent. |
| Entities.StoredPriceRounds | backend/src/migrations/1698000000000-CreateInitialTables.ts:68 | The stored price is within half a cent of the given one. Storing it again changes nothing. A price in whole cents is stored as given. |
| StorageService.DecimalStringIsDigits | backend/src/modules/storage/storage.service.ts:20 | The rendering of `Date.now()` in the key is a non-empty string of decimal digits, so it contains no `/`. |
| StorageService.UploadKeyShape | backend/src/modules/storage/storage.service.ts:20 | The upload key is `path + "/" + timestamp + "-" + originalname`. It starts with the path and a slash, and ends with the original name. |
| StorageService.Split | backend/src/modules/storage/storage.service.ts:31 | `split('/')` returns at least one part, and no part contains the separator. |
| StorageService.SplitAtFirstSlash | backend/src/modules/storage/storage.service.ts:31 | Splitting at the first `/` gives the text before it, then the parts of what follows. |
| StorageService.DeleteKeyIsLastSegment | backend/src/modules/storage/storage.service.ts:31 | The key `split('/').slice(-1)[0]` computes equals the reference definition: the longest suffix of the URL without `/`. |
| StorageService.DeleteKeyShape | backend/src/modules/storage/storage.service.ts:31 | The delete key never contains `/` and is a suffix of the URL. A URL without `/` is its own key, and a URL ending in `/` yields the empty key. |
| StorageService.DeleteKeyDropsUploadPath | backend/src/modules/storage/storage.service.ts:20-31 | As written: for an object stored under `path/…`, the key `deleteFile` derives from its URL is not the key `uploadFile` stored. |
| StorageService.ObjectKeyRoundTrip | backend/src/modules/storage/storage.service.ts:17-38 | The corrected key extraction (everything after the host) recovers any key from its object URL. |
| StorageService.ObjectKeyFindsUploadKey | backend/src/modules/storage/storage.service.ts:17-38 | The corrected extraction yields exactly the key `uploadFile` stored, `path/timestamp-name`. |
| RestaurantService.FindOne | backend/src/modules/restaurant/restaurant.service.ts:40-55 | The query fails exactly when the id is not a uuid. NotFound exactly when no restaurant has the id. Unauthorized exactly when it exists and the actor is neither owner nor admin. Otherwise the stored row. |
| RestaurantService.FindOneOwnerOrAdmin | backend/src/modules/restaurant/restaurant.service.ts:50-52 | In a table keyed by uuids, an admin passes the guard for every existing restaurant. Anyone else passes exactly for their own. |
| RestaurantService.FindAll | backend/src/modules/restaurant/restaurant.service.ts:33-38 | The listing holds exactly the rows whose `userId` is the actor's id. |
| RestaurantService.FindAllWithinFindOne | backend/src/modules/restaurant/restaurant.service.ts:33-55 | Every listed restaurant passes `findOne`. The listing has no admin bypass: other users' restaurants are never listed, even for an admin. |
| RestaurantService.Create | backend/src/modules/restaurant/restaurant.service.ts:17-31 | The upload is attempted exactly when a logo is given, and a failed upload stores nothing. The new row belongs to the actor, has the `free` status, and has `logoUrl` set only from a successful upload. The insert fails when the actor's id is not a uuid, and on the foreign key when the actor has no user row. |
| RestaurantService.Assign | backend/src/modules/restaurant/restaurant.service.ts:74 | `Object.assign` overwrites the fields the dto carries, and every other field keeps its value. |
| RestaurantService.Update | backend/src/modules/restaurant/restaurant.service.ts:57-76 | Guard errors change nothing. The old logo is deleted exactly when a new logo is given and the old `logoUrl` is truthy. The update succeeds exactly when the guard passes, an attempted delete succeeds and an attempted upload succeeds. Any later failure is a storage error, and nothing is saved. On success the row is the assigned dto over the old row, with `logoUrl` the upload's location. |
| RestaurantService.Remove | backend/src/modules/restaurant/restaurant.service.ts:78-86 | The guard runs before any deletion, and its errors change nothing. A truthy logo is deleted from storage first, and a failed delete keeps every row. On success the restaurant, its menus, their categories and items, and its analytics rows are gone. Every other row survives unchanged, and the users table is untouched. |
| RestaurantService.FindByStripeCustomerId | backend/src/modules/restaurant/restaurant.service.ts:88-93 | The result is a stored restaurant with that customer id, or null exactly when none has it. There is no ownership check. |
| RestaurantService.Save | backend/src/modules/restaurant/restaurant.service.ts:95-97 | Writes the row under its id. It fails exactly when the id is not a uuid or the owner has no user row: a database error for a non-uuid id, a foreign key violation otherwise. |
| MenuService.FindMenu | backend/src/modules/menu/menu.service.ts:75-87 | The query fails on an id that is not a uuid. NotFound for an unknown menu. Otherwise the lookup succeeds exactly when `findOne` accepts the owning restaurant, and fails with its error. |
| MenuService.FindCategory | backend/src/modules/menu/menu.service.ts:89-101 | The query fails on an id that is not a uuid. NotFound for an unknown category. Otherwise the lookup succeeds exactly when `findOne` accepts the restaurant of the category's menu. |
| MenuService.LookupsFollowOwnership | backend/src/modules/menu/menu.service.ts:75-101 | On a consistent database both lookups succeed exactly when the row exists and the actor owns the ancestor restaurant or is an admin. |
| MenuService.LastOrder | backend/src/modules/menu/menu.service.ts:37-41 | The row fetched with `order DESC` carries the largest sibling order, and there is none exactly when there are no siblings. |
| MenuService.AssignedOrderAppends | backend/src/modules/menu/menu.service.ts:37-45 | An explicit order, including 0, is kept verbatim. Without one, the new order exceeds every sibling's and is the maximum plus 1, or 1 when there are no siblings. When the siblings' orders fit the INTEGER column, the appended order fits it exactly when no sibling has the largest INTEGER. |
| MenuService.CategoryOrders | backend/src/modules/menu/menu.service.ts:38-41 | The sibling set is exactly the orders of the categories of that menu. |
| MenuService.ItemOrders | backend/src/modules/menu/menu.service.ts:53-56 | The sibling set is exactly the orders of the items of that category. |
| MenuService.CreateMenu | backend/src/modules/menu/menu.service.ts:27-32 | Nothing is persisted unless `findOne` accepts the restaurant. On success, exactly one new active menu is added. |
| MenuService.CreateCategory | backend/src/modules/menu/menu.service.ts:34-48 | Nothing is persisted unless `findMenu` succeeds. The insert then succeeds exactly when the order from the append rule is a whole number the INTEGER column holds, and otherwise fails with a database error. On success, one category with that order is added. |
| MenuService.CreateItem | backend/src/modules/menu/menu.service.ts:50-73 | The category is authorized before the upload. The upload is called exactly when the guard passes and an image is given, and a failed upload stores nothing. The insert after a successful upload fails with a database error when the order does not fit INTEGER or the price does not fit DECIMAL(10,2). On success the order follows the append rule and availability defaults to true. The stored price is rounded to cents, and the returned item keeps the price given. |
| MenuService.ItemOrdersFrame | backend/src/modules/menu/menu.service.ts:103-111 | A reorder keeps every row and changes only `order`. An item no accepted entry names is untouched. |
| MenuService.ItemOrdersEffect | backend/src/modules/menu/menu.service.ts:103-111 | With distinct ids, an item an accepted entry names takes that entry's order. |
| MenuService.CategoryOrdersFrame | backend/src/modules/menu/menu.service.ts:113-121 | The same frame for categories. |
| MenuService.CategoryOrdersEffect | backend/src/modules/menu/menu.service.ts:113-121 | The same effect for categories. |
| MenuService.UpdateItemOrder | backend/src/modules/menu/menu.service.ts:103-111 | The category guard runs once, and a refused request changes nothing. Otherwise every entry the database accepts (uuid id, INTEGER order) is applied in turn. The request succeeds exactly when the guard passes and every entry is accepted, and otherwise fails with a database error. |
| MenuService.UpdateCategoryOrder | backend/src/modules/menu/menu.service.ts:113-121 | The same for the menu guard and the categories table. |
| MenuService.ItemReorderEscapesCategory | backend/src/modules/menu/menu.service.ts:103-111 | As written: a request authorized for one category changes the order of an item in another category. |
| MenuService.CategoryReorderEscapesMenu | backend/src/modules/menu/menu.service.ts:113-121 | As written: a request authorized for one menu changes the order of a category in another menu. |
| MenuService.ScopedItemOrdersStayInCategory | backend/src/modules/menu/menu.service.ts:103-111 | The corrected reorder keeps every item. It leaves every item outside the authorized category as it was, and changes only `order` inside it. |
| MenuService.ScopedItemOrdersAgree | backend/src/modules/menu/menu.service.ts:103-111 | When every entry names an item of the authorized category, the corrected reorder gives the same table as the code. |
| MenuService.ScopedCategoryOrdersStayInMenu | backend/src/modules/menu/menu.service.ts:113-121 | The same for categories outside the authorized menu. |
| MenuService.ScopedCategoryOrdersAgree | backend/src/modules/menu/menu.service.ts:113-121 | When every entry names a category of the authorized menu, the corrected reorder gives the same table as the code. |
| MenuService.DeleteItem | backend/src/modules/menu/menu.service.ts:123-140 | The query fails on an id that is not a uuid. NotFound for an unknown item. The guard runs on the restaurant the item's category and menu lead to. A truthy image URL is deleted before the row, and a failed delete keeps the row. On success exactly that item is gone. |
| SubscriptionService.Cancelled | backend/src/modules/subscription/subscription.service.ts:182-186 | The row goes back to the `free` plan with an empty (not null) subscription id, and no other field changes. |
| SubscriptionService.ApplyEvent | backend/src/modules/subscription/subscription.service.ts:104-159 | `created` and `updated` copy the subscription's id and status. `deleted` cancels. A successful payment sets `active` and a failed one sets `past_due`. Any other event type changes nothing. No event touches a field other than the two subscription fields. |
| SubscriptionService.EventsAreIdempotent | backend/src/modules/subscription/subscription.service.ts:104-159 | Redelivering an event has no further effect. Payment events keep the subscription id. Deletion leaves a falsy id. |
| SubscriptionService.EventsOnlyTouchSubscription | backend/src/modules/subscription/subscription.service.ts:104-186 | Over any sequence of events only the two subscription fields change, and a trailing deletion leaves the cancelled state. |
| SubscriptionService.HandleWebhook | backend/src/modules/subscription/subscription.service.ts:90-160 | A bad signature is an error before any change. Otherwise the answer is `{received: true}`. An unhandled type, or a customer no restaurant has, changes nothing. A handled event whose customer some restaurant has updates exactly one such restaurant with `ApplyEvent`. |
| SubscriptionService.CancelSubscription | backend/src/modules/subscription/subscription.service.ts:73-88 | The guard runs first. NotFound when the subscription id is falsy. On success the restaurant is cancelled and the message is returned. Every error changes nothing. |
| SubscriptionService.UpdateRestaurantSubscription | backend/src/modules/subscription/subscription.service.ts:182-186 | Saves the cancelled row, failing as `save` does. |
| SubscriptionService.CancelIsFinal | backend/src/modules/subscription/subscription.service.ts:79-85 | After a cancellation the id is falsy, so a second cancellation is refused. Cancelling is idempotent. |
| SubscriptionService.HandleSubscription | backend/src/modules/subscription/subscription.service.ts:172-180 | Returns the subscription's id. The client secret is kept exactly when the payment intent has a truthy one, and is null otherwise. |
| SubscriptionService.CustomerIsReused | backend/src/modules/subscription/subscription.service.ts:44-59 | Once a non-empty customer id is stored, later subscriptions reuse it and no fresh id replaces it. |
| SubscriptionService.CreateSubscription | backend/src/modules/subscription/subscription.service.ts:28-71 | The guard runs first. A failed customer retrieval or creation is an error that stores nothing. A truthy stored customer id is reused. Otherwise the new customer id is stored on the restaurant, once, before the subscription is created, and stays when that creation fails. The answer is `handleSubscription` of what Stripe created. |
| SubscriptionService.HandlePrice | backend/src/modules/subscription/subscription.service.ts:188-194 | Price 0 exactly when `unit_amount` is absent or 0, and otherwise the amount divided by 100. The interval is `month` unless a truthy recurring interval is given, so it is never empty. The currency is copied. |
| AuthService.FindUserByEmail | backend/src/modules/auth/auth.service.ts:19-21 | Returns a stored user with that e-mail, or null exactly when no user has it. |
| AuthService.RegisterAddsUniqueUser | backend/src/modules/auth/auth.service.ts:19-33 | Adding a user with an unused e-mail keeps e-mails unique, and the e-mail is then taken. |
| AuthService.RegisteredUserAuthenticates | backend/src/modules/auth/auth.service.ts:27-57 | After registration, a password that matches its own hash passes the checks `login` makes. |
| AuthService.Register | backend/src/modules/auth/auth.service.ts:18-42 | Conflict exactly when the e-mail is taken, and then no user is added. Otherwise one user is added with `hash(password)` and the default role, and the token is signed over its id, e-mail and role. |
| AuthService.Login | backend/src/modules/auth/auth.service.ts:44-66 | Every failure is the same `Invalid credentials` error, whether the e-mail is unknown or the password does not match. Login succeeds exactly when the credentials authenticate. The token carries the stored user's claims. |
| AuthService.ValidateUser | backend/src/modules/auth/auth.service.ts:68-79 | The query fails exactly when the id is not a uuid. Unauthorized exactly for an unknown uuid. Otherwise the stored user's id, e-mail, name and role, without the password. It is read-only. |
| AuthService.ValidatedActorOwns | backend/src/modules/auth/auth.service.ts:68-79 | The actor `validateUser` yields passes a restaurant's guard exactly when that user owns it or is an admin. |
| Reorder.RemoveAt | frontend/src/components/Menu/MenuOrganizer.tsx:73-74 | `splice(i, 1)` removes exactly the element at `i`, shifting the rest left. |
| Reorder.InsertAt | frontend/src/components/Menu/MenuOrganizer.tsx:75 | `splice(i, 0, x)` puts `x` at `i`, or at the end when `i` is past it, and shifts the rest right. |
| Reorder.MoveIsPermutation | frontend/src/components/Menu/MenuOrganizer.tsx:73-75 | A move has the same length and multiset and puts the moved element at the destination. The others keep their relative order. Dropping where the drag started changes nothing, and moving back undoes it. |
| Reorder.InsertIsExtension | frontend/src/components/Menu/MenuOrganizer.tsx:106-113 | Inserting into another list adds exactly one element, and taking it out again gives the list back. |
| Reorder.RenumberCategories | frontend/src/components/Menu/MenuOrganizer.tsx:79-82 | Every category's order becomes its position, and all other fields are copied. |
| Reorder.RenumberItems | frontend/src/components/Menu/MenuOrganizer.tsx:101-104 | Every item's order becomes its position, and all other fields are copied. |
| Reorder.RenumberItemsInto | frontend/src/components/Menu/MenuOrganizer.tsx:114-118 | As above, and every item is also stamped with the destination category. |
| Reorder.CategoryIdsFollowMove | frontend/src/components/Menu/MenuOrganizer.tsx:73-82 | Renumbering keeps the ids in place, and the ids move exactly as the categories do. |
| Reorder.CategoryDragPermutes | frontend/src/components/Menu/MenuOrganizer.tsx:72-83 | A category drag submits a permutation of the menu's category ids of the same length, with the dragged category at the drop position. A drop where the drag started submits the original list, only renumbered. |
| Reorder.ItemDragPermutes | frontend/src/components/Menu/MenuOrganizer.tsx:94-105 | The same for a drag within one category's items. |
| Reorder.FindById | frontend/src/components/Menu/MenuOrganizer.tsx:84-92 | `find` returns the first category with that id, or undefined exactly when none has it. |
| MenuOrganizer.HandleDragEnd | frontend/src/components/Menu/MenuOrganizer.tsx:67-122 | No destination, an unknown drag type or an unknown category gives no mutation. Otherwise it submits the renumbered move of the category list, the renumbered move within one category, or the destination's items with the moved one inserted. |
| MenuOrganizer.CrossCategoryDragInserts | frontend/src/components/Menu/MenuOrganizer.tsx:106-119 | A cross-category drag submits one item more than the destination holds, all stamped with the destination id. The ids are the destination's plus the moved one, and the moved item sits at the drop position. The source's remaining items are not resubmitted. |
| MenuOrganizer.Toggled | frontend/src/components/Menu/MenuOrganizer.tsx:57-65 | Flips the membership of exactly the given id. |
| MenuOrganizer.ToggleTwice | frontend/src/components/Menu/MenuOrganizer.tsx:57-65 | Toggling twice restores the set. |
| MenuOrganizer.OrganizerState.constructor | frontend/src/components/Menu/MenuOrganizer.tsx:27-29 | Every category of the menu starts expanded. |
| MenuOrganizer.OrganizerState.ToggleCategory | frontend/src/components/Menu/MenuOrganizer.tsx:57-65 | The new set is the old one with the id toggled. |
| MenuBuilder.HandleDragEnd | frontend/src/components/Menu/MenuBuilder.tsx:50-94 | No destination or an unknown category gives no mutation. A drag from `categories` submits the renumbered move. A drag within a category submits its renumbered move. A cross-category drag submits the destination's items with the moved item inserted and renumbered. |
| MenuBuilder.MovedIntoCategoryKeepsOthers | frontend/src/components/Menu/MenuBuilder.tsx:81-90 | In a cross-category drag only the moved item's `categoryId` is rewritten. The other destination items are copied except for their order, and the list is one longer. |
| RegisterPage.Utf16Length | frontend/src/pages/register.tsx:25 | JavaScript's `length` counts UTF-16 code units: at least one and at most two per character. |
| RegisterPage.PasswordChecks | frontend/src/pages/register.tsx:20-28 | The checks pass exactly when the passwords match and are at least 6 long. A mismatch is reported first, even for a short password. |
| RegisterPage.FailureMessage | frontend/src/pages/register.tsx:35-36 | The error's message when truthy, else the fallback text. Never empty. |
| RegisterPage.RegisterForm.HandleSubmit | frontend/src/pages/register.tsx:17-40 | A failed check shows its error and does not call `signUp`. Otherwise `signUp` is called once, with `isLoading` true while it runs and false afterwards. Success toasts and routes to the dashboard. Failure toasts the error's message. |

## Left out

- Controllers, guards, modules and decorators only route HTTP requests to
  the services. They are not part of this model.
- The frontend HTTP wrappers are not modelled. Their routes and payloads
  do not match the backend.
- TypeORM relations, eager loading and timestamp columns are not modelled.
  Neither are the analytics event payload and the one-off migrations
  (renaming the user name column, adding `stripe_customer_id`).
  `stripeCustomerId` is a column of the restaurant row from the start.
- The user entity and `RegisterDto` are not part of this model. A user is
  taken to have an id, e-mail, password, name and role.
- Bcrypt hashing and comparison, JWT signing, uuid generation, `Date.now()`
  and every S3 and Stripe call are parameters. The model takes their
  replies as given: it models how the code reacts to each reply, not how
  the other system produces it.
- Other database failures (lost connections, the race between two
  registrations with the same e-mail) are not modelled.
- RestaurantService.FindOne: only the lower-case, hyphenated uuid text the
  database writes counts as a uuid. PostgreSQL also accepts upper-case
  digits, braces and hyphen-free forms, which the model reports as a
  database error instead of looking them up.
- MenuService.FindMenu: the same restriction to lower-case, hyphenated uuid
  text.
- MenuService.FindCategory: the same restriction to lower-case, hyphenated
  uuid text.
- MenuService.DeleteItem: the same restriction to lower-case, hyphenated
  uuid text.
- AuthService.ValidateUser: the same restriction to lower-case, hyphenated
  uuid text.
- MenuService.UpdateItemOrder: the same restriction for entry ids. Request bodies that
  are not arrays, and entries whose `order` is missing or not a number, are
  not modelled: every entry has an id and a number.
- MenuService.UpdateCategoryOrder: the same restriction and the same
  request shape as UpdateItemOrder.
- MenuService.CreateItem: JavaScript numbers are binary floating point, and the model
  uses exact reals. The rounding to cents is exact here.
- `getSubscriptionPlans` and the Stripe price list are not modelled.
- HandlePrice: the division `unit_amount / 100` is exact here. The
  floating-point rounding of the source is not modelled.
- SubscriptionService.HandleSubscription: `latest_invoice` is always
  present in the model. Stripe expands it on creation, and the code does not
  guard it.
- UpdateItemOrder and UpdateCategoryOrder: the source issues the per-entry
  updates concurrently (`Promise.all`). The model applies them one after
  another; a refused entry fails alone while the others still apply, and
  the request then fails. Which error the client sees first is not
  modelled. With duplicate ids the real outcome is a race, so
  ItemOrdersEffect and CategoryOrdersEffect promise each entry's order only
  for distinct ids.
- The category and menu deletion endpoints have no backend code. Only the
  cascade rules of the schema are modelled for them.
- Item image blobs stay in storage when their rows go through a cascade
  (restaurant, menu or category deletion). This is how the code behaves.
- Remove and Update do not roll back a storage deletion when a later step
  fails. A failed upload after a deleted logo leaves the row pointing at the
  deleted logo; the model reports which URL was deleted.
- MenuOrganizer.HandleDragEnd and MenuBuilder.HandleDragEnd require that
  the source index names an element of the list it was dragged from. The
  drag-and-drop library promises this.
- MenuBuilder.HandleDragEnd: the client-side `menu` is taken to be loaded.
  The source's behaviour while it is still undefined is not modelled.
- Toasts, the router and the `signUp` calls of the registration page are
  recorded as fields of `RegisterForm`. No rendering is modelled.
- StorageService.ObjectKey assumes a virtual-hosted object URL
  (`https://host/key`) with the key not percent-encoded. Path-style URLs are
  not modelled.
- Rendering, dialogs, forms, QR codes, the authentication context and the
  login page are not modelled.

## Findings

| source | as written | input that shows it | evidently intended | confidence | as-written member | corrected member |
|---|---|---|---|---|---|---|
| backend/src/modules/storage/storage.service.ts:20-31 | `deleteFile` keeps only the text after the last `/` of the URL. `uploadFile` stored the object under `path/timestamp-name`. | An item image uploaded under `menu-items/171-a.png` is deleted with key `171-a.png`, which names no object. The blob stays. | Delete the key the object was stored under: the URL's path after the host. | not executed | StorageService.DeleteKeyDropsUploadPath | StorageService.ObjectKeyFindsUploadKey |
| backend/src/modules/menu/menu.service.ts:103-111 | `updateItemOrder` authorizes the category in the request, then updates every listed id. | A user authorized for category `c1` lists an item of category `c2` with order 7, and that item's order becomes 7. | Change only items of the authorized category. | not executed | MenuService.ItemReorderEscapesCategory | MenuService.ScopedItemOrdersStayInCategory |
| backend/src/modules/menu/menu.service.ts:113-121 | `updateCategoryOrder` authorizes the menu in the request, then updates every listed id. | A user authorized for menu `m1` lists a category of menu `m2` with order 7, and that category's order becomes 7. | Change only categories of the authorized menu. | not executed | MenuService.CategoryReorderEscapesMenu | MenuService.ScopedCategoryOrdersStayInMenu |

`UpdateItemOrder` and `UpdateCategoryOrder` model the code as written. The
scoped functions are the corrected reorders.
