# Cart service: carts, their lines and catalog reconciliation

This project models the core of a shopping-cart microservice. Carts are
stored as documents in a "carts" collection of an embedded document
store. Each cart has an id, an optional owner, an optional creation time
and a list of lines. Each line is a product id, name, image, quantity and
price.

The model covers four parts:

- **The repositories.** Lookup by id, and a save that inserts or replaces
  by id. The newer repository (under `src/`) adds two catalog
  reconciliations, each a full scan of the collection:
  - A product update refreshes the name and price of every line carrying
    the product.
  - A product deletion drops those lines.

  The older repository at the repository root has the same lookup and
  save, and a product update whose name guard applies an empty name.
- **The cart DTO.** A mutable record whose total is recomputed from its
  lines.
- **The cart business layer.** It adds a line to a cart and removes the
  first line of a product.
- **The event facade.** It takes one broker message and dispatches on its
  event type to the deletion, the update or a category acknowledgement.

The collection is a class `CartStore.CartCollection`. Its field `docs` holds
the carts in enumeration order, and its ids are distinct. Every repository
method that writes is proved against a pure store transition:

- `Upserted` for a save.
- `UpdateEffect` for the update, parameterised by the name rule of each
  repository version.
- `RemoveEffect` for the deletion.

The properties the service relies on are proved about those functions:

- The returned count is the number of carts that actually changed.
- A second identical event changes nothing.
- After a deletion no cart holds the product.
- Empty payloads are no-ops.
- Totals behave as sums.

Other modelling choices:

- Decimal values are exact `real`s.
- Guids are naturals, and `0` is the empty Guid.
- Times are integers.
- The current time that `SaveCart` reads is a parameter `now`.
- Exceptions (`NotFoundException`) are the `Failure` case of a `Result`.

## Model

| member | source | states |
|---|---|---|
| CartStore.IndexOfId | src/CartService.DAL/Classes/CartRepository.cs:20 | the position found holds the id and no earlier position does; none is found exactly when no stored cart has the id |
| CartStore.IndexOfStored | src/CartService.DAL/Classes/CartRepository.cs:150 | with distinct ids, the cart at a position is the one found by its own id |
| CartStore.IndexOfSamePattern | src/CartService.DAL/Classes/CartRepository.cs:150 | replacing a document by one with the same id does not move any id lookup |
| CartStore.IndexOfAppend | src/CartService.DAL/Classes/CartRepository.cs:67 | appending a document with another id does not change where an id is found |
| CartStore.FindIn | src/CartService.DAL/Classes/CartRepository.cs:27-32 | `FindById` returns a stored cart with the requested id, and nothing exactly when no stored cart has it |
| CartStore.Upserted | src/CartService.DAL/Classes/CartRepository.cs:66-67 | after an upsert the cart is what its id finds, every other id finds what it found before, ids stay distinct, an id already stored keeps its position and only that position is replaced, the length is unchanged, and a new id is appended at the end |
| CartStore.UpsertStored | src/CartService.DAL/Classes/CartRepository.cs:113 | upserting a cart read from position i replaces position i and nothing else |
| CartStore.DiffCount | src/CartService.DAL/Classes/CartRepository.cs:113-114 | the number of positions whose cart differs is at most the number of carts, and is zero exactly when nothing changed |
| CartStore.CartCollection.constructor | tests/CartService.Testing/UnitTesting/CartRepositoryTests.cs:17-22 | a new collection is empty and keeps ids distinct |
| CartStore.StoredForm | src/CartService.DAL/Classes/CartRepository.cs:52-64 | the saved document keeps the cart's id and lines, carries no owner, and always has a creation time: the cart's own when it has one, otherwise the save time |
| CartStore.CartCollection.FindAll | src/CartService.DAL/Classes/CartRepository.cs:89 | lists every stored cart, no more and no fewer, with distinct ids while the collection is valid |
| CartStore.CartCollection.FindById | src/CartService.DAL/Classes/CartRepository.cs:20 | finds a stored cart with that id, and finds nothing exactly when no stored cart has it |
| CartStore.CartCollection.Upsert | src/CartService.DAL/Classes/CartRepository.cs:67 | the collection becomes the upserted sequence and keeps ids distinct |
| ProductRefresh.NameApplies | src/CartService.DAL/Classes/CartRepository.cs:124 | a new name is written only when one is given and differs from the line's; writing the name a line already has never applies; with a non-empty name both repository versions apply it exactly when it differs (the root version's null-only test is at CartService.DAL/Classes/CartRepository.cs:96) |
| ProductRefresh.PriceApplies | src/CartService.DAL/Classes/CartRepository.cs:130 | a price is written only when one is given, and never when it equals the line's price |
| ProductRefresh.RefreshItem | src/CartService.DAL/Classes/CartRepository.cs:120-137 | product id, quantity and image are kept; the name changes exactly when the guard applies and then equals the new name; likewise the price; afterwards neither guard applies |
| ProductRefresh.RefreshItems | src/CartService.DAL/Classes/CartRepository.cs:98-106 | same number of lines; lines of other products are unchanged; product ids, quantities and images are kept |
| ProductRefresh.LinesChangeIffStale | src/CartService.DAL/Classes/CartRepository.cs:96-111 | a cart's lines change exactly when some line of the product has a guard that applies |
| ProductRefresh.RefreshCart | src/CartService.DAL/Classes/CartRepository.cs:91-111 | id, owner and creation time are kept, and the cart changes exactly when it is stale |
| ProductRefresh.RefreshAll | src/CartService.DAL/Classes/CartRepository.cs:89-115 | the same carts in the same order with the same ids, and every cart that is not stale is left as it was |
| ProductRefresh.CountStale | src/CartService.DAL/Classes/CartRepository.cs:114 | the count of stale carts is at most the number of carts |
| ProductRefresh.UpdateEffect | src/CartService.DAL/Classes/CartRepository.cs:84-118 | an update keeps the number of carts and returns exactly the number of carts it changed |
| ProductRefresh.RefreshAllPrefix | src/CartService.DAL/Classes/CartRepository.cs:89 | refreshing a prefix agrees with the prefix of refreshing the whole |
| ProductRefresh.RefreshStep | src/CartService.DAL/Classes/CartRepository.cs:89-115 | one more loop step refreshes one more cart and adds one to the count exactly when that cart was stale |
| ProductRefresh.UpdateStep | src/CartService.DAL/Classes/CartRepository.cs:89-115 | with the carts before position i refreshed, upserting cart i exactly when it changed refreshes one more cart, and the count grows by one exactly then |
| ProductRefresh.CountIsCartsChanged | src/CartService.DAL/Classes/CartRepository.cs:108-117 | the count returned by the update equals the number of carts whose stored contents differ afterwards |
| ProductRefresh.NothingStaleAfterRefresh | src/CartService.DAL/Classes/CartRepository.cs:124-134 | after an update no cart is stale for the same update |
| ProductRefresh.RefreshedCartNotStale | src/CartService.DAL/Classes/CartRepository.cs:124-134 | a refreshed cart is not stale for the same update |
| ProductRefresh.UpdateIdempotent | src/CartService.DAL/Classes/CartRepository.cs:84-118 | applying the same update twice: the second leaves the carts as the first left them and reports 0 |
| ProductRefresh.NoFieldsNoChange | src/CartService.DAL/Classes/CartRepository.cs:124-134 | an update with neither name nor price changes nothing and reports 0 |
| ProductRefresh.RulesAgreeOnNonEmptyName | CartService.DAL/Classes/CartRepository.cs:96-105 | both repository versions give the same result when the new name is absent or non-empty |
| ProductRefresh.EmptyNameRule | CartService.DAL/Classes/CartRepository.cs:96-100 | on an empty new name the root version renames a line to "" while the `src/` version keeps its name |
| ProductRemoval.Without | src/CartService.DAL/Classes/CartRepository.cs:147 | a line is kept exactly when it was there and is not of the product; the length is unchanged exactly when the product was absent, and then the lines are unchanged |
| ProductRemoval.WithoutConcat | src/CartService.DAL/Classes/CartRepository.cs:147 | the kept lines keep their relative order |
| ProductRemoval.PurgeCart | src/CartService.DAL/Classes/CartRepository.cs:146-148 | id, owner and creation time are kept, the product is gone, and the cart changes exactly when it held the product |
| ProductRemoval.PurgeAll | src/CartService.DAL/Classes/CartRepository.cs:144-153 | the same carts in the same order with the same ids, none holding the product, and carts without it are unchanged (an emptied cart stays stored) |
| ProductRemoval.CountContaining | src/CartService.DAL/Classes/CartRepository.cs:148-151 | the number of carts holding the product is at most the number of carts |
| ProductRemoval.RemoveEffect | src/CartService.DAL/Classes/CartRepository.cs:139-156 | a removal keeps the number of carts and returns exactly the number of carts it changed |
| ProductRemoval.RemoveStep | src/CartService.DAL/Classes/CartRepository.cs:144-153 | with the carts before position i purged, upserting cart i exactly when it held the product purges one more cart, and the count grows by one exactly then |
| ProductRemoval.CountIsCartsChanged | src/CartService.DAL/Classes/CartRepository.cs:148-155 | the count returned by the removal equals the number of carts whose stored contents differ afterwards |
| ProductRemoval.NoneContainingAfterPurge | src/CartService.DAL/Classes/CartRepository.cs:147 | after a removal no cart holds the product |
| ProductRemoval.RemoveIdempotent | src/CartService.DAL/Classes/CartRepository.cs:139-156 | applying the same removal twice: the second leaves the carts as they were and reports 0 |
| CartDtos.TotalOf | src/CartService.Transversal/Classes/DTOs/CartDTO.cs:9 | no lines total zero, and lines with non-negative prices and quantities never total below zero |
| CartDtos.TotalAppend | src/CartService.Transversal/Classes/DTOs/CartDTO.cs:9 | appending a line raises the total by that line's price times quantity |
| CartDtos.TotalRemoveAt | src/CartService.Transversal/Classes/DTOs/CartDTO.cs:9 | removing a line lowers the total by exactly that line's amount |
| CartDtos.PermutationTail | src/CartService.Transversal/Classes/DTOs/CartDTO.cs:9 | in a reordering of the lines, dropping the first line leaves a reordering of the rest, and the total splits off that line's amount |
| CartDtos.TotalPermutation | src/CartService.Transversal/Classes/DTOs/CartDTO.cs:9 | the total does not depend on the order of the lines |
| CartDtos.TotalOnlyPricesAndQuantities | src/CartService.Transversal/Classes/DTOs/CartDTO.cs:9 | two line lists with the same prices and quantities have the same total |
| CartDtos.NameOnlyUpdateKeepsTotal | src/CartService.DAL/Classes/CartRepository.cs:124-128 | a product update without a price leaves every cart's total unchanged |
| CartDtos.ThreeLinesTotal | CartService.Testing/UnitTesting/CartServiceBLTests.cs:88-110 | lines 5 x 2, 3 x 4 and 2 x 5 total 32 |
| CartDtos.CartDto.constructor | CartService.Transversal/Classes/DTOs/CartDTO.cs:9-10 | a new DTO has no lines, no owner, no creation time, the empty id, and a total of 0 |
| CartDtos.CartDto.Of | src/CartService.DAL/Classes/CartRepository.cs:34-46 | the DTO built from a stored cart carries its id, creation time and lines, and no owner |
| CartDtos.CartDto.Total | CartService.Transversal/Classes/DTOs/CartDTO.cs:10 | a DTO with no lines totals zero, and one whose lines have non-negative prices and quantities never totals below zero |
| CartDtos.CartDto.Build | src/CartService.Transversal/Classes/DTOs/CartDTO.cs:11-14 | sets the id and leaves every other field unchanged |
| CartRepository.CartRepository.constructor | src/CartService.DAL/Classes/CartRepository.cs:13-16 | the repository works on the given collection |
| CartRepository.CartRepository.CartExists | src/CartService.DAL/Classes/CartRepository.cs:18-23 | true exactly when some stored cart has the id |
| CartRepository.CartRepository.GetCartById | src/CartService.DAL/Classes/CartRepository.cs:25-48 | NotFound("Cart", id) when the id is absent; otherwise a fresh DTO with the stored id, creation time and lines, and no owner |
| CartRepository.CartRepository.SaveCart | src/CartService.DAL/Classes/CartRepository.cs:50-82 | the collection becomes the upsert of the stored form: id and lines copied, creation time defaulted to now, owner dropped; returns a fresh DTO of what was stored |
| CartRepository.CartRepository.UpdateItemFields | src/CartService.DAL/Classes/CartRepository.cs:120-137 | the line becomes the refreshed line under the non-null-non-empty name rule, and the flag is true exactly when the line changed |
| CartRepository.CartRepository.RefreshLines | src/CartService.DAL/Classes/CartRepository.cs:96-106 | the inner scan yields the refreshed lines, and its flag is true exactly when the lines changed |
| CartRepository.CartRepository.UpdateProductInfo | src/CartService.DAL/Classes/CartRepository.cs:84-118 | the new collection and the returned count are the update effect on the old collection (non-empty name rule), and the count equals the number of carts that changed |
| CartRepository.CartRepository.RemoveProduct | src/CartService.DAL/Classes/CartRepository.cs:139-156 | the new collection and the returned count are the removal effect on the old collection, and the count equals the number of carts that changed |
| LegacyCartRepository.CartRepository.constructor | CartService.DAL/Classes/CartRepository.cs:13-16 | the repository works on the given collection |
| LegacyCartRepository.CartRepository.CartExists | CartService.DAL/Classes/CartRepository.cs:18-23 | true exactly when some stored cart has the id |
| LegacyCartRepository.CartRepository.GetCartById | CartService.DAL/Classes/CartRepository.cs:25-48 | NotFound("Cart", id) when absent; otherwise a fresh DTO with the stored id, creation time and lines, and no owner |
| LegacyCartRepository.CartRepository.SaveCart | CartService.DAL/Classes/CartRepository.cs:50-82 | the collection becomes the upsert of the stored form (creation time defaulted to now, owner dropped); returns a fresh DTO of what was stored |
| LegacyCartRepository.CartRepository.RefreshLines | CartService.DAL/Classes/CartRepository.cs:91-107 | the inner scan yields the refreshed lines under the non-null name rule, and its flag is true exactly when the lines changed |
| LegacyCartRepository.CartRepository.UpdateProductInfo | CartService.DAL/Classes/CartRepository.cs:84-116 | the new collection and the returned count are the update effect on the old collection (non-null name rule), and the count equals the number of carts that changed |
| CartServiceBL.FirstMatch | CartService.BLL/Classes/CartServiceBL.cs:37 | the position found holds the product and no earlier line does; none is found exactly when no line holds the product |
| CartServiceBL.RemoveAt | CartService.BLL/Classes/CartServiceBL.cs:42 | removing one line shortens the list by exactly one |
| CartServiceBL.RemoveCopyKeepsOthers | CartService.BLL/Classes/CartServiceBL.cs:37-42 | removing one copy of a product leaves the lines before it and after it exactly as they were, so the lines of other products stay in order, and the remaining lines plus the removed one are the original lines |
| CartServiceBL.RemoveFirstCopyTotal | CartService.BLL/Classes/CartServiceBL.cs:37-42 | removing the first copy lowers the total by exactly that line's amount |
| CartServiceBL.AddKeepsDuplicates | CartService.BLL/Classes/CartServiceBL.cs:21 | adding a product already in the cart leaves two lines of it (no merging) |
| CartServiceBL.CartServiceBL.constructor | CartService.BLL/Classes/CartServiceBL.cs:12-15 | the service works on the given repository |
| CartServiceBL.CartServiceBL.AddItemToCart | CartService.BLL/Classes/CartServiceBL.cs:17-24 | a missing cart is NotFound("Cart", id) and nothing is saved; otherwise the cart is saved once with the new line appended, and the result carries the id, the extended lines, no owner and the creation time that was saved |
| CartServiceBL.CartServiceBL.GetCartById | CartService.BLL/Classes/CartServiceBL.cs:26-31 | a missing cart is NotFound("Cart", id); otherwise a new DTO carries the stored id, creation time and lines and no owner |
| CartServiceBL.CartServiceBL.RemoveItemFromCart | CartService.BLL/Classes/CartServiceBL.cs:33-44 | a missing cart is NotFound("Cart", id) and a missing line is NotFound("CartItem", itemId), each without a save; otherwise the cart is saved once without its first line of the product |
| ProductEventFacade.DeletedOutcome | CartService.API/Infrastructure/RabbitMq/ProductEventFacade.cs:47-55 | a deletion without a product id fails with "productId missing" and changes nothing; with one it succeeds, keeps every cart's id, leaves no cart holding the product and reports exactly the carts changed |
| ProductEventFacade.UpdatedOutcome | CartService.API/Infrastructure/RabbitMq/ProductEventFacade.cs:57-66 | an update whose payload is null fails with "Invalid payload" and changes nothing; otherwise it succeeds, keeps every cart's id and reports exactly the carts changed |
| ProductEventFacade.CategoryOutcome | CartService.API/Infrastructure/RabbitMq/ProductEventFacade.cs:68-77 | a category event never touches the carts and reports zero; it succeeds exactly when its payload is present, else fails with "Invalid payload" |
| ProductEventFacade.Outcome | CartService.API/Infrastructure/RabbitMq/ProductEventFacade.cs:27-45 | the result echoes the envelope's event type; a failure changes no cart, reports 0 and carries an error; a success carries no error; success holds exactly for the three known types with their payload present |
| ProductEventFacade.MissingTypeRejected | CartService.API/Infrastructure/RabbitMq/ProductEventFacade.cs:31-34 | no event type gives "Missing eventType" with no type echoed and no change |
| ProductEventFacade.UnknownTypeRejected | CartService.API/Infrastructure/RabbitMq/ProductEventFacade.cs:41 | an unknown type gives "Unhandled eventType" echoing the type, with no change |
| ProductEventFacade.AffectedIsCartsChanged | CartService.API/Infrastructure/RabbitMq/ProductEventFacade.cs:53-54 | for every message the reported count equals the number of carts whose stored contents changed |
| ProductEventFacade.RedeliveryIdempotent | CartService.API/Infrastructure/RabbitMq/ProductEventFacade.cs:36-42 | processing the same message again changes nothing, gives the same verdict and reports 0 |
| ProductEventFacade.CategoryLeavesCarts | CartService.API/Infrastructure/RabbitMq/ProductEventFacade.cs:68-77 | a category event never changes a cart and reports 0 |
| ProductEventFacade.EmptyUpdateIsNoOp | tests/CartService.Testing/UnitTesting/ProductEventFacadeTests.cs:76-90 | an update payload without name and price succeeds, reports 0 and changes nothing |
| ProductEventFacade.DeletionRemovesProduct | CartService.API/Infrastructure/RabbitMq/ProductEventFacade.cs:47-55 | after a deletion no cart holds the product and every cart keeps its id and position |
| ProductEventFacade.UpdateIgnoresEnvelopeProductId | CartService.API/Infrastructure/RabbitMq/ProductEventFacade.cs:57-66 | an update is driven by its payload's product id; the envelope's product id plays no part |
| ProductEventFacade.ProductEventFacade.constructor | CartService.API/Infrastructure/RabbitMq/ProductEventFacade.cs:21-25 | the facade works on the given repository |
| ProductEventFacade.ProductEventFacade.HandleProductDeleted | CartService.API/Infrastructure/RabbitMq/ProductEventFacade.cs:47-55 | without a product id: "productId missing" and no change; otherwise the carts become the removal effect and the result reports its count |
| ProductEventFacade.ProductEventFacade.HandleProductUpdated | CartService.API/Infrastructure/RabbitMq/ProductEventFacade.cs:57-66 | without a payload: "Invalid payload" and no change; otherwise the carts become the update effect and the result reports its count |
| ProductEventFacade.ProductEventFacade.HandleCategoryUpdated | CartService.API/Infrastructure/RabbitMq/ProductEventFacade.cs:68-77 | without a payload: "Invalid payload"; otherwise success with 0 carts |
| ProductEventFacade.ProductEventFacade.ProcessAsync | CartService.API/Infrastructure/RabbitMq/ProductEventFacade.cs:27-45 | the new carts and the result are exactly the outcome of the message on the old carts |

## Left out

- JSON parsing is not modelled. When deserialising a payload throws (a malformed field, such as a non-numeric `price` in a ProductUpdatedEvent), `ProcessAsync` throws instead of returning a result; the model's outcomes cannot represent that exception.
- Parsing the envelope and deserialising the typed payloads are inputs to the facade. A payload that deserialises to null is `None`. A malformed message is an envelope without an event type.
- The broker listener, acknowledgements, cancellation tokens, logging and asynchrony are left out. The facade is modelled as one synchronous step.
- Dependency-injection wiring, the HTTP controllers and the object mapping profiles are left out. They hold no reconciliation logic.
- `ProductUpdateService` only forwards to the repository, so the facade calls the repository directly. The deletion forwarder (`ApplyProductDeletion`) is not part of this model. It is taken to forward to `RemoveProduct`, which is what the facade's tests expect of it.
- The facade uses the `src/` repository, the only one with `RemoveProduct`. The business layer uses the root repository, which sits in the same tree.
- The order in which the store enumerates documents is not modelled. It is abstracted as the order of `docs`, with a new id appended at the end.
- `categoryId` is accepted by `UpdateProductInfo` and never used, in both versions. The model does the same.
- A null `Items` list on a stored cart cannot be represented, because lines are a sequence. The `src/` update skips empty carts, and the model does too; an empty cart is never stale, so the effect is the same.
- Decimal overflow and precision limits are not modelled, because prices are exact `real`s. The 32-bit range of `Quantity` is not modelled either.
- Validation attributes on request types are not modelled.
- `SaveCart` and `GetCartById` copy no owner (`UserId`), and the model keeps that: a saved cart's owner is `None`.
- CartServiceBL.CartServiceBL.AddItemToCart: the business layer's tests expect a missing cart to be created (they call `CartExists`). The code shown does not do this. It reports NotFound, and the model follows the code.
