# Storefront application state, in Dafny

This project models the application-state layer of a small storefront web front-end.
That layer is the one mutable object holding:

- the product catalog,
- the preview pointer,
- the basket,
- the order being assembled: payment, address, email and phone, a list of item ids and a stored total,
- the form-errors map.

Two versions of that object exist in the repository, and both are modelled:

- `AppState` (src/components/AppState.ts), the current one: the basket refuses a second product with the same id, and removal goes by id.
- `AppData` (src/components/Appdata.ts), an earlier draft:
  - its basket takes duplicates, and removal goes by object identity;
  - its delivery-form check looks only at the address;
  - its catalog wraps every raw entry in a `Product` object that copies the fields.

Each state object is a Dafny `class` whose methods update its fields in place and state, in their `ensures`, the whole new state.
The event bus is outside the model. Each `emitChanges` or `events.emit` appends one `Event(name, payload)` to a `log` field.

Modules:

- `Types`: product entries, order and form-errors map (src/types/index.ts).
- `Lookup`: `indexOf`, `findIndex`/`find` by id, and `splice(i, 1)`, as functions whose contracts pin down the first match and the removed position.
- `Totals`: `getTotal`. The `reduce` is a left fold (`FoldTotal`), proved equal to an independent right-recursive sum (`SumPrices`). Lemmas about that sum cover:
  - appending an id,
  - removing an id,
  - reordering the ids (the total depends only on the multiset of ids),
  - which catalog entry an id's price comes from (the first one with that id).
- `Validation`: the errors maps. A key is present exactly when its field is empty; the map is empty exactly when all checked fields are non-empty.
- `Events`: event names and payloads.
- `AppStateModel`, `AppDataModel`: the two classes, plus a few client methods that run scenarios through them.

Where the design description and the code differ, the model follows the code:

- `getTotal` sums the prices of `order.items`, looked up in the catalog, and not the basket.
- `clearBasket` does not reset the stored `total` (`PricelessScenario` shows the stored total surviving).
- The state object does not reject a product without a price; such a product adds 0 to the total.
- There is no `createOrder` gate in either class.
- AppState's `validateOrder` and `validateContacts` write the same `formErrors` field, so each pass discards the other's errors.

## Model

| member | source | states |
|---|---|---|
| Types.WithFormField | src/components/AppState.ts:122-123 | `order[field] = value` for a delivery-form key changes that field and leaves every other order field as it was |
| Lookup.IndexOf | src/components/AppState.ts:79 | `indexOf`: -1 exactly when the value is absent, otherwise a position holding it with no earlier occurrence |
| Lookup.FindIndexById | src/components/AppState.ts:108 | `findIndex` by id: -1 exactly when no item has the id, otherwise the first position that has it |
| Lookup.FindById | src/components/AppState.ts:59 | `find` by id: nothing exactly when no item has the id, otherwise the first item of the sequence with that id |
| Lookup.RemoveAt | src/components/AppState.ts:81 | `splice(i, 1)`: one element shorter, elements before `i` kept, later ones shifted down by one, multiset loses exactly that element |
| Lookup.AppendAbsentKeepsDistinct | src/components/AppState.ts:99-104 | appending a product whose id is absent keeps basket ids pairwise distinct |
| Lookup.RemoveAtKeepsDistinct | src/components/AppState.ts:107-113 | removing one element keeps basket ids pairwise distinct |
| Lookup.RemoveFoundLeavesNone | src/components/AppState.ts:107-113 | with distinct ids, removing the first match leaves no item with that id |
| Totals.PriceOrZero | src/components/AppState.ts:60 | `product?.price \|\| 0`: a found product with price n gives n, and a positive result comes only from a found product carrying exactly that price |
| Totals.FoldTotal | src/components/AppState.ts:57-62 | the `reduce` from accumulator `acc` equals `acc` plus the reference sum of the item prices |
| Totals.ItemPriceIsFirstMatch | src/components/AppState.ts:59-60 | an id is priced by the first catalog entry with that id, null counting 0 |
| Totals.ItemPriceOfUnknownId | src/components/AppState.ts:59-60 | an id with no catalog entry adds 0 |
| Totals.SumAppend | src/components/AppState.ts:72-75 | the sum over concatenated id lists is the sum of the two sums |
| Totals.SumRemoveAt | src/components/AppState.ts:78-84 | removing the id at a position lowers the sum by exactly that id's price |
| Totals.SumPermutation | src/components/AppState.ts:57-62 | two id lists with the same multiset have the same total |
| Validation.OrderErrors | src/components/AppState.ts:144-158 | keys are exactly `address` if the address is empty and `payment` if the payment is empty; empty iff both set |
| Validation.ContactsErrors | src/components/AppState.ts:161-174 | keys are exactly `email` if empty and `phone` if empty; empty iff both set |
| Validation.AddressErrors | src/components/Appdata.ts:101-111 | keys are at most `address`, present iff the address is empty; empty iff the address is set |
| Validation.OrderErrorsReadOnlyFormFields | src/components/AppState.ts:144-158 | the delivery-form errors depend on address and payment only |
| AppStateModel.AppState.constructor | src/components/AppState.ts:12-27 | empty catalog, preview and basket; payment "card", other order fields empty, total 0; no errors; nothing emitted |
| AppStateModel.AppState.IsBasketEmpty | src/components/AppState.ts:42-44 | true iff the basket is empty |
| AppStateModel.AppState.GetTotal | src/components/AppState.ts:57-62 | equals the sum of the catalog prices of `order.items` and is never negative |
| AppStateModel.AppState.SetTotal | src/components/AppState.ts:51-54 | only `order.total` changes; one `order:totalUpdated` event |
| AppStateModel.AppState.ClearBasket | src/components/AppState.ts:65-69 | basket and `order.items` empty, every other order field (the stored total included) unchanged, computed total 0, one `basket:cleared` event |
| AppStateModel.AppState.AddToOrder | src/components/AppState.ts:72-75 | always appends the id (duplicates allowed), length grows by one, total grows by that id's price, one `order:itemAdded` event |
| AppStateModel.AppState.RemoveFromOrder | src/components/AppState.ts:78-84 | removes exactly the first occurrence and logs `order:itemRemoved`, or changes nothing when absent; total drops by the removed id's price |
| AppStateModel.AppState.SetCatalog | src/components/AppState.ts:87-90 | the catalog becomes the given list; one `catalog:updated` event |
| AppStateModel.AppState.SetPreview | src/components/AppState.ts:93-96 | the preview pointer becomes the product's id; one `preview:updated` event |
| AppStateModel.AppState.AddProductToBasket | src/components/AppState.ts:99-104 | appends and logs `basket:itemAdded` iff no basket item has the id, otherwise no change and no event; ids stay distinct; afterwards the id is present |
| AppStateModel.AppState.RemoveProductFromBasket | src/components/AppState.ts:107-113 | deletes exactly the first item with the id, others kept in order, and logs `basket:itemRemoved`; no-op without event if absent; afterwards no item has the id |
| AppStateModel.AppState.SetOrderPayment | src/components/AppState.ts:116-119 | only `payment` changes; one `order:paymentUpdated` event |
| AppStateModel.AppState.SetOrderField | src/components/AppState.ts:122-128 | writes only the named field, replaces the errors with the delivery-form errors, logs `order:ready` iff address and payment are both set |
| AppStateModel.AppState.SetContactsField | src/components/AppState.ts:131-141 | `phone` or `email` changes only that field, any other name changes no order field; then the contacts errors, and `order:ready` iff email and phone are set |
| AppStateModel.AppState.ValidateOrder | src/components/AppState.ts:144-158 | errors rebuilt from scratch with keys exactly the empty ones of address and payment; returns true iff both are non-empty; one `formErrors:change` event |
| AppStateModel.AppState.ValidateContacts | src/components/AppState.ts:161-174 | the same for email and phone; earlier errors are discarded, not merged |
| AppStateModel.RevalidateIsStable | src/components/AppState.ts:144-158 | two validations with no edit in between give the same answer and the same errors |
| AppStateModel.AddressRoundTrip | src/components/AppState.ts:122-128 | setting the address and then clearing it leaves an address error, the same errors an empty address gives |
| AppStateModel.PricelessScenario | src/components/AppState.ts:57-69 | with catalog [a:100, b:null], adding a gives 100, adding b still 100, clearing gives 0 while the stored total stays 100 |
| AppDataModel.Product.constructor | src/components/Appdata.ts:137-145 | the new product carries exactly the entry's id, title, description, category, image and price |
| AppDataModel.AppData.constructor | src/components/Appdata.ts:12-27 | the same initial state as AppState |
| AppDataModel.AppData.ClearBasket | src/components/Appdata.ts:29-32 | basket and `order.items` empty, other order fields unchanged, computed total 0, no event |
| AppDataModel.AppData.AddToOrder | src/components/Appdata.ts:34-36 | always appends the id; total grows by its price |
| AppDataModel.AppData.RemoveFromOrder | src/components/Appdata.ts:38-43 | removes only the first occurrence, no-op when absent; total drops by the removed id's price |
| AppDataModel.AppData.SetCatalog | src/components/Appdata.ts:45-48 | a catalog of new, pairwise distinct products of the same length, product i carrying exactly the fields of entry i; one `items:changed` event |
| AppDataModel.AppData.SetPreview | src/components/Appdata.ts:50-53 | the preview pointer becomes the product's id; one `preview:changed` event |
| AppDataModel.AppData.AddProductToBasket | src/components/Appdata.ts:55-57 | always appends, even a product already present |
| AppDataModel.AppData.RemoveProductFromBasket | src/components/Appdata.ts:59-64 | removes the first element that is the same object, keeping the rest in order; no-op otherwise |
| AppDataModel.AppData.StatusBasket | src/components/Appdata.ts:66-68 | true iff the basket is empty |
| AppDataModel.AppData.SetTotal | src/components/Appdata.ts:74-76 | only `order.total` changes; no event |
| AppDataModel.AppData.GetTotal | src/components/Appdata.ts:78-83 | equals the sum over `order.items` of the catalog products' prices, missing or null counting 0 |
| AppDataModel.AppData.SetOrderField | src/components/Appdata.ts:85-91 | writes only the named field; address-only errors; `order:ready` iff the address is set |
| AppDataModel.AppData.SetContactsField | src/components/Appdata.ts:93-99 | writes the named delivery-form field (never email or phone); contacts errors; `order:ready` iff email and phone are set |
| AppDataModel.AppData.ValidateOrder | src/components/Appdata.ts:101-111 | errors rebuilt with at most an `address` key; true iff the address is non-empty; payment never checked |
| AppDataModel.AppData.ValidateContacts | src/components/Appdata.ts:113-126 | keys exactly the empty ones of email and phone; true iff both are non-empty |
| AppDataModel.DraftBasketScenario | src/components/Appdata.ts:55-64 | the same product added twice is held twice; an equal copy is not removed; the product itself is removed once |
| AppDataModel.DraftPaymentNotChecked | src/components/Appdata.ts:101-111 | with an empty payment and a set address, the draft's delivery form is valid and has no payment error |

## Left out

- The event bus and the `Model` base class (`./base/events`, `./base/Model`) are not part of this model. Each emit is one entry appended to the `log` field. `emitChanges` is assumed to pass its name and payload through unchanged.
- Listener dispatch (exact names, patterns, catch-all) is left out, because its code is not among the modelled files.
- The constructors' `data` and `events` arguments are left out, because they only reach the `Model` base class.
- `order:ready` carries the live `_order` object in the source. The model logs a snapshot of the order, so later edits seen through that reference are not captured.
- The getters `catalog`, `basket`, `order`, `currentBasket` and `bskt` return the fields themselves. The model reads the fields directly instead.
- `catalog`, `basket` and `currentBasket` hand out the live arrays, and `setCatalog` stores the caller's own array. Mutation through those shared arrays is not modelled: the model's sequences are values. AppState's distinct-ids invariant assumes no caller pushes into the array that `basket` returns.
- Prices are whole non-negative numbers, with `null` as `None`. Fractional, negative and NaN prices, and floating-point addition, are left out.
- `WithFormField`, `SetOrderField`, `AppData.SetContactsField` take only the keys their parameter types declare. JavaScript would accept any string at run time.
- AppState's `setContactsField` branches on the name itself, so it takes any string.
- The error message texts are kept as constants; nothing is proved about them beyond which key carries which one.
- The view components, the API client, `src/index.ts` and the build configuration are not part of this model. They are DOM updates, network calls and bundler settings.
