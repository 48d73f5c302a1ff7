# Weblarek storefront core, in Dafny

A model of the core of the "Weblarek" storefront: a single-page shop where a
buyer browses a catalog, previews a product, fills a basket, and checks out in
two form steps (payment and address, then e-mail and phone). It covers:

- the event broker `EventEmitter` (a `Map` from event names or regular
  expressions to `Set`s of callbacks);
- the two generations of data models: `Models/` (`Catalog`, `Basket`,
  `Customer`) and `model/` (`ItemData`, `BasketData`, `UserData`), plus the
  `UserData` holder in `types/index.ts`;
- the decision logic of the two checkout forms (`OrderFormView`,
  `ContactsFormView`);
- the string helpers of `utils/utils.ts`;
- the `App` presenter, whose event handlers move the models and choose the
  screen the modal shows.

Objects whose fields the source updates in place are classes with `modifies`
clauses. Each setter is proved against the state it promises, and each getter
against the stored fields. The pure computations are functions, with lemmas
relating them to one another:

- the total price of `Models/Basket` against the full price of `model/BasketData`;
- the e-mail regular expression against a plain description of the strings it accepts;
- the phone formatter against the digits of its input;
- `pascalToKebab` against a lower-cased hyphenation.

Events that models emit are logged, in order, in an `emitted` field. `emit`
returns, in order, the list of calls it would make.

## Model

| member | source | states |
|---|---|---|
| Js.IsBlank | src/components/Models/Customer.ts:57-67 | reference definition of `!s.trim()`: every character is JavaScript whitespace (see `Js.TrimEmptyIff`) |
| Js.TrimStart | src/components/Models/Customer.ts:57 | `trim` from the left: the result is a suffix of the input, does not start with whitespace, and only whitespace was dropped |
| Js.TrimEnd | src/components/Models/Customer.ts:57 | `trim` from the right: the result is a prefix of the input, does not end with whitespace, and only whitespace was dropped |
| Js.Trim | src/components/Models/Customer.ts:57 | reference definition of `trim`: `TrimEnd` of `TrimStart` (see `Js.TrimEmptyIff`) |
| Js.TrimEmptyIff | src/components/Models/Customer.ts:57-67 | `s.trim()` is empty exactly when every character of `s` is JavaScript whitespace, which justifies writing `!s.trim()` as `IsBlank(s)` |
| Js.Join | src/components/View/OrderFormView.ts:85-89 | `join(", ")` of no messages is `""` and of one message is that message |
| Js.JoinEmptyIff | src/components/View/OrderFormView.ts:86-88 | the joined text is empty exactly when there are no messages or a single empty one, so the error box is hidden exactly then |
| Js.Utf16Length | src/utils/utils.ts:9 | `length` in UTF-16 code units: at least the number of characters and at most twice it |
| Types.FindById | src/components/Models/Catalog.ts:15-17 | `find` by id: none exactly when no product has the id, otherwise the first product that has it |
| Types.InitialOrder | src/types/index.ts:10-15 | the initial order has empty address, phone and e-mail and a `null` payment |
| Types.Merge | src/types/index.ts:18-20 | a spread merge overwrites exactly the fields present in the patch and keeps the others |
| Types.MergeEmptyIsIdentity | src/types/index.ts:18-20 | merging `{}` changes nothing |
| Types.MergeTwice | src/types/index.ts:18-20 | two merges in a row are one merge where the later patch wins field by field |
| Types.UserData.constructor | src/types/index.ts:10-15 | a new holder starts from the initial order |
| Types.UserData.SetOrderData | src/types/index.ts:18-20 | `setOrderData` replaces the order by its merge with the patch |
| Types.UserData.GetOrderData | src/types/index.ts:22-24 | `getOrderData` returns the current order |
| Utils.ToLower | src/utils/utils.ts:4 | `toLowerCase` on ASCII: same length, no uppercase letter left, uppercase letters shifted to lowercase and other characters kept |
| Utils.ReplaceBoundaries | src/utils/utils.ts:4 | reference definition of the left-to-right global replace of `([a-z0-9])([A-Z])` by `$1-$2` (see `Utils.ReplaceIsHyphenate`) |
| Utils.Hyphenate | src/utils/utils.ts:4 | independent definition: a `-` before every uppercase letter that follows a lowercase letter or digit (see `Utils.ReplaceIsHyphenate`, `Utils.HyphenateLength`) |
| Utils.ReplaceIsHyphenate | src/utils/utils.ts:4 | the global replace of `([a-z0-9])([A-Z])` by `$1-$2` inserts a `-` before each uppercase letter that follows a lowercase letter or digit |
| Utils.HyphenateLength | src/utils/utils.ts:4 | the replace adds exactly one character per lowercase/digit-to-uppercase boundary |
| Utils.HyphenateWithoutUpper | src/utils/utils.ts:4 | a string without uppercase letters has no boundary, so the replace leaves it unchanged |
| Utils.PascalToKebab | src/utils/utils.ts:2-5 | reference definition: the replace, then lower-casing (see the three `PascalToKebab` lemmas) |
| Utils.PascalToKebabIsLowerHyphenate | src/utils/utils.ts:2-5 | `pascalToKebab` is the lower-casing of the hyphenated string |
| Utils.PascalToKebabShape | src/utils/utils.ts:2-5 | the result has no uppercase letter, and its length is the input length plus the number of boundaries |
| Utils.PascalToKebabIdentity | src/utils/utils.ts:2-5 | `pascalToKebab` is the identity on strings without uppercase letters |
| Utils.IsSelector | src/utils/utils.ts:8-10 | true exactly for strings whose `length`, in UTF-16 code units, exceeds one; every string of two or more characters qualifies |
| Utils.IsSelectorOneChar | src/utils/utils.ts:9 | a one-character string is a selector exactly when its character lies outside the Basic Multilingual Plane (it has length 2) |
| Utils.IsEmpty | src/utils/utils.ts:13-15 | true exactly for `null` and `undefined`, which are never selectors |
| Utils.Bem | src/utils/utils.ts:80-92 | the name is the block, then `__element` when the element is truthy, then `_modifier` when the modifier is truthy; the class is `.` followed by the name |
| Events.Keys | src/components/base/Events.ts:25 | the registry's keys in insertion order, one per entry |
| Events.SetAdd | src/components/base/Events.ts:41 | `Set.add`: the result holds exactly the old elements and the new one |
| Events.SetAddNoDuplicates | src/components/base/Events.ts:41 | adding to a set keeps it duplicate-free |
| Events.SetDelete | src/components/base/Events.ts:50 | `Set.delete`: the result holds exactly the old elements other than the deleted one |
| Events.SetDeleteNoDuplicates | src/components/base/Events.ts:50 | deleting from a set keeps it duplicate-free |
| Events.OccursOnce | src/components/base/Events.ts:41 | a set holds each of its members exactly once |
| Events.Get | src/components/base/Events.ts:36 | `Map.get` finds nothing exactly when the key is absent |
| Events.GetAt | src/components/base/Events.ts:36-41 | in a well-formed registry, `get` of an entry's key returns that entry's set |
| Events.GetSome | src/components/base/Events.ts:41 | whatever `get` returns is the set of some entry with that key |
| Events.SubscribersWellFormed | src/components/base/Events.ts:35-56 | every set in a well-formed registry is duplicate-free, and non-empty when its key is present |
| Events.EntriesWellFormed | src/components/base/Events.ts:35-56 | every entry of a well-formed registry holds a non-empty, duplicate-free set |
| Events.Put | src/components/base/Events.ts:38 | reference definition of `Map.set` in insertion order (see `Events.PutKeys`, `Events.PutGet`) |
| Events.PutKeys | src/components/base/Events.ts:38 | `Map.set` keeps the key order, or appends a new key last |
| Events.PutGet | src/components/base/Events.ts:38 | after `set(k, v)`, `get(k)` is `v` and every other key reads as before |
| Events.PutWellFormed | src/components/base/Events.ts:38 | setting a non-empty, duplicate-free value keeps the registry well formed |
| Events.PutPut | src/components/base/Events.ts:38 | a second `set` of the same key overrides the first |
| Events.PutExisting | src/components/base/Events.ts:41 | setting a key to its current value changes nothing |
| Events.Remove | src/components/base/Events.ts:53 | reference definition of `Map.delete` (see `Events.RemoveEffect`) |
| Events.RemoveAbsent | src/components/base/Events.ts:53 | deleting a key that is not there changes nothing |
| Events.RemoveAt | src/components/base/Events.ts:53 | deleting a key cuts out its first entry and keeps every other entry in order |
| Events.RemoveCutsEntry | src/components/base/Events.ts:53 | deleting a key that is there removes one entry of that key and keeps the others in order |
| Events.RemovePut | src/components/base/Events.ts:53 | a `delete` right after a `set` of the same key is just the `delete` |
| Events.RemoveEffect | src/components/base/Events.ts:53 | `Map.delete` drops exactly that key; other keys keep their values; the result is the registry with that one entry cut out, so the remaining entries keep their order (or it is unchanged when the key is absent); the registry stays well formed |
| Events.Subscribe | src/components/base/Events.ts:35-42 | reference definition of the registry after `on` (see `Events.SubscribeEffect`) |
| Events.Unsubscribe | src/components/base/Events.ts:47-56 | reference definition of the registry after `off` (see `Events.UnsubscribeEffect`) |
| Events.SubscribeEffect | src/components/base/Events.ts:35-42 | `on(k, c)` adds `c` to the set of `k`, creating the key last when it is new; other keys are unchanged; well-formedness is kept |
| Events.UnsubscribeEffect | src/components/base/Events.ts:47-56 | `off(k, c)` removes `c` from `k`'s set and deletes the key exactly when no other callback remains; other keys are unchanged; an unregistered `k` leaves the registry as it was |
| Events.SubscribeIdempotent | src/components/base/Events.ts:35-42 | subscribing the same callback twice is subscribing it once, and it is then registered exactly once |
| Events.KeyMatches | src/components/base/Events.ts:73-76 | reference definition of the selection test: a pattern key that matches, or a key equal to the name (see `Events.DispatchPlainIff`) |
| Events.EntryCalls | src/components/base/Events.ts:64-78 | reference definition of one entry's calls: wildcard calls first, then payload calls (see `Events.EntryCallsMembers`) |
| Events.Dispatch | src/components/base/Events.ts:61-80 | reference definition of the calls of `emit`, entry by entry (see `Events.DispatchPlainIff`, `Events.DispatchWrappedIff`, `Events.DispatchCount`) |
| Events.MatchingRegistrations | src/components/base/Events.ts:73-78 | independent count of the selecting entries that hold a callback (see `Events.DispatchCount`) |
| Events.WrappedCalls | src/components/base/Events.ts:66-71 | one `{eventName, data}` call per wildcard subscriber |
| Events.PlainCalls | src/components/base/Events.ts:77 | one payload call per subscriber of a selecting key |
| Events.WrappedCallsMembers | src/components/base/Events.ts:66-71 | a call is among the wildcard calls exactly when it is a wrapped call of one of the subscribers |
| Events.PlainCallsCount | src/components/base/Events.ts:77 | each subscriber is called with the payload as often as it occurs in the set |
| Events.PlainCallsMembers | src/components/base/Events.ts:77 | a call is among the payload calls exactly when it is a payload call of one of the subscribers |
| Events.WrappedCallsStep | src/components/base/Events.ts:66-70 | the wildcard `forEach` adds one call per step, in order |
| Events.PlainCallsStep | src/components/base/Events.ts:77 | the payload `forEach` adds one call per step, in order |
| Events.DispatchStep | src/components/base/Events.ts:63-79 | the outer `forEach` appends each entry's calls in insertion order |
| Events.EntryCallsMembers | src/components/base/Events.ts:65-78 | an entry calls `c` with the payload exactly when its key selects the name and holds `c`, and with `{eventName, data}` exactly when its key is `"*"` and holds `c` |
| Events.DispatchMembers | src/components/base/Events.ts:63-79 | the calls of a registry are the calls of all entries but the last, then those of the last |
| Events.DispatchPlainFrom | src/components/base/Events.ts:73-78 | every payload call comes from a selecting key that holds the callback |
| Events.DispatchPlainTo | src/components/base/Events.ts:73-78 | every callback under a key equal to the name, or under a pattern that matches it, is called with the payload |
| Events.DispatchPlainIff | src/components/base/Events.ts:73-78 | `emit(n, d)` calls `c` with `d` exactly when some key equal to `n`, or some pattern matching `n`, holds `c` |
| Events.DispatchWrappedFrom | src/components/base/Events.ts:65-71 | every `{eventName, data}` call comes from the `"*"` entry |
| Events.DispatchWrappedTo | src/components/base/Events.ts:65-71 | every `"*"` subscriber is called with `{eventName, data}` |
| Events.DispatchWrappedIff | src/components/base/Events.ts:65-71 | `emit(n, d)` calls `c` with `{eventName: n, data: d}` exactly when `c` is subscribed under `"*"` |
| Events.DispatchNone | src/components/base/Events.ts:61-80 | with no wildcard entry and no selecting key, `emit` calls nothing |
| Events.DispatchCount | src/components/base/Events.ts:73-78 | with duplicate-free sets, `c` is called with the payload exactly once per selecting key that holds it |
| Events.WellFormedDispatchCount | src/components/base/Events.ts:35-42 | in the registry `on` builds, a callback subscribed twice under one name is still called once per emit for that key |
| Events.OffStopsCalls | src/components/base/Events.ts:47-56 | after `off(k, c)`, `c` is no longer called with the payload when `k` was the only selecting key holding it |
| Events.TriggerData | src/components/base/Events.ts:101-105 | the merged payload has the properties of the event and the context; context values win, and event values are kept elsewhere |
| Events.EmitEntry | src/components/base/Events.ts:64-78 | the loop body for one entry makes exactly the entry's calls: wildcard calls first, then payload calls |
| Events.EventEmitter.constructor | src/components/base/Events.ts:27-30 | a new broker has an empty registry |
| Events.EventEmitter.On | src/components/base/Events.ts:35-42 | `on` makes the registry `Subscribe(old, key, callback)` and keeps it well formed |
| Events.EventEmitter.Off | src/components/base/Events.ts:47-56 | `off` makes the registry `Unsubscribe(old, key, callback)` and keeps it well formed |
| Events.EventEmitter.Emit | src/components/base/Events.ts:61-80 | `emit` makes exactly the calls of `Dispatch`, in order, and changes nothing (it has no `modifies`) |
| Events.EventEmitter.OnAll | src/components/base/Events.ts:85-87 | `onAll(cb)` is `on("*", cb)` |
| Events.EventEmitter.OffAll | src/components/base/Events.ts:92-94 | `offAll` empties the registry |
| Events.EventEmitter.Trigger | src/components/base/Events.ts:99-107 | the trigger emits the event name with the merged payload of `TriggerData` |
| BasketModel.Contribution | src/components/Models/Basket.ts:22-30 | a truthy price adds itself; a `null` or zero price adds nothing |
| BasketModel.TotalPrice | src/components/Models/Basket.ts:22-30 | reference definition of the `reduce` from the left (see `BasketModel.Basket.GetTotalPrice`, `BasketModel.TotalPriceAppend`) |
| BasketModel.TotalPriceAppend | src/components/Models/Basket.ts:22-30 | the total of two lists side by side is the sum of their totals |
| BasketModel.TotalPriceOfUnpriced | src/components/Models/Basket.ts:22-30 | products without a price add nothing to the total |
| BasketModel.TotalPriceExample | src/components/Models/Basket.ts:22-30 | prices 100, `null` and 0 total 100 |
| BasketModel.KeepUnlessId | src/components/Models/Basket.ts:15 | `filter` never lengthens the list |
| BasketModel.KeepUnlessIdMembers | src/components/Models/Basket.ts:15 | the filter keeps exactly the products whose id differs from the target |
| BasketModel.WithoutId | src/components/Models/Basket.ts:14-16 | deleting an id keeps exactly the products with another id, so the id is no longer present |
| BasketModel.KeepUnlessIdAppend | src/components/Models/Basket.ts:15 | the filter distributes over concatenation, so it keeps the order |
| BasketModel.KeepUnlessIdNoMatch | src/components/Models/Basket.ts:15 | a target that no product matches removes nothing |
| BasketModel.WithoutIdAbsent | src/components/Models/Basket.ts:14-16 | deleting an id that is not present changes nothing |
| BasketModel.WithoutIdIdempotent | src/components/Models/Basket.ts:14-16 | deleting the same id twice is deleting it once |
| BasketModel.WithoutIdAppend | src/components/Models/Basket.ts:14-16 | deletion keeps the remaining products in their original order |
| BasketModel.IdProperty | src/components/Models/Basket.ts:15 | reading `.id` off the argument gives `undefined` exactly when the argument is a bare string |
| BasketModel.DeleteAsWritten | src/components/Models/Basket.ts:14-16 | `deleteItem` as written keeps exactly the products whose id differs from the `id` property read off its argument |
| BasketModel.DeleteAsWrittenWithProduct | src/components/Models/Basket.ts:14-16 | handed a product, as its signature asks, `deleteItem` deletes by that product's id |
| BasketModel.DeleteAsWrittenWithIdRemovesNothing | src/components/App.ts:92-94 | handed an id string, as the `product:remove` handler does, `deleteItem` removes nothing |
| BasketModel.RemoveByIdCounterexample | src/components/App.ts:93 | with product "1" in the basket, removing "1" the way the handler does leaves it there |
| BasketModel.Basket.constructor | src/components/Models/Basket.ts:4 | a new basket is empty |
| BasketModel.Basket.GetItems | src/components/Models/Basket.ts:6-8 | `getItems` returns the stored list |
| BasketModel.Basket.AddItem | src/components/Models/Basket.ts:10-12 | `addItem` appends at the end and grows the count by exactly one, even for an id already present |
| BasketModel.Basket.DeleteItem | src/components/Models/Basket.ts:14-16 | removes every product with the id and keeps the others in order; `hasItem` of the id is then false |
| BasketModel.Basket.Clear | src/components/Models/Basket.ts:18-20 | `clear` empties the basket, so its total is 0 |
| BasketModel.Basket.GetTotalPrice | src/components/Models/Basket.ts:22-30 | the `reduce` loop computes `TotalPrice`, the sum of the truthy prices |
| BasketModel.Basket.GetTotalItems | src/components/Models/Basket.ts:32-34 | `getTotalItems` is the number of stored entries |
| BasketModel.Basket.HasItem | src/components/Models/Basket.ts:36-38 | `hasItem(id)` holds exactly when some stored product has the id |
| BasketDataModel.PriceOrZero | src/components/model/BasketData.ts:26 | `price ?? 0`: a price counts as itself, `null` as 0 |
| BasketDataModel.FullPrice | src/components/model/BasketData.ts:25-27 | reference definition of the `?? 0` sum (see `BasketDataModel.FullPriceIsTotalPrice`) |
| BasketDataModel.FullPriceIsTotalPrice | src/components/model/BasketData.ts:25-27 | `getFullPrice` (`?? 0`) equals `Models/Basket`'s truthy-price total on integer prices |
| BasketDataModel.PricedIds | src/components/model/BasketData.ts:60-64 | the ids of the products with a non-null price, and no others |
| BasketDataModel.PricedIdsAppend | src/components/model/BasketData.ts:60-64 | `filter` then `map` distributes over concatenation, so basket order is kept |
| BasketDataModel.PricedIdsAllPriced | src/components/model/BasketData.ts:60-64 | when every product is priced, the ids are exactly the products' ids in order |
| BasketDataModel.BasketData.constructor | src/components/model/BasketData.ts:5-10 | a new basket is empty and has emitted nothing |
| BasketDataModel.BasketData.SetAllItems | src/components/model/BasketData.ts:16-19 | stores the list and emits `basket:setAllItems` |
| BasketDataModel.BasketData.GetFullPrice | src/components/model/BasketData.ts:25-27 | the loop computes `FullPrice`, which equals `TotalPrice` |
| BasketDataModel.BasketData.AddItem | src/components/model/BasketData.ts:33-36 | appends without a duplicate check and emits `basket:changed` |
| BasketDataModel.BasketData.DeleteItem | src/components/model/BasketData.ts:42-45 | filters out the id and emits `basket:changed`, even when nothing was removed |
| BasketDataModel.BasketData.GetBasketItems | src/components/model/BasketData.ts:52-54 | `includes`: true exactly when the product is stored |
| BasketDataModel.BasketData.GetBasketIdItems | src/components/model/BasketData.ts:60-64 | the ids of the priced products, in basket order |
| BasketDataModel.BasketData.DeleteAllItems | src/components/model/BasketData.ts:69-72 | empties the basket and emits `basket:changed` |
| BasketDataModel.BasketData.GetAllItems | src/components/model/BasketData.ts:78-80 | a list equal to the stored items |
| CatalogModel.Catalog.constructor | src/components/Models/Catalog.ts:4-5 | no products and no current item |
| CatalogModel.Catalog.SetItems | src/components/Models/Catalog.ts:7-9 | stores the list and leaves the current item alone |
| CatalogModel.Catalog.GetItems | src/components/Models/Catalog.ts:11-13 | returns the stored list |
| CatalogModel.Catalog.GetItem | src/components/Models/Catalog.ts:15-17 | `null` exactly when no product has the id, otherwise the first product that has it |
| CatalogModel.Catalog.SetCurrentItem | src/components/Models/Catalog.ts:19-21 | sets the current item and leaves the list alone |
| CatalogModel.Catalog.GetCurrentItem | src/components/Models/Catalog.ts:23-25 | returns the current item |
| ItemDataModel.ItemData.constructor | src/components/model/ItemData.ts:5-11 | no products, no preview, nothing emitted |
| ItemDataModel.ItemData.SetAllItems | src/components/model/ItemData.ts:17-20 | stores the list, keeps the preview, and emits `item:setAllItems` |
| ItemDataModel.ItemData.GetItem | src/components/model/ItemData.ts:27-29 | `undefined` exactly when no product has the id, otherwise the first product that has it |
| ItemDataModel.ItemData.GetAllItems | src/components/model/ItemData.ts:35-37 | a list equal to the stored items |
| ItemDataModel.ItemData.SetPreview | src/components/model/ItemData.ts:43-46 | sets the preview, keeps the list, and emits `preview:changed` with the product |
| CustomerModel.BuyerErrors | src/components/Models/Customer.ts:50-70 | a payment message exactly when the payment is `""`, and an address, phone or e-mail message exactly when that field is blank after `trim`, each with its own text |
| CustomerModel.BuyerErrorsEmptyIff | src/components/Models/Customer.ts:50-70 | no messages exactly when a payment is set and no text field is blank |
| CustomerModel.ClearedBuyerErrors | src/components/Models/Customer.ts:40-69 | a cleared buyer has exactly the four keys payment, address, phone and e-mail |
| CustomerModel.FilledBuyerHasNoErrors | src/components/Models/Customer.ts:50-70 | `card`, `Street 1`, `+71234567890`, `a@b.com` pass, because no format is checked |
| CustomerModel.Customer.constructor | src/components/Models/Customer.ts:4-10 | all four fields start as `""` |
| CustomerModel.Customer.SetPayment | src/components/Models/Customer.ts:12-14 | changes only the payment |
| CustomerModel.Customer.SetAddress | src/components/Models/Customer.ts:16-18 | changes only the address |
| CustomerModel.Customer.SetPhone | src/components/Models/Customer.ts:20-22 | changes only the phone |
| CustomerModel.Customer.SetEmail | src/components/Models/Customer.ts:24-26 | changes only the e-mail |
| CustomerModel.Customer.GetData | src/components/Models/Customer.ts:28-38 | reflects all four fields |
| CustomerModel.Customer.Clear | src/components/Models/Customer.ts:40-48 | resets all four fields to `""` |
| CustomerModel.Customer.CheckValidity | src/components/Models/Customer.ts:50-70 | the messages of `BuyerErrors` for the current fields |
| UserDataModel.MatchesEmailPattern | src/components/model/UserData.ts:78 | reference definition: the whole string splits as a run, `@`, a run, `.`, a run, where a run is one or more characters that are neither whitespace nor `@` (see `UserDataModel.EmailShapeIff`) |
| UserDataModel.EmailShape | src/components/model/UserData.ts:78 | independent description of the accepted strings (see `UserDataModel.EmailShapeIff`) |
| UserDataModel.EmailPatternHasShape | src/components/model/UserData.ts:78 | every string the e-mail pattern matches has no whitespace, exactly one `@` with something before it, and a `.` strictly inside the domain |
| UserDataModel.EmailShapeMatchesPattern | src/components/model/UserData.ts:78 | every string of that shape is matched by the pattern |
| UserDataModel.EmailShapeIff | src/components/model/UserData.ts:78 | the pattern accepts exactly the strings of that shape |
| UserDataModel.IsValidEmail | src/components/model/UserData.ts:77-80 | true exactly for a non-empty string the pattern matches |
| UserDataModel.OrderErrors | src/components/model/UserData.ts:39-56 | an e-mail error exactly when the e-mail is empty or malformed; a phone or address error exactly when it is `""` (no trim); a payment error exactly when it is `null` or `""`; each with its own text |
| UserDataModel.OrderErrorsEmptyIff | src/components/model/UserData.ts:39-61 | an order has no errors exactly when the e-mail is well formed, phone and address are set, and a payment is chosen |
| UserDataModel.InitialOrderErrors | src/components/model/UserData.ts:85-92 | the reset order fails on all four fields |
| UserDataModel.CompleteOrderIsValid | src/components/model/UserData.ts:39-61 | a complete order with e-mail `a@b.com` passes |
| UserDataModel.FieldPatch | src/components/model/UserData.ts:27 | the one-property object for a field: exactly that property is present, and it holds the value |
| UserDataModel.FieldPatchEffect | src/components/model/UserData.ts:27 | `order[field] = value` changes that field and no other |
| UserDataModel.UserData.constructor | src/components/model/UserData.ts:9-12 | the order starts as the reset order, with no errors and nothing emitted |
| UserDataModel.UserData.ClearOrder | src/components/model/UserData.ts:17-19 | the order is reset; errors and emitted events are untouched |
| UserDataModel.UserData.IsOrderValid | src/components/model/UserData.ts:39-62 | stores `OrderErrors` of the order, emits `formErrors:change` with them, and returns true exactly when there are none |
| UserDataModel.UserData.SetOrderField | src/components/model/UserData.ts:26-33 | writes only the named field, emits `order:change` then `formErrors:change`, and emits `order:ready` with the order exactly when it is then valid |
| UserDataModel.UserData.GetFormErrors | src/components/model/UserData.ts:68-70 | a value equal to the last stored errors |
| OrderFormModel.ErrorText | src/components/View/OrderFormView.ts:85-89 | the error text is empty for no messages, the message itself for one, and empty exactly when there is nothing to show |
| OrderFormModel.CheckOrderForm | src/components/View/OrderFormView.ts:91-106 | valid exactly with a payment and a non-blank address; no payment with an address gives only "choose a payment"; a blank address with a payment gives only "enter the address"; otherwise no message |
| OrderFormModel.EmptyFormIsQuiet | src/components/View/OrderFormView.ts:96-105 | an untouched form is invalid yet shows no message |
| OrderFormModel.FirstActiveName | src/components/View/OrderFormView.ts:52-54 | `find` of the active button: none exactly when no button is active, otherwise the name of an active one |
| OrderFormModel.OrderForm.constructor | src/components/View/OrderFormView.ts:18-24 | the buttons in order, none active, and an empty address |
| OrderFormModel.OrderForm.HasPayment | src/components/View/OrderFormView.ts:92-94 | `some`: true exactly when a button is active |
| OrderFormModel.OrderForm.Validate | src/components/View/OrderFormView.ts:91-106 | the verdict of `CheckOrderForm` for the buttons and the address |
| OrderFormModel.OrderForm.Click | src/components/View/OrderFormView.ts:27-39 | the clicked button becomes the only active one, its name is emitted as the payment, and the form is then valid exactly when the address is not blank |
| OrderFormModel.OrderForm.SetPayment | src/components/View/OrderFormView.ts:65-74 | exactly the buttons whose name equals the value are active; the form is then valid exactly when one does and the address is not blank |
| OrderFormModel.OrderForm.SetAddress | src/components/View/OrderFormView.ts:76-79 | stores the address and re-validates |
| OrderFormModel.OrderForm.Submit | src/components/View/OrderFormView.ts:50-62 | `order:submit` is emitted only with an active payment and a non-blank address, and carries the active button's name |
| ContactsFormModel.Digits | src/components/View/ContactsFormView.ts:108 | `replace(/\D/g, "")` keeps only digits and never lengthens the string |
| ContactsFormModel.DigitsAppend | src/components/View/ContactsFormView.ts:108 | digit stripping distributes over concatenation |
| ContactsFormModel.DigitsOfDigits | src/components/View/ContactsFormView.ts:108 | a string of digits is left as it is |
| ContactsFormModel.DigitsAppendDigits | src/components/View/ContactsFormView.ts:108 | appending digits appends them to the stripped string |
| ContactsFormModel.DigitsOfSeparators | src/components/View/ContactsFormView.ts:113-123 | the fixed pieces of the layout carry one digit between them, the `7` of `+7` |
| ContactsFormModel.DigitsAppendSeparator | src/components/View/ContactsFormView.ts:113-123 | a digit-free piece adds no digit |
| ContactsFormModel.DigitsOfShortLayout | src/components/View/ContactsFormView.ts:112-113 | the four-to-six-digit layout holds `7` then the input digits |
| ContactsFormModel.DigitsOfMediumLayout | src/components/View/ContactsFormView.ts:114-118 | the seven-or-eight-digit layout holds `7` then the input digits |
| ContactsFormModel.DigitsOfLongLayout | src/components/View/ContactsFormView.ts:119-124 | the long layout holds `7` then the first ten input digits |
| ContactsFormModel.FormatPhone | src/components/View/ContactsFormView.ts:106-125 | reference definition of `formatPhoneInput` on the current input value (see `ContactsFormModel.FormatPhoneDigits`, `ContactsFormModel.FormatPhoneLength`) |
| ContactsFormModel.FormatPhoneDigits | src/components/View/ContactsFormView.ts:106-125 | the formatted value's digits are the input digits when there are at most three, otherwise `7` followed by the first ten input digits, so digits past the tenth are dropped |
| ContactsFormModel.FormatPhoneLength | src/components/View/ContactsFormView.ts:106-125 | the formatted value is at most 18 characters, the length of `+7 (ddd) ddd-dd-dd` |
| ContactsFormModel.FormatPhoneFourDigits | src/components/View/ContactsFormView.ts:112-113 | `1234` is laid out as `+7 (123) 4` |
| ContactsFormModel.FormatPhoneNotIdempotent | src/components/View/ContactsFormView.ts:106-125 | formatting twice re-reads the `7` of `+7` as a digit: `+7 (123) 4` becomes `+7 (712) 34` |
| ContactsFormModel.FieldErrors | src/components/View/ContactsFormView.ts:95-99 | one field gets "missing" when blank, else "bad format" when its check fails on the trimmed value, else nothing |
| ContactsFormModel.ContactsErrors | src/components/View/ContactsFormView.ts:87-100 | both fields blank gives only "fill in all fields"; otherwise at most one message per field; no message exactly when both are present and pass their checks |
| ContactsFormModel.CheckContactsForm | src/components/View/ContactsFormView.ts:87-104 | the form is valid exactly when the message list is empty |
| ContactsFormModel.ContactsSubmit | src/components/View/ContactsFormView.ts:56-64 | `contacts:submit` is emitted exactly when neither trimmed value is empty, and carries the untrimmed values |
| AppModel.ButtonText | src/components/App.ts:234-238 | "remove" exactly when the product is in the basket, "unavailable" exactly when it is not and has no price, "add" otherwise |
| AppModel.Collect | src/components/App.ts:338-339 | reference definition of `if (errors[f]) list.push(errors[f])` (see `AppModel.OrderStepErrors`) |
| AppModel.OrderStepErrors | src/components/App.ts:334-342 | at most two messages: the payment message first, then the address message; none exactly when neither is present and non-empty |
| AppModel.ContactsStepErrors | src/components/App.ts:344-352 | at most two messages: the e-mail message first, then the phone message; none exactly when neither is present and non-empty |
| AppModel.OrderStepValidIff | src/components/App.ts:334-342 | for `checkValidity`'s messages, the order step has none exactly when a payment is set and the address is not blank |
| AppModel.ContactsStepValidIff | src/components/App.ts:344-352 | the contacts step has none exactly when neither e-mail nor phone is blank |
| AppModel.OrderStepMessages | src/components/App.ts:289-293 | the order form's messages: empty exactly when the step is valid, and led by the payment message when no payment is set |
| AppModel.ContactsStepMessages | src/components/App.ts:315-319 | the contacts form's messages: empty exactly when the step is valid, and led by the e-mail message when the e-mail is blank |
| AppModel.OrderStepValid | src/components/App.ts:295 | the order flag: a payment is set and the address is not blank |
| AppModel.ContactsStepValid | src/components/App.ts:321 | the contacts flag: neither e-mail nor phone is blank |
| AppModel.OrderForm | src/components/App.ts:288-302 | reference definition of the data the order form is rendered from (see `AppModel.App.ShowOrderModal`) |
| AppModel.ContactsForm | src/components/App.ts:314-328 | reference definition of the data the contacts form is rendered from (see `AppModel.App.ShowContactsModal`) |
| AppModel.Ids | src/components/App.ts:359 | one id per basket entry, in basket order |
| AppModel.IdsArePricedIds | src/components/App.ts:359 | when every entry is priced, the payload ids equal `BasketData.getBasketIdItems` |
| AppModel.ModalCloseAsWritten | src/components/App.ts:169-171 | the `modal:close` handler throws a `TypeError` and leaves the current item as it was |
| AppModel.ModalCloseKeepsSelection | src/components/App.ts:169-171 | closing the preview of product "1" leaves it selected, and the handler does not return normally |
| AppModel.App.constructor | src/components/App.ts:39-42 | fresh models, an empty basket and buyer, both form flags false, the modal closed |
| AppModel.App.LoadProducts | src/components/App.ts:179-187 | a list that arrives replaces the catalog; a failed request reports "could not load the products" and changes nothing else |
| AppModel.App.ProductSelect | src/components/App.ts:71-76 | the current item becomes the product with the id only when the catalog has one |
| AppModel.App.ShowProductModal | src/components/App.ts:214-246 | the preview shows the product, its `ButtonText`, and `canBuy` exactly when it has a price |
| AppModel.App.ProductAdd | src/components/App.ts:84-89 | the catalog's product with the id is appended only when found |
| AppModel.App.ProductRemove | src/components/App.ts:92-94 | every basket entry with the id goes, as intended (see Findings) |
| AppModel.App.ModalClose | src/components/App.ts:169-171 | as intended: the modal closes and no product is current |
| AppModel.App.PreviewClick | src/components/App.ts:218-225 | as intended (see Findings): removes the product when it is in the basket, otherwise adds it when it is priced and in the catalog, otherwise leaves the basket; then closes, keeping the catalog, both form flags and the order log |
| AppModel.App.BasketOpen | src/components/App.ts:248-280 | the basket view shows the entries, `TotalPrice`, and checkout enabled exactly when the basket is not empty |
| AppModel.App.ValidateOrderForm | src/components/App.ts:334-342 | the order flag becomes true exactly when a payment is set and the address is not blank |
| AppModel.App.ValidateContactsForm | src/components/App.ts:344-352 | the contacts flag becomes true exactly when neither e-mail nor phone is blank |
| AppModel.App.ShowOrderModal | src/components/App.ts:282-306 | sets the order flag and shows the order form built from the buyer |
| AppModel.App.ShowContactsModal | src/components/App.ts:308-332 | sets the contacts flag and shows the contacts form built from the buyer |
| AppModel.App.OrderStart | src/components/App.ts:107-111 | when the basket is not empty, the order form built from the buyer is shown and the order flag recomputed; otherwise nothing changes |
| AppModel.App.PaymentChange | src/components/App.ts:114-117 | stores the payment; the order flag is then true exactly when neither the payment nor the address has an error |
| AppModel.App.AddressChange | src/components/App.ts:120-123 | stores the address and re-validates the order step in the same way |
| AppModel.App.OrderSubmit | src/components/App.ts:126-136 | stores payment and address, then shows the contacts form built from the buyer, with the contacts flag recomputed, exactly when the previously stored order flag is set; the order flag is not recomputed |
| AppModel.App.EmailChange | src/components/App.ts:139-142 | stores the e-mail; the contacts flag is then true exactly when neither e-mail nor phone is blank |
| AppModel.App.PhoneChange | src/components/App.ts:145-148 | stores the phone and re-validates the contacts step in the same way |
| AppModel.App.ProcessOrder | src/components/App.ts:354-387 | sends the buyer, `TotalPrice` and the ids in order; on success it shows the total taken before the reset, then empties the basket, clears the buyer and drops both flags; on failure it reports "could not place the order" and resets nothing |
| AppModel.App.ContactsSubmit | src/components/App.ts:151-161 | stores e-mail and phone, then places the order exactly when the previously stored contacts flag is set: the request is sent; on success the total is shown and basket, buyer and flags are reset; on failure "could not place the order" is reported; otherwise the flags, screen, basket and reports are unchanged |
| AppModel.App.OrderSuccess | src/components/App.ts:164-166 | closes the modal, as `modal:close` intends, and leaves the basket, the catalog, both form flags and the order log alone |

## Left out

- Network: `getProducts` and `order` are asynchronous requests. `LoadProducts` takes the product list, or `None` for a failed request. `ProcessOrder` takes whether the order request succeeded. The order id of the response is only logged, so it is not modelled. Interleaving of the promises with other handlers is not modelled.
- Views and the DOM: templates, element lookups, class toggling, text and `render` are left out. A view is reduced to the data it is rendered from (`AppModel.Screen`). The order form's buttons are an array of active flags.
- Timers: the 300 ms debounce of the e-mail and phone inputs is left out. `ContactsFormModel.FormatPhone` is the keydown handler applied to the current input value.
- Callbacks: `emit` returns the calls it would make and does not run them. Re-entrant emission from inside a callback is therefore not modelled.
- Regular expressions as event keys are opaque identities. An emission is given the set of patterns whose `test` accepts the event name.
- Object identity: the source compares callbacks, `Map` keys and products by reference. The model compares them by value (callbacks and patterns are numbers).
- `console.log`, `console.error` and the `error` handler only print, so they are left out. `App` records the messages it would send to `error` in `failures`.
- `validateEmail` and `validatePhone` are called by the contacts form but are not defined in `src/utils/utils.ts` (the module that is imported for them). They are parameters of `ContactsErrors`.
- The `catalog:changed` and `basket:changed` handlers (`renderCatalog`, `updateHeader`) only render. No `Models/` class emits those events.
- The `product:selected` handler only renders. No model emits that event. The model's `ShowProductModal` is that rendering.
- `App.ts:36-37` passes the event broker to the `Catalog` and `Basket` constructors, which take no parameters. The argument is ignored, so the models hold no broker.
- Prices are JavaScript numbers. They are modelled as integers, so fractional prices and floating-point rounding are not captured.
- `TPayment`, `IBuyer`, `TBuyerValidityMessages` and `IOrderApiRequest` are not declared in `src/types/index.ts`. The model uses a string payment (`""` when unset), `CustomerModel.Buyer`, a map from `Field` to message, and `AppModel.OrderRequest`.
- `UserDataModel.UserData.SetOrderField`: requires a string value for every field except the payment. This is the restriction `IUser[K]` places on callers. Only the payment may be `null`.
- `!s.trim()` is written `IsBlank(s)`. `Js.TrimEmptyIff` proves that the two agree.
- `BasketModel.Basket.DeleteItem`, `AppModel.App.ProductRemove` and the removal branch of `AppModel.App.PreviewClick`: these take the id that the `product:remove` handler passes, rather than the product in the signature. The code as written is modelled separately (see Findings).
- `AppModel.App.ModalClose`, `AppModel.App.PreviewClick` and `AppModel.App.OrderSuccess`: these model the intended close. As written, the close throws (see Findings).
- Utils.ToLower: lowers only the ASCII letters `A`-`Z`. `toLowerCase` also lowers every other cased letter, such as `Ä` or the Cyrillic capitals, by the Unicode case mapping. `Utils.PascalToKebab` therefore agrees with the source only on strings whose non-ASCII characters are not uppercase. The boundary pattern `[A-Z]` itself is ASCII-only in the source too.
- Aliasing: `Models/Basket.ts:6-8` returns its stored array, and `Models/Catalog.ts:7-13` stores and returns the caller's array. A caller that later mutates such an array changes the model's state. `model/BasketData.ts:17,79` and `model/ItemData.ts:18,36` copy instead. The model keeps values, so it cannot tell the two apart, and mutation through a shared array is not captured.
- `IProduct` and `TCategoryNames` are imported by `App.ts:17` and the `Models/` classes, but `src/types/index.ts` does not declare them. The model assumes `IProduct` has the fields of `IItem`, which is how its uses read. The category is an unconstrained string.
- The DOM helpers of `src/utils/utils.ts` (`ensureElement`, `cloneTemplate`, `createElement` and the element-data helpers) and `src/utils/constants.ts` are not part of this model.

## Findings

| source | as written | input that shows it | evidently intended | confidence | as-written member | corrected member |
|---|---|---|---|---|---|---|
| src/components/App.ts:93, src/components/Models/Basket.ts:14-16 | the `product:remove` handler passes a bare id string to `deleteItem(itemToDelete: IProduct)`. The filter compares each id with `itemToDelete.id`, which is `undefined` for a string, so every product is kept | a basket holding product "1" and the event `product:remove {id: "1"}`: the basket still holds product "1" | remove every product with that id | not executed | BasketModel.DeleteAsWritten | BasketModel.Basket.DeleteItem |
| src/components/App.ts:169-171, src/components/View/ModalView.ts:81 | closing the modal emits `modal:close`. Its handler calls `catalog.clearCurrentItem()`, which `Catalog` does not define, so the call throws a `TypeError` and the current item stays set | open the preview of product "1", then close the modal: the handler throws and product "1" is still the current item | close the modal and clear the current item | not executed | AppModel.ModalCloseAsWritten | AppModel.App.ModalClose |
