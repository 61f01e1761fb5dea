# Create-products workflow definition, modelled in Dafny

This project models the definition of the Medusa "create products" workflow
(`packages/medusa/src/workflows/admin/create-products/definition.ts`). The
definition has five parts:

- the `CreateProductsWorkflowActions` enum of eight step ids;
- the `workflowSteps` tree. It runs `prepare`, then `createProducts`, then fans out into
  `attachShippingProfile`, `attachToSalesChannel` and the chain
  `createPrices` → `createInventoryItems` → `attachInventoryItems` → `result`.
  Each entry carries `saveResponse` and `noCompensation` flags;
- the inventory capability guard `shouldSkipInventoryStep`;
- the `command` table of invoke and compensate handlers, and the dispatch
  closure `transactionHandler` returns;
- the `createPrices` compensation. It rebuilds the prepared
  handle → `{ index, prices }` map with every price list emptied and calls the
  same price update again.

Modules:

- `WorkflowActions`: the enum and its string ids.
- `TransactionSteps`: the general shape of a steps definition, with its traversals
  (pre-order actions, leaves, lookup of an entry, path from the root).
- `CreateProductsSteps`: the concrete tree and its structural lemmas.
- `InventoryGuard`: `shouldSkipInventoryStep` over a container of registered services.
- `PriceClearing`: the cleared price map as a function, and the compensation's `forEach`/`set` loop
  as a method proved equal to it.
- `ProductTypes`, `WorkflowFunctions`: the values handlers exchange. The business functions from
  `../../functions` are opaque. A call to one is recorded as its name applied to the
  data the handler passed.
- `CreateProductsHandlers`: the handler table, the handlers themselves, dispatch, and the lemmas
  that tie the table to the tree.

Each handler is a function of the container, `payload.data` and
`payload.context` (the saved `invoke` responses keyed by action id). It
returns an `Outcome`, which is one of:

- the business call it makes;
- a skip with the guard's warning;
- the TypeError that JavaScript raises when the handler destructures an undefined
  saved value or indexes a missing product list.

## Model

| member | source | states |
|---|---|---|
| `WorkflowActions.FromName` | packages/medusa/src/workflows/admin/create-products/definition.ts:35-44 | the action found for an id has that id as its string value (`Name`, the enum's string values); when none is found, no enum member has that value |
| `WorkflowActions.FromNameRoundTrip` | packages/medusa/src/workflows/admin/create-products/definition.ts:35-44 | looking an action up by its own id finds that action |
| `WorkflowActions.NameInjective` | packages/medusa/src/workflows/admin/create-products/definition.ts:35-44 | two actions share an id exactly when they are the same action |
| `WorkflowActions.AllActionsEnumerated` | packages/medusa/src/workflows/admin/create-products/definition.ts:35-44 | the enum lists every action, with no repetition |
| `TransactionSteps.PathTo` | packages/medusa/src/workflows/admin/create-products/definition.ts:46-80 | a path found from an entry down to an action is non-empty and ends at that action |
| `TransactionSteps.FindStep` | packages/medusa/src/workflows/admin/create-products/definition.ts:46-80 | the entry found for an action carries that action |
| `TransactionSteps.PathIffOccurs` | packages/medusa/src/workflows/admin/create-products/definition.ts:46-80 | an action has a path from the root exactly when it occurs in the tree |
| `TransactionSteps.PathWithinTree` | packages/medusa/src/workflows/admin/create-products/definition.ts:46-80 | every action on a path from the root occurs in the tree |
| `TransactionSteps.AbsentHasNoEntry` | packages/medusa/src/workflows/admin/create-products/definition.ts:46-80 | an action that does not occur in a tree has no entry there, so it neither saves a response nor requires compensation |
| `TransactionSteps.AncestorsOccur` | packages/medusa/src/workflows/admin/create-products/definition.ts:46-80 | both an ancestor-or-self and its descendant are actions that occur in the tree |
| `TransactionSteps.FindIffPath` | packages/medusa/src/workflows/admin/create-products/definition.ts:46-80 | an action's entry is found exactly when the action has a path from the root |
| `CreateProductsSteps.ActionsUniqueAndComplete` | packages/medusa/src/workflows/admin/create-products/definition.ts:35-80 | the tree holds each of the eight enum actions exactly once: ids are unique, every action occurs, and there are eight entries |
| `CreateProductsSteps.TreeShape` | packages/medusa/src/workflows/admin/create-products/definition.ts:46-80 | the tree `WorkflowSteps`, built from one constant per entry: the root has no action and leads to `prepare`, which leads to `createProducts`, which fans out into exactly three branches: two single attach steps, and the linear chain `createPrices`, `createInventoryItems`, `attachInventoryItems`, `result`, each the single `next` of the one before and `result` a leaf; the tree's leaves are the two attach steps and `result` |
| `CreateProductsSteps.Ancestors` | packages/medusa/src/workflows/admin/create-products/definition.ts:46-80 | the steps on the way from the root to each action, listed per action; an action is an ancestor-or-self of another exactly when it is on that list |
| `CreateProductsSteps.CompensationFlags` | packages/medusa/src/workflows/admin/create-products/definition.ts:46-80 | a step requires compensation exactly when it is neither `prepare` nor `result` |
| `CreateProductsSteps.SavedResponses` | packages/medusa/src/workflows/admin/create-products/definition.ts:46-80 | exactly `prepare`, `createProducts`, `createInventoryItems`, `attachInventoryItems` and `result` save their responses |
| `InventoryGuard.ShouldSkipInventoryStep` | packages/medusa/src/workflows/admin/create-products/definition.ts:82-98 | skip exactly when no `inventoryService` is registered; a warning is emitted exactly when skipping, and it is the skip warning for the named step |
| `InventoryGuard.SkipWarningNamesStep` | packages/medusa/src/workflows/admin/create-products/definition.ts:90-93 | the warning `SkipWarning` builds quotes the skipped step's name between its fixed sentences |
| `PriceClearing.ClearedPrices` | packages/medusa/src/workflows/admin/create-products/definition.ts:351-359 | the cleared price map has exactly the handles of the input (its full meaning is `ClearedPricesCharacterized`) |
| `PriceClearing.BuildClearedPrices` | packages/medusa/src/workflows/admin/create-products/definition.ts:351-359 | the map built by the `forEach`/`set` loop is the cleared price map, whatever order the entries are visited in |
| `PriceClearing.ClearedPricesCharacterized` | packages/medusa/src/workflows/admin/create-products/definition.ts:351-359 | a map is the cleared map exactly when it has the same handles as the input, keeps each entry's index and has empty prices everywhere |
| `PriceClearing.ClearedPricesIdempotent` | packages/medusa/src/workflows/admin/create-products/definition.ts:351-359 | clearing twice gives the same map as clearing once |
| `PriceClearing.ClearedPricesForgetsPrices` | packages/medusa/src/workflows/admin/create-products/definition.ts:351-359 | two maps with the same handles and indices clear to the same map, whatever their prices |
| `CreateProductsHandlers.Dispatch` | packages/medusa/src/workflows/admin/create-products/definition.ts:404-408 | dispatch finds a handler exactly when the id is some action's id and the table has an entry for that action and handler type |
| `CreateProductsHandlers.DispatchByName` | packages/medusa/src/workflows/admin/create-products/definition.ts:404-408 | dispatching by an action's id runs the table entry on `payload.data` and `payload.context`; every action has an invoke handler; compensation has no handler exactly for `prepare` and `result` |
| `CreateProductsHandlers.Command` | packages/medusa/src/workflows/admin/create-products/definition.ts:105-402 | every action's table row has an invoke handler, and each handler in the row is the one written for that action and handler type |
| `CreateProductsHandlers.Run` | packages/medusa/src/workflows/admin/create-products/definition.ts:105-401 | a handler skips exactly when it is an inventory handler and no inventory service is registered; only inventory handlers call inventory functions |
| `CreateProductsHandlers.Reads` | packages/medusa/src/workflows/admin/create-products/definition.ts:105-401 | every saved response a handler reads is keyed by an action on the path from the root to the handler's own step |
| `CreateProductsHandlers.CommandEntries` | packages/medusa/src/workflows/admin/create-products/definition.ts:105-402 | each table entry holds the handler written for that action and type, and every handler sits in its own entry |
| `CreateProductsHandlers.CommandMatchesSteps` | packages/medusa/src/workflows/admin/create-products/definition.ts:105-402 | every action has an invoke handler; a compensate handler exists exactly when the tree does not flag the step `noCompensation` |
| `CreateProductsHandlers.RunReadsOnly` | packages/medusa/src/workflows/admin/create-products/definition.ts:105-402 | a handler's outcome is the same under any two contexts that agree on the saved responses it reads |
| `CreateProductsHandlers.ReadsFromSavedAncestors` | packages/medusa/src/workflows/admin/create-products/definition.ts:105-402 | every saved response a handler reads belongs to a step with `saveResponse` that is the handler's own step or one of its ancestors from the root |
| `CreateProductsHandlers.InventoryStepsSkipped` | packages/medusa/src/workflows/admin/create-products/definition.ts:228-317 | without an inventory service, both phases of both inventory steps return nothing after the warning for their step, and make no call |
| `CreateProductsHandlers.InventoryCallsNeedService` | packages/medusa/src/workflows/admin/create-products/definition.ts:228-317 | a handler calls an inventory function exactly when it is an inventory step's handler and the service is registered; only those handlers ever skip |
| `CreateProductsHandlers.ContainerOnlyGuardsInventory` | packages/medusa/src/workflows/admin/create-products/definition.ts:105-402 | the handlers other than the inventory ones behave the same whatever services the container holds |
| `CreateProductsHandlers.PricesCompensationClears` | packages/medusa/src/workflows/admin/create-products/definition.ts:319-371 | the `createPrices` compensation calls `updateProductsVariantsPrices` with the same products the invoke used and the cleared price map; it throws whenever the invoke throws |
| `CreateProductsHandlers.PricesCompensationIdempotent` | packages/medusa/src/workflows/admin/create-products/definition.ts:340-370 | compensating is re-invoking on cleared prices, and compensating again once the prices are cleared makes the same call |
| `CreateProductsHandlers.ResultReadsFirstProduct` | packages/medusa/src/workflows/admin/create-products/definition.ts:373-401 | `result` retrieves the first created product exactly when a non-empty product list was saved, and throws otherwise |

## Left out

- The orchestrator in `utils/transaction` is not part of this model. The model does not say how steps are executed,
  parallelised, recorded or compensated, or in what order.
- The bodies of the functions from `../../functions` are not part of this model. Their results are not modelled
  either: a saved response is a prepared-data record, a product list, or an opaque token.
  `CreateProductsPreparedData`, imported from there, is reduced to the three maps the handlers read.
- `result`'s `productService.retrieve` and `pricingService.setProductPrices` are one opaque call on the first product's id.
  Its two `container.resolve` lookups (`productService`, `pricingService`, lines 381-386) are folded into that call.
  The selected fields and relations are not modelled.
- The `container` that every handler forwards to the business functions is not recorded in the `Call` values. The
  model records only the data arguments; the container matters only to the inventory guard.
- `async`/`Promise` behaviour and the `manager` transaction handle are left out.
- `container.resolve` is a lookup that may find nothing. The guard only tests whether anything was found; how a real
  container reports a missing registration is not modelled.
- The logger is left out. The warning is returned as a value instead of being written.
- The types file (`./types`) is not part of this model. The price map has one `{ index, prices }` entry per handle, which is how the compensation's `forEach`
  destructures it.
- JavaScript `Map` keeps insertion order; Dafny maps are unordered. The rebuilt price map is modelled by contents only.
- TypeScript `as` casts are not checked at run time. Saved values pass to the business calls unchanged.
  The one exception is `products[0].id` in `result`: it is modelled to succeed only on a non-empty product list.
- The orchestrator's other duties are not modelled. These include rejecting duplicate ids and refusing a missing
  compensate handler. In the code they are guarantees of this fixed definition, proved here as lemmas.
- `packages/types/src/cart/service.ts` is an interface without bodies and is not part of this model.
