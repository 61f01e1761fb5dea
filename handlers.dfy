/**
 * `transactionHandler`: the table of handlers of the create-products
 * workflow, keyed by action and handler type, and the dispatch function the
 * orchestrator calls with an action id, a handler type and a payload.
 */
module CreateProductsHandlers {

  import opened Wrappers
  import opened WorkflowActions
  import opened ProductTypes
  import opened InventoryGuard
  import opened PriceClearing
  import opened TransactionSteps
  import opened CreateProductsSteps
  import F = WorkflowFunctions

  /** `TransactionHandlerType`. */
  datatype HandlerType = Invoke | Compensate

  /** `payload.context`: the responses saved so far, keyed by action id. */
  datatype Context = Context(invoke: map<string, Response>)

  datatype Payload = Payload(data: WorkflowInput, context: Context)

  /** The handlers `command` holds, one per (action, handler type) entry. */
  datatype Handler =
    | PrepareInvoke
    | CreateProductsInvoke
    | CreateProductsCompensate
    | AttachShippingProfileInvoke
    | AttachShippingProfileCompensate
    | AttachToSalesChannelInvoke
    | AttachToSalesChannelCompensate
    | CreateInventoryItemsInvoke
    | CreateInventoryItemsCompensate
    | AttachInventoryItemsInvoke
    | AttachInventoryItemsCompensate
    | CreatePricesInvoke
    | CreatePricesCompensate
    | ResultInvoke

  /**
   * What running a handler does: it calls one business function and returns
   * that call's result (or, when `returnsResult` is false, nothing); or the
   * inventory guard made it return nothing after a warning; or it threw a
   * TypeError before calling anything.
   */
  datatype Outcome =
    | Calls(call: F.Call, returnsResult: bool)
    | Skipped(warning: string)
    | ThrowsTypeError

  /** `command`: the handlers registered for each action. */
  function Command(a: Action): (r: map<HandlerType, Handler>)
    ensures Invoke in r
    ensures forall t :: t in r ==> EntryOf(r[t]) == (a, t)
  {
    match a
    case Prepare => map[Invoke := PrepareInvoke]
    case CreateProducts => map[Invoke := CreateProductsInvoke, Compensate := CreateProductsCompensate]
    case AttachShippingProfile =>
      map[Invoke := AttachShippingProfileInvoke, Compensate := AttachShippingProfileCompensate]
    case AttachToSalesChannel =>
      map[Invoke := AttachToSalesChannelInvoke, Compensate := AttachToSalesChannelCompensate]
    case CreateInventoryItems =>
      map[Invoke := CreateInventoryItemsInvoke, Compensate := CreateInventoryItemsCompensate]
    case AttachInventoryItems =>
      map[Invoke := AttachInventoryItemsInvoke, Compensate := AttachInventoryItemsCompensate]
    case CreatePrices => map[Invoke := CreatePricesInvoke, Compensate := CreatePricesCompensate]
    case Result => map[Invoke := ResultInvoke]
  }

  /** The action and handler type each handler is written for. */
  function EntryOf(h: Handler): (Action, HandlerType)
  {
    match h
    case PrepareInvoke => (Prepare, Invoke)
    case CreateProductsInvoke => (CreateProducts, Invoke)
    case CreateProductsCompensate => (CreateProducts, Compensate)
    case AttachShippingProfileInvoke => (AttachShippingProfile, Invoke)
    case AttachShippingProfileCompensate => (AttachShippingProfile, Compensate)
    case AttachToSalesChannelInvoke => (AttachToSalesChannel, Invoke)
    case AttachToSalesChannelCompensate => (AttachToSalesChannel, Compensate)
    case CreateInventoryItemsInvoke => (CreateInventoryItems, Invoke)
    case CreateInventoryItemsCompensate => (CreateInventoryItems, Compensate)
    case AttachInventoryItemsInvoke => (AttachInventoryItems, Invoke)
    case AttachInventoryItemsCompensate => (AttachInventoryItems, Compensate)
    case CreatePricesInvoke => (CreatePrices, Invoke)
    case CreatePricesCompensate => (CreatePrices, Compensate)
    case ResultInvoke => (Result, Invoke)
  }

  /** The four handlers that consult the inventory guard. */
  predicate IsInventoryHandler(h: Handler)
  {
    h in {CreateInventoryItemsInvoke, CreateInventoryItemsCompensate,
          AttachInventoryItemsInvoke, AttachInventoryItemsCompensate}
  }

  /** `invoke[a]`: the response saved for `a`, or undefined. */
  function Saved(ctx: Context, a: Action): Option<Response>
  {
    if Name(a) in ctx.invoke then Some(ctx.invoke[Name(a)]) else None
  }

  /**
   * Destructuring `invoke[prepare]`: None when nothing is saved (destructuring
   * undefined throws), Some(None) when the saved value has none of the
   * prepared-data fields (each field then reads undefined).
   */
  function DestructurePrepared(ctx: Context): Option<Option<PreparedData>>
  {
    match Saved(ctx, Prepare)
    case None => None
    case Some(PreparedResponse(p)) => Some(Some(p))
    case Some(_) => Some(None)
  }

  function ShippingProfileIds(p: Option<PreparedData>): Option<map<Handle, string>>
  {
    if p.Some? then Some(p.value.productsHandleShippingProfileIdMap) else None
  }

  function SalesChannels(p: Option<PreparedData>): Option<map<Handle, seq<string>>>
  {
    if p.Some? then Some(p.value.productsHandleSalesChannelsMap) else None
  }

  function VariantsIndexPrices(p: Option<PreparedData>): Option<PricesMap>
  {
    if p.Some? then Some(p.value.productsHandleVariantsIndexPricesMap) else None
  }

  /** The guard as each inventory handler runs it, named after the step. */
  function InventoryGuarded(c: Container, a: Action, call: F.Call, returnsResult: bool): Outcome
  {
    var g := ShouldSkipInventoryStep(c, Name(a));
    if g.skip then Skipped(g.warning.value) else Calls(call, returnsResult)
  }

  /** Running one handler of the table on `payload.data` and `payload.context`. */
  function Run(h: Handler, c: Container, data: WorkflowInput, ctx: Context): (r: Outcome)
    ensures r.Skipped? <==> IsInventoryHandler(h) && InventoryServiceName !in c.registrations
    ensures r.Calls? && F.IsInventoryCall(r.call) ==> IsInventoryHandler(h)
  {
    match h
    case PrepareInvoke => Calls(F.PrepareCreateProductsData(data), true)
    case CreateProductsInvoke => Calls(F.CreateProducts(data), true)
    case CreateProductsCompensate => Calls(F.RemoveProducts(Saved(ctx, CreateProducts)), true)
    case AttachShippingProfileInvoke =>
      (match DestructurePrepared(ctx)
       case None => ThrowsTypeError
       case Some(p) =>
         Calls(F.AttachShippingProfileToProducts(ShippingProfileIds(p), Saved(ctx, CreateProducts)), true))
    case AttachShippingProfileCompensate =>
      (match DestructurePrepared(ctx)
       case None => ThrowsTypeError
       case Some(p) =>
         Calls(F.DetachShippingProfileFromProducts(ShippingProfileIds(p), Saved(ctx, CreateProducts)), true))
    case AttachToSalesChannelInvoke =>
      (match DestructurePrepared(ctx)
       case None => ThrowsTypeError
       case Some(p) => Calls(F.AttachSalesChannelToProducts(SalesChannels(p), Saved(ctx, CreateProducts)), true))
    case AttachToSalesChannelCompensate =>
      (match DestructurePrepared(ctx)
       case None => ThrowsTypeError
       case Some(p) => Calls(F.DetachSalesChannelFromProducts(SalesChannels(p), Saved(ctx, CreateProducts)), true))
    case CreateInventoryItemsInvoke =>
      InventoryGuarded(c, CreateInventoryItems, F.CreateInventoryItems(Saved(ctx, CreateProducts)), true)
    case CreateInventoryItemsCompensate =>
      InventoryGuarded(c, CreateInventoryItems, F.RemoveInventoryItems(Saved(ctx, CreateInventoryItems)), false)
    case AttachInventoryItemsInvoke =>
      InventoryGuarded(c, AttachInventoryItems, F.AttachInventoryItems(Saved(ctx, CreateInventoryItems)), true)
    case AttachInventoryItemsCompensate =>
      InventoryGuarded(c, AttachInventoryItems, F.DetachInventoryItems(Saved(ctx, CreateInventoryItems)), true)
    case CreatePricesInvoke =>
      (match DestructurePrepared(ctx)
       case None => ThrowsTypeError
       case Some(p) => Calls(F.UpdateProductsVariantsPrices(Saved(ctx, CreateProducts), VariantsIndexPrices(p)), true))
    case CreatePricesCompensate =>
      // `forEach` on an undefined map throws before the price update is called.
      (match DestructurePrepared(ctx)
       case None => ThrowsTypeError
       case Some(p) =>
         if VariantsIndexPrices(p).None? then ThrowsTypeError
         else Calls(F.UpdateProductsVariantsPrices(Saved(ctx, CreateProducts),
                                                   Some(ClearedPrices(VariantsIndexPrices(p).value))), true))
    case ResultInvoke =>
      // `products[0].id` throws unless a non-empty product list was saved.
      (match Saved(ctx, CreateProducts)
       case Some(ProductsResponse(ps)) =>
         if |ps| > 0 then Calls(F.RetrieveProductWithPrices(ps[0].id), true) else ThrowsTypeError
       case _ => ThrowsTypeError)
  }

  /**
   * The dispatch closure: `command[actionId][type](payload.data, payload.context)`.
   * None stands for the TypeError JavaScript raises when no handler is registered.
   */
  function Dispatch(c: Container, actionId: string, t: HandlerType, payload: Payload): (r: Option<Outcome>)
    ensures r.Some? <==> exists a :: Name(a) == actionId && t in Command(a)
  {
    match FromName(actionId)
    case None => None
    case Some(a) =>
      if t in Command(a) then Some(Run(Command(a)[t], c, payload.data, payload.context)) else None
  }

  /** The saved responses each handler may read from `invoke`. */
  function Reads(h: Handler): (keys: set<Action>)
    ensures forall r :: r in keys ==> r in PathFor(EntryOf(h).0)
  {
    match h
    case PrepareInvoke => {}
    case CreateProductsInvoke => {}
    case CreateProductsCompensate => {CreateProducts}
    case AttachShippingProfileInvoke => {CreateProducts, Prepare}
    case AttachShippingProfileCompensate => {CreateProducts, Prepare}
    case AttachToSalesChannelInvoke => {CreateProducts, Prepare}
    case AttachToSalesChannelCompensate => {CreateProducts, Prepare}
    case CreateInventoryItemsInvoke => {CreateProducts}
    case CreateInventoryItemsCompensate => {CreateInventoryItems}
    case AttachInventoryItemsInvoke => {CreateInventoryItems}
    case AttachInventoryItemsCompensate => {CreateInventoryItems}
    case CreatePricesInvoke => {Prepare, CreateProducts}
    case CreatePricesCompensate => {Prepare, CreateProducts}
    case ResultInvoke => {CreateProducts}
  }

  /** Each table entry holds the handler written for that action and type, and every handler is in the table. */
  lemma CommandEntries(a: Action, t: HandlerType, h: Handler)
    ensures t in Command(a) ==> EntryOf(Command(a)[t]) == (a, t)
    ensures EntryOf(h).1 in Command(EntryOf(h).0) && Command(EntryOf(h).0)[EntryOf(h).1] == h
  {
  }

  /**
   * The table matches the tree: every action has an invoke handler, and a
   * compensate handler exactly when its step is not flagged `noCompensation`.
   */
  lemma CommandMatchesSteps(a: Action)
    ensures Invoke in Command(a)
    ensures Compensate in Command(a) <==> RequiresCompensation(WorkflowSteps, a)
  {
    CompensationFlags(a);
  }

  /**
   * Dispatching by an action's id runs the entry registered for it; there is
   * nothing to run for compensating `prepare` or `result`, nor for an id that
   * names no action.
   */
  lemma DispatchByName(c: Container, a: Action, t: HandlerType, payload: Payload)
    ensures Dispatch(c, Name(a), t, payload) ==
      if t in Command(a) then Some(Run(Command(a)[t], c, payload.data, payload.context)) else None
    ensures Dispatch(c, Name(a), Invoke, payload).Some?
    ensures Dispatch(c, Name(a), Compensate, payload).None? <==> a == Prepare || a == Result
  {
    FromNameRoundTrip(a);
  }

  /** Two contexts that agree on the responses a handler reads. */
  predicate AgreeOn(keys: set<Action>, ctx1: Context, ctx2: Context)
  {
    forall r :: r in keys ==> Saved(ctx1, r) == Saved(ctx2, r)
  }

  /** A handler's outcome depends on no saved response outside Reads. */
  lemma RunReadsOnly(h: Handler, c: Container, data: WorkflowInput, ctx1: Context, ctx2: Context)
    requires AgreeOn(Reads(h), ctx1, ctx2)
    ensures Run(h, c, data, ctx1) == Run(h, c, data, ctx2)
  {
    assert Prepare in Reads(h) ==> Saved(ctx1, Prepare) == Saved(ctx2, Prepare);
    assert CreateProducts in Reads(h) ==> Saved(ctx1, CreateProducts) == Saved(ctx2, CreateProducts);
    assert CreateInventoryItems in Reads(h) ==> Saved(ctx1, CreateInventoryItems) == Saved(ctx2, CreateInventoryItems);
  }

  /**
   * Every response a handler reads was saved (`saveResponse`) by the
   * handler's own step or by a step on the way from the root to it.
   */
  lemma ReadsFromSavedAncestors(h: Handler, r: Action)
    requires r in Reads(h)
    ensures Saves(WorkflowSteps, r)
    ensures AncestorOrSelf(WorkflowSteps, r, EntryOf(h).0)
  {
    SavedResponses(r);
    Ancestors(EntryOf(h).0);
  }

  /**
   * Without an inventory service, both handlers of both inventory steps
   * return nothing after the warning naming their step, and call nothing.
   */
  lemma InventoryStepsSkipped(h: Handler, c: Container, data: WorkflowInput, ctx: Context)
    requires IsInventoryHandler(h)
    requires InventoryServiceName !in c.registrations
    ensures Run(h, c, data, ctx) == Skipped(SkipWarning(Name(EntryOf(h).0)))
  {
  }

  /**
   * The inventory functions are called only by the inventory steps' handlers
   * and only when the service is registered; with it registered, those
   * handlers always make their call.
   */
  lemma InventoryCallsNeedService(h: Handler, c: Container, data: WorkflowInput, ctx: Context)
    ensures Run(h, c, data, ctx).Calls? && F.IsInventoryCall(Run(h, c, data, ctx).call) <==>
      IsInventoryHandler(h) && InventoryServiceName in c.registrations
    ensures Run(h, c, data, ctx).Skipped? ==> IsInventoryHandler(h)
  {
  }

  /** The inventory guard is the only place a handler branches on the container. */
  lemma ContainerOnlyGuardsInventory(h: Handler, c1: Container, c2: Container, data: WorkflowInput, ctx: Context)
    requires !IsInventoryHandler(h)
    ensures Run(h, c1, data, ctx) == Run(h, c2, data, ctx)
  {
  }

  /**
   * The `createPrices` compensation repeats the invoke's price update on the
   * same products, with the prepared map's prices cleared; it throws whenever
   * the invoke throws.
   */
  lemma PricesCompensationClears(c: Container, data: WorkflowInput, ctx: Context)
    ensures Run(CreatePricesInvoke, c, data, ctx).ThrowsTypeError? ==>
      Run(CreatePricesCompensate, c, data, ctx).ThrowsTypeError?
    ensures var inv := Run(CreatePricesInvoke, c, data, ctx);
      inv.Calls? && inv.call.UpdateProductsVariantsPrices? && inv.call.productsHandleVariantsIndexPricesMap.Some? ==>
        Run(CreatePricesCompensate, c, data, ctx) ==
          Calls(F.UpdateProductsVariantsPrices(
                  inv.call.products, Some(ClearedPrices(inv.call.productsHandleVariantsIndexPricesMap.value))), true)
  {
  }

  /** `ctx` with the prepared price map replaced by its cleared version. */
  function WithClearedPrices(ctx: Context, p: PreparedData): Context
  {
    Context(ctx.invoke[Name(Prepare) := PreparedResponse(
      p.(productsHandleVariantsIndexPricesMap := ClearedPrices(p.productsHandleVariantsIndexPricesMap)))])
  }

  /**
   * Compensating `createPrices` is the price update re-invoked on cleared
   * prices, and compensating once more after the prices are cleared makes
   * the same call again.
   */
  lemma PricesCompensationIdempotent(c: Container, data: WorkflowInput, ctx: Context, p: PreparedData)
    requires Saved(ctx, Prepare) == Some(PreparedResponse(p))
    ensures Run(CreatePricesInvoke, c, data, WithClearedPrices(ctx, p)) == Run(CreatePricesCompensate, c, data, ctx)
    ensures Run(CreatePricesCompensate, c, data, WithClearedPrices(ctx, p)) == Run(CreatePricesCompensate, c, data, ctx)
  {
    var ctx' := WithClearedPrices(ctx, p);
    NameInjective(Prepare, CreateProducts);
    assert Saved(ctx', CreateProducts) == Saved(ctx, CreateProducts);
    ClearedPricesIdempotent(p.productsHandleVariantsIndexPricesMap);
  }

  /** `result` reads back the first created product, and throws when there is none. */
  lemma ResultReadsFirstProduct(c: Container, data: WorkflowInput, ctx: Context)
    ensures Run(ResultInvoke, c, data, ctx).Calls? <==>
      Saved(ctx, CreateProducts).Some? && Saved(ctx, CreateProducts).value.ProductsResponse? &&
      |Saved(ctx, CreateProducts).value.products| > 0
    ensures Run(ResultInvoke, c, data, ctx).Calls? ==>
      Run(ResultInvoke, c, data, ctx).call ==
        F.RetrieveProductWithPrices(Saved(ctx, CreateProducts).value.products[0].id)
    ensures !Run(ResultInvoke, c, data, ctx).Calls? ==> Run(ResultInvoke, c, data, ctx).ThrowsTypeError?
  {
  }
}
