/**
 * The eight step identifiers of the create-products workflow
 * (`CreateProductsWorkflowActions`) and the strings they stand for.
 */
module WorkflowActions {

  import opened Wrappers

  datatype Action =
    | Prepare
    | CreateProducts
    | AttachToSalesChannel
    | AttachShippingProfile
    | CreatePrices
    | CreateInventoryItems
    | AttachInventoryItems
    | Result

  /** The enum's members in declaration order. */
  const AllActions: seq<Action> :=
    [Prepare, CreateProducts, AttachToSalesChannel, AttachShippingProfile,
     CreatePrices, CreateInventoryItems, AttachInventoryItems, Result]

  /** The string value of each enum member: the action id the orchestrator dispatches on. */
  function Name(a: Action): string
  {
    match a
    case Prepare => "prepare"
    case CreateProducts => "createProducts"
    case AttachToSalesChannel => "attachToSalesChannel"
    case AttachShippingProfile => "attachShippingProfile"
    case CreatePrices => "createPrices"
    case CreateInventoryItems => "createInventoryItems"
    case AttachInventoryItems => "attachInventoryItems"
    case Result => "result"
  }

  /** The enum member whose value is `s`, if any. */
  function FromName(s: string): (r: Option<Action>)
    ensures r.Some? ==> Name(r.value) == s
    ensures r.None? ==> forall a :: Name(a) != s
  {
    if s == "prepare" then Some(Prepare)
    else if s == "createProducts" then Some(CreateProducts)
    else if s == "attachToSalesChannel" then Some(AttachToSalesChannel)
    else if s == "attachShippingProfile" then Some(AttachShippingProfile)
    else if s == "createPrices" then Some(CreatePrices)
    else if s == "createInventoryItems" then Some(CreateInventoryItems)
    else if s == "attachInventoryItems" then Some(AttachInventoryItems)
    else if s == "result" then Some(Result)
    else None
  }

  /** Looking an action up by its own id finds that action. */
  lemma FromNameRoundTrip(a: Action)
    ensures FromName(Name(a)) == Some(a)
  {
  }

  /** No two enum members share a string value. */
  lemma NameInjective(a: Action, b: Action)
    ensures Name(a) == Name(b) <==> a == b
  {
    FromNameRoundTrip(a);
    FromNameRoundTrip(b);
  }

  /** The enum lists every action exactly once. */
  lemma AllActionsEnumerated(a: Action)
    ensures a in AllActions
    ensures forall i, j :: 0 <= i < j < |AllActions| ==> AllActions[i] != AllActions[j]
  {
  }
}
