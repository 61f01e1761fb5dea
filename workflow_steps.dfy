/**
 * The create-products steps definition (`workflowSteps`) and the structural
 * guarantees it gives the orchestrator.
 */
module CreateProductsSteps {

  import opened Wrappers
  import opened WorkflowActions
  import opened TransactionSteps

  function Step(a: Action, saveResponse: bool, noCompensation: bool, next: Next): StepNode
  {
    StepNode(Some(a), saveResponse, noCompensation, next)
  }

  // The entries of `workflowSteps`, innermost first.
  const ResultStep: StepNode := Step(Result, true, true, Leaf)
  const AttachInventoryItemsStep: StepNode := Step(AttachInventoryItems, true, false, Single(ResultStep))
  const CreateInventoryItemsStep: StepNode := Step(CreateInventoryItems, true, false, Single(AttachInventoryItemsStep))
  const CreatePricesStep: StepNode := Step(CreatePrices, false, false, Single(CreateInventoryItemsStep))
  const AttachShippingProfileStep: StepNode := Step(AttachShippingProfile, false, false, Leaf)
  const AttachToSalesChannelStep: StepNode := Step(AttachToSalesChannel, false, false, Leaf)
  const CreateProductsStep: StepNode :=
    Step(CreateProducts, true, false,
         Fanout([AttachShippingProfileStep, AttachToSalesChannelStep, CreatePricesStep]))
  const PrepareStep: StepNode := Step(Prepare, true, true, Single(CreateProductsStep))

  /** `workflowSteps`: an outer entry without an action whose `next` is `prepare`. */
  const WorkflowSteps: StepNode := StepNode(None, false, false, Single(PrepareStep))

  /** The entry declared for each action. */
  function StepFor(a: Action): StepNode
  {
    match a
    case Prepare => PrepareStep
    case CreateProducts => CreateProductsStep
    case AttachShippingProfile => AttachShippingProfileStep
    case AttachToSalesChannel => AttachToSalesChannelStep
    case CreatePrices => CreatePricesStep
    case CreateInventoryItems => CreateInventoryItemsStep
    case AttachInventoryItems => AttachInventoryItemsStep
    case Result => ResultStep
  }

  /** The actions that run before `a` on its branch, then `a`. */
  function PathFor(a: Action): seq<Action>
  {
    match a
    case Prepare => [Prepare]
    case CreateProducts => [Prepare, CreateProducts]
    case AttachShippingProfile => [Prepare, CreateProducts, AttachShippingProfile]
    case AttachToSalesChannel => [Prepare, CreateProducts, AttachToSalesChannel]
    case CreatePrices => [Prepare, CreateProducts, CreatePrices]
    case CreateInventoryItems => [Prepare, CreateProducts, CreatePrices, CreateInventoryItems]
    case AttachInventoryItems => [Prepare, CreateProducts, CreatePrices, CreateInventoryItems, AttachInventoryItems]
    case Result => [Prepare, CreateProducts, CreatePrices, CreateInventoryItems, AttachInventoryItems, Result]
  }

  /** Evaluating the traversals at an entry without `next`. */
  lemma AtLeaf(n: StepNode, a: Action)
    requires n.action.Some? && n.next.Leaf?
    ensures ActionsOf(n) == [n.action.value] && LeavesOf(n) == [n.action.value]
    ensures FindStep(n, a) == if n.action == Some(a) then Some(n) else None
    ensures PathTo(n, a) == if n.action == Some(a) then Some([a]) else None
  {
  }

  /** Evaluating the traversals at an entry whose `next` is a single entry `c`. */
  lemma AtSingle(n: StepNode, c: StepNode, a: Action)
    requires n.next == Single(c)
    ensures ActionsOf(n) == Own(n) + ActionsOf(c) && LeavesOf(n) == LeavesOf(c)
    ensures FindStep(n, a) == if n.action == Some(a) then Some(n) else FindStep(c, a)
    ensures PathTo(n, a) == if n.action == Some(a) then Some([a]) else Prefixed(n, PathTo(c, a))
  {
  }

  /** Evaluating the traversals at an entry whose `next` is an array of entries. */
  lemma AtFanout(n: StepNode, a: Action)
    requires n.next.Fanout?
    ensures ActionsOf(n) == Own(n) + ActionsOfAll(n.next.steps)
    ensures LeavesOf(n) == LeavesOfAll(n.next.steps)
    ensures FindStep(n, a) == if n.action == Some(a) then Some(n) else FindAmong(n.next.steps, a)
    ensures PathTo(n, a) == if n.action == Some(a) then Some([a]) else Prefixed(n, PathAmong(n.next.steps, a))
  {
  }

  /** The actions and leaves of three sibling branches. */
  lemma TraverseThree(x: StepNode, y: StepNode, z: StepNode)
    ensures ActionsOfAll([x, y, z]) == ActionsOf(x) + ActionsOf(y) + ActionsOf(z)
    ensures LeavesOfAll([x, y, z]) == LeavesOf(x) + LeavesOf(y) + LeavesOf(z)
  {
    assert [x, y, z][1..] == [y, z];
    assert [y, z][1..] == [z];
    assert [z][1..] == [];
    assert ActionsOfAll([z]) == ActionsOf(z);
    assert ActionsOfAll([y, z]) == ActionsOf(y) + ActionsOf(z);
    assert LeavesOfAll([z]) == LeavesOf(z);
    assert LeavesOfAll([y, z]) == LeavesOf(y) + LeavesOf(z);
  }

  /** Looking an action up among three sibling branches, left to right. */
  lemma FindAmongThree(x: StepNode, y: StepNode, z: StepNode, a: Action)
    ensures FindAmong([x, y, z], a) ==
      if FindStep(x, a).Some? then FindStep(x, a)
      else if FindStep(y, a).Some? then FindStep(y, a)
      else FindStep(z, a)
  {
    assert [x, y, z][1..] == [y, z];
    assert [y, z][1..] == [z];
    assert [z][1..] == [];
    assert FindAmong([z], a) == FindStep(z, a);
    assert FindAmong([y, z], a) == if FindStep(y, a).Some? then FindStep(y, a) else FindStep(z, a);
  }

  /** The path to an action among three sibling branches, left to right. */
  lemma PathAmongThree(x: StepNode, y: StepNode, z: StepNode, a: Action)
    ensures PathAmong([x, y, z], a) ==
      if PathTo(x, a).Some? then PathTo(x, a)
      else if PathTo(y, a).Some? then PathTo(y, a)
      else PathTo(z, a)
  {
    assert [x, y, z][1..] == [y, z];
    assert [y, z][1..] == [z];
    assert [z][1..] == [];
    assert PathAmong([z], a) == PathTo(z, a);
    assert PathAmong([y, z], a) == if PathTo(y, a).Some? then PathTo(y, a) else PathTo(z, a);
  }

  /** The actions and leaves of the `createPrices` branch, evaluated entry by entry from the bottom. */
  lemma UnfoldPricesBranch()
    ensures ActionsOf(CreatePricesStep) == [CreatePrices, CreateInventoryItems, AttachInventoryItems, Result]
    ensures LeavesOf(CreatePricesStep) == [Result]
  {
    var a := Result;
    AtLeaf(ResultStep, a);
    AtSingle(AttachInventoryItemsStep, ResultStep, a);
    AtSingle(CreateInventoryItemsStep, AttachInventoryItemsStep, a);
    AtSingle(CreatePricesStep, CreateInventoryItemsStep, a);
  }

  /** The actions and leaves below `createProducts`, from its three branches. */
  lemma UnfoldCreateProducts()
    ensures ActionsOf(CreateProductsStep) ==
      [CreateProducts, AttachShippingProfile, AttachToSalesChannel,
       CreatePrices, CreateInventoryItems, AttachInventoryItems, Result]
    ensures LeavesOf(CreateProductsStep) == [AttachShippingProfile, AttachToSalesChannel, Result]
  {
    var a := Result;
    UnfoldPricesBranch();
    AtLeaf(AttachShippingProfileStep, a);
    AtLeaf(AttachToSalesChannelStep, a);
    AtFanout(CreateProductsStep, a);
    TraverseThree(AttachShippingProfileStep, AttachToSalesChannelStep, CreatePricesStep);
  }

  /** The actions and leaves of the tree, evaluated entry by entry from the bottom. */
  lemma UnfoldActions()
    ensures ActionsOf(CreatePricesStep) == [CreatePrices, CreateInventoryItems, AttachInventoryItems, Result]
    ensures LeavesOf(CreatePricesStep) == [Result]
    ensures ActionsOf(WorkflowSteps) ==
      [Prepare, CreateProducts, AttachShippingProfile, AttachToSalesChannel,
       CreatePrices, CreateInventoryItems, AttachInventoryItems, Result]
    ensures LeavesOf(WorkflowSteps) == [AttachShippingProfile, AttachToSalesChannel, Result]
  {
    var a := Result;
    UnfoldPricesBranch();
    UnfoldCreateProducts();
    AtSingle(PrepareStep, CreateProductsStep, a);
    assert ActionsOf(PrepareStep) == [Prepare] + ActionsOf(CreateProductsStep);
    AtSingle(WorkflowSteps, PrepareStep, a);
    assert ActionsOf(WorkflowSteps) == [] + ActionsOf(PrepareStep);
  }

  /**
   * Where `a` sits below the entry `n`, whose ancestors are `above`: the
   * entry declared for `a`, reached along the rest of PathFor(a).
   */
  predicate LocatedBelow(n: StepNode, above: seq<Action>, below: set<Action>, a: Action)
  {
    if a in below then
      FindStep(n, a) == Some(StepFor(a)) && PathTo(n, a).Some? && above + PathTo(n, a).value == PathFor(a)
    else
      FindStep(n, a).None? && PathTo(n, a).None?
  }

  lemma LocateInChain(a: Action)
    ensures LocatedBelow(ResultStep, PathFor(AttachInventoryItems), {Result}, a)
    ensures LocatedBelow(AttachInventoryItemsStep, PathFor(CreateInventoryItems), {AttachInventoryItems, Result}, a)
    ensures LocatedBelow(CreateInventoryItemsStep, PathFor(CreatePrices), {CreateInventoryItems, AttachInventoryItems, Result}, a)
  {
    AtLeaf(ResultStep, a);
    AtSingle(AttachInventoryItemsStep, ResultStep, a);
    AtSingle(CreateInventoryItemsStep, AttachInventoryItemsStep, a);
  }

  lemma LocateInPricesBranch(a: Action)
    ensures LocatedBelow(CreatePricesStep, PathFor(CreateProducts), {CreatePrices, CreateInventoryItems, AttachInventoryItems, Result}, a)
  {
    LocateInChain(a);
    AtSingle(CreatePricesStep, CreateInventoryItemsStep, a);
  }

  lemma LocateBelowCreateProducts(a: Action)
    ensures LocatedBelow(CreateProductsStep, PathFor(Prepare), {CreateProducts, AttachShippingProfile, AttachToSalesChannel,
                                                 CreatePrices, CreateInventoryItems, AttachInventoryItems, Result}, a)
  {
    LocateInPricesBranch(a);
    AtLeaf(AttachShippingProfileStep, a);
    AtLeaf(AttachToSalesChannelStep, a);
    AtFanout(CreateProductsStep, a);
    FindAmongThree(AttachShippingProfileStep, AttachToSalesChannelStep, CreatePricesStep, a);
    PathAmongThree(AttachShippingProfileStep, AttachToSalesChannelStep, CreatePricesStep, a);
  }

  /** Every action has an entry in the tree, reached along PathFor. */
  lemma UnfoldFind(a: Action)
    ensures FindStep(WorkflowSteps, a) == Some(StepFor(a))
    ensures PathTo(WorkflowSteps, a) == Some(PathFor(a))
  {
    LocateBelowCreateProducts(a);
    AtSingle(PrepareStep, CreateProductsStep, a);
    AtSingle(WorkflowSteps, PrepareStep, a);
    assert LocatedBelow(PrepareStep, [], {Prepare, CreateProducts, AttachShippingProfile, AttachToSalesChannel,
                                         CreatePrices, CreateInventoryItems, AttachInventoryItems, Result}, a);
  }

  /** The tree's pre-order list of actions, as UnfoldActions evaluates it. */
  const PreOrder: seq<Action> :=
    [Prepare, CreateProducts, AttachShippingProfile, AttachToSalesChannel,
     CreatePrices, CreateInventoryItems, AttachInventoryItems, Result]

  lemma PreOrderListsEnum()
    ensures Unique(PreOrder)
    ensures forall a :: a in PreOrder
    ensures |PreOrder| == |AllActions|
  {
    forall a: Action
      ensures a in PreOrder
    {
      AllActionsEnumerated(a);
    }
  }

  /** Action ids are unique in the tree, and the tree covers the whole enum. */
  lemma ActionsUniqueAndComplete()
    ensures Unique(ActionsOf(WorkflowSteps))
    ensures forall a :: a in ActionsOf(WorkflowSteps)
    ensures |ActionsOf(WorkflowSteps)| == |AllActions|
  {
    UnfoldActions();
    assert ActionsOf(WorkflowSteps) == PreOrder;
    PreOrderListsEnum();
  }

  /**
   * The tree's shape: `prepare`, then `createProducts`, then exactly three
   * sibling branches; the third is the linear chain `createPrices`,
   * `createInventoryItems`, `attachInventoryItems`, `result`, each entry the
   * single `next` of the one before; and
   * the tree's leaves are the two attach steps and `result`.
   */
  lemma TreeShape()
    ensures WorkflowSteps.action.None? && Children(WorkflowSteps) == [StepFor(Prepare)]
    ensures Children(StepFor(Prepare)) == [StepFor(CreateProducts)]
    ensures var branches := Children(StepFor(CreateProducts));
      |branches| == 3 &&
      branches[0] == StepFor(AttachShippingProfile) && branches[0].next.Leaf? &&
      branches[1] == StepFor(AttachToSalesChannel) && branches[1].next.Leaf? &&
      branches[2] == StepFor(CreatePrices) &&
      ActionsOf(branches[2]) == [CreatePrices, CreateInventoryItems, AttachInventoryItems, Result] &&
      LeavesOf(branches[2]) == [Result]
    ensures Children(StepFor(CreatePrices)) == [StepFor(CreateInventoryItems)]
    ensures Children(StepFor(CreateInventoryItems)) == [StepFor(AttachInventoryItems)]
    ensures Children(StepFor(AttachInventoryItems)) == [StepFor(Result)]
    ensures StepFor(Result).next.Leaf?
    ensures LeavesOf(WorkflowSteps) == [AttachShippingProfile, AttachToSalesChannel, Result]
  {
    UnfoldActions();
  }

  /** Only `prepare` and `result` are exempt from compensation. */
  lemma CompensationFlags(a: Action)
    ensures RequiresCompensation(WorkflowSteps, a) <==> a != Prepare && a != Result
  {
    UnfoldFind(a);
  }

  /** The steps whose invoke result is kept for later steps. */
  lemma SavedResponses(a: Action)
    ensures Saves(WorkflowSteps, a) <==>
      a in {Prepare, CreateProducts, CreateInventoryItems, AttachInventoryItems, Result}
  {
    UnfoldFind(a);
  }

  /** Each step's ancestors on the way from the root. */
  lemma Ancestors(a: Action)
    ensures PathTo(WorkflowSteps, a) == Some(PathFor(a))
    ensures forall r :: AncestorOrSelf(WorkflowSteps, r, a) <==> r in PathFor(a)
  {
    UnfoldFind(a);
  }
}
