/**
 * The shape of a transaction steps definition: a tree of step entries, each
 * naming an action, whether its invoke result is kept for later steps
 * (`saveResponse`) and whether it is exempt from compensation
 * (`noCompensation`). Omitted flags are false. `next` is absent, one entry
 * (the branch continues) or an array of entries (parallel branches).
 */
module TransactionSteps {

  import opened Wrappers
  import opened WorkflowActions

  datatype Next = Leaf | Single(step: StepNode) | Fanout(steps: seq<StepNode>)

  /** One entry of the definition; the outermost entry carries no action. */
  datatype StepNode = StepNode(action: Option<Action>, saveResponse: bool, noCompensation: bool, next: Next)

  /** The entries `next` leads to, in declaration order. */
  function Children(n: StepNode): seq<StepNode>
  {
    match n.next
    case Leaf => []
    case Single(c) => [c]
    case Fanout(cs) => cs
  }

  /** The entry's own action, as a sequence of zero or one element. */
  function Own(n: StepNode): seq<Action>
  {
    if n.action.Some? then [n.action.value] else []
  }

  /** Every action of the tree, in pre-order (parent first, then branches left to right). */
  function ActionsOf(n: StepNode): seq<Action>
    decreases n
  {
    Own(n) + match n.next
             case Leaf => []
             case Single(c) => ActionsOf(c)
             case Fanout(cs) => ActionsOfAll(cs)
  }

  function ActionsOfAll(ns: seq<StepNode>): seq<Action>
    decreases ns
  {
    if ns == [] then [] else ActionsOf(ns[0]) + ActionsOfAll(ns[1..])
  }

  /** The actions of the entries that have no `next`, left to right. */
  function LeavesOf(n: StepNode): seq<Action>
    decreases n
  {
    match n.next
    case Leaf => Own(n)
    case Single(c) => LeavesOf(c)
    case Fanout(cs) => LeavesOfAll(cs)
  }

  function LeavesOfAll(ns: seq<StepNode>): seq<Action>
    decreases ns
  {
    if ns == [] then [] else LeavesOf(ns[0]) + LeavesOfAll(ns[1..])
  }

  predicate Unique(s: seq<Action>)
  {
    forall i, j :: 0 <= i < j < |s| ==> s[i] != s[j]
  }

  function Prefixed(n: StepNode, p: Option<seq<Action>>): Option<seq<Action>>
  {
    match p
    case None => None
    case Some(q) => Some(Own(n) + q)
  }

  /**
   * The actions on the way from `n` down to the first entry for `a`, both
   * ends included: the steps that run before `a` on its branch, then `a`.
   */
  function PathTo(n: StepNode, a: Action): (r: Option<seq<Action>>)
    ensures r.Some? ==> |r.value| > 0 && r.value[|r.value| - 1] == a
    decreases n
  {
    if n.action == Some(a) then Some([a])
    else match n.next
      case Leaf => None
      case Single(c) => Prefixed(n, PathTo(c, a))
      case Fanout(cs) => Prefixed(n, PathAmong(cs, a))
  }

  function PathAmong(ns: seq<StepNode>, a: Action): (r: Option<seq<Action>>)
    ensures r.Some? ==> |r.value| > 0 && r.value[|r.value| - 1] == a
    decreases ns
  {
    if ns == [] then None
    else match PathTo(ns[0], a)
      case Some(p) => Some(p)
      case None => PathAmong(ns[1..], a)
  }

  /** The first entry (in pre-order) whose action is `a`. */
  function FindStep(n: StepNode, a: Action): (r: Option<StepNode>)
    ensures r.Some? ==> r.value.action == Some(a)
    decreases n
  {
    if n.action == Some(a) then Some(n)
    else match n.next
      case Leaf => None
      case Single(c) => FindStep(c, a)
      case Fanout(cs) => FindAmong(cs, a)
  }

  function FindAmong(ns: seq<StepNode>, a: Action): (r: Option<StepNode>)
    ensures r.Some? ==> r.value.action == Some(a)
    decreases ns
  {
    if ns == [] then None
    else match FindStep(ns[0], a)
      case Some(s) => Some(s)
      case None => FindAmong(ns[1..], a)
  }

  /** `a` is in the tree and its entry keeps its invoke result. */
  predicate Saves(n: StepNode, a: Action)
  {
    FindStep(n, a).Some? && FindStep(n, a).value.saveResponse
  }

  /** `a` is in the tree and its entry is not flagged `noCompensation`. */
  predicate RequiresCompensation(n: StepNode, a: Action)
  {
    FindStep(n, a).Some? && !FindStep(n, a).value.noCompensation
  }

  /** `r` is `a` itself or an entry on the way from the root down to `a`. */
  predicate AncestorOrSelf(n: StepNode, r: Action, a: Action)
  {
    PathTo(n, a).Some? && r in PathTo(n, a).value
  }

  /** An action has a path from the root exactly when it occurs in the tree. */
  lemma {:induction false} PathIffOccurs(n: StepNode, a: Action)
    ensures PathTo(n, a).Some? <==> a in ActionsOf(n)
    decreases n
  {
    match n.next
    case Leaf =>
    case Single(c) => PathIffOccurs(c, a);
    case Fanout(cs) => PathAmongIffOccurs(cs, a);
  }

  lemma {:induction false} PathAmongIffOccurs(ns: seq<StepNode>, a: Action)
    ensures PathAmong(ns, a).Some? <==> a in ActionsOfAll(ns)
    decreases ns
  {
    if ns != [] {
      PathIffOccurs(ns[0], a);
      PathAmongIffOccurs(ns[1..], a);
    }
  }

  /** Every action on a path occurs in the tree. */
  lemma {:induction false} PathWithinTree(n: StepNode, a: Action)
    ensures PathTo(n, a).Some? ==> forall x :: x in PathTo(n, a).value ==> x in ActionsOf(n)
    decreases n
  {
    match n.next
    case Leaf =>
    case Single(c) => PathWithinTree(c, a);
    case Fanout(cs) => PathAmongWithinTree(cs, a);
  }

  lemma {:induction false} PathAmongWithinTree(ns: seq<StepNode>, a: Action)
    ensures PathAmong(ns, a).Some? ==> forall x :: x in PathAmong(ns, a).value ==> x in ActionsOfAll(ns)
    decreases ns
  {
    if ns != [] {
      PathWithinTree(ns[0], a);
      PathAmongWithinTree(ns[1..], a);
    }
  }

  /** The entry for `a` is found exactly when `a` has a path from the root. */
  lemma {:induction false} FindIffPath(n: StepNode, a: Action)
    ensures FindStep(n, a).Some? <==> PathTo(n, a).Some?
    decreases n
  {
    match n.next
    case Leaf =>
    case Single(c) => FindIffPath(c, a);
    case Fanout(cs) => FindAmongIffPath(cs, a);
  }

  lemma {:induction false} FindAmongIffPath(ns: seq<StepNode>, a: Action)
    ensures FindAmong(ns, a).Some? <==> PathAmong(ns, a).Some?
    decreases ns
  {
    if ns != [] {
      FindIffPath(ns[0], a);
      FindAmongIffPath(ns[1..], a);
    }
  }

  /** An action absent from a tree has no entry there: nothing saved, nothing to compensate. */
  lemma AbsentHasNoEntry(n: StepNode, a: Action)
    requires a !in ActionsOf(n)
    ensures FindStep(n, a).None?
    ensures !Saves(n, a) && !RequiresCompensation(n, a)
  {
    PathIffOccurs(n, a);
    FindIffPath(n, a);
  }

  /** Both ends of the ancestor relation are actions of the tree. */
  lemma AncestorsOccur(n: StepNode, r: Action, a: Action)
    requires AncestorOrSelf(n, r, a)
    ensures r in ActionsOf(n) && a in ActionsOf(n)
  {
    PathWithinTree(n, a);
    PathIffOccurs(n, a);
  }
}
