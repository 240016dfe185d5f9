/** Shared vocabulary of the interaction hooks: the records declared in
    `types.ts`, the DOM elements the hooks only compare and ask about, and
    the calls a hook makes on its host (`onOpenChange`, `events.emit`,
    `focus()`, `onNavigate`, `onMatch`), recorded in call order. */
module Types {

  datatype Option<+T> = None | Some(value: T) {
    function GetOr(default: T): T {
      match this
      case Some(v) => v
      case None => default
    }
  }

  /** A DOM element, known only by identity. */
  type Element = nat

  /** `a.contains(b)`: the hooks ask this question but never answer it. */
  type Contains = (Element, Element) -> bool

  /** `el?.contains(target)`: false when the element or the target is null. */
  predicate Holds(contains: Contains, container: Option<Element>, target: Option<Element>) {
    container.Some? && target.Some? && contains(container.value, target.value)
  }

  /** `refs.reference.current` and `refs.floating.current`; `None` is null
      (or, for the reference, a virtual element that is not in the DOM). */
  datatype Refs = Refs(reference: Option<Element>, floating: Option<Element>)

  /** Identity of an object or callback created once per hook instance. */
  datatype Handle = Handle(id: nat)

  /** The `onOpenChange` callback: the default no-op or a caller's function. */
  datatype OpenChangeHandler = NoOp | Handler(callback: Handle)

  /** `FloatingContext`: what every hook receives for one floating element. */
  datatype FloatingContext = FloatingContext(
    open: bool,
    onOpenChange: OpenChangeHandler,
    events: Handle,
    dataRef: Handle,
    nodeId: Option<string>,
    refs: Refs)

  /** `FloatingNodeType`: an entry of the tree registry. */
  datatype FloatingNode = FloatingNode(
    id: string,
    parentId: Option<string>,
    context: Option<FloatingContext>)

  /** `node.context?.open` */
  predicate IsOpen(node: FloatingNode) {
    node.context.Some? && node.context.value.open
  }

  /** What `focus()` was called on. */
  datatype FocusTarget = Item(index: int) | Target(element: Element)

  /** One call a hook makes on its host, in the order it makes them. */
  datatype Call =
    | OpenChange(open: bool)
    | Emit(event: string)
    | Focus(target: FocusTarget)
    | Navigate(index: Option<int>)
    | Match(matched: int)

  /** `focus()` on an element that may be absent (`el?.focus()`). */
  function FocusOn(element: Option<Element>): (calls: seq<Call>)
    ensures calls == [] <==> element.None?
    ensures element.Some? ==> calls == [Focus(Target(element.value))]
  {
    match element
    case Some(e) => [Focus(Target(e))]
    case None => []
  }

  /** A prop value on a rendered element: a string, `undefined`, or an event handler. */
  datatype PropValue = Text(text: string) | Undefined | Callback

  type PropMap = map<string, PropValue>

  /** `ElementProps`: the props a hook asks to spread on the reference and on
      the floating element; `None` means the key is absent from the object. */
  datatype ElementProps = ElementProps(reference: Option<PropMap>, floating: Option<PropMap>)

  /** `{}` */
  const NoProps := ElementProps(None, None)

  /** `dataRef.current`: scratch space shared by the hooks of one context. */
  class Data {
    /** `openEvent?.type` (the event itself is not modelled). */
    var openEvent: Option<string>
    var hoveredThenClicked: bool

    constructor ()
      ensures openEvent == None && !hoveredThenClicked
    {
      openEvent := None;
      hoveredThenClicked := false;
    }
  }
}
