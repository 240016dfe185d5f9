/** `useFocusTrap`: while a modal floating element is open, Tab and
    Shift+Tab cycle focus through a fixed list of focusable elements; a
    non-modal one closes when focus leaves both elements. */
module FocusTrap {
  import opened Types
  import opened TreeQuery

  /** An entry of the `order` option. */
  datatype Part = ReferencePart | FloatingPart | ContentPart

  /** `initialContentFocus`: a position in the focus list, or a ref to an element. */
  datatype InitialFocus = Position(index: int) | ElementRef(current: Option<Element>)

  /** What one `order` entry contributes: the reference or the floating
      element when present, the focusable descendants of the floating
      element (`content`, empty without a floating element). */
  function PartElements(part: Part, refs: Refs, content: seq<Element>): seq<Element> {
    match part
    case ReferencePart => if refs.reference.Some? then [refs.reference.value] else []
    case FloatingPart => if refs.floating.Some? then [refs.floating.value] else []
    case ContentPart => if refs.floating.Some? then content else []
  }

  /** `getFocusableElements`: each entry of `order` mapped, absent ones
      dropped, the content list flattened in. */
  function FocusableElements(order: seq<Part>, refs: Refs, content: seq<Element>): (els: seq<Element>)
    ensures order == [] ==> els == []
    ensures forall e :: e in els <==> exists k :: 0 <= k < |order| && e in PartElements(order[k], refs, content)
  {
    if order == [] then []
    else
      var rest := FocusableElements(order[1..], refs, content);
      assert forall k :: 0 <= k < |order[1..]| ==> order[1..][k] == order[k + 1];
      PartElements(order[0], refs, content) + rest
  }

  /** The list follows `order`: a concatenated order gives the concatenated list. */
  lemma {:induction false} FocusableElementsAppend(a: seq<Part>, b: seq<Part>, refs: Refs, content: seq<Element>)
    ensures FocusableElements(a + b, refs, content) == FocusableElements(a, refs, content) + FocusableElements(b, refs, content)
  {
    if a != [] {
      assert (a + b)[1..] == a[1..] + b;
      FocusableElementsAppend(a[1..], b, refs, content);
    } else {
      assert a + b == b;
    }
  }

  /** The default `order`, `['content']`, lists exactly the content, or
      nothing without a floating element. */
  lemma DefaultOrderIsContent(refs: Refs, content: seq<Element>)
    ensures FocusableElements([ContentPart], refs, content) == (if refs.floating.Some? then content else [])
  {
  }

  /** Tab: the next position, wrapping from the last to the first. */
  function NextTabIndex(i: int, len: int): (r: int)
    ensures 0 <= i < len ==> 0 <= r < len
    ensures 0 <= i < len - 1 ==> r == i + 1
  {
    if i == len - 1 then 0 else i + 1
  }

  /** Shift+Tab: the previous position, wrapping from the first to the last. */
  function PrevTabIndex(i: int, len: int): (r: int)
    ensures 0 <= i < len ==> 0 <= r < len
    ensures 0 < i < len ==> r == i - 1
  {
    if i == 0 then len - 1 else i - 1
  }

  /** Shift+Tab undoes Tab and Tab undoes Shift+Tab on in-range positions. */
  lemma TabInverse(i: int, len: int)
    requires 0 <= i < len
    ensures PrevTabIndex(NextTabIndex(i, len), len) == i
    ensures NextTabIndex(PrevTabIndex(i, len), len) == i
  {
  }

  /** `k` presses of Tab. */
  function TabPresses(i: int, len: int, k: nat): int {
    if k == 0 then i else NextTabIndex(TabPresses(i, len, k - 1), len)
  }

  /** Before the end of the list, each Tab moves one place forward. */
  lemma {:induction false} TabPressesAdvance(i: int, len: int, k: nat)
    requires 0 <= i && i + k < len
    ensures TabPresses(i, len, k) == i + k
  {
    if k > 0 {
      TabPressesAdvance(i, len, k - 1);
    }
  }

  /** `a` presses then `b` presses are `a + b` presses. */
  lemma {:induction false} TabPressesCompose(i: int, len: int, a: nat, b: nat)
    ensures TabPresses(i, len, a + b) == TabPresses(TabPresses(i, len, a), len, b)
  {
    if b > 0 {
      TabPressesCompose(i, len, a, b - 1);
    }
  }

  /** From an in-range position, Tab runs to the end, wraps to the first
      element, and `len` presses come back: every element is visited once per
      round. */
  lemma TabPressesCycle(i: int, len: int)
    requires 0 <= i < len
    ensures forall k: nat :: k < len - i ==> TabPresses(i, len, k) == i + k
    ensures TabPresses(i, len, len - i) == 0
    ensures TabPresses(i, len, len) == i
  {
    forall k: nat | k < len - i
      ensures TabPresses(i, len, k) == i + k
    {
      TabPressesAdvance(i, len, k);
    }
    TabPressesAdvance(i, len, len - 1 - i);
    assert TabPresses(i, len, len - i) == NextTabIndex(len - 1, len);
    TabPressesCompose(i, len, len - i, i);
    TabPressesAdvance(0, len, i);
  }

  /** The guard of the keydown handler: some registry node whose parent is
      this node has an open context (an undefined `nodeId` matches no node). */
  predicate ChildOpen(tree: Option<seq<FloatingNode>>, nodeId: Option<string>)
    // Outside a tree, or without a node id, the guard never holds.
    ensures ChildOpen(tree, nodeId) ==> tree.Some? && nodeId.Some?
  {
    tree.Some? && exists n :: n in tree.value && nodeId.Some? && n.parentId == nodeId && IsOpen(n)
  }

  /** The guard is the first level of the registry query. */
  lemma ChildOpenIsFirstLevel(nodes: seq<FloatingNode>, nodeId: Option<string>)
    ensures ChildOpen(Some(nodes), nodeId) <==> Select(nodes, Root(nodeId)) != []
  {
    var s := Select(nodes, Root(nodeId));
    if s != [] {
      assert s[0] in s;
    }
    if ChildOpen(Some(nodes), nodeId) {
      var n :| n in nodes && nodeId.Some? && n.parentId == nodeId && IsOpen(n);
      assert n in s;
    }
  }

  /** The non-modal `onBlur` decision: focus moved to a known element that is
      in neither the floating element nor the reference. */
  predicate BlurCloses(relatedTarget: Option<Element>, refs: Refs, contains: Contains)
    // Focus leaving the document, or a missing reference element, never closes.
    ensures BlurCloses(relatedTarget, refs, contains) ==> relatedTarget.Some? && refs.reference.Some?
    // Focus moving into the floating element never closes.
    ensures Holds(contains, refs.floating, relatedTarget) ==> !BlurCloses(relatedTarget, refs, contains)
  {
    relatedTarget.Some? &&
    !Holds(contains, refs.floating, relatedTarget) &&
    refs.reference.Some? && !contains(refs.reference.value, relatedTarget.value)
  }

  /** The returned props: `{}` when disabled, `aria-modal` on the floating
      element when modal, else `onBlur` on both elements. */
  function FocusTrapProps(enabled: bool, modal: bool): (p: ElementProps)
    ensures !enabled ==> p == NoProps
    ensures enabled && modal ==> p == ElementProps(None, Some(map["aria-modal" := Text("true")]))
    ensures enabled && !modal ==>
              p == ElementProps(Some(map["onBlur" := Callback]), Some(map["onBlur" := Callback]))
  {
    if !enabled then NoProps
    else if modal then ElementProps(None, Some(map["aria-modal" := Text("true")]))
    else ElementProps(Some(map["onBlur" := Callback]), Some(map["onBlur" := Callback]))
  }

  /** `list[i]`, absent outside the list. */
  function ElementAt(list: seq<Element>, i: int): (e: Option<Element>)
    ensures e.Some? <==> 0 <= i < |list|
    ensures e.Some? ==> e.value == list[i]
  {
    if 0 <= i < |list| then Some(list[i]) else None
  }

  class FocusTrap {
    const enabled: bool
    const modal: bool
    const inert: bool
    const nodeId: Option<string>
    const order: seq<Part>
    const initialContentFocus: InitialFocus

    /** `indexRef`: the position of the focused element in the list. */
    var index: int
    /** The document `keydown` listener is attached. */
    var listening: bool
    var calls: seq<Call>

    constructor (enabled: bool, modal: bool, inert: bool, nodeId: Option<string>, order: seq<Part>,
                 initialContentFocus: InitialFocus)
      ensures this.enabled == enabled && this.modal == modal && this.inert == inert
      ensures this.nodeId == nodeId && this.order == order && this.initialContentFocus == initialContentFocus
      ensures index == 0 && !listening && calls == []
    {
      this.enabled := enabled;
      this.modal := modal;
      this.inert := inert;
      this.nodeId := nodeId;
      this.order := order;
      this.initialContentFocus := initialContentFocus;
      index := 0;
      listening := false;
      calls := [];
    }

    /** The keydown effect for a new `open`: the previous listener goes; a
        modal, enabled trap listens while open and resets the index on close. */
    method KeyEffect(open: bool)
      modifies this`listening, this`index
      ensures listening <==> modal && enabled && open
      ensures modal && enabled && !open ==> index == 0
      ensures !(modal && enabled && !open) ==> index == old(index)
    {
      listening := false;
      if !modal || !enabled {
        return;
      }
      if !open {
        index := 0;
        return;
      }
      listening := true;
    }

    /** The initial-focus effect: on open, focus the chosen element of the
        list; on close, a modal trap returns focus to the reference. */
    method FocusEffect(open: bool, refs: Refs, content: seq<Element>)
      modifies this`calls
      ensures inert || !enabled ==> calls == old(calls)
      ensures !inert && enabled && open && initialContentFocus.Position? ==>
                calls == old(calls) + FocusOn(ElementAt(FocusableElements(order, refs, content), initialContentFocus.index))
      ensures !inert && enabled && open && initialContentFocus.ElementRef? ==>
                calls == old(calls) +
                  (if initialContentFocus.current.Some? && initialContentFocus.current.value in FocusableElements(order, refs, content)
                   then FocusOn(initialContentFocus.current) else [])
      ensures !inert && enabled && !open ==>
                calls == old(calls) + (if modal then FocusOn(refs.reference) else [])
    {
      if inert || !enabled {
        return;
      }
      if open {
        var els := FocusableElements(order, refs, content);
        match initialContentFocus
        case Position(i) =>
          calls := calls + FocusOn(ElementAt(els, i));
        case ElementRef(current) =>
          if current.Some? && current.value in els {
            calls := calls + FocusOn(current);
          }
      } else if modal {
        calls := calls + FocusOn(refs.reference);
      }
    }

    /** The document `keydown` listener. While a child is open it does
        nothing. Tab is prevented; unless `inert`, the index moves forward
        (backward with Shift) round the list and that element is focused. */
    method KeyDown(key: string, shiftKey: bool, tree: Option<seq<FloatingNode>>, refs: Refs, content: seq<Element>)
      returns (prevented: bool)
      modifies this`index, this`calls
      ensures prevented <==> listening && !ChildOpen(tree, nodeId) && key == "Tab"
      ensures !prevented || inert ==> index == old(index) && calls == old(calls)
      ensures prevented && !inert ==>
                var len := |FocusableElements(order, refs, content)|;
                index == (if shiftKey then PrevTabIndex(old(index), len) else NextTabIndex(old(index), len)) &&
                calls == old(calls) + FocusOn(ElementAt(FocusableElements(order, refs, content), index))
    {
      prevented := false;
      if !listening || ChildOpen(tree, nodeId) {
        return;
      }
      if key == "Tab" {
        prevented := true;
        if inert {
          return;
        }
        var els := FocusableElements(order, refs, content);
        if shiftKey {
          index := if index == 0 then |els| - 1 else index - 1;
        } else {
          index := if index == |els| - 1 then 0 else index + 1;
        }
        calls := calls + FocusOn(ElementAt(els, index));
      }
    }

    /** The non-modal `onBlur`, present only when enabled and not modal. */
    method Blur(relatedTarget: Option<Element>, refs: Refs, contains: Contains)
      requires enabled && !modal
      modifies this`calls
      ensures BlurCloses(relatedTarget, refs, contains) ==> calls == old(calls) + [OpenChange(false)]
      ensures !BlurCloses(relatedTarget, refs, contains) ==> calls == old(calls)
    {
      if relatedTarget.Some? && !Holds(contains, refs.floating, relatedTarget) &&
         refs.reference.Some? && !contains(refs.reference.value, relatedTarget.value) {
        calls := calls + [OpenChange(false)];
      }
    }
  }

  /** A modal trap over reference, floating element and two content
      elements: Tab walks the list and wraps, Shift+Tab wraps back, and Tab
      is ignored while a child popover is open. */
  method TabCycle() returns (focused: seq<Call>, ignored: bool)
    ensures focused == [Focus(Target(1)), Focus(Target(2)), Focus(Target(10)), Focus(Target(11)),
                        Focus(Target(1)), Focus(Target(11))]
    ensures !ignored
  {
    var refs := Refs(Some(1), Some(2));
    var content := [10, 11];
    var t := new FocusTrap(true, true, false, Some("menu"), [ReferencePart, FloatingPart, ContentPart], Position(0));
    assert FocusableElements(t.order, refs, content) == [1, 2, 10, 11] by {
      assert t.order[1..] == [FloatingPart, ContentPart];
      assert t.order[1..][1..] == [ContentPart];
      assert t.order[1..][1..][1..] == [];
    }
    t.KeyEffect(true);
    t.FocusEffect(true, refs, content);
    var _ := t.KeyDown("Tab", false, None, refs, content);
    var _ := t.KeyDown("Tab", false, None, refs, content);
    var _ := t.KeyDown("Tab", false, None, refs, content);
    var _ := t.KeyDown("Tab", false, None, refs, content);
    var _ := t.KeyDown("Tab", true, None, refs, content);
    focused := t.calls;
    var open := Some(FloatingContext(true, NoOp, Handle(0), Handle(1), Some("sub"), Refs(None, None)));
    var tree := [FloatingNode("menu", None, None), FloatingNode("sub", Some("menu"), open)];
    assert FloatingNode("sub", Some("menu"), open) in tree;
    ignored := t.KeyDown("Tab", false, Some(tree), refs, content);
  }

  /** With the default `order`, `getFocusableElements` is a new function on
      every render, so the focus effect reruns after each render: a closed
      modal trap focuses its reference once per render. */
  method ClosedModalRefocusesEachRender() returns (log: seq<Call>)
    ensures log == [Focus(Target(1)), Focus(Target(1))]
  {
    var refs := Refs(Some(1), Some(2));
    var t := new FocusTrap(true, true, false, None, [ContentPart], Position(0));
    t.FocusEffect(false, refs, []);
    t.FocusEffect(false, refs, []);
    log := t.calls;
  }
}
