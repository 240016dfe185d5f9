/** `useDismiss`: closes the floating element on Escape, on a pointer-down
    outside it, on a press of the reference, or when an overflow ancestor
    scrolls. The document and ancestor listeners exist only while open. */
module Dismiss {
  import opened Types
  import opened TreeQuery

  /** The hook's options, read on every render. */
  datatype Options = Options(
    enabled: bool,
    escapeKey: bool,
    outsidePointerDown: bool,
    referencePointerDown: bool,
    ancestorScroll: bool)

  const Defaults := Options(true, true, true, false, false)

  /** A listener the effect adds: on the document, or on an overflow ancestor. */
  datatype Listener = KeyDownListener | PointerDownListener | ScrollListener(ancestor: Element)

  /** One scroll listener per ancestor, in order. */
  function ScrollListeners(ancestors: seq<Element>): seq<Listener> {
    seq(|ancestors|, i requires 0 <= i < |ancestors| => ScrollListener(ancestors[i]))
  }

  /** The ancestors watched for scrolling: those of the reference, then those
      of the floating element (`getOverflowAncestors` is `ancestorsOf`). */
  function WatchedAncestors(opts: Options, refs: Refs, ancestorsOf: Element -> seq<Element>): seq<Element> {
    if !opts.ancestorScroll then []
    else
      (if refs.reference.Some? then ancestorsOf(refs.reference.value) else []) +
      (if refs.floating.Some? then ancestorsOf(refs.floating.value) else [])
  }

  /** The listeners one effect run adds, in the order it adds them: one per
      document option that is set and one per watched ancestor, none while
      closed or disabled. */
  function Listeners(open: bool, opts: Options, refs: Refs, ancestorsOf: Element -> seq<Element>): (r: seq<Listener>)
    ensures |r| == if open && opts.enabled
                   then (if opts.escapeKey then 1 else 0) + (if opts.outsidePointerDown then 1 else 0) +
                        |WatchedAncestors(opts, refs, ancestorsOf)|
                   else 0
  {
    if !open || !opts.enabled then []
    else DocumentListeners(opts) + ScrollListeners(WatchedAncestors(opts, refs, ancestorsOf))
  }

  /** The `keydown` and `pointerdown` listeners on the document, as gated. */
  function DocumentListeners(opts: Options): seq<Listener> {
    (if opts.escapeKey then [KeyDownListener] else []) +
    (if opts.outsidePointerDown then [PointerDownListener] else [])
  }

  /** Listeners exist only while open and enabled; each document listener is
      there exactly when its option is set, and a scroll listener exactly for
      each watched ancestor. */
  lemma ListenersGated(open: bool, opts: Options, refs: Refs, ancestorsOf: Element -> seq<Element>)
    ensures !(open && opts.enabled) ==> Listeners(open, opts, refs, ancestorsOf) == []
    ensures KeyDownListener in Listeners(open, opts, refs, ancestorsOf) <==> open && opts.enabled && opts.escapeKey
    ensures PointerDownListener in Listeners(open, opts, refs, ancestorsOf) <==>
              open && opts.enabled && opts.outsidePointerDown
    ensures forall a :: ScrollListener(a) in Listeners(open, opts, refs, ancestorsOf) <==>
              open && opts.enabled && opts.ancestorScroll && a in WatchedAncestors(opts, refs, ancestorsOf)
  {
    var w := WatchedAncestors(opts, refs, ancestorsOf);
    var s := ScrollListeners(w);
    assert KeyDownListener !in s && PointerDownListener !in s;
    forall a
      ensures ScrollListener(a) in s <==> a in w
    {
      if a in w {
        var i :| 0 <= i < |w| && w[i] == a;
        assert s[i] == ScrollListener(a);
      }
    }
  }

  /** The pointer-down decision: the target is inside the floating element,
      the reference, or the floating element of an open descendant. */
  predicate Inside(refs: Refs, children: seq<FloatingNode>, target: Option<Element>, contains: Contains)
    // A press without a target element is never inside.
    ensures target.None? ==> !Inside(refs, children, target, contains)
    // With no element of its own and no open descendant, every press is outside.
    ensures refs.floating.None? && refs.reference.None? && children == [] ==> !Inside(refs, children, target, contains)
  {
    Holds(contains, refs.floating, target) ||
    Holds(contains, refs.reference, target) ||
    exists n :: n in children && n.context.Some? && Holds(contains, n.context.value.refs.floating, target)
  }

  /** A press inside a popover nested (at any depth, through open nodes)
      under this one does not dismiss it. */
  lemma PressInNestedPopoverIsInside(nodes: seq<FloatingNode>, nodeId: Option<string>, rank: map<string, nat>,
                                     refs: Refs, n: FloatingNode, target: Option<Element>, contains: Contains)
    requires Ranked(nodes, rank)
    requires n in nodes && IsOpen(n)
    requires (nodeId.Some? && n.parentId == nodeId) ||
             exists m :: m in Descendants(nodes, nodeId) && n.parentId == Some(m.id)
    requires Holds(contains, n.context.value.refs.floating, target)
    ensures Inside(refs, Descendants(nodes, nodeId), target, contains)
  {
    DescendantsComplete(nodes, nodeId, rank, n);
  }

  /** The returned props: nothing when disabled, else the reference's
      `onPointerDown`. */
  function DismissProps(opts: Options): (p: ElementProps)
    ensures !opts.enabled <==> p == NoProps
    ensures opts.enabled ==> p.floating.None? && p.reference == Some(map["onPointerDown" := Callback])
  {
    if !opts.enabled then NoProps
    else ElementProps(Some(map["onPointerDown" := Callback]), None)
  }

  class Dismiss {
    /** The options of the latest render. */
    var opts: Options
    /** Listeners currently on the document and on ancestors. An ancestor
        shared by the reference and the floating element is counted once per
        `addEventListener` call, where the DOM keeps one registration; the
        cleanup removes as many as were added, so membership agrees. */
    var attached: multiset<Listener>
    /** What the latest effect run added, as its cleanup will remove it. */
    var installed: seq<Listener>
    var calls: seq<Call>

    ghost predicate Valid()
      reads this
    {
      attached == multiset(installed)
    }

    constructor (opts: Options)
      ensures Valid() && this.opts == opts && installed == [] && calls == []
    {
      this.opts := opts;
      attached := multiset{};
      installed := [];
      calls := [];
    }

    /** A render whose dependencies changed: the previous run's cleanup
        removes what it added, then the effect adds the listeners for the new
        `open` and options. */
    method Render(open: bool, opts: Options, refs: Refs, ancestorsOf: Element -> seq<Element>)
      requires Valid()
      modifies this`opts, this`attached, this`installed
      ensures Valid()
      ensures this.opts == opts
      ensures installed == Listeners(open, opts, refs, ancestorsOf)
      ensures attached == multiset(Listeners(open, opts, refs, ancestorsOf))
    {
      this.opts := opts;
      Cleanup();
      assert attached == multiset{};
      if open && opts.enabled {
        Install(opts, refs, ancestorsOf);
      }
    }

    /** The cleanup closure of the previous run: removes each listener it added. */
    method Cleanup()
      modifies this`attached, this`installed
      ensures attached == old(attached) - multiset(old(installed))
      ensures installed == []
    {
      var i := 0;
      var previous := installed;
      ghost var before := attached;
      while i < |previous|
        invariant 0 <= i <= |previous|
        invariant attached == before - multiset(previous[..i])
      {
        assert previous[..i + 1] == previous[..i] + [previous[i]];
        attached := attached - multiset{previous[i]};
        i := i + 1;
      }
      assert previous[..|previous|] == previous;
      installed := [];
    }

    /** The body of the effect while open and enabled: the gated document
        listeners, then one scroll listener per watched ancestor. */
    method Install(opts: Options, refs: Refs, ancestorsOf: Element -> seq<Element>)
      requires installed == [] && attached == multiset{}
      requires opts.enabled
      modifies this`attached, this`installed
      ensures installed == Listeners(true, opts, refs, ancestorsOf)
      ensures Valid()
    {
      if opts.escapeKey {
        AddListener(KeyDownListener);
      }
      if opts.outsidePointerDown {
        AddListener(PointerDownListener);
      }
      assert installed == DocumentListeners(opts);
      AddScrollListeners(WatchedAncestors(opts, refs, ancestorsOf));
    }

    /** `ancestors.forEach(a => a.addEventListener('scroll', onScroll))` */
    method AddScrollListeners(ancestors: seq<Element>)
      requires Valid()
      modifies this`attached, this`installed
      ensures installed == old(installed) + ScrollListeners(ancestors)
      ensures Valid()
    {
      ghost var head := installed;
      var j := 0;
      while j < |ancestors|
        invariant 0 <= j <= |ancestors|
        invariant installed == head + ScrollListeners(ancestors[..j])
        invariant Valid()
      {
        ScrollListenersSnoc(ancestors, j);
        AddListener(ScrollListener(ancestors[j]));
        j := j + 1;
      }
      assert ancestors[..|ancestors|] == ancestors;
    }

    /** `addEventListener`, recorded in the cleanup's list. */
    method AddListener(l: Listener)
      requires Valid()
      modifies this`attached, this`installed
      ensures installed == old(installed) + [l]
      ensures attached == old(attached) + multiset{l}
      ensures Valid()
    {
      assert multiset(installed + [l]) == multiset(installed) + multiset{l};
      attached := attached + multiset{l};
      installed := installed + [l];
    }

    /** The document `keydown` listener: Escape emits `dismiss`, closes and
        focuses the reference, in that order. */
    method DocumentKeyDown(key: string, reference: Option<Element>)
      modifies this`calls
      ensures KeyDownListener in attached && key == "Escape" ==>
                calls == old(calls) + [Emit("dismiss"), OpenChange(false)] + FocusOn(reference)
      ensures !(KeyDownListener in attached && key == "Escape") ==> calls == old(calls)
    {
      if KeyDownListener in attached && key == "Escape" {
        calls := calls + [Emit("dismiss"), OpenChange(false)] + FocusOn(reference);
      }
    }

    /** The document `pointerdown` listener: a press outside the floating
        element, the reference and every open descendant's floating element
        dismisses, as Escape does; a press inside changes nothing. */
    method DocumentPointerDown(target: Option<Element>, refs: Refs, tree: Option<seq<FloatingNode>>,
                               nodeId: Option<string>, contains: Contains, ghost rank: map<string, nat>)
      requires Ranked(tree.GetOr([]), rank)
      modifies this`calls
      ensures PointerDownListener in attached && !Inside(refs, Descendants(tree.GetOr([]), nodeId), target, contains) ==>
                calls == old(calls) + [Emit("dismiss"), OpenChange(false)] + FocusOn(refs.reference)
      ensures !(PointerDownListener in attached && !Inside(refs, Descendants(tree.GetOr([]), nodeId), target, contains)) ==>
                calls == old(calls)
    {
      if PointerDownListener !in attached {
        return;
      }
      var children := GetChildren(tree, nodeId, rank);
      if Inside(refs, children, target, contains) {
        return;
      }
      calls := calls + [Emit("dismiss"), OpenChange(false)] + FocusOn(refs.reference);
    }

    /** An ancestor's `scroll` listener: closes, without `dismiss` and
        without moving focus. */
    method AncestorScrolled(ancestor: Element)
      modifies this`calls
      ensures ScrollListener(ancestor) in attached ==> calls == old(calls) + [OpenChange(false)]
      ensures ScrollListener(ancestor) !in attached ==> calls == old(calls)
    {
      if ScrollListener(ancestor) in attached {
        calls := calls + [OpenChange(false)];
      }
    }

    /** The reference's `onPointerDown`, present only when enabled. */
    method ReferencePointerDown()
      requires opts.enabled
      modifies this`calls
      ensures opts.referencePointerDown ==> calls == old(calls) + [Emit("dismiss"), OpenChange(false)]
      ensures !opts.referencePointerDown ==> calls == old(calls)
    {
      if opts.referencePointerDown {
        calls := calls + [Emit("dismiss"), OpenChange(false)];
      }
    }
  }

  lemma ScrollListenersSnoc(ancestors: seq<Element>, j: nat)
    requires j < |ancestors|
    ensures ScrollListeners(ancestors[..j + 1]) == ScrollListeners(ancestors[..j]) + [ScrollListener(ancestors[j])]
  {
  }

  /** Open with default options, Escape dismisses and focuses the reference;
      once closed the listener is gone and Escape does nothing. */
  method EscapeThenClosed() returns (log: seq<Call>, left: multiset<Listener>)
    ensures log == [Emit("dismiss"), OpenChange(false), Focus(Target(7))]
    ensures left == multiset{}
  {
    var d := new Dismiss(Defaults);
    var refs := Refs(Some(7), Some(8));
    var noAncestors := (e: Element) => [];
    d.Render(true, Defaults, refs, noAncestors);
    d.DocumentKeyDown("Escape", refs.reference);
    d.Render(false, Defaults, refs, noAncestors);
    d.DocumentKeyDown("Escape", refs.reference);
    log := d.calls;
    left := d.attached;
  }
}
