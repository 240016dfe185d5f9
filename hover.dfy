/** `useHover`: opens the floating element when the pointer enters the
    reference and closes it when the pointer leaves, optionally after a
    delay. Timers are pending-action slots: scheduling fills a slot,
    `clearTimeout` empties it, and a `Fire` method runs it. */
module Hover {
  import opened Types
  import Click

  /** The `delay` option: one number for both phases, or per-phase fields
      that may be absent. */
  datatype Delay = Ms(ms: int) | Phases(open: Option<int>, close: Option<int>)

  datatype Phase = OpenPhase | ClosePhase

  /** `getDelay(delay, phase)`: a number applies to both phases; an object
      gives the field for the phase, absent when it is missing. */
  function GetDelay(value: Delay, phase: Phase): (r: Option<int>)
    ensures value.Ms? ==> r == Some(value.ms)
    ensures value.Phases? ==> r == (if phase == OpenPhase then value.open else value.close)
  {
    match value
    case Ms(ms) => Some(ms)
    case Phases(open, close) => if phase == OpenPhase then open else close
  }

  /** `if (delay)`: a non-zero number or any object. */
  predicate Delayed(delay: Delay) {
    delay.Phases? || delay.ms != 0
  }

  /** The action a pending `timeoutRef` timer will run. */
  datatype TimerAction = OpenLater | CloseLater

  /** A pending timer and the delay it was given (absent is `setTimeout`'s 0). */
  datatype Timer = Timer(action: TimerAction, ms: Option<int>)

  /** The returned props: nothing when disabled, else three reference and two
      floating pointer handlers. */
  function HoverProps(enabled: bool): (p: ElementProps)
    ensures !enabled <==> p == NoProps
    ensures enabled ==> p.reference.Some? && p.reference.value.Keys == {"onPointerMove", "onPointerEnter", "onPointerLeave"}
    ensures enabled ==> p.floating.Some? && p.floating.value.Keys == {"onPointerEnter", "onPointerLeave"}
  {
    if !enabled then NoProps
    else ElementProps(
      Some(map["onPointerMove" := Callback, "onPointerEnter" := Callback, "onPointerLeave" := Callback]),
      Some(map["onPointerEnter" := Callback, "onPointerLeave" := Callback]))
  }

  class Hover {
    const enabled: bool
    const delay: Delay
    /** A `handleLeave` callback was given (such as a safe polygon). */
    const delegatedLeave: bool
    const mouseOnly: bool
    const pointerRestMs: int
    /** `dataRef.current`, shared with the other hooks of the context. */
    const data: Data

    var open: bool
    /** `timeoutRef`: the one slot shared by opening and closing. */
    var timeout: Option<Timer>
    /** `pointerRestTimeoutRef`: the pending pointer-rest open, with its delay. */
    var restTimeout: Option<int>
    var blockPointerMove: bool
    /** `handlerRef.current`: a delegated leave handler listens for `pointermove`. */
    var leaveHandler: bool
    /** `onDismiss` is subscribed to the context's `dismiss` event. */
    var subscribed: bool
    var calls: seq<Call>

    /** Mounting: the refs start empty, pointer-rest opening starts blocked
        and the `dismiss` subscription is made. */
    constructor (enabled: bool, delay: Delay, delegatedLeave: bool, mouseOnly: bool, pointerRestMs: int, data: Data)
      ensures this.enabled == enabled && this.delay == delay && this.delegatedLeave == delegatedLeave
      ensures this.mouseOnly == mouseOnly && this.pointerRestMs == pointerRestMs && this.data == data
      ensures !open && timeout == None && restTimeout == None && blockPointerMove
      ensures !leaveHandler && subscribed && calls == []
    {
      this.enabled := enabled;
      this.delay := delay;
      this.delegatedLeave := delegatedLeave;
      this.mouseOnly := mouseOnly;
      this.pointerRestMs := pointerRestMs;
      this.data := data;
      open := false;
      timeout := None;
      restTimeout := None;
      blockPointerMove := true;
      leaveHandler := false;
      subscribed := true;
      calls := [];
    }

    /** A render with a new `open`: the layout effect on `open` clears the
        hover-then-click latch whenever the element is closed. */
    method Render(open: bool)
      modifies this`open, data`hoveredThenClicked
      ensures this.open == open
      ensures !open ==> !data.hoveredThenClicked
      ensures open ==> data.hoveredThenClicked == old(data.hoveredThenClicked)
    {
      this.open := open;
      if !open {
        data.hoveredThenClicked := false;
      }
    }

    /** `onDismiss`: cancels both timers and blocks pointer-rest opening. */
    method OnDismiss()
      modifies this`timeout, this`restTimeout, this`blockPointerMove
      ensures subscribed ==> timeout == None && restTimeout == None && blockPointerMove
      ensures !subscribed ==> timeout == old(timeout) && restTimeout == old(restTimeout) &&
                              blockPointerMove == old(blockPointerMove)
    {
      if subscribed {
        timeout := None;
        restTimeout := None;
        blockPointerMove := true;
      }
    }

    /** `closeWithDelay(runElseBranch)`: with a delay, replace the pending
        timer by a close; without one, close now if asked to. */
    method CloseWithDelay(runElseBranch: bool)
      modifies this`timeout, this`calls
      ensures Delayed(delay) ==> timeout == Some(Timer(CloseLater, GetDelay(delay, ClosePhase))) && calls == old(calls)
      ensures !Delayed(delay) && runElseBranch ==> timeout == old(timeout) && calls == old(calls) + [OpenChange(false)]
      ensures !Delayed(delay) && !runElseBranch ==> timeout == old(timeout) && calls == old(calls)
    {
      if Delayed(delay) {
        timeout := Some(Timer(CloseLater, GetDelay(delay, ClosePhase)));
      } else if runElseBranch {
        calls := calls + [OpenChange(false)];
      }
    }

    /** The reference's `onPointerMove`: while closed and with a rest time,
        restart the pointer-rest timer. */
    method ReferencePointerMove()
      requires enabled
      modifies this`restTimeout
      ensures pointerRestMs != 0 && !open ==> restTimeout == Some(pointerRestMs)
      ensures pointerRestMs == 0 || open ==> restTimeout == old(restTimeout)
    {
      if pointerRestMs == 0 || open {
        return;
      }
      restTimeout := Some(pointerRestMs);
    }

    /** The pointer-rest timer fires: it opens only if nothing blocked it. */
    method FireRestTimeout()
      modifies this`restTimeout, this`calls
      ensures restTimeout == None
      ensures old(restTimeout).Some? && !blockPointerMove ==> calls == old(calls) + [OpenChange(true)]
      ensures !(old(restTimeout).Some? && !blockPointerMove) ==> calls == old(calls)
    {
      if restTimeout.Some? {
        restTimeout := None;
        if !blockPointerMove {
          calls := calls + [OpenChange(true)];
        }
      }
    }

    /** The reference's `onPointerEnter`. With `mouseOnly`, only a mouse
        counts. Otherwise it unblocks pointer-rest opening, records the event
        as `openEvent`, and opens now or schedules an open in the shared slot. */
    method ReferencePointerEnter(pointerType: string, eventType: string)
      requires enabled
      modifies this`blockPointerMove, this`timeout, this`calls, data`openEvent
      ensures mouseOnly && pointerType != "mouse" ==>
                blockPointerMove == old(blockPointerMove) && timeout == old(timeout) && calls == old(calls) &&
                data.openEvent == old(data.openEvent)
      ensures !(mouseOnly && pointerType != "mouse") ==>
                !blockPointerMove && data.openEvent == Some(eventType) &&
                (Delayed(delay) ==> timeout == Some(Timer(OpenLater, GetDelay(delay, OpenPhase))) && calls == old(calls)) &&
                (!Delayed(delay) ==> timeout == old(timeout) && calls == old(calls) + [OpenChange(true)])
    {
      if mouseOnly && pointerType != "mouse" {
        return;
      }
      blockPointerMove := false;
      data.openEvent := Some(eventType);
      if Delayed(delay) {
        timeout := Some(Timer(OpenLater, GetDelay(delay, OpenPhase)));
      } else {
        calls := calls + [OpenChange(true)];
      }
    }

    /** The reference's `onPointerLeave`. Nothing happens once a click has
        taken over (latched after a hover, or opened by a click). Otherwise
        the pointer-rest timer is cancelled; a `handleLeave` callback takes
        over the close decision, else the element closes (now or later).
        The new handler is called on the leave event itself before it starts
        listening; `handlerClosesAtOnce` says whether that call asks to
        close (its `onClose`), which closes now or later like any close. */
    method ReferencePointerLeave(handlerClosesAtOnce: bool)
      requires enabled
      modifies this`restTimeout, this`timeout, this`leaveHandler, this`calls
      ensures data.hoveredThenClicked || data.openEvent == Some("click") ==>
                restTimeout == old(restTimeout) && timeout == old(timeout) &&
                leaveHandler == old(leaveHandler) && calls == old(calls)
      ensures !(data.hoveredThenClicked || data.openEvent == Some("click")) ==> restTimeout == None
      ensures !(data.hoveredThenClicked || data.openEvent == Some("click")) && delegatedLeave ==>
                leaveHandler &&
                (handlerClosesAtOnce && Delayed(delay) ==>
                   timeout == Some(Timer(CloseLater, GetDelay(delay, ClosePhase))) && calls == old(calls)) &&
                (handlerClosesAtOnce && !Delayed(delay) ==> timeout == None && calls == old(calls) + [OpenChange(false)]) &&
                (!handlerClosesAtOnce ==> timeout == None && calls == old(calls))
      ensures !(data.hoveredThenClicked || data.openEvent == Some("click")) && !delegatedLeave ==>
                leaveHandler == old(leaveHandler) &&
                (Delayed(delay) ==> timeout == Some(Timer(CloseLater, GetDelay(delay, ClosePhase))) && calls == old(calls)) &&
                (!Delayed(delay) ==> timeout == old(timeout) && calls == old(calls) + [OpenChange(false)])
    {
      if data.hoveredThenClicked || data.openEvent == Some("click") {
        return;
      }
      restTimeout := None;
      if delegatedLeave {
        timeout := None;
        if handlerClosesAtOnce {
          CloseWithDelay(true);
        }
        leaveHandler := true;
        return;
      }
      CloseWithDelay(true);
    }

    /** A later `pointermove` on which the listening leave handler asks to
        close: its `onClose` stops the listening, then closes now or later.
        Without a listening handler no such event reaches it. */
    method LeaveHandlerCloses()
      modifies this`leaveHandler, this`timeout, this`calls
      ensures !leaveHandler
      ensures !old(leaveHandler) ==> timeout == old(timeout) && calls == old(calls)
      ensures old(leaveHandler) && Delayed(delay) ==>
                timeout == Some(Timer(CloseLater, GetDelay(delay, ClosePhase))) && calls == old(calls)
      ensures old(leaveHandler) && !Delayed(delay) ==>
                timeout == old(timeout) && calls == old(calls) + [OpenChange(false)]
    {
      if leaveHandler {
        leaveHandler := false;
        CloseWithDelay(true);
      }
    }

    /** The floating element's `onPointerEnter`: cancels the pending timer. */
    method FloatingPointerEnter()
      requires enabled
      modifies this`timeout
      ensures timeout == None
    {
      timeout := None;
    }

    /** The floating element's `onPointerLeave`: a delayed close, and never
        an immediate one. */
    method FloatingPointerLeave()
      requires enabled
      modifies this`timeout, this`calls
      ensures calls == old(calls)
      ensures Delayed(delay) ==> timeout == Some(Timer(CloseLater, GetDelay(delay, ClosePhase)))
      ensures !Delayed(delay) ==> timeout == old(timeout)
    {
      CloseWithDelay(false);
    }

    /** The shared timer fires and runs its action. */
    method FireTimeout()
      modifies this`timeout, this`calls
      ensures timeout == None
      ensures old(timeout).Some? ==>
                calls == old(calls) + [OpenChange(old(timeout).value.action == OpenLater)]
      ensures old(timeout).None? ==> calls == old(calls)
    {
      if timeout.Some? {
        calls := calls + [OpenChange(timeout.value.action == OpenLater)];
        timeout := None;
      }
    }

    /** Unmounting removes the `dismiss` subscription; pending timers are
        not cleared. */
    method Unmount()
      modifies this`subscribed
      ensures !subscribed
    {
      subscribed := false;
    }
  }

  /** A delayed open that a dismissal overtakes never happens. */
  method DismissCancelsDelayedOpen() returns (log: seq<Call>)
    ensures log == []
  {
    var data := new Data();
    var h := new Hover(true, Phases(Some(300), None), false, false, 0, data);
    h.ReferencePointerEnter("mouse", "pointerover");
    assert h.timeout == Some(Timer(OpenLater, Some(300)));
    h.OnDismiss();
    h.FireTimeout();
    h.FireRestTimeout();
    log := h.calls;
  }

  /** Pointer-rest opening stays blocked until a pointer that counts enters
      the reference; after that, resting opens before the delayed open. */
  method RestOpensAfterEnter() returns (before: seq<Call>, after: seq<Call>)
    ensures before == []
    ensures after == [OpenChange(true)]
  {
    var data := new Data();
    var h := new Hover(true, Ms(500), false, true, 100, data);
    h.ReferencePointerMove();
    h.FireRestTimeout();
    h.ReferencePointerEnter("touch", "pointerover");
    h.ReferencePointerMove();
    h.FireRestTimeout();
    before := h.calls;
    h.ReferencePointerEnter("mouse", "pointerover");
    h.ReferencePointerMove();
    h.FireRestTimeout();
    after := h.calls;
  }

  /** Hover opens; a click latches; leaving the reference then keeps it open;
      a second click closes, and closing clears the latch. */
  method HoverThenClick() returns (hoverLog: seq<Call>, clickLog: seq<Call>, latched: bool)
    ensures hoverLog == [OpenChange(true)]
    ensures clickLog == [OpenChange(false)]
    ensures !latched
  {
    var data := new Data();
    var h := new Hover(true, Ms(0), false, false, 0, data);
    var c := new Click.Click(true, data);
    h.ReferencePointerEnter("mouse", "pointerover");
    h.Render(true);
    c.OnClick(true);
    h.ReferencePointerLeave(false);
    c.OnClick(true);
    h.Render(false);
    hoverLog := h.calls;
    clickLog := c.calls;
    latched := data.hoveredThenClicked;
  }

  /** With a safe-polygon style handler and a close delay: leaving the
      reference only starts the handler; a later move that it judges to be
      outside schedules the close, which then happens when the timer fires. */
  method DelegatedLeaveCloses() returns (onLeave: seq<Call>, onFire: seq<Call>)
    ensures onLeave == [OpenChange(true)]
    ensures onFire == [OpenChange(true), OpenChange(false)]
  {
    var data := new Data();
    var h := new Hover(true, Ms(100), true, false, 0, data);
    h.ReferencePointerEnter("mouse", "pointerover");
    h.FireTimeout();
    h.ReferencePointerLeave(false);
    onLeave := h.calls;
    h.LeaveHandlerCloses();
    h.FireTimeout();
    onFire := h.calls;
  }
}
