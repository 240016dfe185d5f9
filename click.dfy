/** `useClick`: a click on the reference toggles the floating element, and
    latches it open when it was opened by hovering. */
module Click {
  import opened Types

  /** The returned props: nothing when disabled, else the reference's `onClick`. */
  function ClickProps(enabled: bool): (p: ElementProps)
    ensures !enabled <==> p == NoProps
    ensures enabled ==> p.floating.None? && p.reference == Some(map["onClick" := Callback])
  {
    if !enabled then NoProps else ElementProps(Some(map["onClick" := Callback]), None)
  }

  /** Whether a click on an open element closes it: it was opened by a click,
      or a click already latched it after a hover. */
  predicate ClickCloses(openEvent: Option<string>, hoveredThenClicked: bool) {
    openEvent == Some("click") || hoveredThenClicked
  }

  class Click {
    const enabled: bool
    /** `dataRef.current`, shared with the other hooks of the context. */
    const data: Data
    var calls: seq<Call>

    constructor (enabled: bool, data: Data)
      ensures this.enabled == enabled && this.data == data && calls == []
    {
      this.enabled := enabled;
      this.data := data;
      calls := [];
    }

    /** The reference's `onClick`, present only when enabled. While closed it
        records the click and opens. While open it closes when
        `ClickCloses`, clearing the latch; otherwise it only sets the latch. */
    method OnClick(open: bool)
      requires enabled
      modifies this`calls, data
      ensures !open ==> data.openEvent == Some("click") && data.hoveredThenClicked == old(data.hoveredThenClicked) &&
                        calls == old(calls) + [OpenChange(true)]
      ensures open && ClickCloses(old(data.openEvent), old(data.hoveredThenClicked)) ==>
                data.openEvent == old(data.openEvent) && !data.hoveredThenClicked &&
                calls == old(calls) + [OpenChange(false)]
      ensures open && !ClickCloses(old(data.openEvent), old(data.hoveredThenClicked)) ==>
                data.openEvent == old(data.openEvent) && data.hoveredThenClicked && calls == old(calls)
    {
      if open {
        if data.openEvent == Some("click") || data.hoveredThenClicked {
          data.hoveredThenClicked := false;
          calls := calls + [OpenChange(false)];
        } else {
          data.hoveredThenClicked := true;
        }
      } else {
        data.openEvent := Some("click");
        calls := calls + [OpenChange(true)];
      }
    }
  }

  /** Two clicks on an element opened some other way: the first only
      latches, the second closes. */
  method SecondClickCloses() returns (log: seq<Call>, latched: bool)
    ensures log == [OpenChange(false)]
    ensures !latched
  {
    var data := new Data();
    data.openEvent := Some("focus");
    var click := new Click(true, data);
    click.OnClick(true);
    assert click.calls == [] && data.hoveredThenClicked;
    click.OnClick(true);
    log := click.calls;
    latched := data.hoveredThenClicked;
  }

  /** A click opens; the next click closes. */
  method ClickToggles() returns (log: seq<Call>)
    ensures log == [OpenChange(true), OpenChange(false)]
  {
    var data := new Data();
    var click := new Click(true, data);
    click.OnClick(false);
    click.OnClick(true);
    log := click.calls;
  }
}
