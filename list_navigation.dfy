/** `useListNavigation`: keyboard navigation over a list of items, some of
    them disabled. Each slot of the list is either null or an element seen
    only through its disabled flag (`hasAttribute('disabled')` or
    `aria-disabled="true"`). */
module ListNavigation {
  import opened Types

  /** `listRef.current[i]?.hasAttribute('disabled') || ...`: an index outside
      the list has no element, so it is never disabled. */
  predicate Disabled(disabled: seq<bool>, i: int) {
    0 <= i < |disabled| && disabled[i]
  }

  predicate HasEnabled(disabled: seq<bool>) {
    exists i :: 0 <= i < |disabled| && !Disabled(disabled, i)
  }

  function Step(i: int, decrement: bool): int {
    if decrement then i - 1 else i + 1
  }

  /** The first index at or after `i` (before `i` when decrementing) that is
      not a disabled item: where the do-while scan stops once it reaches `i`. */
  function FirstNotDisabled(disabled: seq<bool>, i: int, decrement: bool): (e: int)
    decreases if decrement then i + 1 else |disabled| - i
    ensures !Disabled(disabled, e)
    ensures !decrement ==> i <= e && forall k :: i <= k < e ==> Disabled(disabled, k)
    ensures decrement ==> e <= i && forall k :: e < k <= i ==> Disabled(disabled, k)
    ensures decrement ==> -1 <= e || e == i
  {
    if Disabled(disabled, i) then FirstNotDisabled(disabled, Step(i, decrement), decrement) else i
  }

  /** `findNonDisabledIndex(listRef, {startingIndex, decrement})`: step once,
      keep stepping over disabled items, and map a result of -1 to 0. */
  function NonDisabledIndex(disabled: seq<bool>, startingIndex: int, decrement: bool): (r: int)
    ensures !decrement && startingIndex != -2 ==>
      startingIndex < r && !Disabled(disabled, r) &&
      forall k :: startingIndex < k < r ==> Disabled(disabled, k)
    ensures !decrement && startingIndex == -2 ==> r == 0
    ensures decrement ==>
      (r < startingIndex && !Disabled(disabled, r) &&
       forall k :: r < k < startingIndex ==> Disabled(disabled, k)) ||
      (r == 0 && forall k :: 0 <= k < startingIndex ==> Disabled(disabled, k))
    // A scan that runs off the front reports 0, never -1.
    ensures r != -1
  {
    var e := FirstNotDisabled(disabled, Step(startingIndex, decrement), decrement);
    if e == -1 then 0 else e
  }

  /** The do-while loop of `findNonDisabledIndex`, step by step. */
  method FindNonDisabledIndex(disabled: seq<bool>, startingIndex: int, decrement: bool) returns (index: int)
    ensures index == NonDisabledIndex(disabled, startingIndex, decrement)
  {
    index := startingIndex;
    index := index + (if decrement then -1 else 1);
    while Disabled(disabled, index)
      invariant FirstNotDisabled(disabled, index, decrement)
             == FirstNotDisabled(disabled, Step(startingIndex, decrement), decrement)
      decreases if decrement then index + 1 else |disabled| - index
    {
      index := index + (if decrement then -1 else 1);
    }
    if index == -1 {
      index := 0;
    }
  }

  /** `minIndex`: the first item that is not disabled (|disabled| if none). */
  function MinIndex(disabled: seq<bool>): (r: int)
    ensures 0 <= r <= |disabled|
    ensures forall k :: 0 <= k < r ==> Disabled(disabled, k)
    ensures r < |disabled| <==> HasEnabled(disabled)
    ensures r < |disabled| ==> !Disabled(disabled, r)
  {
    var r := NonDisabledIndex(disabled, -1, false);
    assert r <= |disabled| by {
      assert !Disabled(disabled, |disabled|);
    }
    assert HasEnabled(disabled) ==> r < |disabled| by {
      if HasEnabled(disabled) {
        var i :| 0 <= i < |disabled| && !Disabled(disabled, i);
        assert !(i < r);
      }
    }
    r
  }

  /** `maxIndex`: the last item that is not disabled (0 if none). */
  function MaxIndex(disabled: seq<bool>): (r: int)
    ensures 0 <= r
    ensures HasEnabled(disabled) ==>
      r < |disabled| && !Disabled(disabled, r) &&
      forall k :: r < k < |disabled| ==> Disabled(disabled, k)
    ensures !HasEnabled(disabled) ==> r == 0
  {
    NonDisabledIndex(disabled, |disabled|, true)
  }

  lemma MinAtMostMax(disabled: seq<bool>)
    requires HasEnabled(disabled)
    ensures MinIndex(disabled) <= MaxIndex(disabled)
  {
  }

  /** ArrowDown on the floating element, when it does not re-centre on
      `selectedIndex`. From any position between the first and last items that
      are not disabled, it lands on an item that is not disabled. */
  function ArrowDownTarget(disabled: seq<bool>, current: int, loop: bool): (r: int)
    ensures HasEnabled(disabled) && MinIndex(disabled) <= current <= MaxIndex(disabled) ==>
      0 <= r < |disabled| && !disabled[r]
  {
    var next := NonDisabledIndex(disabled, current, false);
    if loop then
      if current == MaxIndex(disabled) then MinIndex(disabled) else next
    else if next < MaxIndex(disabled) then next else MaxIndex(disabled)
  }

  /** ArrowUp on the floating element, when it does not re-centre on
      `selectedIndex`. From any position between the first and last items that
      are not disabled, it lands on an item that is not disabled. */
  function ArrowUpTarget(disabled: seq<bool>, current: int, loop: bool): (r: int)
    ensures HasEnabled(disabled) && MinIndex(disabled) <= current <= MaxIndex(disabled) ==>
      0 <= r < |disabled| && !disabled[r]
  {
    var prev := NonDisabledIndex(disabled, current, true);
    if loop then
      if current == MinIndex(disabled) then MaxIndex(disabled) else prev
    else if prev > MinIndex(disabled) then prev else MinIndex(disabled)
  }

  /** Without `loop`, ArrowDown never passes `maxIndex`; below it, it moves to
      the next item that is not disabled, and at or past it, it stays there. */
  lemma ArrowDownClamps(disabled: seq<bool>, current: int)
    requires HasEnabled(disabled)
    ensures ArrowDownTarget(disabled, current, false) <= MaxIndex(disabled)
    ensures current < MaxIndex(disabled) ==>
      ArrowDownTarget(disabled, current, false) == NonDisabledIndex(disabled, current, false)
    ensures current >= MaxIndex(disabled) ==>
      ArrowDownTarget(disabled, current, false) == MaxIndex(disabled)
  {
  }

  /** Without `loop`, ArrowUp never goes below `minIndex`; above it, it moves
      to the previous item that is not disabled, and at or below it, it stays there. */
  lemma ArrowUpClamps(disabled: seq<bool>, current: int)
    requires HasEnabled(disabled)
    ensures ArrowUpTarget(disabled, current, false) >= MinIndex(disabled)
    ensures current > MinIndex(disabled) ==>
      ArrowUpTarget(disabled, current, false) == NonDisabledIndex(disabled, current, true)
    ensures current <= MinIndex(disabled) ==>
      ArrowUpTarget(disabled, current, false) == MinIndex(disabled)
  {
  }

  /** With `loop`, ArrowDown at `maxIndex` wraps to `minIndex`, and from any
      earlier position moves to the next item that is not disabled. */
  lemma ArrowDownLoops(disabled: seq<bool>, current: int)
    requires HasEnabled(disabled)
    requires -1 <= current <= MaxIndex(disabled)
    ensures var r := ArrowDownTarget(disabled, current, true);
      0 <= r < |disabled| && !disabled[r] &&
      (current == MaxIndex(disabled) ==> r == MinIndex(disabled)) &&
      (current < MaxIndex(disabled) ==> r == NonDisabledIndex(disabled, current, false) && current < r)
  {
  }

  /** With `loop`, ArrowUp at `minIndex` wraps to `maxIndex`, and from any
      later position moves to the previous item that is not disabled. */
  lemma ArrowUpLoops(disabled: seq<bool>, current: int)
    requires HasEnabled(disabled)
    requires MinIndex(disabled) <= current <= |disabled|
    ensures var r := ArrowUpTarget(disabled, current, true);
      0 <= r < |disabled| && !disabled[r] &&
      (current == MinIndex(disabled) ==> r == MaxIndex(disabled)) &&
      (current > MinIndex(disabled) ==> r == NonDisabledIndex(disabled, current, true) && r < current)
  {
  }

  /** The arrow that opens a submenu (ArrowRight, or ArrowLeft right-to-left). */
  function ForwardKey(rtl: bool): string {
    if rtl then "ArrowLeft" else "ArrowRight"
  }

  /** The arrow that closes a submenu. */
  function BackwardKey(rtl: bool): string {
    if rtl then "ArrowRight" else "ArrowLeft"
  }

  /** The disabled flags the scan reads from `listRef.current`: a null slot,
      like an index outside the list, is not disabled. */
  function DisabledFlags(items: seq<Option<bool>>): (disabled: seq<bool>)
    ensures |disabled| == |items|
    ensures forall i :: 0 <= i < |items| ==> (disabled[i] <==> items[i] == Some(true))
  {
    seq(|items|, i requires 0 <= i < |items| => items[i] == Some(true))
  }

  /** `focusItem`: `listRef.current[index]?.focus()`; an index outside the
      list, or a null slot, has no element to focus. */
  function FocusItem(items: seq<Option<bool>>, index: int): seq<Call> {
    if 0 <= index < |items| && items[index].Some? then [Focus(Item(index))] else []
  }

  /** The index the reference's ArrowDown/ArrowUp opens the list on (non-nested mode). */
  function OpenTarget(disabled: seq<bool>, key: string, selectedIndex: Option<int>): int {
    match selectedIndex
    case Some(s) => s
    case None => if key == "ArrowDown" then MinIndex(disabled) else MaxIndex(disabled)
  }

  /** One `useListNavigation` instance: its refs (`indexRef`, `focusOnOpenRef`,
      `keyRef`), the props it was last rendered with, and its calls on the host. */
  class ListNavigation {
    const enabled: bool
    const loop: bool
    const nested: bool
    const rtl: bool
    /** `listRef.current`: `None` for a null slot, `Some(d)` for an element
        whose disabled flag is `d` */
    var items: seq<Option<bool>>
    var open: bool
    var activeIndex: Option<int>
    var selectedIndex: Option<int>
    var focusOnOpen: bool
    var index: int
    var key: string
    var calls: seq<Call>

    constructor (enabled: bool, loop: bool, nested: bool, rtl: bool, items: seq<Option<bool>>, selectedIndex: Option<int>)
      ensures this.enabled == enabled && this.loop == loop && this.nested == nested && this.rtl == rtl
      ensures this.items == items && this.selectedIndex == selectedIndex
      ensures !open && activeIndex == None
      ensures focusOnOpen && index == selectedIndex.GetOr(0) && key == "" && calls == []
    {
      this.enabled := enabled;
      this.loop := loop;
      this.nested := nested;
      this.rtl := rtl;
      this.items := items;
      this.selectedIndex := selectedIndex;
      open := false;
      activeIndex := None;
      focusOnOpen := true;
      index := selectedIndex.GetOr(0);
      key := "";
      calls := [];
    }

    /** `pointerCheck`: an enter or press whose `pointerType` is empty (the
        browser's keyboard-simulated pointer) keeps focus-on-open armed. */
    method PointerCheck(pointerType: string)
      requires enabled
      modifies this`focusOnOpen
      ensures focusOnOpen <==> pointerType == ""
    {
      focusOnOpen := pointerType == "";
    }

    /** The reference's `onKeyDown`. `nonButtonReference` says the reference is
        an element whose tag is not BUTTON. Returns whether the event was stopped. */
    method ReferenceKeyDown(key: string, nonButtonReference: bool) returns (stopped: bool)
      requires enabled
      modifies this`focusOnOpen, this`key, this`index, this`calls
      ensures focusOnOpen && this.key == key
      ensures var opening := if nonButtonReference && (key == "Enter" || key == " ") then [OpenChange(true)] else [];
        if nested then
          if key == ForwardKey(rtl) then
            stopped && index == MinIndex(DisabledFlags(items)) &&
            calls == old(calls) + opening + [OpenChange(true), Navigate(Some(index))]
          else
            !stopped && index == old(index) && calls == old(calls) + opening
        else if key == "ArrowDown" || key == "ArrowUp" then
          stopped && index == OpenTarget(DisabledFlags(items), key, selectedIndex) &&
          calls == old(calls) + opening + [OpenChange(true), Navigate(Some(index))]
        else
          !stopped && index == old(index) && calls == old(calls) + opening
    {
      focusOnOpen := true;
      this.key := key;
      stopped := false;
      if nonButtonReference && (key == "Enter" || key == " ") {
        calls := calls + [OpenChange(true)];
      }
      if nested {
        if key == ForwardKey(rtl) {
          index := FindNonDisabledIndex(DisabledFlags(items), -1, false);
          stopped := true;
          calls := calls + [OpenChange(true), Navigate(Some(index))];
        }
        return;
      }
      if key == "ArrowDown" || key == "ArrowUp" {
        if selectedIndex.None? {
          if key == "ArrowDown" {
            index := FindNonDisabledIndex(DisabledFlags(items), -1, false);
          } else {
            index := FindNonDisabledIndex(DisabledFlags(items), |items|, true);
          }
        } else {
          index := selectedIndex.value;
        }
        stopped := true;
        calls := calls + [OpenChange(true), Navigate(Some(index))];
      }
    }

    /** The floating element's `onKeyDown`. `floatingFocused` says the floating
        element itself is the document's active element; `reference` is the
        reference if it is an HTML element. Returns whether the event was stopped. */
    method FloatingKeyDown(key: string, floatingFocused: bool, reference: Option<Element>) returns (stopped: bool)
      requires enabled
      modifies this`index, this`calls
      ensures nested && key == BackwardKey(rtl) ==>
        stopped && index == old(index) && calls == old(calls) + [OpenChange(false)] + FocusOn(reference)
      ensures !(nested && key == BackwardKey(rtl)) ==>
        if key == "Home" then
          !stopped && index == MinIndex(DisabledFlags(items)) &&
          calls == old(calls) + [Navigate(Some(index))] + FocusItem(items, index)
        else if key == "End" then
          !stopped && index == MaxIndex(DisabledFlags(items)) &&
          calls == old(calls) + [Navigate(Some(index))] + FocusItem(items, index)
        else if key == "ArrowDown" || key == "ArrowUp" then
          stopped &&
          index == (if floatingFocused && selectedIndex.Some? then selectedIndex.value
                    else if key == "ArrowDown" then ArrowDownTarget(DisabledFlags(items), old(index), loop)
                    else ArrowUpTarget(DisabledFlags(items), old(index), loop)) &&
          calls == old(calls) + [Navigate(Some(index))] + FocusItem(items, index)
        else
          !stopped && index == old(index) && calls == old(calls)
    {
      stopped := false;
      if nested && key == BackwardKey(rtl) {
        stopped := true;
        calls := calls + [OpenChange(false)];
        if reference.Some? {
          calls := calls + [Focus(Target(reference.value))];
        }
        return;
      }
      var currentIndex := index;
      var minIndex := FindNonDisabledIndex(DisabledFlags(items), -1, false);
      var maxIndex := FindNonDisabledIndex(DisabledFlags(items), |items|, true);
      if key == "Home" {
        index := minIndex;
        calls := calls + [Navigate(Some(index))] + FocusItem(items, index);
      }
      if key == "End" {
        index := maxIndex;
        calls := calls + [Navigate(Some(index))] + FocusItem(items, index);
      }
      if key == "ArrowDown" || key == "ArrowUp" {
        stopped := true;
        if floatingFocused && selectedIndex.Some? {
          index := selectedIndex.value;
          calls := calls + [Navigate(Some(index))] + FocusItem(items, index);
          return;
        }
        if key == "ArrowDown" {
          var next := FindNonDisabledIndex(DisabledFlags(items), currentIndex, false);
          if loop {
            index := if currentIndex == maxIndex then minIndex else next;
          } else {
            index := if next < maxIndex then next else maxIndex;
          }
        } else {
          var prev := FindNonDisabledIndex(DisabledFlags(items), currentIndex, true);
          if loop {
            index := if currentIndex == minIndex then maxIndex else prev;
          } else {
            index := if prev > minIndex then prev else minIndex;
          }
        }
        calls := calls + [Navigate(Some(index))] + FocusItem(items, index);
      }
    }

    /** First layout effect (deps `open`, `selectedIndex`): adopt the selected
        index, and on an armed open navigate to and focus the current index. */
    method SyncSelected()
      modifies this`index, this`calls
      ensures !enabled ==> index == old(index) && calls == old(calls)
      ensures enabled ==> index == (if selectedIndex.Some? then selectedIndex.value else old(index))
      ensures enabled ==>
        calls == old(calls) + (if open && focusOnOpen then [Navigate(Some(index))] + FocusItem(items, index) else [])
    {
      if !enabled {
        return;
      }
      if selectedIndex.Some? {
        index := selectedIndex.value;
      }
      if open && focusOnOpen {
        calls := calls + [Navigate(Some(index))] + FocusItem(items, index);
      }
    }

    /** Second layout effect (deps `open`, `activeIndex`): while open, a
        controlled `activeIndex` becomes the current index. */
    method SyncActive()
      modifies this`index, this`calls
      ensures if enabled && open && activeIndex.Some? then
          index == activeIndex.value && calls == old(calls) + [Navigate(Some(index))] + FocusItem(items, index)
        else
          index == old(index) && calls == old(calls)
    {
      if enabled && open && activeIndex.Some? {
        index := activeIndex.value;
        calls := calls + [Navigate(Some(index))] + FocusItem(items, index);
      }
    }

    /** Third layout effect (deps `open`, `selectedIndex`): without a selected
        index, an open caused by ArrowDown/ArrowUp (or Space/Enter while armed)
        seeds the first (last for ArrowUp) item; the remembered key is cleared. */
    method SeedFromKey()
      modifies this`index, this`calls, this`key
      ensures !enabled || selectedIndex.Some? ==> index == old(index) && calls == old(calls) && key == old(key)
      ensures enabled && selectedIndex.None? ==> key == ""
      ensures enabled && selectedIndex.None? ==>
        if open && (old(key) == "ArrowDown" || old(key) == "ArrowUp" ||
                    (focusOnOpen && (old(key) == " " || old(key) == "Enter"))) then
          index == (if old(key) == "ArrowUp" then MaxIndex(DisabledFlags(items)) else MinIndex(DisabledFlags(items))) &&
          calls == old(calls) + [Navigate(Some(index))] + FocusItem(items, index)
        else
          index == old(index) && calls == old(calls)
    {
      if selectedIndex.Some? || !enabled {
        return;
      }
      if open {
        if key == "ArrowDown" || key == "ArrowUp" || (focusOnOpen && (key == " " || key == "Enter")) {
          if key == "ArrowUp" {
            index := FindNonDisabledIndex(DisabledFlags(items), |items|, true);
          } else {
            index := FindNonDisabledIndex(DisabledFlags(items), -1, false);
          }
          calls := calls + [Navigate(Some(index))] + FocusItem(items, index);
        }
      }
      key := "";
    }

    /** Fourth layout effect: closing with a selected index returns focus to the reference. */
    method RefocusReference(reference: Option<Element>)
      modifies this`calls
      ensures calls == old(calls) + (if enabled && !open && selectedIndex.Some? then FocusOn(reference) else [])
    {
      if enabled && !open && selectedIndex.Some? {
        calls := calls + FocusOn(reference);
      }
    }

    /** Fifth layout effect (deps `open`): closing re-arms focus-on-open and
        reports that no item is active. */
    method ResetOnClose()
      modifies this`focusOnOpen, this`calls
      ensures enabled && !open ==> focusOnOpen && calls == old(calls) + [Navigate(None)]
      ensures !(enabled && !open) ==> focusOnOpen == old(focusOnOpen) && calls == old(calls)
    {
      if enabled && !open {
        focusOnOpen := true;
        calls := calls + [Navigate(None)];
      }
    }

    /** The first render: every layout effect runs once, in declaration order,
        with the props the hook mounts with. Mounting closed adopts the
        selected index, returns focus to the reference when there is one, and
        reports that no item is active; mounting open with no remembered key
        navigates to the adopted index (then to `activeIndex`) while armed. */
    method Mount(open: bool, activeIndex: Option<int>, reference: Option<Element>)
      modifies this`open, this`activeIndex, this`index, this`calls, this`key, this`focusOnOpen
      ensures this.open == open && this.activeIndex == activeIndex
      ensures !enabled ==>
        index == old(index) && calls == old(calls) && key == old(key) && focusOnOpen == old(focusOnOpen)
      ensures enabled && !open ==>
        index == (if selectedIndex.Some? then selectedIndex.value else old(index)) &&
        key == (if selectedIndex.Some? then old(key) else "") && focusOnOpen &&
        calls == old(calls) + (if selectedIndex.Some? then FocusOn(reference) else []) + [Navigate(None)]
      ensures enabled && open && old(key) == "" ==>
        var adopted := if selectedIndex.Some? then selectedIndex.value else old(index);
        key == "" && focusOnOpen == old(focusOnOpen) &&
        index == (if activeIndex.Some? then activeIndex.value else adopted) &&
        calls == old(calls)
          + (if old(focusOnOpen) then [Navigate(Some(adopted))] + FocusItem(items, adopted) else [])
          + (if activeIndex.Some? then [Navigate(Some(index))] + FocusItem(items, index) else [])
    {
      this.open := open;
      this.activeIndex := activeIndex;
      SyncSelected();
      SyncActive();
      SeedFromKey();
      RefocusReference(reference);
      ResetOnClose();
    }

    /** A render with new `open`, `activeIndex` and `selectedIndex` props: the
        layout effects whose dependencies changed run in declaration order. */
    method Render(open: bool, activeIndex: Option<int>, selectedIndex: Option<int>, reference: Option<Element>)
      modifies this`open, this`activeIndex, this`selectedIndex, this`index, this`calls, this`key, this`focusOnOpen
      ensures this.open == open && this.activeIndex == activeIndex && this.selectedIndex == selectedIndex
      // A render with the same props runs no effect.
      ensures open == old(this.open) && activeIndex == old(this.activeIndex) && selectedIndex == old(this.selectedIndex) ==>
        index == old(index) && key == old(key) && focusOnOpen == old(focusOnOpen) && calls == old(calls)
      ensures !enabled ==> calls == old(calls) && index == old(index) && key == old(key) && focusOnOpen == old(focusOnOpen)
      // Closed: a rerun of the selection effects adopts `selectedIndex` and
      // returns focus to the reference; closing then reports no active item.
      ensures enabled && !open ==>
        var rerunSelected := old(this.open) || selectedIndex != old(this.selectedIndex);
        index == (if rerunSelected && selectedIndex.Some? then selectedIndex.value else old(index)) &&
        key == (if rerunSelected && selectedIndex.None? then "" else old(key)) &&
        focusOnOpen == (old(this.open) || old(focusOnOpen)) &&
        calls == old(calls)
          + (if rerunSelected && selectedIndex.Some? then FocusOn(reference) else [])
          + (if old(this.open) then [Navigate(None)] else [])
      // Open: the adopted index is navigated to while armed, then a changed
      // `activeIndex`, then the item a remembered key seeds.
      ensures enabled && open ==>
        var rerunSelected := !old(this.open) || selectedIndex != old(this.selectedIndex);
        var rerunActive := !old(this.open) || activeIndex != old(this.activeIndex);
        var adopted := if rerunSelected && selectedIndex.Some? then selectedIndex.value else old(index);
        var active := if rerunActive && activeIndex.Some? then activeIndex.value else adopted;
        var seeds := rerunSelected && selectedIndex.None? &&
                     (old(key) == "ArrowDown" || old(key) == "ArrowUp" ||
                      (old(focusOnOpen) && (old(key) == " " || old(key) == "Enter")));
        var seeded := if old(key) == "ArrowUp" then MaxIndex(DisabledFlags(items)) else MinIndex(DisabledFlags(items));
        focusOnOpen == old(focusOnOpen) &&
        key == (if rerunSelected && selectedIndex.None? then "" else old(key)) &&
        index == (if seeds then seeded else active) &&
        calls == old(calls)
          + (if rerunSelected && old(focusOnOpen) then [Navigate(Some(adopted))] + FocusItem(items, adopted) else [])
          + (if rerunActive && activeIndex.Some? then [Navigate(Some(active))] + FocusItem(items, active) else [])
          + (if seeds then [Navigate(Some(seeded))] + FocusItem(items, seeded) else [])
    {
      var openChanged := open != this.open;
      var selectedChanged := selectedIndex != this.selectedIndex;
      var activeChanged := activeIndex != this.activeIndex;
      this.open := open;
      this.activeIndex := activeIndex;
      this.selectedIndex := selectedIndex;
      if !enabled {
        // Every effect returns at once when disabled.
        return;
      }
      if open {
        RunWhileOpen(openChanged || selectedChanged, openChanged || activeChanged, openChanged, reference);
      } else {
        RunWhileClosed(openChanged || selectedChanged, openChanged || activeChanged, openChanged, reference);
      }
    }

    /** The effects of a render that leaves the element open, each run when
        its dependencies changed. */
    method RunWhileOpen(rerunSelected: bool, rerunActive: bool, openChanged: bool, reference: Option<Element>)
      requires enabled && open
      modifies this`index, this`calls, this`key, this`focusOnOpen
      ensures
        var adopted := if rerunSelected && selectedIndex.Some? then selectedIndex.value else old(index);
        var active := if rerunActive && activeIndex.Some? then activeIndex.value else adopted;
        var seeds := rerunSelected && selectedIndex.None? &&
                     (old(key) == "ArrowDown" || old(key) == "ArrowUp" ||
                      (old(focusOnOpen) && (old(key) == " " || old(key) == "Enter")));
        var seeded := if old(key) == "ArrowUp" then MaxIndex(DisabledFlags(items)) else MinIndex(DisabledFlags(items));
        focusOnOpen == old(focusOnOpen) &&
        key == (if rerunSelected && selectedIndex.None? then "" else old(key)) &&
        index == (if seeds then seeded else active) &&
        calls == old(calls)
          + (if rerunSelected && old(focusOnOpen) then [Navigate(Some(adopted))] + FocusItem(items, adopted) else [])
          + (if rerunActive && activeIndex.Some? then [Navigate(Some(active))] + FocusItem(items, active) else [])
          + (if seeds then [Navigate(Some(seeded))] + FocusItem(items, seeded) else [])
    {
      ghost var adopted := if rerunSelected && selectedIndex.Some? then selectedIndex.value else index;
      ghost var active := if rerunActive && activeIndex.Some? then activeIndex.value else adopted;
      SelectThenActivate(rerunSelected, rerunActive);
      assert index == active;
      if rerunSelected {
        SeedThenRefocus(reference);
      }
      if openChanged {
        ResetOnClose();
      }
    }

    /** The third and fourth effects while open: the seeding by a remembered
        key, and the refocus of the reference, which does nothing while open. */
    method SeedThenRefocus(reference: Option<Element>)
      requires enabled && open
      modifies this`index, this`calls, this`key
      ensures
        var seeds := selectedIndex.None? &&
                     (old(key) == "ArrowDown" || old(key) == "ArrowUp" ||
                      (focusOnOpen && (old(key) == " " || old(key) == "Enter")));
        var seeded := if old(key) == "ArrowUp" then MaxIndex(DisabledFlags(items)) else MinIndex(DisabledFlags(items));
        key == (if selectedIndex.None? then "" else old(key)) &&
        index == (if seeds then seeded else old(index)) &&
        calls == old(calls) + (if seeds then [Navigate(Some(seeded))] + FocusItem(items, seeded) else [])
    {
      SeedFromKey();
      RefocusReference(reference);
    }

    /** The first two effects of a render that leaves the element open. */
    method SelectThenActivate(rerunSelected: bool, rerunActive: bool)
      requires enabled && open
      modifies this`index, this`calls
      ensures
        var adopted := if rerunSelected && selectedIndex.Some? then selectedIndex.value else old(index);
        var active := if rerunActive && activeIndex.Some? then activeIndex.value else adopted;
        index == active &&
        calls == old(calls)
          + (if rerunSelected && focusOnOpen then [Navigate(Some(adopted))] + FocusItem(items, adopted) else [])
          + (if rerunActive && activeIndex.Some? then [Navigate(Some(active))] + FocusItem(items, active) else [])
    {
      if rerunSelected {
        SyncSelected();
      }
      if rerunActive {
        SyncActive();
      }
    }

    /** The effects of a render that leaves the element closed, each run when
        its dependencies changed. */
    method RunWhileClosed(rerunSelected: bool, rerunActive: bool, closing: bool, reference: Option<Element>)
      requires enabled && !open
      modifies this`index, this`calls, this`key, this`focusOnOpen
      ensures
        index == (if rerunSelected && selectedIndex.Some? then selectedIndex.value else old(index)) &&
        key == (if rerunSelected && selectedIndex.None? then "" else old(key)) &&
        focusOnOpen == (closing || old(focusOnOpen)) &&
        calls == old(calls)
          + (if rerunSelected && selectedIndex.Some? then FocusOn(reference) else [])
          + (if closing then [Navigate(None)] else [])
    {
      if rerunSelected {
        SyncSelected();
      }
      if rerunActive {
        SyncActive();
      }
      if rerunSelected {
        SeedFromKey();
        RefocusReference(reference);
      }
      if closing {
        ResetOnClose();
      }
    }
  }

  /** List wrap: items A, B (disabled), C with `loop`. */
  method ListWrapExample() returns (first: int, second: int)
    ensures first == 2 && second == 0
  {
    var nav := new ListNavigation(true, true, false, false, [Some(false), Some(true), Some(false)], None);
    nav.index := 0;
    var _ := nav.FloatingKeyDown("ArrowDown", false, None);
    first := nav.index;
    var _ := nav.FloatingKeyDown("ArrowDown", false, None);
    second := nav.index;
  }

  /** A null slot is navigated to but not focused: Home on a list whose only
      slot is null. */
  method NullSlotExample() returns (log: seq<Call>)
    ensures log == [Navigate(Some(0))]
  {
    var nav := new ListNavigation(true, false, false, false, [None], None);
    var _ := nav.FloatingKeyDown("Home", false, None);
    log := nav.calls;
  }
}
