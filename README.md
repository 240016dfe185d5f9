# Floating UI interaction hooks, modelled in Dafny

This project models the interaction layer of `@floating-ui/react-dom-interactions`.
That layer is the set of React hooks that decide when a floating element
(tooltip, popover, menu, listbox, dialog) opens and closes, and where
keyboard focus goes while it is open. With React and the DOM abstracted
away, each hook is a small event-at-a-time state machine:

- `useListNavigation`: arrow/Home/End navigation over a list with disabled items.
- `useTypeahead`: type-to-select, with a rotated prefix search and a debounce.
- `getChildren`: the open descendants of a node in the floating tree's registry.
- `useDismiss`: Escape, outside press, reference press and ancestor scroll; listeners only while open.
- `useClick`: click toggling, with the hover-then-click latch.
- `useHover`: open/close on pointer presence, with delays and a pointer-rest timer.
- `useFocusTrap`: the Tab cycle of a modal element, and blur-outside closing of a non-modal one.
- `useAria`: the ARIA props for each role.
- `useFloating` (`index.ts`): the context object, and its publication on the registry node.
- `useFloatingId`: the page-wide id counter.

How the model works:

- **One module per source file.** Each imports the shared datatypes in `types.dfy`.
- **Hooks with refs are classes.** A hook whose refs change over time is a `class`. The refs are fields; handlers and effects are methods that state the whole new state.
- **Calls on the host are logged.** `onOpenChange`, `events.emit`, `focus()`, `onNavigate` and `onMatch` become entries appended to a `calls: seq<Call>` log, so every contract can say what was called and in which order.
- **Containment is a parameter.** `contains` is a function-typed parameter.
- **Timers are slots.** A timer is a pending-action field. `setTimeout` fills it, `clearTimeout` empties it, and a `Fire…` method runs it.
- **Effects are methods.** A React effect is a method, called when its dependencies change.

Where the library's documented intent and its code disagree, the model follows the code:

- **Typeahead reset.** The buffer and the indices reset when the element *opens*, not on close (`useTypeahead.ts:36-43`).
- **Typeahead debounce.** After the debounce fires, the next search starts after the last match (`prevIndexRef := matchIndexRef`), not from the top of the list. So "a", a pause, "a" over Apple, Avocado, Banana gives Avocado then Apple (`Typeahead.DebounceContinues`).
- **Typeahead first search.** The first search (no previous index) never examines position 0. Pressing "a" three times over Apple, Avocado, Banana therefore reports Avocado, Apple, Avocado, not Apple, Avocado, Apple (`Typeahead.SameLetterCycling`).
- **Typeahead matcher.** The default matcher lower-cases the label but not the typed string, so a typed capital letter never matches (`Typeahead.UpperCaseNeverMatches`).
- **`findNonDisabledIndex` result.** It can return an index outside the list, or 0 when a backward scan runs off the front, even if item 0 is disabled. It is not "the first enabled index".
- **List navigation on close.** Closing calls `onNavigate(null)` and re-arms focus-on-open. Focus returns to the reference only when a `selectedIndex` is given.
- **Hover timers on unmount.** Unmounting `useHover` removes the `dismiss` subscription but clears no timer. A pending timer can still fire (`Hover.Hover.Unmount`).
- **Escape.** Every open `useDismiss` instance with a keydown listener reacts to Escape. Nothing in the code limits this to the innermost open node.

## Model

| member | source | states |
|---|---|---|
| ListNavigation.FirstNotDisabled | packages/react-dom-interactions/src/hooks/useListNavigation.ts:17-22 | The do-while scan stops at the first index at or after (before, when decrementing) its start that is not a disabled item; every index it passed over is disabled |
| ListNavigation.NonDisabledIndex | packages/react-dom-interactions/src/hooks/useListNavigation.ts:11-25 | A forward scan returns an index strictly after the start that is not disabled, with every index in between disabled (start -2 gives 0). A backward scan returns an earlier non-disabled index with every index in between disabled, or 0 when everything before the start is disabled; the result is never -1 |
| ListNavigation.FindNonDisabledIndex | packages/react-dom-interactions/src/hooks/useListNavigation.ts:11-25 | The loop computes exactly `NonDisabledIndex` |
| ListNavigation.MinIndex | packages/react-dom-interactions/src/hooks/useListNavigation.ts:217 | `minIndex` is the first item that is not disabled; it is in range exactly when some item is enabled, and every item before it is disabled |
| ListNavigation.MaxIndex | packages/react-dom-interactions/src/hooks/useListNavigation.ts:218-221 | `maxIndex` is the last item that is not disabled when one exists (every later item disabled), else 0 |
| ListNavigation.MinAtMostMax | packages/react-dom-interactions/src/hooks/useListNavigation.ts:217-221 | With an enabled item, `minIndex <= maxIndex` |
| ListNavigation.ArrowDownClamps | packages/react-dom-interactions/src/hooks/useListNavigation.ts:257-263 | Without `loop`, ArrowDown never passes `maxIndex`: below it, it moves to the next non-disabled item; at or past it, it stays on `maxIndex` |
| ListNavigation.ArrowUpClamps | packages/react-dom-interactions/src/hooks/useListNavigation.ts:274-281 | Without `loop`, ArrowUp never goes below `minIndex`: above it, it moves to the previous non-disabled item; at or below it, it stays on `minIndex` |
| ListNavigation.ArrowDownLoops | packages/react-dom-interactions/src/hooks/useListNavigation.ts:250-256 | With `loop`, ArrowDown at `maxIndex` wraps to `minIndex`, and earlier it moves forward to the next non-disabled item; the result is an enabled item |
| ListNavigation.ArrowUpLoops | packages/react-dom-interactions/src/hooks/useListNavigation.ts:266-273 | With `loop`, ArrowUp at `minIndex` wraps to `maxIndex`, and later it moves back to the previous non-disabled item; the result is an enabled item |
| ListNavigation.ArrowDownTarget | packages/react-dom-interactions/src/hooks/useListNavigation.ts:249-263 | From any position between the first and last enabled items, ArrowDown, with or without `loop`, lands on an enabled item in range |
| ListNavigation.ArrowUpTarget | packages/react-dom-interactions/src/hooks/useListNavigation.ts:264-283 | From any position between the first and last enabled items, ArrowUp, with or without `loop`, lands on an enabled item in range |
| ListNavigation.DisabledFlags | packages/react-dom-interactions/src/hooks/useListNavigation.ts:19-22 | The scan reads a slot as disabled exactly when it holds an element that is disabled; a null slot is not disabled |
| ListNavigation.ListNavigation.constructor | packages/react-dom-interactions/src/hooks/useListNavigation.ts:56-58 | Focus-on-open starts armed, the index starts at `selectedIndex` or 0, the remembered key empty |
| ListNavigation.ListNavigation.PointerCheck | packages/react-dom-interactions/src/hooks/useListNavigation.ts:147-150 | Focus-on-open stays armed exactly when the pointer type is empty (a keyboard-simulated press) |
| ListNavigation.ListNavigation.ReferenceKeyDown | packages/react-dom-interactions/src/hooks/useListNavigation.ts:160-200 | Arms focus-on-open and remembers the key; Enter/Space on a non-button reference opens. Nested: only the forward arrow acts, and it opens and navigates to the first enabled item. Not nested: ArrowDown/ArrowUp open and navigate to `selectedIndex`, else the first/last enabled item. Other keys move nothing |
| ListNavigation.ListNavigation.FloatingKeyDown | packages/react-dom-interactions/src/hooks/useListNavigation.ts:204-287 | Nested backward arrow closes and focuses the reference. Home/End go to the first/last enabled item. ArrowDown/ArrowUp re-centre on `selectedIndex` when the floating element itself is focused, else move by `ArrowDownTarget`/`ArrowUpTarget`; each move navigates and focuses the item |
| ListNavigation.ListNavigation.SyncSelected | packages/react-dom-interactions/src/hooks/useListNavigation.ts:70-83 | Adopts `selectedIndex`; on an armed open, navigates to and focuses the current index |
| ListNavigation.ListNavigation.SyncActive | packages/react-dom-interactions/src/hooks/useListNavigation.ts:85-95 | While open, a controlled `activeIndex` becomes the index and is navigated to and focused |
| ListNavigation.ListNavigation.SeedFromKey | packages/react-dom-interactions/src/hooks/useListNavigation.ts:97-122 | Without a selected index, an open caused by ArrowDown/ArrowUp (or Space/Enter while armed) seeds the first (last for ArrowUp) enabled item; the remembered key is cleared |
| ListNavigation.ListNavigation.RefocusReference | packages/react-dom-interactions/src/hooks/useListNavigation.ts:124-134 | Closing with a selected index focuses the reference, and nothing else is called |
| ListNavigation.ListNavigation.ResetOnClose | packages/react-dom-interactions/src/hooks/useListNavigation.ts:136-145 | Closing re-arms focus-on-open and calls `onNavigate(null)` |
| ListNavigation.ListNavigation.Mount | packages/react-dom-interactions/src/hooks/useListNavigation.ts:70-145 | The first render runs all five effects once. Mounting closed adopts `selectedIndex`, focuses the reference when one is selected, then calls `onNavigate(null)` and arms focus-on-open. Mounting open navigates to the adopted index and focuses it while armed, then to `activeIndex` when given |
| ListNavigation.ListNavigation.Render | packages/react-dom-interactions/src/hooks/useListNavigation.ts:70-145 | A render runs the effects whose dependencies changed, in order, and the whole new state follows. Same props: nothing changes and nothing is called. Disabled: nothing changes. Closed: a changed `selectedIndex` (or the close itself) adopts it, focuses the reference and clears the key when none is selected; closing then arms focus-on-open and calls `onNavigate(null)`. Open: the adopted index is navigated to and focused while armed, then a changed `activeIndex`, then the item a remembered arrow (or armed Space/Enter) seeds |
| ListNavigation.NullSlotExample | packages/react-dom-interactions/src/hooks/useListNavigation.ts:60-66 | Home over a list whose only slot is null navigates to 0 and focuses nothing |
| ListNavigation.ListWrapExample | packages/react-dom-interactions/src/hooks/useListNavigation.ts:249-256 | Over A, B (disabled), C with `loop`, ArrowDown from A skips B to C, and the next wraps to A |
| Typeahead.AllowRapidSuccession | packages/react-dom-interactions/src/hooks/useTypeahead.ts:81-83 | Rapid same-letter cycling is allowed exactly when no label's first two characters are equal case-insensitively (null, empty and one-character labels pass) |
| Typeahead.UpperCaseNeverMatches | packages/react-dom-interactions/src/hooks/useTypeahead.ts:104-107 | A typed string holding an upper-case letter never matches under the default matcher |
| Typeahead.CandidatesFollowSearchOrder | packages/react-dom-interactions/src/hooks/useTypeahead.ts:99-103 | The rotated list is the labels at `prev+1..n-1` then `0..prev-1` (prev defaults to 0): every other position once, position `prev` never |
| Typeahead.FirstMatch | packages/react-dom-interactions/src/hooks/useTypeahead.ts:101-108 | `find` returns the first candidate the matcher accepts, or none when no candidate matches |
| Typeahead.IndexOf | packages/react-dom-interactions/src/hooks/useTypeahead.ts:110 | `indexOf` returns the first position holding the label, or -1 exactly when it is absent |
| Typeahead.SearchIndex | packages/react-dom-interactions/src/hooks/useTypeahead.ts:99-110 | A reported index is in range, holds a non-null, non-empty label the matcher accepts, and no earlier index holds the same label (`indexOf`) |
| Typeahead.SearchReportsFirstMatch | packages/react-dom-interactions/src/hooks/useTypeahead.ts:99-115 | A reported index carries the label of the first match in search order (at or before that match's position when labels repeat); nothing is reported exactly when nothing matches or the first match is null or empty |
| Typeahead.DefaultMatchIsPrefix | packages/react-dom-interactions/src/hooks/useTypeahead.ts:107-115 | With the default matcher a reported index is in range and its lower-cased label starts with the buffer |
| Typeahead.Typeahead.constructor | packages/react-dom-interactions/src/hooks/useTypeahead.ts:31-34 | The buffer starts empty, both indices null, no timer |
| Typeahead.Typeahead.OpenChanged | packages/react-dom-interactions/src/hooks/useTypeahead.ts:36-43 | Opening cancels the timer, clears the buffer and nulls both indices; closing changes nothing |
| Typeahead.Typeahead.KeyDown | packages/react-dom-interactions/src/hooks/useTypeahead.ts:45-116 | Space with a non-empty buffer is prevented. Focus outside, no list, navigation keys and `ignoreKeys` change nothing. Otherwise the key is appended (after resetting buffer and `prevIndex := matchIndex` under the rapid-succession rule), the timer restarts, and a match calls `onMatch` and becomes `matchIndex`; no match leaves `matchIndex` and the calls alone |
| Typeahead.Typeahead.TimeoutFires | packages/react-dom-interactions/src/hooks/useTypeahead.ts:93-97 | The debounce clears the buffer and sets `prevIndex` to `matchIndex`; with no timer pending nothing changes |
| Typeahead.FruitSearches | packages/react-dom-interactions/src/hooks/useTypeahead.ts:99-110 | Over Apple, Avocado, Banana, "a" finds Avocado with no previous index, Apple after Avocado, Avocado after Apple |
| Typeahead.SameLetterCycling | packages/react-dom-interactions/src/hooks/useTypeahead.ts:85-115 | Three quick "a" presses report indices 1, 0, 1 |
| Typeahead.DebounceContinues | packages/react-dom-interactions/src/hooks/useTypeahead.ts:93-115 | "a", the debounce, "a" reports 1 then 0: the search continues after the last match |
| TreeQuery.SomeParentWitness | packages/react-dom-interactions/src/utils/getChildren.ts:13-15 | When `some` holds, a node of the level is the parent |
| TreeQuery.SomeParentIntro | packages/react-dom-interactions/src/utils/getChildren.ts:13-15 | When a node of the level is the parent, `some` holds |
| TreeQuery.Select | packages/react-dom-interactions/src/utils/getChildren.ts:4-7 | One `filter` pass keeps exactly the open registry nodes that are children of the queried id (first pass) or of the previous level |
| TreeQuery.SelectAppend | packages/react-dom-interactions/src/utils/getChildren.ts:4-7 | A pass keeps registry order |
| TreeQuery.GetChildren | packages/react-dom-interactions/src/utils/getChildren.ts:3-22 | The level-by-level loop returns exactly all levels of open descendants, in level then registry order; with no tree it returns nothing |
| TreeQuery.ParentInLevel | packages/react-dom-interactions/src/utils/getChildren.ts:11-16 | A node of a later level is an open registry node whose parent is in the previous level |
| TreeQuery.LevelStep | packages/react-dom-interactions/src/utils/getChildren.ts:11-16 | Each later level is exactly the open registry nodes whose parent is in the previous level |
| TreeQuery.AncestorRank | packages/react-dom-interactions/src/utils/getChildren.ts:10-19 | Following parents back from level `i` to level 0 climbs at least `i` ranks |
| TreeQuery.LevelBound | packages/react-dom-interactions/src/utils/getChildren.ts:10-19 | With acyclic open parent links, no level at or past the registry size is non-empty, so the loop ends |
| TreeQuery.SelectNothing | packages/react-dom-interactions/src/utils/getChildren.ts:4-16 | An empty level, or an undefined id, has no children |
| TreeQuery.UptoSettles | packages/react-dom-interactions/src/utils/getChildren.ts:10-19 | After an empty level all later levels are empty and the result stops growing |
| TreeQuery.UptoIntro | packages/react-dom-interactions/src/utils/getChildren.ts:18 | A node of any level up to `k` is in the concatenation |
| TreeQuery.UptoLevel | packages/react-dom-interactions/src/utils/getChildren.ts:18 | A node of the concatenation comes from one of its levels |
| TreeQuery.FirstLevelLeads | packages/react-dom-interactions/src/utils/getChildren.ts:4-9 | The result begins with the first pass, in registry order |
| TreeQuery.DescendantsOpen | packages/react-dom-interactions/src/utils/getChildren.ts:4-16 | Every returned node is in the registry with an open context |
| TreeQuery.DescendantsSound | packages/react-dom-interactions/src/utils/getChildren.ts:4-19 | Every returned node is a child of the queried id or of another returned node |
| TreeQuery.DescendantsComplete | packages/react-dom-interactions/src/utils/getChildren.ts:4-19 | With acyclic links, every open child of the queried id or of a returned node is returned |
| TreeQuery.UndefinedIdHasNoChildren | packages/react-dom-interactions/src/utils/getChildren.ts:3-7 | Querying an undefined id returns nothing |
| TreeQuery.ClosedNodeCutsOff | packages/react-dom-interactions/src/utils/getChildren.ts:4-16 | A closed node other than the queried one is never returned, nor is any child of it |
| TreeQuery.ParentReturned | packages/react-dom-interactions/src/utils/getChildren.ts:11-19 | The registry parent of a returned node is returned and open, unless it is the queried node |
| TreeQuery.SelectDistinct | packages/react-dom-interactions/src/utils/getChildren.ts:4-7 | A pass over a registry without repeated ids repeats no node |
| TreeQuery.LevelZero | packages/react-dom-interactions/src/utils/getChildren.ts:4-7 | A first-level node is an open registry node whose `parentId` is the defined queried id |
| TreeQuery.QueriedNodeNotBelow | packages/react-dom-interactions/src/utils/getChildren.ts:10-19 | With acyclic links, the queried node is on no level below itself |
| TreeQuery.LevelsDisjoint | packages/react-dom-interactions/src/utils/getChildren.ts:10-19 | With acyclic links and unique ids, no node sits on two levels |
| TreeQuery.UptoDistinct | packages/react-dom-interactions/src/utils/getChildren.ts:10-19 | Levels `0..k` together list no node twice |
| TreeQuery.DescendantsDistinct | packages/react-dom-interactions/src/utils/getChildren.ts:3-22 | With acyclic links and unique ids, the result lists no node twice |
| Floating.UseFloatingContext | packages/react-dom-interactions/src/index.ts:20-43 | `open` defaults to false and `onOpenChange` to a no-op; the context carries the given `open`, `onOpenChange` and `nodeId` and the instance's `events`, `dataRef` and refs |
| Floating.FindNode | packages/react-dom-interactions/src/index.ts:46 | `find` returns the first registry node with the id, and none when no node has it or the id is undefined |
| Floating.Patched | packages/react-dom-interactions/src/index.ts:45-50 | Publishing keeps the registry's size, order, ids and parents; only the first node with the id changes, and it gets the context |
| Floating.NoMatchNoChange | packages/react-dom-interactions/src/index.ts:45-50 | Without a node of that id the registry is unchanged |
| Floating.FloatingTree.constructor | packages/react-dom-interactions/src/types.ts:30 | A tree holds the given registry |
| Floating.PublishContext | packages/react-dom-interactions/src/index.ts:45-50 | The layout effect leaves the registry as `Patched` (first matching node gets the context); outside a tree nothing happens |
| Floating.PublishExample | packages/react-dom-interactions/src/index.ts:45-50 | A registered child publishes its open context; its parent's entry is untouched |
| FloatingId.Decimal | packages/react-dom-interactions/src/hooks/useFloatingId.ts:5 | The counter prints as decimal digits without a leading zero |
| FloatingId.DecimalValue | packages/react-dom-interactions/src/hooks/useFloatingId.ts:5 | Reading the printed digits back gives the counter value |
| FloatingId.DecimalInjective | packages/react-dom-interactions/src/hooks/useFloatingId.ts:3-6 | Distinct counter values print differently |
| FloatingId.IdCounter.constructor | packages/react-dom-interactions/src/hooks/useFloatingId.ts:3 | The counter starts at 0 |
| FloatingId.IdCounter.GenId | packages/react-dom-interactions/src/hooks/useFloatingId.ts:4-6 | Each call returns `floating-ui-` and the counter value before the call, and increments the counter by 1 |
| FloatingId.IdsDistinct | packages/react-dom-interactions/src/hooks/useFloatingId.ts:3-6 | Ids from distinct counter values are distinct |
| FloatingId.TwoIds | packages/react-dom-interactions/src/hooks/useFloatingId.ts:3-10 | The first two ids on a page are `floating-ui-0` and `floating-ui-1` |
| Dismiss.Listeners | packages/react-dom-interactions/src/hooks/useDismiss.ts:80-96 | One effect run adds one listener per document option that is set and one per watched ancestor; none while closed or disabled |
| Dismiss.Inside | packages/react-dom-interactions/src/hooks/useDismiss.ts:53-69 | A press with no target element is never inside; with no floating or reference element and no open descendant, every press is outside |
| Dismiss.ListenersGated | packages/react-dom-interactions/src/hooks/useDismiss.ts:40-105 | Listeners exist only while open and enabled; the keydown and pointerdown listeners are there exactly when `escapeKey`/`outsidePointerDown` is set, and a scroll listener exactly for each watched ancestor |
| Dismiss.PressInNestedPopoverIsInside | packages/react-dom-interactions/src/hooks/useDismiss.ts:53-69 | A press inside the floating element of an open popover nested at any depth below this one counts as inside |
| Dismiss.DismissProps | packages/react-dom-interactions/src/hooks/useDismiss.ts:121-134 | Disabled returns no props; enabled returns only the reference's `onPointerDown` |
| Dismiss.Dismiss.constructor | packages/react-dom-interactions/src/hooks/useDismiss.ts:40-43 | Nothing is attached before the first effect run |
| Dismiss.Dismiss.Render | packages/react-dom-interactions/src/hooks/useDismiss.ts:40-105 | The previous run's cleanup removes what it added, then exactly the gated listeners for the new `open` and options are attached |
| Dismiss.Dismiss.Cleanup | packages/react-dom-interactions/src/hooks/useDismiss.ts:98-105 | Cleanup removes exactly the listeners the run added |
| Dismiss.Dismiss.Install | packages/react-dom-interactions/src/hooks/useDismiss.ts:80-96 | The effect body attaches the gated document listeners, then one scroll listener per watched ancestor |
| Dismiss.Dismiss.AddScrollListeners | packages/react-dom-interactions/src/hooks/useDismiss.ts:94-96 | One scroll listener per ancestor, in order |
| Dismiss.Dismiss.AddListener | packages/react-dom-interactions/src/hooks/useDismiss.ts:81-82 | Attaching one listener records it for the cleanup |
| Dismiss.Dismiss.DocumentKeyDown | packages/react-dom-interactions/src/hooks/useDismiss.ts:45-51 | With the listener attached, Escape emits `dismiss`, closes and focuses the reference, in that order; anything else changes nothing |
| Dismiss.Dismiss.DocumentPointerDown | packages/react-dom-interactions/src/hooks/useDismiss.ts:53-74 | A press inside the floating element, the reference or an open descendant's floating element changes nothing; any other press emits `dismiss`, closes and focuses the reference |
| Dismiss.Dismiss.AncestorScrolled | packages/react-dom-interactions/src/hooks/useDismiss.ts:76-78 | A watched ancestor's scroll closes, without `dismiss` and without moving focus |
| Dismiss.Dismiss.ReferencePointerDown | packages/react-dom-interactions/src/hooks/useDismiss.ts:125-133 | A press on the reference emits `dismiss` and closes only with `referencePointerDown` |
| Dismiss.EscapeThenClosed | packages/react-dom-interactions/src/hooks/useDismiss.ts:40-105 | Escape while open dismisses and focuses the reference; after closing no listener is left and Escape does nothing |
| Click.ClickProps | packages/react-dom-interactions/src/hooks/useClick.ts:15-39 | Disabled returns no handlers; enabled returns only the reference's `onClick` |
| Click.Click.constructor | packages/react-dom-interactions/src/hooks/useClick.ts:11-14 | The hook shares the context's data ref and has called nothing |
| Click.Click.OnClick | packages/react-dom-interactions/src/hooks/useClick.ts:21-37 | A click while closed records the click as `openEvent` and opens. While open, it closes and clears the latch when the element was opened by a click or is latched; otherwise it only sets the latch and calls nothing |
| Click.SecondClickCloses | packages/react-dom-interactions/src/hooks/useClick.ts:22-32 | On an element opened some other way, the first click only latches and the second closes |
| Click.ClickToggles | packages/react-dom-interactions/src/hooks/useClick.ts:21-37 | A click opens and the next click closes |
| Hover.GetDelay | packages/react-dom-interactions/src/hooks/useHover.ts:7-13 | A number delay applies unchanged to both phases; an object gives the phase's field, possibly absent |
| Hover.HoverProps | packages/react-dom-interactions/src/hooks/useHover.ts:84-163 | Disabled returns no props; enabled returns three reference and two floating pointer handlers |
| Hover.Hover.constructor | packages/react-dom-interactions/src/hooks/useHover.ts:48-70 | Both timer slots start empty, pointer-rest opening starts blocked and the `dismiss` subscription is made |
| Hover.Hover.Render | packages/react-dom-interactions/src/hooks/useHover.ts:53-57 | Whenever the element is closed the hover-then-click latch is cleared |
| Hover.Hover.OnDismiss | packages/react-dom-interactions/src/hooks/useHover.ts:59-64 | A `dismiss` event empties both timer slots and blocks pointer-rest opening |
| Hover.Hover.CloseWithDelay | packages/react-dom-interactions/src/hooks/useHover.ts:72-82 | With a delay the shared slot is replaced by a close timer for the close delay; without one it closes now only if asked to |
| Hover.Hover.ReferencePointerMove | packages/react-dom-interactions/src/hooks/useHover.ts:90-101 | While closed and with a rest time, the pointer-rest timer is restarted; otherwise nothing changes |
| Hover.Hover.FireRestTimeout | packages/react-dom-interactions/src/hooks/useHover.ts:96-100 | The pointer-rest timer opens only when not blocked |
| Hover.Hover.ReferencePointerEnter | packages/react-dom-interactions/src/hooks/useHover.ts:102-118 | With `mouseOnly`, a non-mouse pointer changes nothing. Otherwise it unblocks pointer-rest opening, records `openEvent`, and opens now (no delay) or replaces the shared slot with an open timer |
| Hover.Hover.ReferencePointerLeave | packages/react-dom-interactions/src/hooks/useHover.ts:119-155 | Nothing happens when latched or opened by a click. Otherwise the rest timer is cancelled. Without `handleLeave` the element closes now or schedules a close. With it, the slot is emptied and the new handler listens; if its call on the leave event itself asks to close, that close happens now or is scheduled |
| Hover.Hover.LeaveHandlerCloses | packages/react-dom-interactions/src/hooks/useHover.ts:141-145 | A listening handler that asks to close stops listening, then closes now or schedules a close; without a listening handler nothing changes |
| Hover.Hover.FloatingPointerEnter | packages/react-dom-interactions/src/hooks/useHover.ts:158-160 | Entering the floating element cancels the pending timer |
| Hover.Hover.FloatingPointerLeave | packages/react-dom-interactions/src/hooks/useHover.ts:161 | Leaving the floating element never closes at once; with a delay it schedules a close |
| Hover.Hover.FireTimeout | packages/react-dom-interactions/src/hooks/useHover.ts:72-118 | The shared timer runs its action (open or close) once and empties the slot |
| Hover.Hover.Unmount | packages/react-dom-interactions/src/hooks/useHover.ts:66-69 | Unmounting removes the `dismiss` subscription |
| Hover.DismissCancelsDelayedOpen | packages/react-dom-interactions/src/hooks/useHover.ts:59-64 | A delayed open overtaken by a dismissal never opens |
| Hover.RestOpensAfterEnter | packages/react-dom-interactions/src/hooks/useHover.ts:90-118 | Pointer-rest opening stays blocked until a counted pointer enters; then resting opens |
| Hover.DelegatedLeaveCloses | packages/react-dom-interactions/src/hooks/useHover.ts:119-152 | With a handler and a close delay, leaving only starts the handler; a later close request schedules the close, which happens when the timer fires |
| Hover.HoverThenClick | packages/react-dom-interactions/src/hooks/useHover.ts:119-125 | Hover opens, a click latches, leaving keeps it open, a second click closes and the latch is cleared |
| FocusTrap.FocusableElements | packages/react-dom-interactions/src/hooks/useFocusTrap.ts:41-64 | An element is in the focus list exactly when some entry of `order` contributes it (absent reference or floating element dropped) |
| FocusTrap.FocusableElementsAppend | packages/react-dom-interactions/src/hooks/useFocusTrap.ts:41-64 | The list follows `order`: a concatenated order gives the concatenated list |
| FocusTrap.DefaultOrderIsContent | packages/react-dom-interactions/src/hooks/useFocusTrap.ts:31-58 | The default order lists exactly the floating element's focusable content |
| FocusTrap.NextTabIndex | packages/react-dom-interactions/src/hooks/useFocusTrap.ts:131-136 | Tab stays in range and moves one forward before the last element |
| FocusTrap.PrevTabIndex | packages/react-dom-interactions/src/hooks/useFocusTrap.ts:126-130 | Shift+Tab stays in range and moves one back after the first element |
| FocusTrap.TabInverse | packages/react-dom-interactions/src/hooks/useFocusTrap.ts:126-136 | Shift+Tab undoes Tab and Tab undoes Shift+Tab on in-range positions |
| FocusTrap.TabPressesAdvance | packages/react-dom-interactions/src/hooks/useFocusTrap.ts:131-136 | Before the end of the list each Tab moves one place |
| FocusTrap.TabPressesCompose | packages/react-dom-interactions/src/hooks/useFocusTrap.ts:131-136 | `a` Tabs then `b` Tabs are `a + b` Tabs |
| FocusTrap.TabPressesCycle | packages/react-dom-interactions/src/hooks/useFocusTrap.ts:131-138 | From any element Tab runs to the end, wraps to the first, and comes back after one round |
| FocusTrap.ChildOpen | packages/react-dom-interactions/src/hooks/useFocusTrap.ts:108-114 | Outside a tree, or with an undefined node id, the child-open guard never holds |
| FocusTrap.BlurCloses | packages/react-dom-interactions/src/hooks/useFocusTrap.ts:157-167 | A blur to no element, or with no reference element, never closes; focus moving into the floating element never closes |
| FocusTrap.ChildOpenIsFirstLevel | packages/react-dom-interactions/src/hooks/useFocusTrap.ts:108-114 | The child-open guard holds exactly when the first level of the registry query is non-empty |
| FocusTrap.FocusTrapProps | packages/react-dom-interactions/src/hooks/useFocusTrap.ts:213-228 | Disabled gives `{}`, modal only `aria-modal` on the floating element, non-modal `onBlur` on both |
| FocusTrap.ElementAt | packages/react-dom-interactions/src/hooks/useFocusTrap.ts:138 | Indexing the list yields an element exactly in range |
| FocusTrap.FocusTrap.constructor | packages/react-dom-interactions/src/hooks/useFocusTrap.ts:39 | The index starts at 0 and no listener is attached |
| FocusTrap.FocusTrap.KeyEffect | packages/react-dom-interactions/src/hooks/useFocusTrap.ts:94-155 | The keydown listener is attached exactly while an enabled modal trap is open; closing resets the index to 0 |
| FocusTrap.FocusTrap.FocusEffect | packages/react-dom-interactions/src/hooks/useFocusTrap.ts:66-92 | On open the `initialContentFocus` element of the list (by position, or the ref's element if listed) is focused; on close a modal trap focuses the reference; `inert` or disabled does nothing |
| FocusTrap.FocusTrap.KeyDown | packages/react-dom-interactions/src/hooks/useFocusTrap.ts:107-140 | While a child is open nothing happens. Tab is prevented; unless `inert`, the index moves round the list (backward with Shift) and that element is focused; with `inert` the index is unchanged |
| FocusTrap.FocusTrap.Blur | packages/react-dom-interactions/src/hooks/useFocusTrap.ts:157-167 | Non-modal blur closes exactly when focus moves to an element outside both the floating element and the reference |
| FocusTrap.ClosedModalRefocusesEachRender | packages/react-dom-interactions/src/hooks/useFocusTrap.ts:66-92 | With the default `order`, the focus effect reruns after each render, so two renders of a closed modal trap focus the reference twice |
| FocusTrap.TabCycle | packages/react-dom-interactions/src/hooks/useFocusTrap.ts:116-138 | Over reference, floating and two content elements, Tab walks and wraps, Shift+Tab wraps back, and Tab is ignored while a child popover is open |
| Aria.UseAria | packages/react-dom-interactions/src/hooks/useAria.ts:14-51 | Disabled returns `{}`; the role defaults to dialog; the floating element carries the id and role. A tooltip's reference is described by the id exactly while open. Other roles get exactly `aria-expanded`, `aria-haspopup` and `aria-controls` (the id only while open), plus `role=combobox` for a listbox; the floating element gets exactly the id and role, plus `aria-labelledby` and `aria-describedby` for a dialog |
| Aria.ReferencePointsAtFloatingWhileOpen | packages/react-dom-interactions/src/hooks/useAria.ts:25-40 | The reference points at the floating element's id exactly while open |

## Left out

- The browser, React and time are abstracted. Element identity is a number and containment (`contains`) is a parameter. The document's active element is an input flag. `focus()`, `onOpenChange`, `events.emit`, `onNavigate` and `onMatch` are entries in a call log. Every timer is a pending slot fired explicitly, with no clock.
- React effects are methods called when their dependencies change. The model assumes `listRef`, `onNavigate`, `refs` and `events` keep their identity between renders; the focus trap's `order` is the exception noted below.
- `isElement` and `isHTMLElement` both collapse into "the ref holds an element" (`Option`).
- `focus({preventScroll: true})` is modelled as a plain focus; scrolling is not modelled.
- Lower-casing covers ASCII letters only.
- Each list slot is null or an element seen only through its disabled flag (`disabled` attribute or `aria-disabled="true"`).
- Registry nodes are values: `node.context = context` replaces the entry in the registry, and no other alias of the node object is modelled.
- `createPubSub`, `FloatingTree`, `FloatingPortal`, `useInteractions`, `getDocument`, `utils/is` and `safePolygon` are not part of this model.
- `getOverflowAncestors` is not part of this model. It is the parameter `ancestorsOf`, whose result the effect iterates.
- FocusTrap.FocusTrap.FocusEffect: the focus trap has no render method. With the default `order` (useFocusTrap.ts:31), or any inline array, `getFocusableElements` (line 64) is a new function on every render, so both effects (dependency lists at lines 84-92 and 146-155) rerun after every render. A closed modal trap then focuses the reference on each render (lines 81-82), and an open trap refocuses the `initialContentFocus` element while `indexRef` keeps its position, so Tab and focus can drift apart. The model reproduces this only when `FocusEffect` is called once per render, as `ClosedModalRefocusesEachRender` does; no contract ties the effects to rendering.
- The focus trap's `aria-hidden` sweep over `body > *` (useFocusTrap.ts:169-189) and its scroll lock (useFocusTrap.ts:191-211) are DOM side effects and are left out.
- Hover.Hover.ReferencePointerLeave: what the `handleLeave` (safe-polygon) handler decides, on the leave event itself (useHover.ts:148) and on later pointer moves, is an input: the flag `handlerClosesAtOnce` and calls of `LeaveHandlerCloses`. The geometry behind the decision is not modelled.
- Hover.Hover: the options (`delay`, `mouseOnly`, `pointerRestMs`, `handleLeave`) are fixed per instance, not re-read on every render.
- TreeQuery.GetChildren: requires a ghost rank map that witnesses that the open parent links of the whole registry are acyclic. That is stronger than termination needs: the code loops forever only on a cycle of open nodes reachable from the queried id, and a registry with a cycle elsewhere, which the code handles, is outside the model.
- Dismiss.Dismiss.DocumentPointerDown: carries the same global acyclicity requirement, because it calls the registry query; a registry with an unreachable open cycle is outside the model here too.
- FloatingId.IdCounter.GenId: the counter is an unbounded natural. The source's counter is a JavaScript number, which loses integer precision past 2^53 and then prints in exponent form; that range is not modelled.
- Dismiss.Dismiss: `attached` is a multiset, so an ancestor shared by the reference and the floating element holds two scroll listeners, where the DOM deduplicates the same listener on the same target. The cleanup removes both, so which listeners are present always agrees; only the count differs.
- Typeahead.Typeahead.KeyDown: the timer slot records only that a debounce is pending, not its `debounceMs`; `event.stopPropagation` is not modelled separately from `preventDefault`.
- The positioning package (`packages/react-dom`) is not part of this model: geometry, floating-point coordinates and asynchronous position computation.
- The recipes, `FloatingOverlay` and `usePrevious` are not part of this model.
