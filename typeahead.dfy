/** `useTypeahead`: printable keys accumulate in a buffer that is matched
    against the item labels; the first match after the previous one is
    reported through `onMatch`. A debounce timer clears the buffer. */
module Typeahead {
  import opened Types

  /** Keys that never reach the buffer, before the caller's `ignoreKeys`. */
  const NavigationKeys: seq<string> :=
    ["Home", "End", "Escape", "Enter", "Tab", "ArrowUp", "ArrowDown", "ArrowLeft", "ArrowRight"]

  /** `toLowerCase` on one character (ASCII letters only). */
  function LowerChar(c: char): char {
    if 'A' <= c <= 'Z' then (c as int + 32) as char else c
  }

  function Lower(s: string): string {
    seq(|s|, i requires 0 <= i < |s| => LowerChar(s[i]))
  }

  predicate StartsWith(s: string, prefix: string) {
    |prefix| <= |s| && s[..|prefix|] == prefix
  }

  /** `onFind`, or the default test when it is null. */
  datatype Matcher = DefaultMatcher | Custom(onFind: (Option<string>, string) -> bool)

  /** Whether a label (`null` as `None`) matches the typed string. The default
      lower-cases the label but not the typed string:
      `text?.toLowerCase().indexOf(typed) === 0`. */
  predicate Matches(matcher: Matcher, text: Option<string>, typed: string) {
    match matcher
    case DefaultMatcher => text.Some? && StartsWith(Lower(text.value), typed)
    case Custom(onFind) => onFind(text, typed)
  }

  /** A typed upper-case letter never matches under the default matcher. */
  lemma UpperCaseNeverMatches(text: Option<string>, typed: string, i: nat)
    requires i < |typed| && 'A' <= typed[i] <= 'Z'
    ensures !Matches(DefaultMatcher, text, typed)
  {
  }

  /** The test inside `every`: a null or empty label passes, and so does a
      one-character label; otherwise the first two characters must differ
      once lower-cased. */
  predicate FirstTwoDiffer(text: Option<string>) {
    text.None? || |text.value| < 2 || LowerChar(text.value[0]) != LowerChar(text.value[1])
  }

  /** `allowRapidSuccessionOfFirstLetter` */
  function AllowRapidSuccession(labels: seq<Option<string>>): (r: bool)
    ensures r <==> forall i :: 0 <= i < |labels| ==> FirstTwoDiffer(labels[i])
  {
    if labels == [] then true
    else FirstTwoDiffer(labels[0]) && AllowRapidSuccession(labels[1..])
  }

  /** `s.slice(k)` for k >= 0 */
  function Drop<T>(s: seq<T>, k: nat): seq<T> {
    if k >= |s| then [] else s[k..]
  }

  /** `s.slice(0, k)` for k >= 0 */
  function Take<T>(s: seq<T>, k: nat): seq<T> {
    if k >= |s| then s else s[..k]
  }

  /** The list `find` runs over: the labels after the previous index, then
      those before it (the previous index defaults to 0). */
  function Candidates(labels: seq<Option<string>>, prevIndex: Option<nat>): seq<Option<string>> {
    var p := prevIndex.GetOr(0);
    Drop(labels, p + 1) + Take(labels, p)
  }

  /** The label positions `Candidates` visits, in order. */
  function SearchOrder(n: nat, p: nat): seq<int> {
    seq(if p + 1 < n then n - p - 1 else 0, k => p + 1 + k) + seq(if p < n then p else n, k => k)
  }

  /** The candidate list is the labels taken in `SearchOrder`; that order
      visits every position but `p` once, and never `p` itself (so with no
      previous index, position 0 is never examined). */
  lemma CandidatesFollowSearchOrder(labels: seq<Option<string>>, prevIndex: Option<nat>)
    ensures var order := SearchOrder(|labels|, prevIndex.GetOr(0));
      var cands := Candidates(labels, prevIndex);
      |cands| == |order| &&
      (forall k :: 0 <= k < |order| ==> 0 <= order[k] < |labels| && cands[k] == labels[order[k]]) &&
      (forall k :: 0 <= k < |order| ==> order[k] != prevIndex.GetOr(0)) &&
      (forall i :: 0 <= i < |labels| && i != prevIndex.GetOr(0) ==> i in order) &&
      (forall j, k :: 0 <= j < k < |order| ==> order[j] != order[k])
  {
    var p := prevIndex.GetOr(0);
    var n := |labels|;
    var order := SearchOrder(n, p);
    var cands := Candidates(labels, prevIndex);
    var front := if p + 1 < n then n - p - 1 else 0;
    assert |Drop(labels, p + 1)| == front;
    forall k | 0 <= k < |order|
      ensures 0 <= order[k] < n && cands[k] == labels[order[k]]
    {
      if k < front {
        assert cands[k] == Drop(labels, p + 1)[k];
      } else {
        assert cands[k] == Take(labels, p)[k - front];
      }
    }
    forall i | 0 <= i < n && i != p
      ensures i in order
    {
      if i > p {
        assert order[i - p - 1] == i;
      } else {
        assert order[front + i] == i;
      }
    }
  }

  /** `Array.prototype.find`, as a position: the first candidate the matcher
      accepts, or -1. */
  function FirstMatch(cands: seq<Option<string>>, matcher: Matcher, typed: string): (k: int)
    ensures -1 <= k < |cands|
    ensures k >= 0 ==> Matches(matcher, cands[k], typed)
    ensures forall j :: 0 <= j < |cands| && (k == -1 || j < k) ==> !Matches(matcher, cands[j], typed)
  {
    if cands == [] then -1
    else if Matches(matcher, cands[0], typed) then 0
    else
      var k := FirstMatch(cands[1..], matcher, typed);
      if k == -1 then -1 else k + 1
  }

  /** `labels.indexOf(x)` */
  function IndexOf(labels: seq<Option<string>>, x: Option<string>): (r: int)
    ensures -1 <= r < |labels|
    ensures r >= 0 ==> labels[r] == x && forall j :: 0 <= j < r ==> labels[j] != x
    ensures r == -1 ==> x !in labels
  {
    if labels == [] then -1
    else if labels[0] == x then 0
    else
      var r := IndexOf(labels[1..], x);
      if r == -1 then -1 else r + 1
  }

  /** The index `onKeyDown` reports for the buffer `typed`, or -1: the first
      candidate that matches, located again with `indexOf`; a match that is
      null or the empty string is falsy and counts as none. */
  function SearchIndex(labels: seq<Option<string>>, prevIndex: Option<nat>, matcher: Matcher, typed: string): (r: int)
    ensures -1 <= r < |labels|
    // A reported index holds a non-empty label the matcher accepts, and no
    // earlier index holds the same label.
    ensures r != -1 ==> labels[r].Some? && labels[r].value != "" && Matches(matcher, labels[r], typed)
    ensures r != -1 ==> forall j :: 0 <= j < r ==> labels[j] != labels[r]
  {
    var cands := Candidates(labels, prevIndex);
    var k := FirstMatch(cands, matcher, typed);
    if k == -1 then -1
    else
      match cands[k]
      case None => -1
      case Some(s) => if s == "" then -1 else IndexOf(labels, cands[k])
  }

  /** Position `k` of `order` holds the first label the matcher accepts. */
  ghost predicate FirstInOrder(labels: seq<Option<string>>, order: seq<int>, matcher: Matcher, typed: string, k: int)
    requires forall j :: 0 <= j < |order| ==> 0 <= order[j] < |labels|
  {
    0 <= k < |order| && Matches(matcher, labels[order[k]], typed) &&
    forall j :: 0 <= j < k ==> !Matches(matcher, labels[order[j]], typed)
  }

  /** The reported index carries the label of the first match in search order
      (an index at or before that match's position when labels repeat); no
      index is reported exactly when nothing matches or the first match is
      null or empty. */
  lemma SearchReportsFirstMatch(labels: seq<Option<string>>, prevIndex: Option<nat>, matcher: Matcher, typed: string)
    ensures var order := SearchOrder(|labels|, prevIndex.GetOr(0));
      (forall j :: 0 <= j < |order| ==> 0 <= order[j] < |labels|) &&
      var r := SearchIndex(labels, prevIndex, matcher, typed);
      (r != -1 ==>
        exists k :: FirstInOrder(labels, order, matcher, typed, k) &&
          labels[r] == labels[order[k]] && r <= order[k] &&
          labels[r].Some? && labels[r].value != "") &&
      (r == -1 <==>
        (forall k :: 0 <= k < |order| ==> !Matches(matcher, labels[order[k]], typed)) ||
        exists k :: FirstInOrder(labels, order, matcher, typed, k) &&
          (labels[order[k]] == None || labels[order[k]] == Some("")))
  {
    CandidatesFollowSearchOrder(labels, prevIndex);
    var order := SearchOrder(|labels|, prevIndex.GetOr(0));
    var cands := Candidates(labels, prevIndex);
    var k := FirstMatch(cands, matcher, typed);
    var r := SearchIndex(labels, prevIndex, matcher, typed);
    if k == -1 {
      forall j | 0 <= j < |order| ensures !Matches(matcher, labels[order[j]], typed) {
        assert cands[j] == labels[order[j]];
      }
    } else {
      assert cands[k] == labels[order[k]];
      forall j | 0 <= j < k ensures !Matches(matcher, labels[order[j]], typed) {
        assert cands[j] == labels[order[j]];
      }
      assert FirstInOrder(labels, order, matcher, typed, k);
      assert !(forall j :: 0 <= j < |order| ==> !Matches(matcher, labels[order[j]], typed));
      if r != -1 {
        assert labels[order[k]] in labels;
      }
    }
  }

  /** With the default matcher, a reported index is a position of the list
      whose lower-cased label starts with the typed string. */
  lemma DefaultMatchIsPrefix(labels: seq<Option<string>>, prevIndex: Option<nat>, typed: string)
    ensures var r := SearchIndex(labels, prevIndex, DefaultMatcher, typed);
      r != -1 ==> 0 <= r < |labels| && labels[r].Some? && StartsWith(Lower(labels[r].value), typed)
  {
  }

  /** One `useTypeahead` instance: its refs and the calls it made on `onMatch`. */
  class Typeahead {
    const enabled: bool
    const matcher: Matcher
    const ignoreKeys: seq<string>
    var buffer: string
    var prevIndex: Option<nat>
    var matchIndex: Option<nat>
    /** `timeoutIdRef` holds a debounce timer that has not fired */
    var timerPending: bool
    var calls: seq<Call>

    constructor (enabled: bool, matcher: Matcher, ignoreKeys: seq<string>)
      ensures this.enabled == enabled && this.matcher == matcher && this.ignoreKeys == ignoreKeys
      ensures buffer == "" && prevIndex == None && matchIndex == None && !timerPending && calls == []
    {
      this.enabled := enabled;
      this.matcher := matcher;
      this.ignoreKeys := ignoreKeys;
      buffer := "";
      prevIndex := None;
      matchIndex := None;
      timerPending := false;
      calls := [];
    }

    /** The layout effect on `open`: opening cancels the timer and forgets the
        buffer and both indices; closing leaves them as they are. */
    method OpenChanged(open: bool)
      modifies this`buffer, this`prevIndex, this`matchIndex, this`timerPending
      ensures open ==> buffer == "" && prevIndex == None && matchIndex == None && !timerPending
      ensures !open ==> buffer == old(buffer) && prevIndex == old(prevIndex) &&
                        matchIndex == old(matchIndex) && timerPending == old(timerPending)
    {
      if open {
        timerPending := false;
        prevIndex := None;
        matchIndex := None;
        buffer := "";
      }
    }

    /** `onKeyDown`. `focusInside` says the document's active element is inside
        the element the handler is on; `list` is `listRef.current`. Returns
        whether the event's default was prevented. */
    method KeyDown(key: string, focusInside: bool, list: Option<seq<Option<string>>>) returns (prevented: bool)
      requires enabled
      modifies this`buffer, this`prevIndex, this`matchIndex, this`timerPending, this`calls
      ensures prevented <==> focusInside && key == " " && |old(buffer)| > 0
      ensures !focusInside || list.None? || key in NavigationKeys + ignoreKeys ==>
        buffer == old(buffer) && prevIndex == old(prevIndex) && matchIndex == old(matchIndex) &&
        timerPending == old(timerPending) && calls == old(calls)
      ensures focusInside && list.Some? && key !in NavigationKeys + ignoreKeys ==>
        var rapid := AllowRapidSuccession(list.value) && old(buffer) == key;
        buffer == (if rapid then "" else old(buffer)) + key &&
        prevIndex == (if rapid then old(matchIndex) else old(prevIndex)) &&
        timerPending &&
        var r := SearchIndex(list.value, prevIndex, matcher, buffer);
        if r == -1 then
          matchIndex == old(matchIndex) && calls == old(calls)
        else
          matchIndex == Some(r) && calls == old(calls) + [Match(r)]
    {
      prevented := false;
      if !focusInside {
        return;
      }
      if key == " " && |buffer| > 0 {
        prevented := true;
      }
      if list.None? || key in NavigationKeys + ignoreKeys {
        return;
      }
      var labels := list.value;
      var allowRapid := AllowRapidSuccession(labels);
      if allowRapid && buffer == key {
        buffer := "";
        prevIndex := matchIndex;
      }
      buffer := buffer + key;
      timerPending := true;
      var index := SearchIndex(labels, prevIndex, matcher, buffer);
      if index != -1 {
        calls := calls + [Match(index)];
        matchIndex := Some(index);
      }
    }

    /** The debounce timer fires: the buffer is cleared and the next search
        starts after the last match. With no timer pending nothing happens. */
    method TimeoutFires()
      modifies this`buffer, this`prevIndex, this`timerPending
      ensures old(timerPending) ==> buffer == "" && prevIndex == matchIndex && !timerPending
      ensures !old(timerPending) ==> buffer == old(buffer) && prevIndex == old(prevIndex) && !timerPending
    {
      if timerPending {
        buffer := "";
        prevIndex := matchIndex;
        timerPending := false;
      }
    }
  }

  const Fruits: seq<Option<string>> := [Some("Apple"), Some("Avocado"), Some("Banana")]

  lemma FruitSearches()
    ensures AllowRapidSuccession(Fruits)
    ensures SearchIndex(Fruits, None, DefaultMatcher, "a") == 1
    ensures SearchIndex(Fruits, Some(1), DefaultMatcher, "a") == 0
    ensures SearchIndex(Fruits, Some(0), DefaultMatcher, "a") == 1
  {
    assert Lower("Apple")[..1] == "a";
    assert Lower("Avocado")[..1] == "a";
    assert Lower("Banana")[..1] == "b";
    assert Candidates(Fruits, None) == [Some("Avocado"), Some("Banana")];
    assert Candidates(Fruits, Some(0)) == [Some("Avocado"), Some("Banana")];
    assert Candidates(Fruits, Some(1)) == [Some("Banana"), Some("Apple")];
    assert IndexOf(Fruits, Some("Avocado")) == 1;
  }

  /** Pressing "a" three times in quick succession over Apple, Avocado,
      Banana: position 0 is not examined on the first search, so the cycle
      is Avocado, Apple, Avocado. */
  method SameLetterCycling() returns (matches: seq<Call>)
    ensures matches == [Match(1), Match(0), Match(1)]
  {
    FruitSearches();
    var t := new Typeahead(true, DefaultMatcher, []);
    t.OpenChanged(true);
    assert "a" !in NavigationKeys + [];
    var _ := t.KeyDown("a", true, Some(Fruits));
    assert t.buffer == "a" && t.prevIndex == None && t.matchIndex == Some(1) && t.calls == [Match(1)];
    var _ := t.KeyDown("a", true, Some(Fruits));
    assert t.buffer == "a" && t.prevIndex == Some(1) && t.matchIndex == Some(0);
    var _ := t.KeyDown("a", true, Some(Fruits));
    matches := t.calls;
  }

  /** After the debounce timer fires, the next "a" continues after the last
      match instead of starting from the top of the list. */
  method DebounceContinues() returns (matches: seq<Call>)
    ensures matches == [Match(1), Match(0)]
  {
    FruitSearches();
    var t := new Typeahead(true, DefaultMatcher, []);
    t.OpenChanged(true);
    assert "a" !in NavigationKeys + [];
    var _ := t.KeyDown("a", true, Some(Fruits));
    assert t.buffer == "a" && t.matchIndex == Some(1) && t.calls == [Match(1)];
    t.TimeoutFires();
    assert t.buffer == "" && t.prevIndex == Some(1);
    var _ := t.KeyDown("a", true, Some(Fruits));
    matches := t.calls;
  }
}
