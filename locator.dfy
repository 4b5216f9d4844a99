/** The ordered selector-fallback search that both test scripts repeat at
    every step: walk a list of selector strings in order, swallow any error
    raised while probing one candidate, and stop at the first candidate that
    meets the call site's demands.

    The live browser is replaced by a `Page` oracle that answers, for one
    selector, what the script would observe on `page.locator(sel).first()`. */
module Locator {

  /** What probing one selector observes.
      `LookupFails`: `count()` threw, and the surrounding `catch` skipped it.
      `Matches`: `count()` returned `count`; `visible` is what `isVisible()`
      reported (one that throws lands in the same `catch` as `false` would
      fall through, so it is folded into `false`); `actionOk` says whether
      the call site's follow-up on the element (scroll and click, or
      `innerText()`) completes without throwing. */
  datatype Probe =
    | LookupFails
    | Matches(count: nat, visible: bool, actionOk: bool)

  /** The current page, as seen through selector lookups. */
  type Page = string -> Probe

  /** What a call site demands of a candidate before it stops searching. */
  datatype Need =
    | Attached          // count() > 0
    | Shown             // count() > 0 && isVisible()
    | ShownAndActed     // ... and the follow-up did not throw
    | AttachedAndActed  // count() > 0 and the follow-up did not throw

  /** The search stops at this candidate. */
  predicate Accepts(need: Need, p: Probe) {
    match p
    case LookupFails => false
    case Matches(count, visible, actionOk) =>
      && count > 0
      && (need.Shown? || need.ShownAndActed? ==> visible)
      && (need.ShownAndActed? || need.AttachedAndActed? ==> actionOk)
  }

  /** At least one node matches; the only demand of the modal-dismissal loop. */
  predicate Present(p: Probe) {
    p.Matches? && p.count > 0
  }

  /** The outcome of a search: the winning candidate with its position in the
      list, or exhaustion of the list, which is not an error. */
  datatype LocateResult = NotFound | Found(index: nat, selector: string)

  /** The outcome of searching `candidates[from..]` with demand `need`. */
  function LocateFrom(candidates: seq<string>, page: Page, need: Need, from: nat): (r: LocateResult)
    requires from <= |candidates|
    ensures r.Found? ==> from <= r.index < |candidates| && r.selector == candidates[r.index]
    ensures r.Found? ==> Accepts(need, page(candidates[r.index]))
    ensures r.Found? ==> forall j :: from <= j < r.index ==> !Accepts(need, page(candidates[j]))
    ensures r.NotFound? <==> forall j :: from <= j < |candidates| ==> !Accepts(need, page(candidates[j]))
    decreases |candidates| - from
  {
    if from == |candidates| then NotFound
    else if Accepts(need, page(candidates[from])) then Found(from, candidates[from])
    else LocateFrom(candidates, page, need, from + 1)
  }

  /** The outcome of searching the whole list. */
  function Locate(candidates: seq<string>, page: Page, need: Need): LocateResult {
    LocateFrom(candidates, page, need, 0)
  }

  /** The search loop itself: `for (const sel of candidates) { try { ... } catch {} }`
      with an early exit at the first accepted candidate. */
  method Search(candidates: seq<string>, page: Page, need: Need) returns (r: LocateResult)
    ensures r == Locate(candidates, page, need)
  {
    var i := 0;
    while i < |candidates|
      invariant 0 <= i <= |candidates|
      invariant LocateFrom(candidates, page, need, i) == Locate(candidates, page, need)
    {
      var probe := page(candidates[i]);
      match probe {
        case LookupFails =>
          // the lookup threw: caught, and the next candidate is tried
        case Matches(_, _, _) =>
          if Accepts(need, probe) {
            return Found(i, candidates[i]);
          }
      }
      i := i + 1;
    }
    return NotFound;
  }

  /** A candidate whose lookup throws behaves exactly like one with no
      matching node: replacing every failing lookup by an empty match does
      not change the outcome of any search. */
  lemma {:induction false} FailingLookupIsNonMatch(candidates: seq<string>, page: Page, need: Need, from: nat)
    requires from <= |candidates|
    ensures LocateFrom(candidates, page, need, from)
         == LocateFrom(candidates, AbsentWhenFailing(page), need, from)
    decreases |candidates| - from
  {
    if from < |candidates| {
      FailingLookupIsNonMatch(candidates, page, need, from + 1);
    }
  }

  /** `page` with every throwing lookup replaced by a lookup that finds nothing. */
  function AbsentWhenFailing(page: Page): Page {
    s => if page(s).LookupFails? then Matches(0, false, false) else page(s)
  }

  /** The selectors on which the modal-dismissal loop issues a click: every
      candidate with a matching node, in list order, not only the first. */
  function Attempts(candidates: seq<string>, page: Page): seq<string>
    decreases |candidates|
  {
    if candidates == [] then []
    else
      var last := candidates[|candidates| - 1];
      Attempts(candidates[..|candidates| - 1], page) + (if Present(page(last)) then [last] else [])
  }

  /** A selector is clicked exactly when it is a candidate with a matching node. */
  lemma {:induction false} AttemptsArePresentCandidates(candidates: seq<string>, page: Page)
    ensures forall s :: s in Attempts(candidates, page) <==> s in candidates && Present(page(s))
    decreases |candidates|
  {
    if candidates != [] {
      var init := candidates[..|candidates| - 1];
      AttemptsArePresentCandidates(init, page);
      assert candidates == init + [candidates[|candidates| - 1]];
    }
  }

  /** Click outcomes and visibility never influence the loop: two pages that
      agree on which candidates have a matching node get the same clicks. */
  lemma {:induction false} AttemptsIgnoreClickOutcome(candidates: seq<string>, p1: Page, p2: Page)
    requires forall k :: 0 <= k < |candidates| ==> (Present(p1(candidates[k])) <==> Present(p2(candidates[k])))
    ensures Attempts(candidates, p1) == Attempts(candidates, p2)
    decreases |candidates|
  {
    if candidates != [] {
      AttemptsIgnoreClickOutcome(candidates[..|candidates| - 1], p1, p2);
    }
  }

  /** The modal-dismissal loop: for every candidate with `count() > 0` issue
      `click().catch(() => {})`; a failed click or a failed lookup never
      ends the loop. Returns the clicks issued, in order. */
  method DismissModals(candidates: seq<string>, page: Page) returns (clicked: seq<string>)
    ensures clicked == Attempts(candidates, page)
  {
    clicked := [];
    var i := 0;
    while i < |candidates|
      invariant 0 <= i <= |candidates|
      invariant clicked == Attempts(candidates[..i], page)
    {
      match page(candidates[i]) {
        case LookupFails =>
        case Matches(count, _, _) =>
          if count > 0 {
            // the click's own failure is swallowed by `.catch(() => {})`
            clicked := clicked + [candidates[i]];
          }
      }
      assert candidates[..i + 1][..i] == candidates[..i];
      i := i + 1;
    }
    assert candidates[..i] == candidates;
  }
}
