/** The keyboard part of the Select widget's interaction state: whether the
    option list is open and which option keyboard navigation targets. Only
    the effect on these two values is here; what the Enter key commits is in
    module Selection and the widget class puts the two together. */
module Navigation {

  /** The key codes the keyboard handler distinguishes; every other code is
      `OtherKey`. */
  datatype KeyCode = Enter | Space | Escape | ArrowUp | ArrowDown | OtherKey

  /** The interaction state. */
  datatype Ui = Ui(isOpen: bool, highlightedIndex: int)

  predicate InRange(ui: Ui, n: nat) {
    0 <= ui.highlightedIndex < n
  }

  /** An arrow key: a closed list only opens; an open list moves the
      highlight by `delta` when the new index is inside the list. */
  function Arrow(ui: Ui, delta: int, n: nat): (r: Ui)
    ensures r.isOpen
    ensures !ui.isOpen ==> r.highlightedIndex == ui.highlightedIndex
    ensures ui.isOpen && 0 <= ui.highlightedIndex + delta < n ==> r.highlightedIndex == ui.highlightedIndex + delta
    ensures ui.isOpen && !(0 <= ui.highlightedIndex + delta < n) ==> r == ui
  {
    if !ui.isOpen then Ui(true, ui.highlightedIndex)
    else
      var newValue := ui.highlightedIndex + delta;
      if 0 <= newValue < n then Ui(true, newValue) else ui
  }

  /** The state after the keyboard handler has handled `code` for a list of
      `n` options (the event's target being the widget). For Enter on an
      open list this is the state after the commit, which closes the list. */
  function KeyStep(ui: Ui, code: KeyCode, n: nat): (r: Ui)
    ensures InRange(ui, n) ==> InRange(r, n)
    ensures code.Enter? ==> r == Ui(!ui.isOpen, ui.highlightedIndex)
    ensures code.Space? ==> r == Ui(true, ui.highlightedIndex)
    ensures code.Escape? ==> r == Ui(false, ui.highlightedIndex)
    ensures code.OtherKey? ==> r == ui
    ensures (code.ArrowUp? || code.ArrowDown?) && !ui.isOpen ==> r == Ui(true, ui.highlightedIndex)
  {
    match code
    case Enter => Ui(!ui.isOpen, ui.highlightedIndex)
    case Space => Ui(true, ui.highlightedIndex)
    case Escape => Ui(false, ui.highlightedIndex)
    case ArrowUp => Arrow(ui, -1, n)
    case ArrowDown => Arrow(ui, 1, n)
    case OtherKey => ui
  }

  /** `k` presses of the same key. */
  function Presses(ui: Ui, code: KeyCode, n: nat, k: nat): Ui
    decreases k
  {
    if k == 0 then ui else Presses(KeyStep(ui, code, n), code, n, k - 1)
  }

  function Min(a: int, b: int): int { if a <= b then a else b }

  function Max(a: int, b: int): int { if a >= b then a else b }

  /** Repeated ArrowDown on an open list walks down one option per press
      and then stays on the last option. */
  lemma {:induction false} RepeatedArrowDown(ui: Ui, n: nat, k: nat)
    requires ui.isOpen && InRange(ui, n)
    ensures Presses(ui, ArrowDown, n, k) == Ui(true, Min(ui.highlightedIndex + k, n - 1))
    decreases k
  {
    if k > 0 {
      RepeatedArrowDown(KeyStep(ui, ArrowDown, n), n, k - 1);
    }
  }

  /** Repeated ArrowUp on an open list walks up one option per press and
      then stays on the first option. */
  lemma {:induction false} RepeatedArrowUp(ui: Ui, n: nat, k: nat)
    requires ui.isOpen && InRange(ui, n)
    ensures Presses(ui, ArrowUp, n, k) == Ui(true, Max(ui.highlightedIndex - k, 0))
    decreases k
  {
    if k > 0 {
      RepeatedArrowUp(KeyStep(ui, ArrowUp, n), n, k - 1);
    }
  }

  /** Any sequence of keys keeps the highlight inside the list. */
  function Keys(ui: Ui, codes: seq<KeyCode>, n: nat): (r: Ui)
    ensures InRange(ui, n) ==> InRange(r, n)
    decreases |codes|
  {
    if codes == [] then ui else Keys(KeyStep(ui, codes[0], n), codes[1..], n)
  }
}
