# Select widget controller, modelled in Dafny

A model of the controller of the `Select` React component of
multi-select-dropdown: a combobox that lets the user pick one option (single
mode) or several (multiple mode) from a fixed option list, with the mouse or
the keyboard.

The model has four parts, one module each:

- `Selection` (selection.dfy): the selection rules. `Commit` is what
  `selectOption`/`mouseSelectOption` pass to the owner's `onChange` (or
  `None` when it is not called): in multiple mode the selected list is
  toggled (`Toggle`, built on `Without`, the `filter` that drops an option),
  in single mode the option replaces the current one and `onChange` is called
  only when it differs. `Cleared` is what `clearOptions` passes, and
  `IsSelected` is `isOptionSelected`.
- `Navigation` (navigation.dfy): the effect of the keyboard handler on the
  interaction state `Ui(isOpen, highlightedIndex)`, as pure functions
  (`KeyStep`, `Arrow`), with lemmas about repeated key presses.
- `View` (view.dfy): the page objects the widget touches. `ScrolledTop` is
  the arithmetic of `ensureInView`, and `EnsureInView` is the method that
  updates the list's `scrollTop` with it. `OptionRefs.AddToRefs` is the
  no-duplicate push into the collected option elements.
- `Widget` (widget.dfy): class `Select` with the fields `isOpen`,
  `highlightedIndex` and the owner's `value`, and one method per event
  handler: container click, blur, option hover, option click, badge click,
  clear button and key press. Each method states its whole new state in
  terms of the pure functions above. Its invariant `Valid()` says that the
  highlight is an index of the option list and that the owner's value is
  made of listed options with no duplicates.

`Scenarios` (scenarios.dfy) drives a `Select` through a few event sequences
and asserts the resulting state from the handlers' contracts alone.

The source compares options by object identity (`!==`, `includes`). Here an
option is a datatype compared by value. The two agree when the option list has
no duplicates (required by `Valid()`) and the owner's value holds the list's
own option objects. The second condition holds for a page that starts from
`[]` or `undefined` and stores what `onChange` passes, since the widget only
ever passes options taken from the list. `WellFormed` states it only as
membership by value.

## Model

| member | source | states |
|---|---|---|
| `Selection.Without` | src/Select.tsx:47-48 | the filtered list no longer holds the option, keeps every other element with its multiplicity (multiset), is shorter by the option's count, is the input itself when the option was absent, and keeps a duplicate-free list duplicate-free |
| `Selection.WithoutConcat` | src/Select.tsx:63-64 | filtering distributes over concatenation, so the remaining elements keep their order |
| `Selection.Toggle` | src/Select.tsx:62-67 | after toggling, the option is selected exactly when it was not before; every other option keeps its membership; a present option shortens the list; an absent one is appended at the end, after the unchanged old list; no duplicates are introduced |
| `Selection.TogglePresentKeepsOrder` | src/Select.tsx:63-64 | removing the selected option at position i of a duplicate-free selection leaves the options before and after it, in their order |
| `Selection.ToggleTwiceAbsent` | src/Select.tsx:62-67 | toggling an unselected option twice gives back exactly the original list |
| `Selection.ToggleTwiceSameOptions` | src/Select.tsx:62-67 | toggling any option twice in any list leaves exactly the same options selected |
| `Selection.ToggleTwiceRestores` | src/Select.tsx:62-67 | toggling any option twice in a duplicate-free selection restores the same options (as a multiset) |
| `Selection.Commit` | src/Select.tsx:61-75 | multiple mode always notifies, with a list where the option's membership is flipped; single mode notifies exactly when the option differs from the current one, and then with that option; the mode never changes |
| `Selection.SelectedSet` | src/Select.tsx:9-19 | the options a value selects: the list's elements in multiple mode, at most one option in single mode |
| `Selection.IsSelected` | src/Select.tsx:77-79 | an option is selected exactly when it is in the value's selected set: in multiple mode when the list holds it, in single mode when it is the current value |
| `Selection.CommitEffect` | src/Select.tsx:61-79 | after a commit, as `isOptionSelected` sees it: single mode selects the option and deselects every other; multiple mode flips the option and leaves every other one as it was |
| `Selection.SingleExclusive` | src/Select.tsx:68-72 | in single mode, selecting a and then b leaves exactly b selected |
| `Selection.CommitWellFormed` | src/Select.tsx:61-72 | committing a listed option keeps the owner's value made of listed options without duplicates |
| `Selection.Cleared` | src/Select.tsx:33-38 | clearing keeps the mode and leaves no option selected (`[]` in multiple mode, `undefined` in single mode) |
| `Navigation.Arrow` | src/Select.tsx:126-143 | an arrow key always leaves the list open; on a closed list it keeps the index; on an open one it moves by one when the result is inside the list and otherwise changes nothing |
| `Navigation.KeyStep` | src/Select.tsx:106-149 | every key keeps the highlight inside the list; Enter flips the open flag (open: commit then closed; closed: opened) and keeps the index; Space opens; Escape closes; both keep the index; other keys change nothing; arrows on a closed list only open it |
| `Navigation.RepeatedArrowDown` | src/Select.tsx:133-135 | k ArrowDown presses on an open list move the highlight to min(index + k, last index) |
| `Navigation.RepeatedArrowUp` | src/Select.tsx:133-135 | k ArrowUp presses on an open list move the highlight to max(index - k, 0) |
| `Navigation.Keys` | src/Select.tsx:106-149 | any sequence of keys keeps the highlight inside the list |
| `View.ScrolledTop` | src/Select.tsx:88-103 | the scroll position is unchanged when the element is visible; it aligns with the element's top when the element is above the window and with its bottom when it is below; an element no taller than the window is visible afterwards |
| `View.ScrolledTopIdempotent` | src/Select.tsx:97-102 | for an element no taller than the window, a second call changes nothing |
| `View.ScrolledTopMinimal` | src/Select.tsx:97-102 | for an element no taller than the window, the list moves by no more than to any other position that shows the element |
| `View.TallElementOscillates` | src/Select.tsx:97-102 | for an element taller than the window, from any scroll position, the second call moves the list again and the third returns it to where the first left it |
| `View.EnsureInView` | src/Select.tsx:88-103 | the container's new `scrollTop` is `ScrolledTop` of the old one and the element's geometry |
| `View.OptionRefs.constructor` | src/Select.tsx:29 | the collected element list starts empty |
| `View.OptionRefs.AddToRefs` | src/Select.tsx:81-85 | a non-null element not yet collected is appended, anything else changes nothing; the list stays free of duplicates and holds every element passed in |
| `Widget.Select.constructor` | src/Select.tsx:26-27 | a mounted widget is closed and highlights the first option |
| `Widget.Select.IsOptionSelected` | src/Select.tsx:77-79 | on the widget's current value, only listed options are drawn as selected, and in single mode only the current value |
| `Widget.Select.ContainerClick` | src/Select.tsx:165 | a click on the widget flips the open flag and changes nothing else |
| `Widget.Select.Blur` | src/Select.tsx:166 | losing focus closes the list whatever its state and changes nothing else |
| `Widget.Select.MouseEnter` | src/Select.tsx:198 | hovering option i highlights it and changes nothing else |
| `Widget.Select.SelectOption` | src/Select.tsx:61-75 | a commit notifies the owner with `Commit`, the owner then holds the new value, the list ends closed and the highlight is kept |
| `Widget.Select.OptionClick` | src/Select.tsx:40-59 | clicking option i commits it and closes the list, without the click also toggling the list |
| `Widget.Select.BadgeClick` | src/Select.tsx:170-177 | clicking the badge of a selected option in multiple mode removes that option from the selection and closes the list |
| `Widget.Select.ClearClick` | src/Select.tsx:181 | the clear button gives the owner the empty value of the mode and leaves the open flag and the highlight as they were |
| `Widget.Select.KeyDown` | src/Select.tsx:106-149 | a key on another target changes nothing; otherwise the new interaction state is `KeyStep`'s; only Enter on an open list commits the highlighted option; `ensureInView` scrolls the list exactly when the highlight moved, to show the newly highlighted option (Enter's `scrollIntoView` is left out) |
| `Widget.Select.Move` | src/Select.tsx:126-143 | an arrow key moves the interaction state as `Arrow` does, leaves the selection alone, and scrolls the newly highlighted option into view when the highlight moved |

## Left out

- Rendering, CSS classes and the `styles` lookups are not modelled.
- Attaching and detaching the keyboard listener in `useEffect` is not modelled. The effect is re-run only when `isOpen`, `highlightedIndex` or `options` change, so the listener can read an older `value` than the owner holds (for instance after the clear button was used while the list stayed open). The model's `KeyDown` always reads the current `value`.
- `scrollIntoView()` on Enter when the highlighted index is above 0 is a browser call and is left out; only the arithmetic of `ensureInView` is modelled.
- The browser clamps `scrollTop` to the scrollable range; `ScrolledTop` does not.
- `stopPropagation` is not modelled as a mechanism: the option, badge and clear clicks simply do not call `ContainerClick`.
- React's batching of `setIsOpen(prev => !prev)` and `setIsOpen(false)` on Enter is not modelled; only the final state (closed) is.
- An empty option list is excluded by `Valid()`: the source reads `options[highlightedIndex]` out of range there.
- The option list is a constant of the widget. A page that passes a different list on a later render can leave `highlightedIndex` outside it, which the source does not check for.
- `Widget.Select.KeyDown` requires the collected option elements (`OptionRefs`) to number one per option, as they do once the list has been rendered; that element i is the element of option i is assumed, not derived from rendering.
- Numeric option values are modelled as integers, not floating-point numbers.
- The demo page src/App.tsx is not part of this model, beyond the reading of `onChange` as storing its argument.
- The code does not clamp the highlight into a changed option list, and the model does not either.
