/** The Select widget's controller: the interaction state (`isOpen`,
    `highlightedIndex`) it keeps between events, and one method per event
    handler. The selection itself belongs to the widget's owner; `value` here
    is the owner's state, replaced by every `onChange` call as a page that
    stores the argument of `onChange` does. Each handler that may call
    `onChange` returns its argument (`None` when it was not called). */
module Widget {

  import opened Seqs
  import opened Selection
  import opened Navigation
  import opened View

  class Select {
    const options: seq<SelectOption>
    var value: SelectValue
    var isOpen: bool
    var highlightedIndex: int

    /** The option list is non-empty and has no duplicates, the highlight
        is one of its indices and the owner's value is made of its options. */
    ghost predicate Valid()
      reads this
    {
      && |options| > 0
      && Distinct(options)
      && 0 <= highlightedIndex < |options|
      && WellFormed(value, options)
    }

    function State(): Ui
      reads this
    {
      Ui(isOpen, highlightedIndex)
    }

    /** Mounting: closed, highlighting the first option. */
    constructor (options: seq<SelectOption>, value: SelectValue)
      requires |options| > 0 && Distinct(options) && WellFormed(value, options)
      ensures Valid()
      ensures this.options == options && this.value == value
      ensures !isOpen && highlightedIndex == 0
    {
      this.options := options;
      this.value := value;
      isOpen := false;
      highlightedIndex := 0;
    }

    /** `isOptionSelected`, as the rendering asks it: only listed options are
        drawn as selected, and in single mode at most one. */
    function IsOptionSelected(option: SelectOption): (r: bool)
      requires Valid()
      reads this
      ensures r ==> option in options
      ensures r && value.Single? ==> value.current == Some(option)
    {
      IsSelected(value, option)
    }

    /** A click on the widget that no inner control handled: toggles the
        list. */
    method ContainerClick()
      requires Valid()
      modifies this
      ensures Valid()
      ensures isOpen == !old(isOpen)
      ensures highlightedIndex == old(highlightedIndex) && value == old(value)
    {
      isOpen := !isOpen;
    }

    /** The widget loses focus: the list closes, whatever the state. */
    method Blur()
      requires Valid()
      modifies this
      ensures Valid()
      ensures !isOpen
      ensures highlightedIndex == old(highlightedIndex) && value == old(value)
    {
      isOpen := false;
    }

    /** The pointer enters option `index`: it becomes the highlighted one. */
    method MouseEnter(index: nat)
      requires Valid() && index < |options|
      modifies this
      ensures Valid()
      ensures highlightedIndex == index
      ensures isOpen == old(isOpen) && value == old(value)
    {
      highlightedIndex := index;
    }

    /** `selectOption` (and `mouseSelectOption`, which differs only in
        stopping the click before it reaches the widget): commit `option`
        and close the list. */
    method SelectOption(option: SelectOption) returns (notified: Option<SelectValue>)
      requires Valid() && option in options
      modifies this
      ensures Valid()
      ensures notified == Commit(old(value), option)
      ensures value == Applied(old(value), notified)
      ensures !isOpen && highlightedIndex == old(highlightedIndex)
    {
      notified := Commit(value, option);
      CommitWellFormed(value, options, option);
      value := Applied(value, notified);
      isOpen := false;
    }

    /** A click on option `index` of the list. */
    method OptionClick(index: nat) returns (notified: Option<SelectValue>)
      requires Valid() && index < |options|
      modifies this
      ensures Valid()
      ensures notified == Commit(old(value), options[index])
      ensures value == Applied(old(value), notified)
      ensures !isOpen && highlightedIndex == old(highlightedIndex)
    {
      notified := SelectOption(options[index]);
    }

    /** A click on the badge of the selected option `value.items[i]` in
        multiple mode: the option is removed from the selection. */
    method BadgeClick(i: nat) returns (notified: Option<SelectValue>)
      requires Valid() && value.Multiple? && i < |value.items|
      modifies this
      ensures Valid()
      ensures notified == Some(Multiple(Without(old(value).items, old(value).items[i])))
      ensures value == Applied(old(value), notified)
      ensures !IsOptionSelected(old(value).items[i])
      ensures !isOpen && highlightedIndex == old(highlightedIndex)
    {
      notified := SelectOption(value.items[i]);
    }

    /** The clear button: the owner is told to hold the empty value of the
        current mode; the click does not reach the widget, so the list stays
        open or closed as it was. */
    method ClearClick() returns (notified: SelectValue)
      requires Valid()
      modifies this`value
      ensures Valid()
      ensures notified == Cleared(old(value)) && value == notified
      ensures isOpen == old(isOpen) && highlightedIndex == old(highlightedIndex)
    {
      notified := Cleared(value);
      value := notified;
    }

    /** The keyboard handler. `onWidget` says whether the event's target is
        the widget itself; `list` is the scrollable option list (null while
        it is not rendered) and `refs` the option elements collected by
        `addToRefs`, one per option once the list has been rendered. */
    method KeyDown(code: KeyCode, onWidget: bool, list: ScrollBox?, refs: OptionRefs)
      returns (notified: Option<SelectValue>)
      requires Valid() && refs.Valid() && |refs.current| == |options|
      modifies this, list
      ensures Valid()
      ensures State() == if onWidget then KeyStep(old(State()), code, |options|) else old(State())
      ensures notified
        == if onWidget && code.Enter? && old(isOpen) then Commit(old(value), options[old(highlightedIndex)]) else None
      ensures value == Applied(old(value), notified)
      ensures list != null ==>
        list.scrollTop == if highlightedIndex == old(highlightedIndex) then old(list.scrollTop)
          else ScrolledTop(old(list.scrollTop), list.clientHeight,
                           refs.current[highlightedIndex].offsetTop, refs.current[highlightedIndex].clientHeight)
    {
      notified := None;
      if !onWidget {
        return;
      }
      match code
      case Enter =>
        var wasOpen := isOpen;
        isOpen := !isOpen;
        if wasOpen {
          notified := SelectOption(options[highlightedIndex]);
        }
      case Space =>
        isOpen := true;
      case Escape =>
        isOpen := false;
      case ArrowUp =>
        Move(false, list, refs);
      case ArrowDown =>
        Move(true, list, refs);
      case OtherKey =>
    }

    /** ArrowUp and ArrowDown (`down`): open a closed list; on an open one,
        move the highlight by one when it stays inside the list and scroll
        the newly highlighted option into view. */
    method Move(down: bool, list: ScrollBox?, refs: OptionRefs)
      requires Valid() && refs.Valid() && |refs.current| == |options|
      modifies this, list
      ensures Valid()
      ensures State() == Arrow(old(State()), if down then 1 else -1, |options|)
      ensures value == old(value)
      ensures list != null ==>
        list.scrollTop == if highlightedIndex == old(highlightedIndex) then old(list.scrollTop)
          else ScrolledTop(old(list.scrollTop), list.clientHeight,
                           refs.current[highlightedIndex].offsetTop, refs.current[highlightedIndex].clientHeight)
    {
      if !isOpen {
        isOpen := true;
        return;
      }
      var newValue := highlightedIndex + (if down then 1 else -1);
      if 0 <= newValue < |options| {
        highlightedIndex := newValue;
        if list != null {
          EnsureInView(list, refs.current[newValue]);
        }
      }
    }
  }
}
