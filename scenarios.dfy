/** Uses of the widget as a page drives it, checked against the handlers'
    contracts alone. */
module Scenarios {

  import opened Selection
  import opened Navigation
  import opened View
  import opened Widget

  const ETT := SelectOption("Ett", Str("ett"))
  const TVA := SelectOption("Två", Str("två"))
  const TRE := SelectOption("Tre", Str("tre"))

  /** Single mode: open with a click, ArrowDown twice, Enter commits the
      third option and closes the list. */
  method SingleSelectScenario() {
    var select := new Select([ETT, TVA, TRE], Single(None));
    var list := new ScrollBox(0, 40);
    var e0 := new OptionElement(0, 20);
    var e1 := new OptionElement(20, 20);
    var e2 := new OptionElement(40, 20);
    var refs := new OptionRefs();
    refs.AddToRefs(e0);
    refs.AddToRefs(e1);
    refs.AddToRefs(e2);
    assert refs.current == [e0, e1, e2];
    select.ContainerClick();
    assert select.isOpen && select.highlightedIndex == 0;
    var n := select.KeyDown(ArrowDown, true, list, refs);
    assert select.highlightedIndex == 1 && list.scrollTop == 0;
    n := select.KeyDown(ArrowDown, true, list, refs);
    assert select.highlightedIndex == 2 && list.scrollTop == 20;
    n := select.KeyDown(Enter, true, list, refs);
    assert n == Some(Single(Some(TRE)));
    assert select.value == Single(Some(TRE)) && !select.isOpen;
    n := select.OptionClick(2);
    assert n == None && select.value == Single(Some(TRE));
  }

  /** Multiple mode: clicking Ett, Två and Ett again leaves only Två;
      clearing afterwards empties the selection without opening the list. */
  method MultiSelectScenario() {
    var select := new Select([ETT, TVA], Multiple([]));
    var n := select.OptionClick(0);
    assert select.value == Multiple([ETT]);
    n := select.OptionClick(1);
    assert select.value == Multiple([ETT, TVA]);
    n := select.OptionClick(0);
    assert select.value == Multiple([TVA]);
    var cleared := select.ClearClick();
    assert select.value == Multiple([]) && !select.isOpen;
  }

  /** Escape closes the list and keeps the highlight. */
  method EscapeScenario() {
    var select := new Select([ETT, TVA, TRE], Single(None));
    select.ContainerClick();
    select.MouseEnter(2);
    var refs := new OptionRefs();
    var e0 := new OptionElement(0, 20);
    var e1 := new OptionElement(20, 20);
    var e2 := new OptionElement(40, 20);
    refs.AddToRefs(e0);
    refs.AddToRefs(e1);
    refs.AddToRefs(e2);
    var n := select.KeyDown(Escape, true, null, refs);
    assert !select.isOpen && select.highlightedIndex == 2;
  }

  /** Rendering the same elements again, or a removed one (null), leaves the
      collected list as it was. */
  method RefsScenario() {
    var refs := new OptionRefs();
    var e0 := new OptionElement(0, 20);
    var e1 := new OptionElement(20, 20);
    refs.AddToRefs(e0);
    refs.AddToRefs(e1);
    refs.AddToRefs(e0);
    refs.AddToRefs(null);
    refs.AddToRefs(e1);
    assert refs.current == [e0, e1];
  }
}
