/** The parts of the page the Select widget touches directly: the scrollable
    option list (`ul`), the option elements (`li`), the list of option
    elements the widget collects as they are rendered, and `ensureInView`,
    which scrolls the list so that one option is visible. Pixel values are
    integers. */
module View {

  import opened Seqs

  /** The element `[top, top + height)` lies inside the window
      `[scrollTop, scrollTop + viewHeight]`. */
  predicate Visible(scrollTop: int, viewHeight: nat, top: int, height: nat) {
    scrollTop <= top && top + height <= scrollTop + viewHeight
  }

  /** The scroll position `ensureInView` leaves behind: unchanged when the
      element is visible, otherwise aligned with the element's top (element
      above the window) or with its bottom (element below the window). */
  function ScrolledTop(scrollTop: int, viewHeight: nat, top: int, height: nat): (r: int)
    ensures Visible(scrollTop, viewHeight, top, height) ==> r == scrollTop
    ensures top < scrollTop ==> r == top
    ensures scrollTop <= top && scrollTop + viewHeight < top + height ==> r + viewHeight == top + height
    ensures height <= viewHeight ==> Visible(r, viewHeight, top, height)
  {
    var cTop := scrollTop;
    var cBottom := cTop + viewHeight;
    var eTop := top;
    var eBottom := eTop + height;
    if eTop < cTop then scrollTop - (cTop - eTop)
    else if eBottom > cBottom then scrollTop + (eBottom - cBottom)
    else scrollTop
  }

  /** For an element no taller than the window, scrolling again changes
      nothing. */
  lemma ScrolledTopIdempotent(scrollTop: int, viewHeight: nat, top: int, height: nat)
    requires height <= viewHeight
    ensures var t := ScrolledTop(scrollTop, viewHeight, top, height);
      ScrolledTop(t, viewHeight, top, height) == t
  {
  }

  /** For an element no taller than the window, `ensureInView` moves the
      list by the least distance that makes the element visible. */
  lemma ScrolledTopMinimal(scrollTop: int, viewHeight: nat, top: int, height: nat, other: int)
    requires height <= viewHeight && Visible(other, viewHeight, top, height)
    ensures Distance(ScrolledTop(scrollTop, viewHeight, top, height), scrollTop) <= Distance(other, scrollTop)
  {
  }

  function Distance(a: int, b: int): nat {
    if a <= b then b - a else a - b
  }

  /** An element taller than the window is never settled: from any scroll
      position, the calls alternate between aligning its bottom and
      aligning its top. */
  lemma TallElementOscillates(scrollTop: int, viewHeight: nat, top: int, height: nat)
    requires viewHeight < height
    ensures var t1 := ScrolledTop(scrollTop, viewHeight, top, height);
      var t2 := ScrolledTop(t1, viewHeight, top, height);
      t2 != t1 && ScrolledTop(t2, viewHeight, top, height) == t1
  {
  }

  /** The scrollable option list. */
  class ScrollBox {
    var scrollTop: int
    const clientHeight: nat

    constructor (scrollTop: int, clientHeight: nat)
      ensures this.scrollTop == scrollTop && this.clientHeight == clientHeight
    {
      this.scrollTop := scrollTop;
      this.clientHeight := clientHeight;
    }
  }

  /** A rendered option: its offset from the top of the list and its
      height. */
  class OptionElement {
    const offsetTop: int
    const clientHeight: nat

    constructor (offsetTop: int, clientHeight: nat)
      ensures this.offsetTop == offsetTop && this.clientHeight == clientHeight
    {
      this.offsetTop := offsetTop;
      this.clientHeight := clientHeight;
    }
  }

  /** `ensureInView`: scroll `container` so that `element` is in view. */
  method EnsureInView(container: ScrollBox, element: OptionElement)
    modifies container
    ensures container.scrollTop
      == ScrolledTop(old(container.scrollTop), container.clientHeight, element.offsetTop, element.clientHeight)
  {
    var cTop := container.scrollTop;
    var cBottom := cTop + container.clientHeight;
    var eTop := element.offsetTop;
    var eBottom := eTop + element.clientHeight;
    if eTop < cTop {
      container.scrollTop := container.scrollTop - (cTop - eTop);
    } else if eBottom > cBottom {
      container.scrollTop := container.scrollTop + (eBottom - cBottom);
    }
  }

  /** The option elements collected by `addToRefs` (the ref's `current`
      array), in the order they were first rendered. */
  class OptionRefs {
    var current: seq<OptionElement>

    ghost predicate Valid()
      reads this
    {
      Distinct(current)
    }

    constructor ()
      ensures Valid() && current == []
    {
      current := [];
    }

    /** `addToRefs`: called with each rendered option element, and with
        null when one is removed; appends an element not yet collected. */
    method AddToRefs(el: OptionElement?)
      requires Valid()
      modifies this
      ensures Valid()
      ensures el != null ==> el in current
      ensures current == if el != null && el !in old(current) then old(current) + [el] else old(current)
    {
      if el != null && el !in current {
        current := current + [el];
      }
    }
  }
}
