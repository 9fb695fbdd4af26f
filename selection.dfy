/** The selection rules of the Select widget: what the widget asks its owner
    to store when an option is committed or the clear button is pressed, and
    whether an option is drawn as selected.

    The widget never changes the selection itself: it calls the owner's
    `onChange` with a complete new value. `Commit` gives that argument (or
    `None` when `onChange` is not called), `Applied` the value the owner holds
    afterwards. */
module Selection {

  import opened Seqs

  datatype Option<T> = None | Some(value: T)

  /** The `value` of an option: a string or a number (numbers as integers). */
  datatype OptionValue = Str(s: string) | Num(n: int)

  /** One entry of the option list: its label (`text`, as `label` is a
      Dafny keyword) and its value. The source compares options by object
      identity; here two options are the same when they are equal, which
      agrees with identity as long as the option list has no duplicates and
      the owner's value holds the list's own option objects. */
  datatype SelectOption = SelectOption(text: string, value: OptionValue)

  /** What the owner holds: one optional option in single mode, a list of
      options in multiple mode. The constructor is the mode. */
  datatype SelectValue =
    | Single(current: Option<SelectOption>)
    | Multiple(items: seq<SelectOption>)

  /** Every option of `v` is one of `options`, and a multiple selection
      holds each option at most once. */
  predicate WellFormed(v: SelectValue, options: seq<SelectOption>) {
    match v
    case Single(c) => c.Some? ==> c.value in options
    case Multiple(items) => Distinct(items) && forall x :: x in items ==> x in options
  }

  /** `value.filter((opt) => opt !== option)`: drop every occurrence of `o`,
      keep everything else with its multiplicity. */
  function Without(s: seq<SelectOption>, o: SelectOption): (r: seq<SelectOption>)
    ensures o !in r
    ensures forall x :: x != o ==> (x in r <==> x in s)
    ensures multiset(r) == multiset(s)[o := 0]
    ensures |r| == |s| - multiset(s)[o]
    ensures o !in s ==> r == s
    ensures Distinct(s) ==> Distinct(r)
  {
    if s == [] then []
    else
      assert s == [s[0]] + s[1..];
      assert Distinct(s) ==> Distinct(s[1..]) && s[0] !in s[1..];
      (if s[0] == o then [] else [s[0]]) + Without(s[1..], o)
  }

  /** Filtering keeps order: it distributes over concatenation. */
  lemma {:induction false} WithoutConcat(a: seq<SelectOption>, b: seq<SelectOption>, o: SelectOption)
    ensures Without(a + b, o) == Without(a, o) + Without(b, o)
  {
    if a == [] {
      assert a + b == b;
    } else {
      assert (a + b)[1..] == a[1..] + b;
      WithoutConcat(a[1..], b, o);
    }
  }

  /** The multiple-mode rule: remove `o` if it is selected, append it
      otherwise. */
  function Toggle(items: seq<SelectOption>, o: SelectOption): (r: seq<SelectOption>)
    ensures o in r <==> o !in items
    ensures forall x :: x != o ==> (x in r <==> x in items)
    ensures o in items ==> |r| < |items|
    ensures o !in items ==> |r| == |items| + 1 && r[..|items|] == items && r[|items|] == o
    ensures Distinct(items) ==> Distinct(r)
  {
    if o in items then Without(items, o) else items + [o]
  }

  /** In a list without duplicates an element occurs at most once. */
  lemma {:induction false} DistinctCount(s: seq<SelectOption>, o: SelectOption)
    requires Distinct(s)
    ensures multiset(s)[o] <= 1
  {
    if s != [] {
      assert s == [s[0]] + s[1..];
      assert Distinct(s[1..]) by {
        forall i, j | 0 <= i < j < |s[1..]| ensures s[1..][i] != s[1..][j] {
          assert s[1..][i] == s[i + 1] && s[1..][j] == s[j + 1];
        }
      }
      DistinctCount(s[1..], o);
      if s[0] == o {
        assert o !in s[1..] by {
          forall k | 0 <= k < |s[1..]| ensures s[1..][k] != o {
            assert s[1..][k] == s[k + 1];
          }
        }
      }
    }
  }

  /** Toggling an absent option twice gives back exactly the same list. */
  lemma ToggleTwiceAbsent(items: seq<SelectOption>, o: SelectOption)
    requires o !in items
    ensures Toggle(Toggle(items, o), o) == items
  {
    WithoutConcat(items, [o], o);
    assert Without([o], o) == [];
  }

  /** Removing a selected option from a duplicate-free selection keeps the
      other options in their order. */
  lemma TogglePresentKeepsOrder(items: seq<SelectOption>, i: nat)
    requires Distinct(items) && i < |items|
    ensures Toggle(items, items[i]) == items[..i] + items[i + 1..]
  {
    var o, before, after := items[i], items[..i], items[i + 1..];
    assert items == before + [o] + after;
    forall k | 0 <= k < |before| ensures before[k] != o {
      assert before[k] == items[k];
    }
    forall k | 0 <= k < |after| ensures after[k] != o {
      assert after[k] == items[i + 1 + k];
    }
    WithoutOnce(before, o, after);
  }

  /** Filtering out an option that occurs once, between `before` and
      `after`, leaves `before + after`. */
  lemma WithoutOnce(before: seq<SelectOption>, o: SelectOption, after: seq<SelectOption>)
    requires o !in before && o !in after
    ensures Without(before + [o] + after, o) == before + after
  {
    WithoutConcat(before + [o], after, o);
    WithoutConcat(before, [o], o);
    assert Without([o], o) == [];
    assert before + [] == before;
  }

  /** Toggling twice, in any list, leaves the same options selected. */
  lemma ToggleTwiceSameOptions(items: seq<SelectOption>, o: SelectOption)
    ensures forall x :: x in Toggle(Toggle(items, o), o) <==> x in items
  {
  }

  /** Toggling twice restores a duplicate-free selection as a multiset; a
      selected option moves to the end. */
  lemma ToggleTwiceRestores(items: seq<SelectOption>, o: SelectOption)
    requires Distinct(items)
    ensures multiset(Toggle(Toggle(items, o), o)) == multiset(items)
  {
    if o in items {
      DistinctCount(items, o);
      assert Toggle(Toggle(items, o), o) == Without(items, o) + [o];
    } else {
      ToggleTwiceAbsent(items, o);
    }
  }

  /** The `onChange` argument for committing `o` against the current value
      `v`, or `None` when `onChange` is not called. */
  function Commit(v: SelectValue, o: SelectOption): (r: Option<SelectValue>)
    ensures r.Some? ==> r.value.Multiple? == v.Multiple?
    ensures v.Multiple? ==> r.Some? && (o in r.value.items <==> o !in v.items)
    ensures v.Single? ==> (r.None? <==> v.current == Some(o))
    ensures v.Single? && r.Some? ==> r.value == Single(Some(o))
  {
    match v
    case Multiple(items) => Some(Multiple(Toggle(items, o)))
    case Single(c) => if c != Some(o) then Some(Single(Some(o))) else None
  }

  /** The value the owner holds after a notification: the argument of
      `onChange`, or the old value when it was not called. */
  function Applied(v: SelectValue, notified: Option<SelectValue>): SelectValue {
    match notified
    case None => v
    case Some(w) => w
  }

  /** The options a value selects: the list's elements in multiple mode, at
      most one option in single mode. */
  function SelectedSet(v: SelectValue): (r: set<SelectOption>)
    ensures v.Single? ==> |r| <= 1
    ensures v.Multiple? ==> forall x :: x in r <==> x in v.items
  {
    match v
    case Multiple(items) => set x | x in items
    case Single(c) => if c.Some? then {c.value} else {}
  }

  /** `isOptionSelected`: membership in multiple mode, equality in single
      mode. */
  function IsSelected(v: SelectValue, o: SelectOption): (r: bool)
    ensures r <==> o in SelectedSet(v)
  {
    match v
    case Multiple(items) => o in items
    case Single(c) => c == Some(o)
  }

  /** After a commit the committed option is selected in single mode and has
      flipped in multiple mode; every other option keeps its state in
      multiple mode and is deselected in single mode. */
  lemma CommitEffect(v: SelectValue, o: SelectOption)
    ensures var w := Applied(v, Commit(v, o));
      && w.Multiple? == v.Multiple?
      && IsSelected(w, o) == (v.Single? || !IsSelected(v, o))
      && (forall x :: x != o ==> IsSelected(w, x) == (v.Multiple? && IsSelected(v, x)))
  {
  }

  /** Single-mode exclusivity: selecting `a` and then `b` leaves exactly `b`. */
  lemma SingleExclusive(c: Option<SelectOption>, a: SelectOption, b: SelectOption)
    ensures var w := Applied(Single(c), Commit(Single(c), a));
      Applied(w, Commit(w, b)) == Single(Some(b))
  {
  }

  /** A commit of one of the options keeps the selection well formed. */
  lemma CommitWellFormed(v: SelectValue, options: seq<SelectOption>, o: SelectOption)
    requires WellFormed(v, options) && o in options
    ensures WellFormed(Applied(v, Commit(v, o)), options)
  {
  }

  /** `clearOptions`: the empty value of the same mode. */
  function Cleared(v: SelectValue): (r: SelectValue)
    ensures r.Multiple? == v.Multiple?
    ensures forall o :: !IsSelected(r, o)
  {
    if v.Multiple? then Multiple([]) else Single(None)
  }
}
