/**
 * Insertion-ordered sets, the way a JavaScript `Set` behaves: a sequence
 * without duplicates, `add` appends an absent element and leaves a present
 * one where it is, `delete` takes an element out and keeps the others in order.
 */
module OrderedSets {

  predicate NoDup<T(==,!new)>(s: seq<T>)
  {
    forall i, j :: 0 <= i < j < |s| ==> s[i] != s[j]
  }

  /** `Set.prototype.add`. */
  function Add<T(==,!new)>(s: seq<T>, x: T): (r: seq<T>)
    ensures forall y :: y in r <==> y in s || y == x
    ensures NoDup(s) ==> NoDup(r)
    ensures |s| <= |r| <= |s| + 1 && r[..|s|] == s
  {
    if x in s then s else s + [x]
  }

  /** `Set.prototype.delete`; deleting an absent element changes nothing. */
  function Remove<T(==,!new)>(s: seq<T>, x: T): (r: seq<T>)
    ensures forall y :: y in r <==> y in s && y != x
    ensures NoDup(s) ==> NoDup(r)
    ensures x !in s ==> r == s
    ensures |r| <= |s|
  {
    if s == [] then []
    else if s[0] == x then Remove(s[1..], x)
    else
      var rest := Remove(s[1..], x);
      assert NoDup(s) ==> s[0] !in rest && NoDup(s[1..]);
      [s[0]] + rest
  }

  /** Deleting from a duplicate-free sequence cuts exactly that element out. */
  lemma {:induction false} RemoveAt<T(!new)>(s: seq<T>, i: nat)
    requires NoDup(s) && i < |s|
    ensures Remove(s, s[i]) == s[..i] + s[i + 1..]
  {
    if i == 0 {
      assert s[0] !in s[1..];
      assert s[..0] + s[1..] == s[1..];
    } else {
      var t := s[1..];
      assert NoDup(t) && t[i - 1] == s[i] && s[0] != s[i];
      RemoveAt(t, i - 1);
      assert Remove(s, s[i]) == [s[0]] + Remove(t, s[i]);
      assert [s[0]] + (t[..i - 1] + t[i..]) == s[..i] + s[i + 1..];
    }
  }

  /** A checkbox change: add when checked, delete when unchecked. */
  function Toggle<T(==,!new)>(s: seq<T>, x: T, checked: bool): (r: seq<T>)
    ensures forall y :: y in r <==> if y == x then checked else y in s
    ensures NoDup(s) ==> NoDup(r)
  {
    if checked then Add(s, x) else Remove(s, x)
  }

  /** The same change applied to each of `xs` in turn, as a select-all loop does. */
  function ToggleAll<T(==,!new)>(s: seq<T>, xs: seq<T>, checked: bool): seq<T>
  {
    if xs == [] then s
    else Toggle(ToggleAll(s, xs[..|xs| - 1], checked), xs[|xs| - 1], checked)
  }

  /** Select-all sets the membership of every listed element to the checkbox state and leaves the rest. */
  lemma {:induction false} ToggleAllMembership<T(!new)>(s: seq<T>, xs: seq<T>, checked: bool, y: T)
    ensures y in ToggleAll(s, xs, checked) <==> if y in xs then checked else y in s
  {
    if xs != [] {
      var init := xs[..|xs| - 1];
      ToggleAllMembership(s, init, checked, y);
      assert xs == init + [xs[|xs| - 1]];
    }
  }

  lemma {:induction false} ToggleAllNoDup<T(!new)>(s: seq<T>, xs: seq<T>, checked: bool)
    requires NoDup(s)
    ensures NoDup(ToggleAll(s, xs, checked))
  {
    if xs != [] {
      ToggleAllNoDup(s, xs[..|xs| - 1], checked);
    }
  }

  /** Toggling elements whose membership already matches the state leaves the sequence, order included, as it is. */
  lemma {:induction false} ToggleAllSettled<T(!new)>(t: seq<T>, xs: seq<T>, checked: bool)
    requires forall y :: y in xs ==> (y in t <==> checked)
    ensures ToggleAll(t, xs, checked) == t
  {
    if xs != [] {
      var init := xs[..|xs| - 1];
      assert forall y :: y in init ==> y in xs;
      ToggleAllSettled(t, init, checked);
      assert xs[|xs| - 1] in xs;
    }
  }

  /** Select-all twice in a row with the same state is select-all once. */
  lemma ToggleAllIdempotent<T(!new)>(s: seq<T>, xs: seq<T>, checked: bool)
    ensures ToggleAll(ToggleAll(s, xs, checked), xs, checked) == ToggleAll(s, xs, checked)
  {
    var t := ToggleAll(s, xs, checked);
    forall y | y in xs
      ensures y in t <==> checked
    {
      ToggleAllMembership(s, xs, checked, y);
    }
    ToggleAllSettled(t, xs, checked);
  }

  /** Adding each of `xs` in turn to `s`: the page-selection refill loop. */
  function AddAll<T(==,!new)>(s: seq<T>, xs: seq<T>): seq<T>
  {
    if xs == [] then s else Add(AddAll(s, xs[..|xs| - 1]), xs[|xs| - 1])
  }

  /** Adding `xs` to `s` yields the elements of both. */
  lemma {:induction false} AddAllMembership<T(!new)>(s: seq<T>, xs: seq<T>, y: T)
    ensures y in AddAll(s, xs) <==> y in s || y in xs
  {
    if xs != [] {
      var init := xs[..|xs| - 1];
      AddAllMembership(s, init, y);
      assert xs == init + [xs[|xs| - 1]];
    }
  }

  /** Refilling an empty set from `xs` gives the elements of `xs`, each once. */
  lemma RefillFromEmpty<T(!new)>(xs: seq<T>)
    ensures NoDup(AddAll([], xs))
    ensures forall y :: y in AddAll([], xs) <==> y in xs
  {
    AddAllNoDup([], xs);
    forall y
      ensures y in AddAll([], xs) <==> y in xs
    {
      AddAllMembership([], xs, y);
    }
  }

  lemma {:induction false} AddAllNoDup<T(!new)>(s: seq<T>, xs: seq<T>)
    requires NoDup(s)
    ensures NoDup(AddAll(s, xs))
  {
    if xs != [] {
      AddAllNoDup(s, xs[..|xs| - 1]);
    }
  }

  /** Refilling an empty set from a duplicate-free `xs` reproduces `xs`, order included. */
  lemma {:induction false} AddAllDistinct<T(!new)>(xs: seq<T>)
    requires NoDup(xs)
    ensures AddAll([], xs) == xs
  {
    if xs != [] {
      var init := xs[..|xs| - 1];
      assert NoDup(init);
      AddAllDistinct(init);
      assert xs[|xs| - 1] !in init;
      assert xs == init + [xs[|xs| - 1]];
    }
  }

  // One step of each select-all or refill loop: the value over a prefix one element longer.

  lemma ToggleAllStep<T(!new)>(s: seq<T>, xs: seq<T>, k: nat, checked: bool)
    requires k < |xs|
    ensures ToggleAll(s, xs[..k + 1], checked) == Toggle(ToggleAll(s, xs[..k], checked), xs[k], checked)
  {
    assert xs[..k + 1][..k] == xs[..k];
  }

  lemma AddAllStep<T(!new)>(s: seq<T>, xs: seq<T>, k: nat)
    requires k < |xs|
    ensures AddAll(s, xs[..k + 1]) == Add(AddAll(s, xs[..k]), xs[k])
  {
    assert xs[..k + 1][..k] == xs[..k];
  }

  lemma ToggleAllSnoc<T(!new)>(s: seq<T>, xs: seq<T>, x: T, checked: bool)
    ensures ToggleAll(s, xs + [x], checked) == Toggle(ToggleAll(s, xs, checked), x, checked)
  {
    assert (xs + [x])[..|xs|] == xs;
  }
}
