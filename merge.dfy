/**
 * Merging the loaded lesson databases (`App.processData`): drop the results
 * that are null or carry no `lessons`, concatenate the remaining lesson lists
 * in input order, and sort the whole by lesson number with a missing number
 * counted as 0. `Array.prototype.sort` is stable (ECMAScript 2019 onwards),
 * so lessons with equal keys keep their concatenation order.
 */
module LessonMerge {
  import opened Vocabulary

  /** The comparator's key, `a.number || 0`. */
  function NumberKey(l: Lesson): int
  {
    if l.number.Some? then l.number.value else 0
  }

  /** What one loaded result contributes: its lessons when it is non-null and has them. */
  function ResultLessons(d: Option<Document>): seq<Lesson>
  {
    if d.Some? && d.value.lessons.Some? then d.value.lessons.value else []
  }

  /** The lessons of the valid results, concatenated in input order. */
  function ValidLessons(results: seq<Option<Document>>): seq<Lesson>
  {
    if results == [] then []
    else ValidLessons(results[..|results| - 1]) + ResultLessons(results[|results| - 1])
  }

  /** Loading several groups of results is loading each group, in order. */
  lemma {:induction false} ValidLessonsAppend(a: seq<Option<Document>>, b: seq<Option<Document>>)
    ensures ValidLessons(a + b) == ValidLessons(a) + ValidLessons(b)
  {
    if b != [] {
      var init := b[..|b| - 1];
      ValidLessonsAppend(a, init);
      assert (a + b)[..|a + b| - 1] == a + init;
    } else {
      assert a + b == a;
    }
  }

  /** Failed fetches and documents without `lessons` give an empty list, not an error. */
  lemma {:induction false} AllInvalidGivesEmpty(results: seq<Option<Document>>)
    requires forall i :: 0 <= i < |results| ==> results[i].None? || results[i].value.lessons.None?
    ensures ValidLessons(results) == []
  {
    if results != [] {
      AllInvalidGivesEmpty(results[..|results| - 1]);
    }
  }

  predicate SortedByNumber(s: seq<Lesson>)
  {
    forall i, j :: 0 <= i < j < |s| ==> NumberKey(s[i]) <= NumberKey(s[j])
  }

  /** The lessons of `s` whose key is `k`, in their order in `s`. */
  function WithKey(s: seq<Lesson>, k: int): seq<Lesson>
  {
    if s == [] then []
    else (if NumberKey(s[0]) == k then [s[0]] else []) + WithKey(s[1..], k)
  }

  /** Stability in one formula: every key's run of lessons is the input's run, in the input's order. */
  ghost predicate SameKeyOrder(a: seq<Lesson>, b: seq<Lesson>)
  {
    forall k :: WithKey(a, k) == WithKey(b, k)
  }

  /** Places `x` in front of the first lesson whose key is not smaller, so `x` precedes its equals. */
  function Insert(x: Lesson, t: seq<Lesson>): seq<Lesson>
  {
    if t == [] then [x]
    else if NumberKey(x) <= NumberKey(t[0]) then [x] + t
    else [t[0]] + Insert(x, t[1..])
  }

  /** Inserting adds `x` once and keeps every lesson of `t`. */
  lemma {:induction false} InsertPermutes(x: Lesson, t: seq<Lesson>)
    ensures multiset(Insert(x, t)) == multiset(t) + multiset{x}
  {
    if t != [] && NumberKey(x) > NumberKey(t[0]) {
      InsertPermutes(x, t[1..]);
      assert t == [t[0]] + t[1..];
    }
  }

  lemma {:induction false} InsertSorted(x: Lesson, t: seq<Lesson>)
    requires SortedByNumber(t)
    ensures SortedByNumber(Insert(x, t))
  {
    if t != [] && NumberKey(x) > NumberKey(t[0]) {
      var rest := Insert(x, t[1..]);
      InsertSorted(x, t[1..]);
      InsertPermutes(x, t[1..]);
      forall y | y in rest
        ensures NumberKey(t[0]) <= NumberKey(y)
      {
        assert y in multiset(rest);
        assert y == x || y in t[1..];
      }
      assert Insert(x, t) == [t[0]] + rest;
    }
  }

  /** Inserting `x` puts it at the head of its key's run and leaves every other run alone. */
  lemma {:induction false} InsertWithKey(x: Lesson, t: seq<Lesson>, k: int)
    ensures WithKey(Insert(x, t), k) == (if NumberKey(x) == k then [x] else []) + WithKey(t, k)
  {
    if t == [] {
    } else if NumberKey(x) <= NumberKey(t[0]) {
      assert ([x] + t)[1..] == t;
    } else {
      var rest := Insert(x, t[1..]);
      InsertWithKey(x, t[1..], k);
      var hx := if NumberKey(x) == k then [x] else [];
      var h0 := if NumberKey(t[0]) == k then [t[0]] else [];
      var w := WithKey(t[1..], k);
      assert ([t[0]] + rest)[1..] == rest;
      assert WithKey(Insert(x, t), k) == h0 + (hx + w);
      assert hx == [] || h0 == [];
      assert h0 + (hx + w) == hx + (h0 + w);
    }
  }

  /** The stable sort `allLessons.sort((a, b) => (a.number || 0) - (b.number || 0))`. */
  function SortByNumber(s: seq<Lesson>): seq<Lesson>
  {
    if s == [] then [] else Insert(s[0], SortByNumber(s[1..]))
  }

  /** The merged list is sorted ascending by number, a missing number counting as 0. */
  lemma {:induction false} SortByNumberSorted(s: seq<Lesson>)
    ensures SortedByNumber(SortByNumber(s))
  {
    if s != [] {
      SortByNumberSorted(s[1..]);
      InsertSorted(s[0], SortByNumber(s[1..]));
    }
  }

  /** The merged list holds exactly the input lessons, each as often as in the input. */
  lemma {:induction false} SortByNumberPermutes(s: seq<Lesson>)
    ensures multiset(SortByNumber(s)) == multiset(s)
  {
    if s != [] {
      SortByNumberPermutes(s[1..]);
      InsertPermutes(s[0], SortByNumber(s[1..]));
      assert s == [s[0]] + s[1..];
    }
  }

  /** The sort is stable: lessons with equal keys keep their input order. */
  lemma {:induction false} SortByNumberStable(s: seq<Lesson>)
    ensures SameKeyOrder(SortByNumber(s), s)
  {
    if s != [] {
      var rest := SortByNumber(s[1..]);
      SortByNumberStable(s[1..]);
      forall k
        ensures WithKey(SortByNumber(s), k) == WithKey(s, k)
      {
        InsertWithKey(s[0], rest, k);
        assert WithKey(rest, k) == WithKey(s[1..], k);
      }
    }
  }

  lemma {:induction false} WithKeyAbsent(s: seq<Lesson>, k: int)
    requires forall i :: 0 <= i < |s| ==> NumberKey(s[i]) != k
    ensures WithKey(s, k) == []
  {
    if s != [] {
      WithKeyAbsent(s[1..], k);
    }
  }

  /** The first lesson of a non-empty list opens its own key's run, so that run is not empty. */
  lemma HeadRun(s: seq<Lesson>)
    requires s != []
    ensures WithKey(s, NumberKey(s[0])) != []
  {
  }

  /** Two sorted sequences that agree on every key's run are equal. */
  lemma {:induction false} StableArrangementUnique(a: seq<Lesson>, b: seq<Lesson>)
    requires SortedByNumber(a) && SortedByNumber(b)
    requires SameKeyOrder(a, b)
    ensures a == b
    decreases |a|
  {
    if a == [] && b == [] {
    } else if a == [] {
      HeadRun(b);
      assert false;
    } else if b == [] {
      HeadRun(a);
      assert false;
    } else {
      var ka, kb := NumberKey(a[0]), NumberKey(b[0]);
      if ka < kb {
        WithKeyAbsent(b, ka);
        HeadRun(a);
        assert false;
      } else if kb < ka {
        WithKeyAbsent(a, kb);
        HeadRun(b);
        assert false;
      } else {
        assert WithKey(a, ka)[0] == a[0] && WithKey(b, ka)[0] == b[0];
        forall k
          ensures WithKey(a[1..], k) == WithKey(b[1..], k)
        {
          assert WithKey(a, k) == WithKey(b, k);
          var head := if ka == k then [a[0]] else [];
          assert WithKey(a, k) == head + WithKey(a[1..], k);
          assert WithKey(b, k) == head + WithKey(b[1..], k);
          assert WithKey(a[1..], k) == WithKey(a, k)[|head|..];
        }
        StableArrangementUnique(a[1..], b[1..]);
        assert a == [a[0]] + a[1..] && b == [b[0]] + b[1..];
      }
    }
  }

  /** SortByNumber is the only sorted arrangement of `s` that keeps every key's run in order. */
  lemma SortByNumberIsTheStableSort(s: seq<Lesson>, r: seq<Lesson>)
    requires SortedByNumber(r) && SameKeyOrder(r, s)
    ensures r == SortByNumber(s)
  {
    var sorted := SortByNumber(s);
    SortByNumberSorted(s);
    SortByNumberStable(s);
    forall k
      ensures WithKey(r, k) == WithKey(sorted, k)
    {
      assert WithKey(r, k) == WithKey(s, k);
    }
    StableArrangementUnique(r, sorted);
  }

  /**
   * `processData(results)` up to installing the result: the filter-and-concat
   * loop, then the sort.
   */
  method MergeLessons(results: seq<Option<Document>>) returns (lessons: seq<Lesson>)
    ensures lessons == SortByNumber(ValidLessons(results))
    ensures SortedByNumber(lessons)
    ensures multiset(lessons) == multiset(ValidLessons(results))
    ensures SameKeyOrder(lessons, ValidLessons(results))
  {
    var all: seq<Lesson> := [];
    var i := 0;
    while i < |results|
      invariant 0 <= i <= |results|
      invariant all == ValidLessons(results[..i])
    {
      var d := results[i];
      if d.Some? && d.value.lessons.Some? {
        all := all + d.value.lessons.value;
      }
      assert results[..i + 1][..i] == results[..i];
      i := i + 1;
    }
    assert results[..|results|] == results;
    lessons := SortByNumber(all);
    SortByNumberSorted(all);
    SortByNumberPermutes(all);
    SortByNumberStable(all);
  }
}
