/**
 * Small worked cases: a merge of two documents, a failed fetch, a lesson
 * change that resets the page selection, and the order of the word list.
 */
module Scenarios {
  import opened Vocabulary
  import opened OrderedSets
  import opened LessonMerge
  import opened Selection
  import opened AppState

  /** Documents with lessons [5, 1, 3] and [2, 4] merge to lessons 1 to 5 in order. */
  lemma MergeOrdersByNumber(l1: Lesson, l2: Lesson, l3: Lesson, l4: Lesson, l5: Lesson)
    requires NumberKey(l1) == 1 && NumberKey(l2) == 2 && NumberKey(l3) == 3
    requires NumberKey(l4) == 4 && NumberKey(l5) == 5
    ensures SortByNumber(ValidLessons([Some(Document(Some([l5, l1, l3]))), Some(Document(Some([l2, l4])))]))
            == [l1, l2, l3, l4, l5]
  {
    ConcatTwo([l5, l1, l3], [l2, l4]);
    assert [l5, l1, l3] + [l2, l4] == [l5, l1, l3, l2, l4];
    SortFive(l1, l2, l3, l4, l5);
  }

  lemma SortFive(l1: Lesson, l2: Lesson, l3: Lesson, l4: Lesson, l5: Lesson)
    requires NumberKey(l1) == 1 && NumberKey(l2) == 2 && NumberKey(l3) == 3
    requires NumberKey(l4) == 4 && NumberKey(l5) == 5
    ensures SortByNumber([l5, l1, l3, l2, l4]) == [l1, l2, l3, l4, l5]
  {
    var s := [l5, l1, l3, l2, l4];
    var sorted := [l1, l2, l3, l4];
    assert SortByNumber(s[1..]) == sorted by {
      assert s[1..] == [l1, l3, l2, l4];
      SortFour(l1, l2, l3, l4);
    }
    InsertLast(sorted, l5);
  }

  /** Two lessons numbered 2 around a lesson 1: the sort moves lesson 1 first and keeps the two in load order. */
  lemma EqualNumbersKeepLoadOrder(x: Lesson, y: Lesson, z: Lesson)
    requires NumberKey(x) == 2 && NumberKey(y) == 1 && NumberKey(z) == 2
    ensures SortByNumber([x, y, z]) == [y, x, z]
  {
    SortTwo(y, z);
    var s := [x, y, z];
    assert s[1..] == [y, z];
    var t := [y, z];
    assert t[1..] == [z];
    assert Insert(x, [z]) == [x, z];
  }

  lemma ConcatTwo(a: seq<Lesson>, b: seq<Lesson>)
    ensures ValidLessons([Some(Document(Some(a))), Some(Document(Some(b)))]) == a + b
  {
    var d1, d2 := Some(Document(Some(a))), Some(Document(Some(b)));
    assert [d1, d2][..1] == [d1] && [d1][..0] == [];
    assert ValidLessons([d1]) == a;
  }

  /** Sorting lessons [1, 3, 2, 4]: each insertion lands in front of the first larger number. */
  lemma SortFour(l1: Lesson, l2: Lesson, l3: Lesson, l4: Lesson)
    requires NumberKey(l1) == 1 && NumberKey(l2) == 2 && NumberKey(l3) == 3 && NumberKey(l4) == 4
    ensures SortByNumber([l1, l3, l2, l4]) == [l1, l2, l3, l4]
  {
    SortTwo(l2, l4);
    var s := [l3, l2, l4];
    assert s[1..] == [l2, l4];
    var t := [l2, l4];
    assert t[1..] == [l4];
    assert Insert(l3, [l4]) == [l3, l4];
    assert Insert(l3, t) == [l2, l3, l4];
    var u := [l1, l3, l2, l4];
    assert u[1..] == s;
  }

  lemma SortTwo(x: Lesson, y: Lesson)
    requires NumberKey(x) <= NumberKey(y)
    ensures SortByNumber([x, y]) == [x, y]
  {
    var s := [x, y];
    assert s[1..] == [y];
    assert [y][1..] == [];
    assert SortByNumber([y]) == [y];
    assert Insert(x, [y]) == [x, y];
  }

  /** Inserting a lesson whose number exceeds all others puts it last. */
  lemma {:induction false} InsertLast(t: seq<Lesson>, x: Lesson)
    requires forall i :: 0 <= i < |t| ==> NumberKey(t[i]) < NumberKey(x)
    ensures Insert(x, t) == t + [x]
  {
    if t != [] {
      InsertLast(t[1..], x);
      assert t == [t[0]] + t[1..];
    }
  }

  /** A failed fetch next to a good one: only the good document's lessons remain. */
  lemma FailedFetchContributesNothing(good: seq<Lesson>)
    ensures ValidLessons([None, Some(Document(Some(good)))]) == good
    ensures ValidLessons([Some(Document(None)), None]) == []
  {
    var failed: Option<Document> := None;
    var empty: Option<Document> := Some(Document(None));
    assert [failed, Some(Document(Some(good)))][..1] == [failed] && [failed][..0] == [];
    assert ValidLessons([failed]) == [];
    assert [empty, failed][..1] == [empty] && [empty][..0] == [];
    assert ValidLessons([empty]) == [];
  }

  function TwoPageLesson(n: int, first: seq<Word>, second: seq<Word>): Lesson
  {
    Lesson(Some(n), None, Some([Page(1, Some(first)), Page(2, Some(second))]))
  }

  /** A selected number that finds a two-page lesson lists that lesson's two page ids. */
  lemma TwoPagesListed(db: seq<Lesson>, n: int, first: seq<Word>, second: seq<Word>)
    requires Find(db, n) == Some(TwoPageLesson(n, first, second))
    ensures AvailablePages(db, [n]) == [PageId(n, 1), PageId(n, 2)]
  {
    var pages := PagesOf(Find(db, n));
    assert pages[..1] == [pages[0]] && pages[..1][..0] == [];
    assert PageIds(n, pages[..1]) == [PageId(n, 1)];
    assert PageIds(n, pages) == [PageId(n, 1), PageId(n, 2)];
    assert [n][..0] == [];
  }

  /** Refilling with two different ids selects both, in listing order. */
  lemma PairRefilled(x: PageId, y: PageId)
    requires x != y
    ensures AddAll([], [x, y]) == [x, y]
  {
    AddAllDistinct([x, y]);
  }

  /** Unchecking the first of two selected ids leaves the second. */
  lemma PairFirstUnchecked(x: PageId, y: PageId)
    requires x != y
    ensures Toggle([x, y], x, false) == [y]
  {
    assert [x, y][1..] == [y];
    assert Remove([y], x) == [y];
  }

  /** Unchecking "select all" over two selected ids deselects both. */
  lemma PairCleared(x: PageId, y: PageId)
    requires x != y
    ensures ToggleAll([x, y], [x, y], false) == []
  {
    assert [x, y][..1] == [x] && [x][..0] == [];
    assert Toggle([x, y], x, false) == [y] by {
      PairFirstUnchecked(x, y);
    }
    assert ToggleAll([x, y], [x], false) == [y];
    assert [y][1..] == [];
    assert Remove([y], y) == [];
  }

  /** Choosing lesson 2 (pages 1 and 2) alone selects exactly pages 2-1 and 2-2. */
  lemma LessonChangeSelectsItsPages(db: seq<Lesson>)
    requires db == [TwoPageLesson(1, [], []), TwoPageLesson(2, [], [])]
    ensures AddAll([], AvailablePages(db, [2])) == [PageId(2, 1), PageId(2, 2)]
  {
    assert Find(db, 2) == Some(db[1]);
    TwoPagesListed(db, 2, [], []);
    PairRefilled(PageId(2, 1), PageId(2, 2));
  }

  /** Both pages of lesson 1 selected gives its words in page order, [A, B, C]. */
  lemma WordOrderFollowsPages(a: Word, b: Word, c: Word)
    ensures CurrentWords([TwoPageLesson(1, [a, b], [c])], [1], [PageId(1, 1), PageId(1, 2)]) == [a, b, c]
  {
    var db := [TwoPageLesson(1, [a, b], [c])];
    assert Find(db, 1) == Some(db[0]);
    var pages := PagesOf(Find(db, 1));
    assert pages[..1] == [Page(1, Some([a, b]))] && pages[..1][..0] == [];
    assert SelectedWords(1, pages[..1], [PageId(1, 1), PageId(1, 2)]) == [a, b];
    assert SelectedWords(1, pages, [PageId(1, 1), PageId(1, 2)]) == [a, b, c];
    assert [1][..0] == [];
    assert CollectWords(db, [1], [PageId(1, 1), PageId(1, 2)]) == [a, b, c];
  }

  /** With page 1-1 deselected only the words of page 1-2, [C], remain. */
  lemma SecondPageWords(a: Word, b: Word, c: Word)
    ensures CurrentWords([TwoPageLesson(1, [a, b], [c])], [1], [PageId(1, 2)]) == [c]
  {
    var db := [TwoPageLesson(1, [a, b], [c])];
    assert Find(db, 1) == Some(db[0]);
    var pages := PagesOf(Find(db, 1));
    assert pages[..1] == [Page(1, Some([a, b]))] && pages[..1][..0] == [];
    assert SelectedWords(1, pages[..1], [PageId(1, 2)]) == [];
    assert SelectedWords(1, pages, [PageId(1, 2)]) == [c];
    assert [1][..0] == [];
    assert CollectWords(db, [1], [PageId(1, 2)]) == [c];
  }

  /** Unchecking page 1-1 out of both pages of lesson 1 leaves page 1-2 and its words. */
  lemma FirstPageUnchecked(a: Word, b: Word, c: Word)
    ensures Toggle([PageId(1, 1), PageId(1, 2)], PageId(1, 1), false) == [PageId(1, 2)]
    ensures CurrentWords([TwoPageLesson(1, [a, b], [c])], [1], Toggle([PageId(1, 1), PageId(1, 2)], PageId(1, 1), false)) == [c]
  {
    PairFirstUnchecked(PageId(1, 1), PageId(1, 2));
    SecondPageWords(a, b, c);
  }

  lemma LessonOneWords(a: Word, b: Word, c: Word)
    ensures AllWords([TwoPageLesson(1, [a, b], [c])], [1]) == [a, b, c]
  {
    var db := [TwoPageLesson(1, [a, b], [c])];
    assert Find(db, 1) == Some(db[0]);
    var pages := PagesOf(Find(db, 1));
    assert pages[..1] == [pages[0]] && pages[..1][..0] == [];
    assert PageWords(pages[..1]) == [a, b];
    assert PageWords(pages) == [a, b, c];
    assert [1][..0] == [];
  }

  /** Start-up with one failed fetch and one database holding lesson 1, then lesson 1 is checked. */
  method OpenLessonOne(a: Word, b: Word, c: Word) returns (app: App)
    ensures fresh(app) && app.Valid()
    ensures app.data == [TwoPageLesson(1, [a, b], [c])]
    ensures app.selectedLessons == [1]
    ensures app.pageOptions == [PageId(1, 1), PageId(1, 2)]
    ensures app.selectedPages == [PageId(1, 1), PageId(1, 2)]
    ensures app.currentWords == [a, b, c]
  {
    app := new App([None, Some(Document(Some([TwoPageLesson(1, [a, b], [c])])))]);
    assert app.data == [TwoPageLesson(1, [a, b], [c])] by {
      FailedFetchContributesNothing([TwoPageLesson(1, [a, b], [c])]);
    }
    app.OnLessonChecked(1, true);
    assert app.selectedLessons == [1];
    assert Find(app.data, 1) == Some(app.data[0]);
    TwoPagesListed(app.data, 1, [a, b], [c]);
    PairRefilled(PageId(1, 1), PageId(1, 2));
    LessonOneWords(a, b, c);
  }

  /** Unchecking page 1-1 of lesson 1 leaves the words of page 1-2. */
  method StudySession(a: Word, b: Word, c: Word) returns (app: App)
    ensures app.selectedPages == [PageId(1, 2)]
    ensures app.currentWords == [c]
  {
    app := OpenLessonOne(a, b, c);
    app.OnPageChecked(PageId(1, 1), false);
    FirstPageUnchecked(a, b, c);
  }

  /** Unchecking "select all pages" empties the page selection but leaves the word list as it was. */
  method SelectAllPagesKeepsWords(a: Word, b: Word, c: Word) returns (app: App)
    ensures app.selectedPages == []
    ensures app.currentWords == [a, b, c]
  {
    app := OpenLessonOne(a, b, c);
    app.OnSelectAllPages(false);
    PairCleared(PageId(1, 1), PageId(1, 2));
  }

  /**
   * Switching from lesson 1 to lesson 2 (check 2, then uncheck 1): whatever
   * pages of lesson 1 were chosen are forgotten, and the selection becomes
   * the pages of lesson 2.
   */
  method SwitchLesson(app: App)
    requires app.Valid() && app.selectedLessons == [1]
    modifies app
    ensures app.Valid()
    ensures app.selectedLessons == [2]
    ensures app.selectedPages == AddAll([], AvailablePages(app.data, [2]))
  {
    SwitchToggles();
    app.OnLessonChecked(2, true);
    app.OnLessonChecked(1, false);
  }

  /** Checking 2 next to 1, then unchecking 1, leaves the lesson selection [2]. */
  lemma SwitchToggles()
    ensures Toggle([1], 2, true) == [1, 2]
    ensures Toggle([1, 2], 1, false) == [2]
  {
    assert [1, 2][1..] == [2] && [2][1..] == [];
    assert Remove([2], 1) == [2];
  }
}
