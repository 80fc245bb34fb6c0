/**
 * The specification functions of the selection store and the word list:
 * which lesson a selected number denotes, which pages the lesson selection
 * makes available, and which words the two selections pick out.
 */
module Selection {
  import opened Vocabulary

  /** `data.lessons.find(l => l.number == n)`: the first lesson with that number, if any. */
  function Find(data: seq<Lesson>, n: int): (r: Option<Lesson>)
    ensures r.Some? ==> r.value in data && r.value.number == Some(n)
  {
    if data == [] then None
    else if data[0].number == Some(n) then Some(data[0])
    else Find(data[1..], n)
  }

  /** `find` comes back empty exactly when no lesson carries the number. */
  lemma {:induction false} FindNone(data: seq<Lesson>, n: int)
    ensures Find(data, n).None? <==> forall i :: 0 <= i < |data| ==> data[i].number != Some(n)
  {
    if data != [] && data[0].number != Some(n) {
      FindNone(data[1..], n);
      assert forall i :: 1 <= i < |data| ==> data[i] == data[1..][i - 1];
    }
  }

  /** The lesson found is the first one carrying the number: no earlier lesson has it. */
  lemma {:induction false} FindFirst(data: seq<Lesson>, n: int, i: nat)
    requires i < |data| && data[i].number == Some(n)
    ensures Find(data, n).Some?
    ensures (forall j :: 0 <= j < i ==> data[j].number != Some(n)) ==> Find(data, n) == Some(data[i])
  {
    if i > 0 && data[0].number != Some(n) {
      FindFirst(data[1..], n, i - 1);
      assert forall j :: 1 <= j < i ==> data[j] == data[1..][j - 1];
    }
  }

  /** The lesson checkbox values: the numbers of the lessons, in database order. */
  function LessonNumbers(data: seq<Lesson>): seq<int>
  {
    if data == [] then []
    else
      var last := data[|data| - 1];
      LessonNumbers(data[..|data| - 1]) + (if last.number.Some? then [last.number.value] else [])
  }

  lemma {:induction false} LessonNumbersMembership(data: seq<Lesson>, n: int)
    ensures n in LessonNumbers(data) <==> exists i :: 0 <= i < |data| && data[i].number == Some(n)
  {
    if data != [] {
      var init := data[..|data| - 1];
      LessonNumbersMembership(init, n);
      assert forall i :: 0 <= i < |init| ==> init[i] == data[i];
    }
  }

  /** The ids `n-p` of the pages `ps`, in page order. */
  function PageIds(n: int, ps: seq<Page>): seq<PageId>
  {
    if ps == [] then [] else PageIds(n, ps[..|ps| - 1]) + [PageId(n, ps[|ps| - 1].number)]
  }

  lemma {:induction false} PageIdsMembership(n: int, ps: seq<Page>, id: PageId)
    ensures id in PageIds(n, ps) <==> id.lesson == n && exists p :: p in ps && p.number == id.page
  {
    if ps != [] {
      var init := ps[..|ps| - 1];
      PageIdsMembership(n, init, id);
      assert ps == init + [ps[|ps| - 1]];
    }
  }

  /** The pages a selected lesson number offers: those of the first lesson with that number. */
  function LessonPageIds(data: seq<Lesson>, n: int): seq<PageId>
  {
    PageIds(n, PagesOf(Find(data, n)))
  }

  /** `availablePages`: the page ids of every selected lesson, lesson by lesson in selection order. */
  function AvailablePages(data: seq<Lesson>, lessons: seq<int>): seq<PageId>
  {
    if lessons == [] then []
    else AvailablePages(data, lessons[..|lessons| - 1]) + LessonPageIds(data, lessons[|lessons| - 1])
  }

  /**
   * A page is available exactly when its lesson number is selected and the
   * first lesson with that number has a page with its page number.
   */
  lemma {:induction false} AvailablePagesMembership(data: seq<Lesson>, lessons: seq<int>, id: PageId)
    ensures id in AvailablePages(data, lessons) <==>
              id.lesson in lessons && exists p :: p in PagesOf(Find(data, id.lesson)) && p.number == id.page
  {
    if lessons != [] {
      var init := lessons[..|lessons| - 1];
      var n := lessons[|lessons| - 1];
      AvailablePagesMembership(data, init, id);
      PageIdsMembership(n, PagesOf(Find(data, n)), id);
      assert lessons == init + [n];
    }
  }

  /** The words of the pages of lesson `n` whose ids are selected, in page order. */
  function SelectedWords(n: int, ps: seq<Page>, selectedPages: seq<PageId>): seq<Word>
  {
    if ps == [] then []
    else
      var p := ps[|ps| - 1];
      SelectedWords(n, ps[..|ps| - 1], selectedPages)
        + (if PageId(n, p.number) in selectedPages then WordsOf(p) else [])
  }

  /** The aggregation loop over the selected lessons, without the emptiness test. */
  function CollectWords(data: seq<Lesson>, lessons: seq<int>, selectedPages: seq<PageId>): seq<Word>
  {
    if lessons == [] then []
    else
      var n := lessons[|lessons| - 1];
      CollectWords(data, lessons[..|lessons| - 1], selectedPages)
        + SelectedWords(n, PagesOf(Find(data, n)), selectedPages)
  }

  /** `updateCurrentWords`: nothing while either selection is empty, else the collected words. */
  function CurrentWords(data: seq<Lesson>, lessons: seq<int>, selectedPages: seq<PageId>): (r: seq<Word>)
    ensures lessons == [] || selectedPages == [] ==> r == []
  {
    if |lessons| > 0 && |selectedPages| > 0 then CollectWords(data, lessons, selectedPages) else []
  }

  /** Every word of all pages of the selected lessons, in lesson then page order. */
  function AllWords(data: seq<Lesson>, lessons: seq<int>): seq<Word>
  {
    if lessons == [] then []
    else AllWords(data, lessons[..|lessons| - 1]) + PageWords(PagesOf(Find(data, lessons[|lessons| - 1])))
  }

  function PageWords(ps: seq<Page>): seq<Word>
  {
    if ps == [] then [] else PageWords(ps[..|ps| - 1]) + WordsOf(ps[|ps| - 1])
  }

  // One step of each loop in the app: the value over a prefix one element longer.

  lemma LessonNumbersStep(data: seq<Lesson>, i: nat)
    requires i < |data|
    ensures LessonNumbers(data[..i + 1])
              == LessonNumbers(data[..i]) + (if data[i].number.Some? then [data[i].number.value] else [])
  {
    assert data[..i + 1][..i] == data[..i];
  }

  lemma PageIdsStep(n: int, ps: seq<Page>, j: nat)
    requires j < |ps|
    ensures PageIds(n, ps[..j + 1]) == PageIds(n, ps[..j]) + [PageId(n, ps[j].number)]
  {
    assert ps[..j + 1][..j] == ps[..j];
  }

  lemma AvailablePagesStep(data: seq<Lesson>, lessons: seq<int>, i: nat)
    requires i < |lessons|
    ensures AvailablePages(data, lessons[..i + 1])
              == AvailablePages(data, lessons[..i]) + LessonPageIds(data, lessons[i])
  {
    assert lessons[..i + 1][..i] == lessons[..i];
  }

  lemma SelectedWordsStep(n: int, ps: seq<Page>, j: nat, sel: seq<PageId>)
    requires j < |ps|
    ensures SelectedWords(n, ps[..j + 1], sel)
              == SelectedWords(n, ps[..j], sel) + (if PageId(n, ps[j].number) in sel then WordsOf(ps[j]) else [])
  {
    assert ps[..j + 1][..j] == ps[..j];
  }

  lemma CollectWordsStep(data: seq<Lesson>, lessons: seq<int>, i: nat, sel: seq<PageId>)
    requires i < |lessons|
    ensures CollectWords(data, lessons[..i + 1], sel)
              == CollectWords(data, lessons[..i], sel) + SelectedWords(lessons[i], PagesOf(Find(data, lessons[i])), sel)
  {
    assert lessons[..i + 1][..i] == lessons[..i];
  }

  lemma CollectWordsSnoc(data: seq<Lesson>, s: seq<int>, n: int, sel: seq<PageId>)
    ensures CollectWords(data, s + [n], sel)
              == CollectWords(data, s, sel) + SelectedWords(n, PagesOf(Find(data, n)), sel)
  {
    assert (s + [n])[..|s|] == s;
  }

  /** The results of `f` on each number of `xs`, one after the other. */
  function ConcatMap(f: int -> seq<Word>, xs: seq<int>): seq<Word>
  {
    if xs == [] then [] else ConcatMap(f, xs[..|xs| - 1]) + f(xs[|xs| - 1])
  }

  lemma {:induction false} ConcatMapAppend(f: int -> seq<Word>, a: seq<int>, b: seq<int>)
    ensures ConcatMap(f, a + b) == ConcatMap(f, a) + ConcatMap(f, b)
  {
    if b == [] {
      assert a + b == a;
    } else {
      var init, x := b[..|b| - 1], b[|b| - 1];
      ConcatMapAppend(f, a, init);
      assert (a + b)[..|a + b| - 1] == a + init;
      var ca, ci := ConcatMap(f, a), ConcatMap(f, init);
      assert (ca + ci) + f(x) == ca + (ci + f(x));
    }
  }

  /** The words one selected lesson number contributes. */
  function LessonWordsOf(data: seq<Lesson>, sel: seq<PageId>): int -> seq<Word>
  {
    n => SelectedWords(n, PagesOf(Find(data, n)), sel)
  }

  lemma {:induction false} CollectWordsIsConcatMap(data: seq<Lesson>, lessons: seq<int>, sel: seq<PageId>)
    ensures CollectWords(data, lessons, sel) == ConcatMap(LessonWordsOf(data, sel), lessons)
  {
    if lessons != [] {
      CollectWordsIsConcatMap(data, lessons[..|lessons| - 1], sel);
    }
  }

  /** The word list is lesson order first: a split selection collects as the two halves, in order. */
  lemma CollectWordsAppend(data: seq<Lesson>, a: seq<int>, b: seq<int>, sel: seq<PageId>)
    ensures CollectWords(data, a + b, sel) == CollectWords(data, a, sel) + CollectWords(data, b, sel)
  {
    CollectWordsIsConcatMap(data, a + b, sel);
    CollectWordsIsConcatMap(data, a, sel);
    CollectWordsIsConcatMap(data, b, sel);
    ConcatMapAppend(LessonWordsOf(data, sel), a, b);
  }

  /** Only membership in the page selection matters, not the order the ids were added in. */
  lemma {:induction false} SelectedWordsMembershipOnly(n: int, ps: seq<Page>, sel: seq<PageId>, sel': seq<PageId>)
    requires forall id :: id in sel <==> id in sel'
    ensures SelectedWords(n, ps, sel) == SelectedWords(n, ps, sel')
  {
    if ps != [] {
      SelectedWordsMembershipOnly(n, ps[..|ps| - 1], sel, sel');
    }
  }

  lemma {:induction false} CollectWordsMembershipOnly(data: seq<Lesson>, lessons: seq<int>, sel: seq<PageId>, sel': seq<PageId>)
    requires forall id :: id in sel <==> id in sel'
    ensures CollectWords(data, lessons, sel) == CollectWords(data, lessons, sel')
  {
    if lessons != [] {
      var n := lessons[|lessons| - 1];
      CollectWordsMembershipOnly(data, lessons[..|lessons| - 1], sel, sel');
      SelectedWordsMembershipOnly(n, PagesOf(Find(data, n)), sel, sel');
    }
  }

  /** Two page selections with the same members give the same word list. */
  lemma CurrentWordsMembershipOnly(data: seq<Lesson>, lessons: seq<int>, sel: seq<PageId>, sel': seq<PageId>)
    requires forall id :: id in sel <==> id in sel'
    ensures CurrentWords(data, lessons, sel) == CurrentWords(data, lessons, sel')
  {
    if sel != [] {
      assert sel[0] in sel';
    }
    if sel' != [] {
      assert sel'[0] in sel;
    }
    CollectWordsMembershipOnly(data, lessons, sel, sel');
  }

  /** A word is on the list only if it sits on a selected page of the lesson that a selected number finds. */
  ghost predicate FromSelectedPage(data: seq<Lesson>, lessons: seq<int>, sel: seq<PageId>, w: Word)
  {
    exists n, p :: n in lessons && p in PagesOf(Find(data, n)) && PageId(n, p.number) in sel && w in WordsOf(p)
  }

  lemma {:induction false} SelectedWordsProvenance(n: int, ps: seq<Page>, sel: seq<PageId>, w: Word)
    requires w in SelectedWords(n, ps, sel)
    ensures exists p :: p in ps && PageId(n, p.number) in sel && w in WordsOf(p)
  {
    var init := ps[..|ps| - 1];
    var p := ps[|ps| - 1];
    if w in SelectedWords(n, init, sel) {
      SelectedWordsProvenance(n, init, sel, w);
      var q :| q in init && PageId(n, q.number) in sel && w in WordsOf(q);
      assert q in ps;
    } else {
      assert p in ps;
    }
  }

  lemma {:induction false} CollectWordsProvenance(data: seq<Lesson>, lessons: seq<int>, sel: seq<PageId>, w: Word)
    requires w in CollectWords(data, lessons, sel)
    ensures FromSelectedPage(data, lessons, sel, w)
  {
    var init := lessons[..|lessons| - 1];
    var n := lessons[|lessons| - 1];
    if w in CollectWords(data, init, sel) {
      CollectWordsProvenance(data, init, sel, w);
      var m, p :| m in init && p in PagesOf(Find(data, m)) && PageId(m, p.number) in sel && w in WordsOf(p);
      assert m in lessons;
    } else {
      SelectedWordsProvenance(n, PagesOf(Find(data, n)), sel, w);
      assert n in lessons;
    }
  }

  /** Every word on the list comes from a selected page of a selected lesson. */
  lemma CurrentWordsProvenance(data: seq<Lesson>, lessons: seq<int>, sel: seq<PageId>, w: Word)
    requires w in CurrentWords(data, lessons, sel)
    ensures FromSelectedPage(data, lessons, sel, w)
  {
    CollectWordsProvenance(data, lessons, sel, w);
  }

  lemma {:induction false} SelectedWordsComplete(n: int, ps: seq<Page>, sel: seq<PageId>, p: Page, w: Word)
    requires p in ps && PageId(n, p.number) in sel && w in WordsOf(p)
    ensures w in SelectedWords(n, ps, sel)
  {
    var init := ps[..|ps| - 1];
    if p != ps[|ps| - 1] {
      assert ps == init + [ps[|ps| - 1]];
      SelectedWordsComplete(n, init, sel, p, w);
    }
  }

  lemma {:induction false} CollectWordsComplete(data: seq<Lesson>, lessons: seq<int>, sel: seq<PageId>, n: int, p: Page, w: Word)
    requires n in lessons && p in PagesOf(Find(data, n)) && PageId(n, p.number) in sel && w in WordsOf(p)
    ensures w in CollectWords(data, lessons, sel)
  {
    var init := lessons[..|lessons| - 1];
    if n == lessons[|lessons| - 1] {
      SelectedWordsComplete(n, PagesOf(Find(data, n)), sel, p, w);
    } else {
      assert lessons == init + [lessons[|lessons| - 1]];
      CollectWordsComplete(data, init, sel, n, p, w);
    }
  }

  /**
   * A word is on the list exactly when both selections are non-empty and it
   * sits on a selected page of the lesson that a selected number finds.
   */
  lemma CurrentWordsMembership(data: seq<Lesson>, lessons: seq<int>, sel: seq<PageId>, w: Word)
    ensures w in CurrentWords(data, lessons, sel) <==>
              lessons != [] && sel != [] && FromSelectedPage(data, lessons, sel, w)
  {
    if w in CurrentWords(data, lessons, sel) {
      CollectWordsProvenance(data, lessons, sel, w);
    }
    if lessons != [] && sel != [] && FromSelectedPage(data, lessons, sel, w) {
      var n, p :| n in lessons && p in PagesOf(Find(data, n)) && PageId(n, p.number) in sel && w in WordsOf(p);
      CollectWordsComplete(data, lessons, sel, n, p, w);
    }
  }

  lemma {:induction false} SelectedWordsAllSelected(n: int, ps: seq<Page>, sel: seq<PageId>)
    requires forall id :: id in PageIds(n, ps) ==> id in sel
    ensures SelectedWords(n, ps, sel) == PageWords(ps)
  {
    if ps != [] {
      var init := ps[..|ps| - 1];
      assert forall id :: id in PageIds(n, init) ==> id in PageIds(n, ps);
      SelectedWordsAllSelected(n, init, sel);
    }
  }

  lemma {:induction false} CollectWordsAllSelected(data: seq<Lesson>, lessons: seq<int>, sel: seq<PageId>)
    requires forall id :: id in AvailablePages(data, lessons) ==> id in sel
    ensures CollectWords(data, lessons, sel) == AllWords(data, lessons)
  {
    if lessons != [] {
      var init := lessons[..|lessons| - 1];
      var n := lessons[|lessons| - 1];
      assert forall id :: id in AvailablePages(data, init) ==> id in AvailablePages(data, lessons);
      CollectWordsAllSelected(data, init, sel);
      SelectedWordsAllSelected(n, PagesOf(Find(data, n)), sel);
    }
  }

  /**
   * With every available page selected (the state a lesson change leaves
   * behind) the list holds all words of all pages of the selected lessons.
   */
  lemma FullSelectionWords(data: seq<Lesson>, lessons: seq<int>, sel: seq<PageId>)
    requires sel != []
    requires forall id :: id in AvailablePages(data, lessons) ==> id in sel
    ensures CurrentWords(data, lessons, sel) == AllWords(data, lessons)
  {
    CollectWordsAllSelected(data, lessons, sel);
  }

  /** How many words the selected pages among `ps` of lesson `n` hold. */
  function SelectedCount(n: int, ps: seq<Page>, sel: seq<PageId>): nat
  {
    if ps == [] then 0
    else
      var p := ps[|ps| - 1];
      SelectedCount(n, ps[..|ps| - 1], sel) + (if PageId(n, p.number) in sel then |WordsOf(p)| else 0)
  }

  /** How many words the selected pages of the selected lessons hold, lesson by lesson. */
  function CollectCount(data: seq<Lesson>, lessons: seq<int>, sel: seq<PageId>): nat
  {
    if lessons == [] then 0
    else
      var n := lessons[|lessons| - 1];
      CollectCount(data, lessons[..|lessons| - 1], sel) + SelectedCount(n, PagesOf(Find(data, n)), sel)
  }

  lemma {:induction false} SelectedWordsLength(n: int, ps: seq<Page>, sel: seq<PageId>)
    ensures |SelectedWords(n, ps, sel)| == SelectedCount(n, ps, sel)
  {
    if ps != [] {
      SelectedWordsLength(n, ps[..|ps| - 1], sel);
    }
  }

  lemma {:induction false} CollectWordsLength(data: seq<Lesson>, lessons: seq<int>, sel: seq<PageId>)
    ensures |CollectWords(data, lessons, sel)| == CollectCount(data, lessons, sel)
  {
    if lessons != [] {
      var n := lessons[|lessons| - 1];
      CollectWordsLength(data, lessons[..|lessons| - 1], sel);
      SelectedWordsLength(n, PagesOf(Find(data, n)), sel);
    }
  }

  /** The word list is as long as the selected pages' word lists together, or empty when a selection is. */
  lemma CurrentWordsLength(data: seq<Lesson>, lessons: seq<int>, sel: seq<PageId>)
    ensures |CurrentWords(data, lessons, sel)| == if lessons == [] || sel == [] then 0 else CollectCount(data, lessons, sel)
  {
    CollectWordsLength(data, lessons, sel);
  }
}
