/**
 * The study app's state and its handlers, without the DOM: the merged lesson
 * database, the two selections (insertion-ordered, as JavaScript Sets are),
 * the page checkboxes currently listed, and the word list handed to the
 * renderer and the quiz module.
 */
module AppState {
  import opened Vocabulary
  import opened OrderedSets
  import opened LessonMerge
  import opened Selection

  /**
   * The selection `populatePageCheckboxes` leaves behind: every listed page,
   * once each, and the words it picks out are all the words of the selected lessons.
   */
  lemma RefilledSelection(data: seq<Lesson>, lessons: seq<int>, available: seq<PageId>)
    requires available == AvailablePages(data, lessons) && available != []
    ensures NoDup(AddAll([], available))
    ensures forall id :: id in AddAll([], available) <==> id in available
    ensures CurrentWords(data, lessons, AddAll([], available)) == AllWords(data, lessons)
  {
    RefillFromEmpty(available);
    assert available[0] in AddAll([], available);
    FullSelectionWords(data, lessons, AddAll([], available));
  }

  /** The second half of `populatePageCheckboxes`: every listed page is checked and added to the emptied selection. */
  method CheckAll(available: seq<PageId>) returns (selection: seq<PageId>)
    ensures selection == AddAll([], available)
    ensures NoDup(selection)
    ensures forall id :: id in selection <==> id in available
  {
    selection := [];
    var k := 0;
    while k < |available|
      invariant 0 <= k <= |available|
      invariant selection == AddAll([], available[..k])
    {
      selection := Add(selection, available[k]);
      AddAllStep([], available, k);
      k := k + 1;
    }
    assert available[..|available|] == available;
    RefillFromEmpty(available);
  }

  class App {
    /** `data.lessons`: the merged, sorted database. */
    var data: seq<Lesson>
    /** `selectedLessons`, the Set of checked lesson numbers, in insertion order. */
    var selectedLessons: seq<int>
    /** `selectedPages`, the Set of checked page ids, in insertion order. */
    var selectedPages: seq<PageId>
    /** The page checkboxes on screen, one per available page, in listing order. */
    var pageOptions: seq<PageId>
    /** `currentWords`, the list last computed for the renderer and the quiz module. */
    var currentWords: seq<Word>

    /**
     * Both selections are duplicate-free; the page list on screen is the one
     * the lesson selection makes available; a selected page is always one of
     * the listed pages.
     */
    ghost predicate Valid()
      reads this`data, this`selectedLessons, this`selectedPages, this`pageOptions
    {
      && NoDup(selectedLessons)
      && NoDup(selectedPages)
      && pageOptions == AvailablePages(data, selectedLessons)
      && (forall id :: id in selectedPages ==> id in pageOptions)
    }

    /**
     * Start-up: empty selections and word list, then `loadData`, which hands
     * the settled fetch results (None for a failed fetch) to `processData`.
     */
    constructor (results: seq<Option<Document>>)
      ensures Valid()
      ensures data == SortByNumber(ValidLessons(results))
      ensures selectedLessons == [] && selectedPages == [] && pageOptions == [] && currentWords == []
    {
      var lessons := MergeLessons(results);
      data := lessons;
      selectedLessons := [];
      selectedPages := [];
      pageOptions := [];
      currentWords := [];
    }

    /** Selected pages always belong to a selected lesson: pages of unselected lessons are never selected. */
    lemma SelectedPagesOfSelectedLessons(id: PageId)
      requires Valid() && id in selectedPages
      ensures id.lesson in selectedLessons
      ensures exists p :: p in PagesOf(Find(data, id.lesson)) && p.number == id.page
    {
      AvailablePagesMembership(data, selectedLessons, id);
    }

    /** The first half of `populatePageCheckboxes`: the pages of every selected lesson found in the database. */
    method ListAvailablePages() returns (available: seq<PageId>)
      ensures available == AvailablePages(data, selectedLessons)
    {
      available := [];
      var i := 0;
      while i < |selectedLessons|
        invariant 0 <= i <= |selectedLessons|
        invariant available == AvailablePages(data, selectedLessons[..i])
      {
        var lessonNum := selectedLessons[i];
        var lesson := Find(data, lessonNum);
        if lesson.Some? && lesson.value.pages.Some? {
          var pages := lesson.value.pages.value;
          var j := 0;
          while j < |pages|
            invariant 0 <= j <= |pages|
            invariant available == AvailablePages(data, selectedLessons[..i]) + PageIds(lessonNum, pages[..j])
          {
            available := available + [PageId(lesson.value.number.value, pages[j].number)];
            PageIdsStep(lessonNum, pages, j);
            j := j + 1;
          }
          assert pages[..|pages|] == pages;
        }
        AvailablePagesStep(data, selectedLessons, i);
        i := i + 1;
      }
      assert selectedLessons[..|selectedLessons|] == selectedLessons;
    }

    /**
     * `updateCurrentWords`: restart from an empty list and, when both
     * selections are non-empty, append the words of every selected page of
     * every selected lesson.
     */
    method UpdateCurrentWords()
      modifies this`currentWords
      ensures currentWords == CurrentWords(data, selectedLessons, selectedPages)
    {
      currentWords := [];
      if |selectedLessons| > 0 && |selectedPages| > 0 {
        var i := 0;
        while i < |selectedLessons|
          invariant 0 <= i <= |selectedLessons|
          invariant currentWords == CollectWords(data, selectedLessons[..i], selectedPages)
        {
          var lessonNum := selectedLessons[i];
          var lesson := Find(data, lessonNum);
          if lesson.Some? && lesson.value.pages.Some? {
            var pages := lesson.value.pages.value;
            var j := 0;
            while j < |pages|
              invariant 0 <= j <= |pages|
              invariant currentWords == CollectWords(data, selectedLessons[..i], selectedPages)
                                          + SelectedWords(lessonNum, pages[..j], selectedPages)
            {
              var p := pages[j];
              var pageId := PageId(lesson.value.number.value, p.number);
              if pageId in selectedPages {
                currentWords := currentWords + WordsOf(p);
              }
              SelectedWordsStep(lessonNum, pages, j, selectedPages);
              j := j + 1;
            }
            assert pages[..|pages|] == pages;
          }
          CollectWordsStep(data, selectedLessons, i, selectedPages);
          i := i + 1;
        }
        assert selectedLessons[..|selectedLessons|] == selectedLessons;
      }
    }

    /**
     * `populatePageCheckboxes`: forget every selected page, list the pages of
     * the selected lessons and select them all. When there is no page to
     * list it returns early and the word list keeps its old value.
     */
    method RebuildPages()
      requires NoDup(selectedLessons)
      modifies this`selectedPages, this`pageOptions, this`currentWords
      ensures Valid()
      ensures pageOptions == AvailablePages(data, selectedLessons)
      ensures selectedPages == AddAll([], pageOptions)
      ensures pageOptions == [] ==> currentWords == old(currentWords)
      ensures pageOptions != [] ==> currentWords == CurrentWords(data, selectedLessons, selectedPages)
      ensures pageOptions != [] ==> currentWords == AllWords(data, selectedLessons)
    {
      selectedPages := [];
      var available := ListAvailablePages();
      pageOptions := available;
      if |available| == 0 {
        return;
      }
      selectedPages := CheckAll(available);
      RefilledSelection(data, selectedLessons, available);
      assert Valid();
      UpdateCurrentWords();
    }

    /** A single lesson checkbox changes: add or delete its number, then rebuild the page list. */
    method OnLessonChecked(lessonNum: int, checked: bool)
      requires Valid()
      modifies this`selectedLessons, this`selectedPages, this`pageOptions, this`currentWords
      ensures Valid()
      ensures selectedLessons == Toggle(old(selectedLessons), lessonNum, checked)
      ensures forall n :: n != lessonNum ==> (n in selectedLessons <==> n in old(selectedLessons))
      ensures pageOptions == AvailablePages(data, selectedLessons)
      ensures selectedPages == AddAll([], pageOptions)
      ensures pageOptions == [] ==> currentWords == old(currentWords)
      ensures pageOptions != [] ==> currentWords == AllWords(data, selectedLessons)
    {
      selectedLessons := Toggle(selectedLessons, lessonNum, checked);
      RebuildPages();
    }

    /**
     * A lesson checkbox whose lesson has no number changes: its value parses
     * to `NaN`, which no lesson number equals, so the lesson selection lists
     * the same pages and the visible effect is the rebuild alone.
     */
    method OnUnnumberedLessonChecked()
      requires Valid()
      modifies this`selectedPages, this`pageOptions, this`currentWords
      ensures Valid()
      ensures pageOptions == old(pageOptions)
      ensures selectedPages == AddAll([], pageOptions)
      ensures pageOptions == [] ==> currentWords == old(currentWords)
      ensures pageOptions != [] ==> currentWords == AllWords(data, selectedLessons)
    {
      RebuildPages();
    }

    /** "Select all lessons" changes: every database lesson number follows the checkbox, then rebuild. */
    method OnSelectAllLessons(checked: bool)
      requires Valid()
      modifies this`selectedLessons, this`selectedPages, this`pageOptions, this`currentWords
      ensures Valid()
      ensures selectedLessons == ToggleAll(old(selectedLessons), LessonNumbers(data), checked)
      ensures pageOptions == AvailablePages(data, selectedLessons)
      ensures selectedPages == AddAll([], pageOptions)
      ensures pageOptions == [] ==> currentWords == old(currentWords)
      ensures pageOptions != [] ==> currentWords == AllWords(data, selectedLessons)
    {
      var i := 0;
      while i < |data|
        modifies this`selectedLessons
        invariant 0 <= i <= |data|
        invariant selectedLessons == ToggleAll(old(selectedLessons), LessonNumbers(data[..i]), checked)
        invariant NoDup(selectedLessons)
      {
        var lesson := data[i];
        LessonNumbersStep(data, i);
        if lesson.number.Some? {
          ToggleAllSnoc(old(selectedLessons), LessonNumbers(data[..i]), lesson.number.value, checked);
          selectedLessons := Toggle(selectedLessons, lesson.number.value, checked);
        } else {
          assert LessonNumbers(data[..i]) + [] == LessonNumbers(data[..i]);
        }
        i := i + 1;
      }
      assert data[..|data|] == data;
      RebuildPages();
    }

    /** A single listed page checkbox changes: add or delete its id, then recompute the words. */
    method OnPageChecked(pageId: PageId, checked: bool)
      requires Valid() && pageId in pageOptions
      modifies this`selectedPages, this`currentWords
      ensures Valid()
      ensures selectedPages == Toggle(old(selectedPages), pageId, checked)
      ensures currentWords == CurrentWords(data, selectedLessons, selectedPages)
    {
      selectedPages := Toggle(selectedPages, pageId, checked);
      UpdateCurrentWords();
    }

    /**
     * "Select all pages" changes: every listed page follows the checkbox.
     * The source does not recompute the word list here.
     */
    method OnSelectAllPages(checked: bool)
      requires Valid()
      modifies this`selectedPages
      ensures Valid()
      ensures selectedPages == ToggleAll(old(selectedPages), pageOptions, checked)
      ensures forall id :: id in selectedPages <==> if id in pageOptions then checked else id in old(selectedPages)
    {
      var k := 0;
      while k < |pageOptions|
        modifies this`selectedPages
        invariant 0 <= k <= |pageOptions|
        invariant selectedPages == ToggleAll(old(selectedPages), pageOptions[..k], checked)
        invariant NoDup(selectedPages)
        invariant forall id :: id in selectedPages ==> id in pageOptions
      {
        selectedPages := Toggle(selectedPages, pageOptions[k], checked);
        ToggleAllStep(old(selectedPages), pageOptions, k, checked);
        k := k + 1;
      }
      assert pageOptions[..|pageOptions|] == pageOptions;
      forall id
        ensures id in selectedPages <==> if id in pageOptions then checked else id in old(selectedPages)
      {
        ToggleAllMembership(old(selectedPages), pageOptions, checked, id);
      }
    }
  }
}
