# Vocabulary study app: lesson merge, selections and word list

The app (`script.js`, class `App`) loads several JSON lesson databases and merges them into one list of lessons sorted by lesson number. The user picks lessons and then pages of those lessons through two checkbox lists. The app keeps the word list of the picked pages up to date for the word view and the quiz module.

This project models that data logic without the DOM:

- `vocabulary.dfy` (`Vocabulary`): the documents, lessons, pages and words as they appear in a database file. Every field the code tests for presence is an `Option`. A page is identified by the pair `PageId(lesson, page)`.
- `merge.dfy` (`LessonMerge`): `processData`. Results that are null or have no `lessons` are dropped, the rest are concatenated in load order, and the list is stably sorted by `number || 0`. The loop is the method `MergeLessons`. The sort is the function `SortByNumber`, which is proved sorted, a permutation, stable, and the only arrangement with those properties.
- `ordered_sets.dfy` (`OrderedSets`): JavaScript `Set`s as duplicate-free sequences in insertion order. `add` appends an absent element, `delete` cuts one out, a checkbox toggles, and a select-all loop toggles each listed element.
- `selection.dfy` (`Selection`): the specification functions:
  - `find` on the lesson list;
  - the page ids the selected lessons make available;
  - the word list `updateCurrentWords` builds.

  It also proves the properties of the word list: exactly which words are on it, in what order, how many, and that only membership of the page selection matters.
- `page_keys.dfy` (`PageKeys`): the string form `${lesson}-${page}` of a page id, proved injective for non-negative numbers. The pair therefore loses nothing.
- `app.dfy` (`AppState`): the class `App`. Its fields are:
  - the merged lessons;
  - the two selections;
  - the page checkboxes currently listed (`pageOptions`);
  - `currentWords`.

  Its methods are the start-up merge, `populatePageCheckboxes`, `updateCurrentWords` and the four change handlers. Each is checked against the functions of `Selection` and `OrderedSets`. The invariant `Valid()` keeps both selections duplicate-free, keeps `pageOptions` equal to the pages the selected lessons make available, and keeps every selected page among them.
- `scenarios.dfy` (`Scenarios`): small worked cases:
  - two documents merged, and a failed fetch;
  - equal lesson numbers keeping their load order;
  - a lesson change that reselects its pages;
  - unchecking a page, and unchecking "select all pages".

A note on word order: `updateCurrentWords` walks the selected lessons in the order they were selected, because JavaScript `Set`s iterate in insertion order. Database order is not used. The model follows the code, so the word list of lessons 3 then 1 starts with lesson 3's words.

## Model

| member | source | states |
|---|---|---|
| LessonMerge.ResultLessons | script.js:73-75 | what one loaded result contributes: its `lessons` when it is non-null and has them, else nothing |
| LessonMerge.ValidLessons | script.js:73-75 | the filter and concatenation: the contributions of the results, in load order |
| LessonMerge.NumberKey | script.js:76 | the comparator's key: the lesson number, or 0 when it is missing |
| LessonMerge.Insert | script.js:76 | one insertion step: puts a lesson in front of the first lesson whose key is not smaller, so ahead of its equals |
| LessonMerge.SortByNumber | script.js:76 | insertion sort that inserts each lesson, from the back of the list to the front, into the sorted rest; equal keys keep input order |
| LessonMerge.MergeLessons | script.js:72-78 | the merged lessons are the stable sort of the valid results' lessons; they are sorted by lesson number (a missing number counting as 0), a permutation of the concatenation, and every key's run keeps the concatenation order |
| LessonMerge.ValidLessonsAppend | script.js:73-75 | the lessons of a list of results are the lessons of each part in order: concatenation follows load order |
| LessonMerge.AllInvalidGivesEmpty | script.js:73-75 | when every result is null or has no `lessons`, the merged list is empty, not an error |
| LessonMerge.InsertPermutes | script.js:76 | one insertion step of the sort adds exactly the inserted lesson |
| LessonMerge.InsertSorted | script.js:76 | inserting into a sorted list keeps it sorted |
| LessonMerge.InsertWithKey | script.js:76 | an inserted lesson goes in front of the lessons with its own key and leaves other keys' runs alone |
| LessonMerge.SortByNumberSorted | script.js:76 | the sorted list is ascending by `number`, a missing number counting as 0 |
| LessonMerge.SortByNumberPermutes | script.js:76 | the sorted list holds exactly the input lessons, with multiplicity |
| LessonMerge.SortByNumberStable | script.js:76 | lessons with equal keys keep their input order |
| LessonMerge.StableArrangementUnique | script.js:76 | two sorted lists with the same per-key runs are equal |
| LessonMerge.SortByNumberIsTheStableSort | script.js:76 | any sorted arrangement that keeps every key's run in input order is the model's sort, so the sort is the one a stable `Array.prototype.sort` gives |
| Selection.LessonNumbers | script.js:92-98 | the values of the lesson checkboxes: the numbers of the lessons that have one, in database order |
| Selection.PageIds | script.js:110-116 | the ids `n-p` of a lesson's pages, in stored page order |
| Selection.LessonPageIds | script.js:108-118 | the ids a selected number lists: the pages of the first lesson with that number, none when no lesson or no `pages` |
| Selection.AvailablePages | script.js:105-118 | `availablePages`: the listed ids of every selected number, in selection order |
| Selection.SelectedWords | script.js:257-262 | the words of the pages of one lesson whose ids are selected, page by page |
| Selection.CollectWords | script.js:254-264 | the selected words of every selected lesson, lesson by lesson in selection order |
| Selection.Find | script.js:108 | a lesson found is in the database and carries the number looked up |
| Selection.FindNone | script.js:255 | `find` returns nothing exactly when no lesson carries the number |
| Selection.FindFirst | script.js:108 | a lesson carrying the number is found, and it is the one found when no earlier lesson carries that number |
| Selection.LessonNumbersMembership | script.js:184-190 | the numbers "select all lessons" walks are exactly the numbers of the database lessons |
| Selection.PageIdsMembership | script.js:110-116 | a lesson's listed ids are exactly `n-p` for the pages `p` it stores |
| Selection.AvailablePagesMembership | script.js:105-118 | a page is listed exactly when its lesson is selected and the first lesson with that number stores that page |
| Selection.CurrentWords | script.js:251-253 | the word list is empty whenever either selection is empty |
| Selection.ConcatMapAppend | script.js:254-264 | concatenating the per-lesson lists over two runs of lessons is concatenating the two results |
| Selection.CollectWordsIsConcatMap | script.js:254-264 | the aggregation loop concatenates, lesson by lesson, the words that each selected lesson contributes |
| Selection.CollectWordsAppend | script.js:254-264 | the word list is in selected-lesson order: a split selection gives the first part's words, then the second part's |
| Selection.SelectedWordsMembershipOnly | script.js:257-262 | a lesson's contribution depends only on which page ids are selected |
| Selection.CollectWordsMembershipOnly | script.js:254-264 | the aggregation depends only on which page ids are selected |
| Selection.CurrentWordsMembershipOnly | script.js:250-265 | two page selections with the same members give the same word list |
| Selection.SelectedWordsProvenance | script.js:257-262 | a word contributed by a lesson sits on one of its selected pages |
| Selection.CollectWordsProvenance | script.js:254-264 | every collected word sits on a selected page of a lesson that a selected number finds |
| Selection.CurrentWordsProvenance | script.js:250-265 | every word on the list comes from a selected page of a selected lesson |
| Selection.SelectedWordsComplete | script.js:257-262 | every word of a selected page of the lesson is contributed |
| Selection.CollectWordsComplete | script.js:254-264 | every word of a selected page of a found, selected lesson is collected |
| Selection.CurrentWordsMembership | script.js:250-265 | a word is on the list if and only if both selections are non-empty and the word sits on a selected page of the lesson a selected number finds |
| Selection.SelectedWordsAllSelected | script.js:257-262 | with all of a lesson's pages selected, the lesson contributes all its words in page order |
| Selection.CollectWordsAllSelected | script.js:254-264 | with every available page selected, the collected list is every word of the selected lessons in lesson and page order |
| Selection.FullSelectionWords | script.js:250-265 | with every available page selected, the word list is all words of the selected lessons |
| Selection.SelectedWordsLength | script.js:257-262 | a lesson contributes as many words as its selected pages hold |
| Selection.CollectWordsLength | script.js:254-264 | the collected list is as long as the selected pages' word lists together |
| Selection.CurrentWordsLength | script.js:250-265 | the word list's length is that sum, or 0 when a selection is empty |
| OrderedSets.ToggleAll | script.js:206-210 | a select-all loop: each listed element toggled in turn to the checkbox state |
| OrderedSets.AddAll | script.js:129-134 | the refill loop: each listed element added in turn |
| OrderedSets.Add | script.js:188 | `add` makes exactly the old members plus the new one, keeps the set duplicate-free and keeps existing elements in place |
| OrderedSets.Remove | script.js:189 | `delete` leaves exactly the other members, keeps the set duplicate-free, and deleting an absent element changes nothing |
| OrderedSets.RemoveAt | script.js:213 | in a duplicate-free sequence, `delete` cuts exactly that element out and keeps the rest in order |
| OrderedSets.Toggle | script.js:193-194 | a checkbox change sets the membership of its element to the checkbox state and leaves every other element alone |
| OrderedSets.ToggleAllMembership | script.js:206-210 | select-all sets every listed element's membership to the checkbox state and leaves unlisted elements as they were |
| OrderedSets.ToggleAllNoDup | script.js:185-190 | select-all keeps the set duplicate-free |
| OrderedSets.ToggleAllSettled | script.js:185-190 | toggling elements whose membership already matches the state changes nothing, order included |
| OrderedSets.ToggleAllIdempotent | script.js:185-190 | select-all twice with the same state is select-all once |
| OrderedSets.AddAllMembership | script.js:129-134 | adding a list of elements gives the members of both |
| OrderedSets.RefillFromEmpty | script.js:103-134 | refilling the cleared set from the listed pages selects exactly the listed pages, once each |
| OrderedSets.AddAllNoDup | script.js:129-134 | the refill keeps the set duplicate-free |
| OrderedSets.AddAllDistinct | script.js:129-134 | refilling from a duplicate-free list reproduces it, order included |
| PageKeys.IdText | script.js:114 | the checkbox value and selection key of a page: lesson digits, a dash, page digits |
| Vocabulary.WordsOf | script.js:260 | the words of a page, an empty list when `words` is missing |
| Vocabulary.PagesOf | script.js:256 | the pages of the lesson a lookup found, none when nothing was found or it has no `pages` |
| PageKeys.DecimalText | script.js:114 | a template literal spells a non-negative number as a non-empty run of digits |
| PageKeys.DecimalRoundTrip | script.js:114 | reading the digits back gives the number |
| PageKeys.DashSplit | script.js:114 | a digits-dash-text string splits uniquely at its first dash |
| PageKeys.IdTextInjective | script.js:258 | equal page keys `${lesson}-${page}` mean the same lesson and page, so the pair stands for the string built here and at line 114 |
| AppState.App.Valid | script.js:101-137 | the state every handler keeps: both selections duplicate-free, the listed pages are those of the selected lessons, and every selected page is listed |
| AppState.RefilledSelection | script.js:103-136 | after a rebuild that lists pages, the selection is the listed pages once each and the word list is every word of the selected lessons |
| AppState.CheckAll | script.js:129-134 | the refill loop selects exactly the listed pages, once each, in listing order |
| AppState.App.constructor | script.js:72-78 | start-up leaves both selections and the word list empty and installs the stable sort of the valid results' lessons |
| AppState.App.SelectedPagesOfSelectedLessons | script.js:103-134 | a selected page always belongs to a selected lesson and is a page that lesson stores |
| AppState.App.ListAvailablePages | script.js:105-118 | the nested loop lists the pages of the selected lessons found, lesson by lesson in selection order |
| AppState.App.UpdateCurrentWords | script.js:250-265 | the loop leaves `currentWords` equal to the word list of the current selections |
| AppState.App.RebuildPages | script.js:101-137 | the page selection is discarded and refilled with every listed page; with no page listed the word list keeps its old value, otherwise it becomes every word of the selected lessons |
| AppState.App.OnLessonChecked | script.js:191-200 | only the toggled number changes membership, then the pages are rebuilt |
| AppState.App.OnUnnumberedLessonChecked | script.js:191-200 | a click on the checkbox of a lesson without a number (value `NaN`) lists the same pages, refills the page selection with all of them and recomputes the words |
| AppState.App.OnSelectAllLessons | script.js:183-200 | every database lesson number follows the checkbox state, then the pages are rebuilt |
| AppState.App.OnPageChecked | script.js:211-219 | only the toggled listed page changes membership, and the word list is recomputed |
| AppState.App.OnSelectAllPages | script.js:204-210 | every listed page follows the checkbox state, other pages keep theirs, and the word list is not recomputed |
| Scenarios.MergeOrdersByNumber | script.js:72-76 | documents with lessons [5, 1, 3] and [2, 4] merge to lessons 1 to 5 in order |
| Scenarios.EqualNumbersKeepLoadOrder | script.js:76 | lessons numbered 2, 1, 2 sort to the 1, then the two 2s in load order |
| Scenarios.FailedFetchContributesNothing | script.js:73-75 | a failed fetch, or a document without lessons, contributes nothing |
| Scenarios.LessonChangeSelectsItsPages | script.js:103-134 | choosing a two-page lesson selects exactly its two pages |
| Scenarios.WordOrderFollowsPages | script.js:254-264 | both pages selected gives the words in page order |
| Scenarios.SecondPageWords | script.js:254-264 | with the first page deselected, only the second page's words remain |
| Scenarios.OpenLessonOne | script.js:191-200 | after start-up and checking lesson 1, both of its pages are selected and all its words are on the list |
| Scenarios.StudySession | script.js:211-219 | unchecking page 1-1 of lesson 1 leaves page 1-2 selected and only its words, [C], on the list |
| Scenarios.SelectAllPagesKeepsWords | script.js:204-210 | unchecking "select all pages" empties the page selection and leaves the word list [A, B, C] as it was |
| Scenarios.SwitchLesson | script.js:191-200 | from lesson 1 with any page choice, checking lesson 2 and unchecking lesson 1 leaves exactly lesson 2 and all of its pages selected |

## Left out

- `loadData` is left out: the `fetch`/`Promise.all` fan-out, the per-file catch, the `DB_DATA` global and the error message (script.js:43-70). These are network and asynchronous I/O. The constructor takes the settled results instead, with `None` for a failed fetch.
- All DOM work is left out: building checkboxes and labels, `innerHTML`, and syncing the select-all checkboxes through `querySelectorAll`. The listed page checkboxes are kept as the field `pageOptions`, because the page handlers depend on them.
- `setupMultiselectUI`, `switchView` and the navigation buttons are left out. They only open, close and show views.
- `renderWords` and `updateStats` are left out. They assemble HTML and show `???` for a missing term.
- The `GameManager` calls and the reverse-mode toggle are left out. They call a module this model does not include.
- `parseInt` and the loose `==` in `find` are left out: lesson numbers are integers and both are identity and equality here. A lesson without a number is never found, as `undefined == n` is false for a number `n`.
- AppState.App.OnSelectAllLessons skips lessons without a number. The code would add `NaN` to the selection, but `NaN` finds no lesson and lists no page. The set of page ids and the word list are therefore the same, but `selectedLessons` lacks that `NaN` element.
- AppState.App.OnUnnumberedLessonChecked does not add or delete the `NaN` value in `selectedLessons`, since lesson numbers are integers. Like the source, it still rebuilds the page list: the user's page choices are reset to all listed pages and the words are recomputed.
- Pages without a `number` are left out: the code would build the id `n-undefined`. Page numbers are integers.
- LessonMerge.MergeLessons is proved against an insertion sort. The engine's in-place sort algorithm is not modelled. ECMAScript requires the sort to be stable, and `SortByNumberIsTheStableSort` shows that only one such result exists.
- LessonMerge.MergeLessons folds the `filter` and the `forEach` of `concat` into one loop over the results. The result is the same list.
- PageKeys.IdText covers non-negative lesson and page numbers only, which is what the databases hold; the model uses the pair.
