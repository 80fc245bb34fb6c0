/**
 * The vocabulary database as the study app loads it from its JSON documents:
 * lessons hold pages, pages hold words. Every field the documents may omit
 * is an Option, so "missing" is a value the rest of the model can test.
 */
module Vocabulary {

  datatype Option<T> = None | Some(value: T)

  /** A German/Czech term pair with the optional example sentence and plural form. */
  datatype Word = Word(german: Option<string>, czech: Option<string>,
                       example: Option<string>, plural: Option<string>)

  /** A numbered page of a lesson; `words` may be absent from the document. */
  datatype Page = Page(number: int, words: Option<seq<Word>>)

  /** A lesson; its `number`, `name` and `pages` may each be absent from the document. */
  datatype Lesson = Lesson(number: Option<int>, name: Option<string>, pages: Option<seq<Page>>)

  /** One loaded database document; None in place of a document is a failed fetch. */
  datatype Document = Document(lessons: Option<seq<Lesson>>)

  /**
   * The key of a page in the page selection: the lesson's number and the page's
   * number (the source spells it as the string "lesson-page"; see PageKeys).
   */
  datatype PageId = PageId(lesson: int, page: int)

  /** The words of a page, an absent list counting as empty (`p.words || []`). */
  function WordsOf(p: Page): seq<Word>
  {
    if p.words.Some? then p.words.value else []
  }

  /** The pages of a lesson found by a lookup; no lesson or no `pages` gives none. */
  function PagesOf(lesson: Option<Lesson>): seq<Page>
  {
    if lesson.Some? && lesson.value.pages.Some? then lesson.value.pages.value else []
  }
}
