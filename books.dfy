/** The textbook catalogue filter of the Books page: a book is listed when
    the lower-cased search text occurs in its title, in any one of its
    authors, or in its category. The search text is not trimmed. */
module Books {
  import opened Text
  import opened Filtering

  /** The catalogue fields the filter reads; the display-only fields
      (edition, year, pages, rating, formats, ...) are not modelled. */
  datatype Book = Book(title: string, authors: seq<string>, category: string)

  /** `book.authors.some(author => ...)`. */
  predicate AnyAuthorContains(authors: seq<string>, needle: string) {
    exists author :: author in authors && Contains(Lower(author), needle)
  }

  predicate BookMatches(book: Book, needle: string) {
    || Contains(Lower(book.title), needle)
    || AnyAuthorContains(book.authors, needle)
    || Contains(Lower(book.category), needle)
  }

  function FilteredBooks(books: seq<Book>, searchQuery: string): (r: seq<Book>)
    ensures forall b :: b in r ==> b in books && BookMatches(b, Lower(searchQuery))
    ensures forall b :: b in books && BookMatches(b, Lower(searchQuery)) ==> b in r
    ensures SubseqOf(r, books)
    ensures forall b :: b in books ==> multiset(r)[b] == if BookMatches(b, Lower(searchQuery)) then multiset(books)[b] else 0
  {
    var needle := Lower(searchQuery);
    FilterIsSubseq(books, b => BookMatches(b, needle));
    Filter(books, b => BookMatches(b, needle))
  }

  /** The count in the "N books available for download" heading. */
  function AvailableCount(books: seq<Book>, searchQuery: string): (n: nat)
    ensures n <= |books|
    ensures searchQuery == "" ==> n == |books|
  {
    EmptyQueryKeepsAllBooks(books);
    |FilteredBooks(books, searchQuery)|
  }

  /** With an empty search box the whole catalogue is shown. */
  lemma EmptyQueryKeepsAllBooks(books: seq<Book>)
    ensures FilteredBooks(books, "") == books
  {
    forall b | b in books
      ensures BookMatches(b, Lower(""))
    {
      ContainsEmpty(Lower(b.title));
    }
    FilterKeepsAll(books, b => BookMatches(b, Lower("")));
  }

  /** A match on one author alone is enough to list the book. */
  lemma AuthorMatchKeepsBook(books: seq<Book>, searchQuery: string, b: Book, author: string)
    requires b in books && author in b.authors
    requires Contains(Lower(author), Lower(searchQuery))
    ensures b in FilteredBooks(books, searchQuery)
  {
  }
}
