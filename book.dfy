/** The Book class and its three overloaded constructors. No method changes
    a Book after construction, so a Book is a value. */
module Books {

  datatype Book = Book(title: string, author: string, pages: int)

  /** `Book()`: every field takes its fixed default. */
  function BookDefault(): (b: Book)
    ensures b.title == "Untitled" && b.author == "Unknown" && b.pages == 0
  {
    Book("Untitled", "Unknown", 0)
  }

  /** `Book(title, author)`: the given title and author, 100 pages. */
  function BookTitled(title: string, author: string): (b: Book)
    ensures b.title == title && b.author == author && b.pages == 100
  {
    Book(title, author, 100)
  }

  /** `Book(title, author, pages)`: all three stored verbatim; any page
      count, negative included, is accepted. */
  function BookFull(title: string, author: string, pages: int): (b: Book)
    ensures b.title == title && b.author == author && b.pages == pages
  {
    Book(title, author, pages)
  }

  /** The two-argument constructor is the three-argument one with 100
      pages, and no other page count gives the same book. */
  lemma TitledIsFullWithHundred(title: string, author: string, pages: int)
    ensures BookTitled(title, author) == BookFull(title, author, 100)
    ensures BookFull(title, author, pages) == BookTitled(title, author) <==> pages == 100
  {
  }

  /** The no-argument constructor is the three-argument one with its
      defaults, and never coincides with a two-argument book. */
  lemma DefaultIsFull(title: string, author: string)
    ensures BookDefault() == BookFull("Untitled", "Unknown", 0)
    ensures BookDefault() != BookTitled(title, author)
  {
  }

  /** The demonstration's third book keeps its 310 pages. */
  lemma HobbitDemo()
    ensures BookFull("The Hobbit", "J.R.R. Tolkien", 310).pages == 310
    ensures BookTitled("1984", "George Orwell").pages == 100
  {
  }
}
