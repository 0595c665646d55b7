/** A library of books and an iterator that walks a copy of its collection. */
module LibraryIterator {

  /** A book: its name and its cost. */
  datatype Book = Book(bookName: string, bookCost: int)

  /** An iterator over a private copy of a book collection, with a cursor. */
  class BookIterator {
    const books: seq<Book>
    var index: nat

    /** The cursor never passes the end of the collection. */
    ghost predicate Valid()
      reads this
    {
      index <= |books|
    }

    /** A new iterator starts at the first book of its own copy of the collection. */
    constructor (b: seq<Book>)
      ensures Valid() && books == b && index == 0
    {
      books := b;
      index := 0;
    }

    /** `hasNext`: whether a book remains past the cursor. */
    method HasNext() returns (r: bool)
      ensures r <==> index < |books|
    {
      r := index < |books|;
    }

    /** `next` returns the book under the cursor and advances the cursor by one. Reading
        past the end is undefined in the source, so callers must check `hasNext` first. */
    method Next() returns (book: Book)
      requires Valid() && index < |books|
      modifies this
      ensures Valid()
      ensures book == books[old(index)] && index == old(index) + 1
    {
      book := books[index];
      index := index + 1;
    }
  }

  /** The aggregate: a collection the library appends to in place. */
  class Library {
    var books: seq<Book>

    /** A new library is empty. */
    constructor ()
      ensures books == []
    {
      books := [];
    }

    /** `addBook` appends at the end. */
    method AddBook(book: Book)
      modifies this
      ensures books == old(books) + [book]
    {
      books := books + [book];
    }

    /** `createIterator` builds an iterator over a copy of the current collection. */
    method CreateIterator() returns (it: BookIterator)
      ensures fresh(it) && it.Valid()
      ensures it.books == books && it.index == 0
    {
      it := new BookIterator(books);
    }
  }

  /** The client loop `while (hasNext()) next()`: it yields every book from the cursor
      on, each once and in order, and stops at the end. */
  method VisitAll(it: BookIterator) returns (visited: seq<Book>)
    requires it.Valid()
    modifies it
    ensures visited == it.books[old(it.index)..]
    ensures it.index == |it.books|
  {
    visited := [];
    var more := it.HasNext();
    while more
      invariant it.Valid() && old(it.index) <= it.index
      invariant visited == it.books[old(it.index)..it.index]
      invariant more <==> it.index < |it.books|
      decreases |it.books| - it.index
    {
      var book := it.Next();
      visited := visited + [book];
      more := it.HasNext();
    }
  }

  /** An iterator works on the snapshot taken when it was created: books added to the
      library afterwards are not visited. */
  method SnapshotIsolation(library: Library, later: Book) returns (visited: seq<Book>)
    modifies library
    ensures visited == old(library.books)
    ensures library.books == old(library.books) + [later]
  {
    var it := library.CreateIterator();
    library.AddBook(later);
    visited := VisitAll(it);
  }

  /** The demonstration: four books added, then visited by name in insertion order. */
  method Demo() returns (names: seq<string>)
    ensures names == ["book1", "book2", "book3", "book4"]
  {
    var library := new Library();
    library.AddBook(Book("book1", 35));
    library.AddBook(Book("book2", 45));
    library.AddBook(Book("book3", 55));
    library.AddBook(Book("book4", 65));
    var it := library.CreateIterator();
    var visited := VisitAll(it);
    names := seq(|visited|, i requires 0 <= i < |visited| => visited[i].bookName);
  }
}
