/** The books business layer (modules/books/books-business.js). It repeats
    the listing of the model layer and forwards the single-book operations
    to the collection, with two differences from modules/books/books-model.js:
    there is no id check of its own, so a malformed id reaches the database
    and fails with its cast error, and a duplicate key is not given a
    message of its own. Every failure carries the operation's prefix. The
    collection is the `BookStore` of the model layer. */
module BooksService {
  import opened Wrappers
  import opened Pagination
  import opened BooksCatalog
  import opened ObjectIds
  import UserCollection

  /** `getAllBooks(filters, page, limit, sortBy)`: the same query, sort
      table and pagination record as the model layer. */
  method GetAllBooks(sorted: seq<Book>, f: Filters, page: int, limit: int, sortBy: string,
                     rx: (string, string) -> bool)
    returns (books: seq<Book>, pagination: PageInfo, sort: SortSpec)
    requires page >= 1 && limit >= 1
    ensures sort == SortFor(sortBy)
    ensures forall b :: b in books ==> b in sorted && Wanted(f, b, rx)
    ensures books == Window(Select(sorted, QueryOf(f), rx), page, limit)
    ensures pagination == Paginate(|Select(sorted, QueryOf(f), rx)|, page, limit)
    ensures pagination.hasNext <==> page < pagination.totalPages
  {
    var query := BuildQuery(f);
    sort := SortFor(sortBy);
    var matches := Select(sorted, query, rx);
    books := Window(matches, page, limit);
    forall b | b in books ensures b in sorted && Wanted(f, b, rx) {
      var k :| 0 <= k < |books| && books[k] == b;
      assert b == matches[Skip(page, limit) + k];
    }
    pagination := Paginate(|matches|, page, limit);
    HasNextIffBeforeLastPage(|matches|, page, limit);
  }

  /** `getBookByID(id)`: a missing book is `null`, not an error; a
      malformed id fails with the cast error. */
  method GetBookById(store: BookStore, id: string) returns (r: Result<Option<Book>>)
    ensures !IsValidObjectId(id) ==> r == Failure("Error fetching book: " + CastMessage("Book", id))
    ensures IsValidObjectId(id) ==> r == Success(if id in store.books then Some(store.books[id]) else None)
  {
    var found := store.FindById(id);
    if found.DbError? {
      return Failure("Error fetching book: " + found.message);
    }
    r := Success(found.value);
  }

  /** `addNewBook(bookData)`: every failure, a duplicate key included, is
      the driver's message behind the prefix. */
  method AddNewBook(store: BookStore, d: BookData, newId: string, yearAtLoad: int) returns (r: Result<Book>)
    requires store.Valid() && IsValidObjectId(newId)
    modifies store
    ensures store.Valid()
    ensures BookErrors(d, true, yearAtLoad) != [] ==>
              r == Failure("Error creating book: " + ValidationMessage(d, true, yearAtLoad)) &&
              store.books == old(store.books)
    ensures BookErrors(d, true, yearAtLoad) == [] && newId in old(store.books) ==>
              r == Failure("Error creating book: " + UserCollection.DuplicateKeyMessage) && store.books == old(store.books)
    ensures BookErrors(d, true, yearAtLoad) == [] && newId !in old(store.books) ==>
              r == Success(NewBook(newId, d)) && store.books == old(store.books)[newId := NewBook(newId, d)]
  {
    var saved := store.Insert(d, newId, yearAtLoad);
    if saved.DbError? {
      return Failure("Error creating book: " + saved.message);
    }
    r := Success(saved.value);
  }

  /** `updateExistingBook(id, bookData)`: the cast, the validators, then
      'Book not found'. */
  method UpdateExistingBook(store: BookStore, id: string, d: BookData, yearAtLoad: int) returns (r: Result<Book>)
    requires store.Valid()
    modifies store
    ensures store.Valid()
    ensures !IsValidObjectId(id) ==> r == Failure("Error updating book: " + CastMessage("Book", id)) && store.books == old(store.books)
    ensures IsValidObjectId(id) && BookErrors(d, false, yearAtLoad) != [] ==>
              r == Failure("Error updating book: " + ValidationMessage(d, false, yearAtLoad)) &&
              store.books == old(store.books)
    ensures IsValidObjectId(id) && BookErrors(d, false, yearAtLoad) == [] && id !in old(store.books) ==>
              r == Failure("Error updating book: " + NotFoundMessage) && store.books == old(store.books)
    ensures IsValidObjectId(id) && BookErrors(d, false, yearAtLoad) == [] && id in old(store.books) ==>
              r == Success(ApplyBookUpdate(old(store.books)[id], d)) &&
              store.books == old(store.books)[id := ApplyBookUpdate(old(store.books)[id], d)]
  {
    var updated := store.FindByIdAndUpdate(id, d, yearAtLoad);
    if updated.DbError? {
      return Failure("Error updating book: " + updated.message);
    }
    if updated.value.None? {
      return Failure("Error updating book: " + NotFoundMessage);
    }
    r := Success(updated.value.value);
  }

  /** `deleteBook(id)`. */
  method DeleteBook(store: BookStore, id: string) returns (r: Result<string>)
    requires store.Valid()
    modifies store
    ensures store.Valid()
    ensures !IsValidObjectId(id) ==> r == Failure("Error deleting book: " + CastMessage("Book", id)) && store.books == old(store.books)
    ensures IsValidObjectId(id) && id !in old(store.books) ==>
              r == Failure("Error deleting book: " + NotFoundMessage) && store.books == old(store.books)
    ensures IsValidObjectId(id) && id in old(store.books) ==>
              r == Success(DeletedMessage) && store.books == old(store.books) - {id}
  {
    var deleted := store.FindByIdAndDelete(id);
    if deleted.DbError? {
      return Failure("Error deleting book: " + deleted.message);
    }
    if deleted.value.None? {
      return Failure("Error deleting book: " + NotFoundMessage);
    }
    r := Success(DeletedMessage);
  }
}
