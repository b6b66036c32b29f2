/** The books of the JSON-file version (modules/books/models/booksModel.js).
    The file `data/books.json` is the state; every call reads it, changes the
    array and writes it back, and a failed write leaves it as it was. The id
    of a new book is computed by the same expression as `generateNewId`. */
module BooksFile {
  import opened Wrappers
  import opened Json
  import opened DataHelpers
  import opened RecordArrays

  /** `getBookByID(id)`: the first book whose `id` is the number `id`. */
  function GetBookById(books: seq<Object>, id: int): (r: Option<Object>)
    ensures r.None? <==> forall j :: 0 <= j < |books| ==> !FieldIs(books[j], "id", Num(id as real))
    ensures r.Some? ==> r.value in books && FieldIs(r.value, "id", Num(id as real))
    ensures r.Some? ==> exists i :: 0 <= i < |books| && books[i] == r.value &&
                                    forall j :: 0 <= j < i ==> !FieldIs(books[j], "id", Num(id as real))
  {
    FindFirst(books, "id", Num(id as real))
  }

  /** `{id: newId, ...bookData}`: exactly the submitted properties plus
      `id`; an `id` in the submitted data wins over the generated one, which
      then need not be fresh. */
  function NewBook(books: seq<Object>, bookData: Object): (b: Object)
    ensures b.Keys == bookData.Keys + {"id"}
    ensures forall k :: k in bookData ==> b[k] == bookData[k]
    ensures b["id"] == (if "id" in bookData then bookData["id"] else IdValue(NewId(books)))
  {
    Spread(map["id" := IdValue(NewId(books))], bookData)
  }

  /** `{id: parseInt(id), ...bookData}`: the update replaces the whole
      book, so every property the new data does not repeat is dropped; an
      `id` inside the data replaces the one taken from the path. */
  function ReplacedBook(id: int, bookData: Object): (b: Object)
    ensures b.Keys == bookData.Keys + {"id"}
    ensures forall k :: k in bookData ==> b[k] == bookData[k]
    ensures b["id"] == (if "id" in bookData then bookData["id"] else Num(id as real))
  {
    Spread(map["id" := Num(id as real)], bookData)
  }

  /** Unless the data carries its own `id`, a new book's id is numeric
      (when every stored id is) and clashes with no stored book. */
  lemma NewBookIdFresh(books: seq<Object>, bookData: Object, j: nat)
    requires "id" !in bookData && NewId(books).Some? && j < |books|
    ensures !FieldIs(books[j], "id", NewBook(books, bookData)["id"])
  {
    NewIdIsFresh(books, j);
  }

  class BooksStore {
    var books: seq<Object>

    constructor (books: seq<Object>)
      ensures this.books == books
    {
      this.books := books;
    }

    /** `addNewBook(bookData)`. */
    method AddNewBook(bookData: Object, writeOk: bool) returns (r: Option<Object>)
      modifies this
      ensures var b := NewBook(old(books), bookData);
              r == (if writeOk then Some(b) else None) &&
              books == if writeOk then old(books) + [b] else old(books)
    {
      var list := books;
      var newId := if |list| > 0 then (var m := MaxId(list); if m.Some? then Some(m.value + 1.0) else None) else Some(1.0);
      var newBook := Spread(map["id" := IdValue(newId)], bookData);
      list := list + [newBook];
      if writeOk {
        books := list;
        r := Some(newBook);
      } else {
        r := None;
      }
    }

    /** `updateExistingBook(id, bookData)`: replace the first book with
        this id, in place. */
    method UpdateExistingBook(id: int, bookData: Object, writeOk: bool) returns (r: Option<Object>)
      modifies this
      ensures var i := IndexOfFirst(old(books), "id", Num(id as real));
              if i == -1 then r.None? && books == old(books)
              else
                var b := ReplacedBook(id, bookData);
                r == (if writeOk then Some(b) else None) &&
                books == if writeOk then old(books)[i := b] else old(books)
    {
      var list := books;
      var bookIndex := IndexOfFirst(list, "id", Num(id as real));
      if bookIndex == -1 {
        return None;
      }
      var updatedBook := Spread(map["id" := Num(id as real)], bookData);
      list := list[bookIndex := updatedBook];
      if writeOk {
        books := list;
        r := Some(updatedBook);
      } else {
        r := None;
      }
    }

    /** `deleteBook(id)`: remove the first book with this id. */
    method DeleteBook(id: int, writeOk: bool) returns (deleted: bool)
      modifies this
      ensures var i := IndexOfFirst(old(books), "id", Num(id as real));
              if i == -1 then !deleted && books == old(books)
              else deleted == writeOk && books == if writeOk then RemoveAt(old(books), i) else old(books)
    {
      var list := books;
      var bookIndex := IndexOfFirst(list, "id", Num(id as real));
      if bookIndex == -1 {
        return false;
      }
      list := list[..bookIndex] + list[bookIndex + 1..];
      if writeOk {
        books := list;
      }
      deleted := writeOk;
    }
  }
}
