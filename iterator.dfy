/** The Iterator example: a book collection and an iterator that walks it by index. */
module BookIteration {
  import opened Wrappers

  datatype Book = Book(title: string, author: string)

  /** `str(book)`: "title by author". */
  function Describe(b: Book): (s: string)
  {
    b.title + " by " + b.author
  }

  /** Python list indexing: `-n <= i < n` is valid, a negative index counting from the end;
      anything else raises `IndexError`. */
  function PyIndex<T>(xs: seq<T>, i: int): (r: Result<T>)
    ensures r.Ok? <==> -|xs| <= i < |xs|
    ensures 0 <= i < |xs| ==> r == Ok(xs[i])
    ensures -|xs| <= i < 0 ==> r == Ok(xs[|xs| + i])
    ensures r.Err? ==> r.error == IndexError
  {
    if 0 <= i < |xs| then Ok(xs[i])
    else if -|xs| <= i < 0 then Ok(xs[|xs| + i])
    else Err(IndexError)
  }

  class MyBookCollection {
    var books: seq<Book>

    /** A new collection is empty. */
    constructor ()
      ensures books == []
    {
      books := [];
    }

    /** `add_book`: appends at the end. */
    method AddBook(b: Book)
      modifies this
      ensures books == old(books) + [b]
    {
      books := books + [b];
    }

    /** `__len__`. */
    function Len(): (n: nat)
      reads this
      ensures n == |books|
    {
      |books|
    }

    /** `get_book`: the book at a Python index, or `IndexError`. */
    function GetBook(i: int): (r: Result<Book>)
      reads this
      ensures r == PyIndex(books, i)
    {
      PyIndex(books, i)
    }
  }

  class BookIterator {
    const collection: MyBookCollection
    var index: nat

    /** The iterator never moves past the end of its collection, which only grows. */
    ghost predicate Valid()
      reads this, collection
    {
      index <= |collection.books|
    }

    /** A new iterator starts at the first book. */
    constructor (collection: MyBookCollection)
      ensures this.collection == collection && index == 0 && Valid()
    {
      this.collection := collection;
      index := 0;
    }

    /** `has_next`: whether a book remains. */
    function HasNext(): (b: bool)
      reads this, collection
      ensures b <==> index < |collection.books|
    {
      index < collection.Len()
    }

    /** `next`: returns the current book and moves on; past the end `get_book` raises
        `IndexError` before the index is incremented, so the iterator stays where it is. */
    method Next() returns (r: Result<Book>)
      requires Valid()
      modifies this
      ensures Valid()
      ensures old(index) < |collection.books| ==> r == Ok(collection.books[old(index)]) && index == old(index) + 1
      ensures old(index) >= |collection.books| ==> r == Err(IndexError) && index == old(index)
    {
      r := collection.GetBook(index);
      if r.Err? {
        return;
      }
      index := index + 1;
    }
  }

  /** The client loop `while it.has_next(): it.next()`: yields the remaining books in order and
      leaves the iterator at the end. */
  method Drain(it: BookIterator) returns (out: seq<Book>)
    requires it.Valid()
    modifies it
    ensures out == old(it.collection.books)[old(it.index)..]
    ensures it.index == |it.collection.books| && it.Valid()
  {
    out := [];
    ghost var start := it.index;
    while it.HasNext()
      invariant it.Valid() && start <= it.index
      invariant out == it.collection.books[start..it.index]
      decreases |it.collection.books| - it.index
    {
      var r := it.Next();
      out := out + [r.value];
    }
  }

  /** The collection tests: three books, counted and retrieved by index; `str` of each. */
  method CollectionScenario() returns (count: nat, first: string, third: string, last: Result<Book>,
                                       beyond: Result<Book>)
    ensures count == 3
    ensures first == "1984 by George Orwell"
    ensures third == "The Great Gatsby by F. Scott Fitzgerald"
    ensures last == Ok(Book("The Great Gatsby", "F. Scott Fitzgerald"))
    ensures beyond == Err(IndexError)
  {
    var c := new MyBookCollection();
    c.AddBook(Book("1984", "George Orwell"));
    c.AddBook(Book("To Kill a Mockingbird", "Harper Lee"));
    c.AddBook(Book("The Great Gatsby", "F. Scott Fitzgerald"));
    count := c.Len();
    first := Describe(c.GetBook(0).value);
    third := Describe(c.GetBook(2).value);
    last := c.GetBook(-1);
    beyond := c.GetBook(3);
  }

  /** Iterating the collection yields its books in insertion order, after which `next` raises. */
  method IterationScenario() returns (out: seq<Book>, after: Result<Book>)
    ensures out == [Book("1984", "George Orwell"), Book("To Kill a Mockingbird", "Harper Lee")]
    ensures after == Err(IndexError)
  {
    var c := new MyBookCollection();
    c.AddBook(Book("1984", "George Orwell"));
    c.AddBook(Book("To Kill a Mockingbird", "Harper Lee"));
    var it := new BookIterator(c);
    out := Drain(it);
    after := it.Next();
  }
}
