# EBookLib in Dafny

A model of `EBookLib`, the domain library of LibraryHSE: print editions
(`Book`, `Magazine`) that validate their page count and period when
constructed; `MyLibrary`, an ordered list of editions that keeps a derived
index `FirstLettersOfTheBooks` (the first letter of each Book's name) in
lockstep with the list under `Add` and `TakeBooks`, answers page averages, and
renders itself as text; and `MyLibraryEnumerator`, the forward cursor the
library hands out for iteration.

Files, one module each:

- `wrappers.dfy` (`Wrappers`): `Option` for null references and `default`
  values, `Result` for operations that throw.
- `text.dfy` (`Text`): how an `int` is rendered by string interpolation, with
  a parser that reads it back.
- `editions.dfy` (`Editions`): `PrintEdition`, `Book` and `Magazine` as the
  datatype `Edition` with validating constructors, the `Name` setter, `Print`
  and the `ToString` texts.
- `enumerator.dfy` (`Enumeration`): `MyLibraryEnumerator` as the class
  `LibraryEnumerator`, a state machine over `index` and `current`.
- `library.dfy` (`Library`): `MyLibrary` as a class over the fields `items`
  and `firstLetters`, plus the pure functions that specify it (the index, the
  two `RemoveAll` filters, page counts and sums, averages, the text of
  `ToString`) and the lemmas about them.

Modelling choices:

- `MyLibrary<T>` is modelled at `T = PrintEdition`, the only instantiation the
  program makes.
- A C# `null` string is `None`; string interpolation prints it as the empty
  string.
- The averages are exact ratios `Ratio(sum, count)`. The source returns a
  `double`.
- The `OnTake` event is a field `takeEvents` that logs each raised
  notification's letter. The `OnPrint` event is the log `Print` extends.
- `Add` requires a Book's name to be present and non-empty. The source throws
  in that case, after the item was already appended. `AddAsWritten` models
  that failure path, and `UnindexableAddBreaksIndex` shows it leaves the index
  one entry short.
- The library treats names as fixed once an item is in it. Items are values,
  so a rename made elsewhere does not reach the library. `RenamingBreaksIndex`
  shows what the public `Name` setter would do to the index.
- `new MyLibrary(n)` with `n < 0` throws from the framework's
  `new List<T>(n)`. The constructor takes a `nat`, and `NewLibrary` models the
  throw: `new List<T>(n)` throws for a negative capacity
  (`EBookLib/MyLibrary.cs:55`), and the model follows the code.
- `Enumerable.Sum` over `int` is checked arithmetic. `ToString` therefore
  fails with `SumOverflow` when the page total exceeds `int.MaxValue`.

## Model

| member | source | states |
|---|---|---|
| `Text.NatToString` | EBookLib/PrintEdition.cs:58 | the rendering of a number is non-empty, all digits, and has no leading zero unless it is 0 |
| `Text.IntToString` | EBookLib/PrintEdition.cs:58 | a non-negative integer renders as digits only; a negative one as a minus sign followed by digits |
| `Text.IntToStringRoundTrip` | EBookLib/PrintEdition.cs:58 | parsing the rendered integer gives back exactly that integer, negative or not |
| `Editions.CheckPages` | EBookLib/PrintEdition.cs:35-46 | the `Pages` init accepts exactly the values >= 1 and otherwise raises the pages argument error |
| `Editions.CheckPeriod` | EBookLib/Magazine.cs:13-25 | the `Period` init accepts exactly the values >= 1 and otherwise raises the period argument error |
| `Editions.NewBook` | EBookLib/Book.cs:13-16 | construction fails iff pages < 1, with the pages error from the base class; otherwise the Book holds the given name, pages and author unvalidated, and is valid |
| `Editions.NewMagazine` | EBookLib/Magazine.cs:27-30 | succeeds iff pages >= 1 and period >= 1; with pages < 1 the error is the pages one, whatever the period; the fields read back as given |
| `Editions.ConstructorsReachEveryValidEdition` | EBookLib/PrintEdition.cs:18-22 | every valid edition is exactly what its constructor returns for its own fields |
| `Editions.SetName` | EBookLib/PrintEdition.cs:27-28 | the setter changes the name only: kind, pages, author and period are untouched, and validity is kept |
| `Editions.Print` | EBookLib/PrintEdition.cs:51-54 | printing leaves the edition unchanged and raises exactly one notification for it |
| `Editions.EditionTextExtendsBase` | EBookLib/Book.cs:18-21 | a Book's text is the base `name=..; pages=..` text followed by `; author=..`, and a Magazine's (EBookLib/Magazine.cs:32-35) the base text followed by `; period=..` |
| `Editions.BaseTextPagesReadBack` | EBookLib/PrintEdition.cs:56-59 | the page count reads back exactly from the base text, after `name=<name>; pages=` |
| `Enumeration.LibraryEnumerator.constructor` | EBookLib/MyLibraryEnumerator.cs:15-20 | a new cursor is over the given list, at index 0, with `current` at its default |
| `Enumeration.LibraryEnumerator.MoveNext` | EBookLib/MyLibraryEnumerator.cs:22-29 | returns true iff the index was below the list length; then `current` is the element at the old index and the index grows by one; otherwise nothing changes; the index stays within the list |
| `Enumeration.LibraryEnumerator.Reset` | EBookLib/MyLibraryEnumerator.cs:31-35 | from any state, back to index 0 with `current` at its default |
| `Enumeration.LibraryEnumerator.Current` | EBookLib/MyLibraryEnumerator.cs:37 | the default before the first element, otherwise the element just passed |
| `Enumeration.FirstAfterReset` | EBookLib/MyLibraryEnumerator.cs:22-35 | `Reset` then `MoveNext` yields the same first element as the first pass did, namely `list[0]` when the list is non-empty |
| `Library.FirstLettersAppend` | EBookLib/MyLibrary.cs:76-78 | the index of a concatenation is the concatenation of the indexes |
| `Library.LettersCountBooks` | EBookLib/MyLibrary.cs:17 | the index has exactly one entry per Book |
| `Library.TotalSplitsByKind` | EBookLib/MyLibrary.cs:91 | the page total is the Book page sum plus the Magazine page sum, and every item is one or the other |
| `Library.PagesAtLeastCount` | EBookLib/MyLibrary.cs:30-51 | over valid editions, a kind's page sum is at least its count |
| `Library.AveragePages` | EBookLib/MyLibrary.cs:30-51 | the average of a kind is 0 when there is no edition of that kind, and otherwise that kind's page sum over its count |
| `Library.MyLibrary.AverageBookPages` | EBookLib/MyLibrary.cs:30-38 | the Book average of the library's current items, as `AveragePages` defines it |
| `Library.MyLibrary.AverageMagazinePages` | EBookLib/MyLibrary.cs:43-51 | the Magazine average of the library's current items, as `AveragePages` defines it |
| `Library.AverageAtLeastOne` | EBookLib/MyLibrary.cs:30-38 | with at least one edition of the kind, the average is at least one page |
| `Library.RemoveTaken` | EBookLib/MyLibrary.cs:65 | the filter never lengthens the list |
| `Library.RemoveTakenAppend` | EBookLib/MyLibrary.cs:65 | filtering distributes over concatenation, so the kept items keep their relative order |
| `Library.RemoveTakenCounts` | EBookLib/MyLibrary.cs:65 | each Book starting with the letter is gone; every other item keeps its exact multiplicity |
| `Library.RemoveTakenMembers` | EBookLib/MyLibrary.cs:65 | an item remains iff it was there and is not a Book whose name starts with the letter |
| `Library.RemoveTakenIdempotent` | EBookLib/MyLibrary.cs:65 | a second removal with the same letter changes nothing |
| `Library.RemoveTakenKeepsMagazines` | EBookLib/MyLibrary.cs:65 | the Magazine count and Magazine page sum are unchanged by the removal |
| `Library.TakeBooksKeepsMagazineAverage` | EBookLib/MyLibrary.cs:43-51 | taking Books leaves the Magazine average unchanged |
| `Library.RemoveTakenKeepsValid` | EBookLib/MyLibrary.cs:65 | every remaining item is still valid |
| `Library.RemoveLetter` | EBookLib/MyLibrary.cs:66 | the letter filter never lengthens the index |
| `Library.RemoveLetterAppend` | EBookLib/MyLibrary.cs:66 | the letter filter distributes over concatenation, so the other letters keep their order |
| `Library.RemoveLetterCounts` | EBookLib/MyLibrary.cs:66 | every occurrence of the letter goes; every other letter keeps its multiplicity |
| `Library.RemoveLetterIdempotent` | EBookLib/MyLibrary.cs:66 | removing the same letter twice equals removing it once |
| `Library.RemoveTakenKeepsIndex` | EBookLib/MyLibrary.cs:65-66 | removing the Books that start with the letter from the items removes exactly that letter from their index: the lockstep survives `TakeBooks` |
| `Library.TakeBooksExample` | EBookLib/MyLibrary.cs:63-68 | taking 'A' from Book "Alpha", Book "Beta" and Magazine "Any" leaves Beta and the Magazine, and the index matches |
| `Library.AverageExample` | EBookLib/MyLibrary.cs:30-51 | Books of 10 and 20 pages average 30/2 = 15, and the absent Magazines average 0 |
| `Library.AddAsWritten` | EBookLib/MyLibrary.cs:74-79 | the item is appended in every case; the index gains the Book's first letter when the name is present and non-empty, and the call faults, with the index unchanged, otherwise |
| `Library.AddKeepsIndex` | EBookLib/MyLibrary.cs:76-78 | a successful `Add` keeps the index equal to the first letters of the new items |
| `Library.UnindexableAddBreaksIndex` | EBookLib/MyLibrary.cs:76-78 | adding a Book with a null or empty name faults and leaves one more Book than index entries |
| `Library.BookCountAppend` | EBookLib/MyLibrary.cs:76-77 | appending an item raises the Book count by one exactly when it is a Book |
| `Library.RenamingBreaksIndex` | EBookLib/PrintEdition.cs:28 | renaming an indexed Book from "Alpha" to "Beta" makes the index "A" stale against the items' "B" |
| `Library.ItemTexts` | EBookLib/MyLibrary.cs:92-95 | one text per item |
| `Library.JoinLinesAppend` | EBookLib/MyLibrary.cs:92-95 | the lines of a concatenation are the lines of the first part followed by those of the second |
| `Library.ItemLinesInOrder` | EBookLib/MyLibrary.cs:92-95 | the item lines of the library text follow insertion order |
| `Library.ItemTextsStep` | EBookLib/MyLibrary.cs:92-94 | the texts of one more item are the texts so far followed by that edition's text |
| `Library.JoinLinesStep` | EBookLib/MyLibrary.cs:94 | appending one text adds one line: a line break, then the text |
| `Library.LibraryTextHeader` | EBookLib/MyLibrary.cs:91 | the text starts with `Overall pages = ` and the total, which reads back as the Book plus Magazine page sums |
| `Library.MyLibrary.constructor` | EBookLib/MyLibrary.cs:53-57 | a new library has no items, an empty index and no notifications, whatever the capacity |
| `Library.NewLibrary` | EBookLib/MyLibrary.cs:53-57 | construction fails iff the capacity is negative; otherwise the library is empty and valid |
| `Library.MyLibrary.Add` | EBookLib/MyLibrary.cs:74-79 | the items become the old items plus the edition; the index gains the first letter exactly when it is a Book; the index invariant is kept; no notification |
| `Library.MyLibrary.TakeBooks` | EBookLib/MyLibrary.cs:63-68 | the items become the old items without the Books starting with the letter; the index loses every entry equal to the letter; the invariant is kept; exactly one notification carrying the letter |
| `Library.MyLibrary.GetEnumerator` | EBookLib/MyLibrary.cs:81 | a fresh, not-started cursor over the current items |
| `Library.MyLibrary.ToString` | EBookLib/MyLibrary.cs:88-98 | fails with an overflow iff the page total exceeds `int.MaxValue`; otherwise it is the total line followed by one line per item in the order the enumerator yields them |

## Left out

- Observer dispatch of `OnPrint` and `OnTake`: the model records each raised notification in a log. Calling the subscribers, in order, on the caller's thread is runtime machinery.
- `IPrinting`: the interface only declares `Print` and `OnPrint`, which `Editions.Print` models.
- `Editions.Print`: states no more than the raised notification, because subscribers are not modelled.
- Int32 range of `pages` and `period`: the constructors accept any integer. The source's parameters are 32-bit, and only the lower bound is checked.
- `double` averages and the `:f2` formatting: the model gives the exact quotient, not its floating-point rounding.
- `Library.MyLibrary.TakeBooks`: requires the library invariant. With that invariant every Book has a non-empty name. A Book with a null name would make the source's predicate throw inside `RemoveAll`, and that case is not modelled.
- Aliasing: the enumerator works on a snapshot of the item list. In the source it shares the library's list and does not detect changes to it during iteration (`EBookLib/MyLibraryEnumerator.cs:24`); such changes are not modelled.
- Characters: names and index letters are sequences of Unicode scalar values, not UTF-16 code units. The first letter of a name that begins outside the Basic Multilingual Plane (the source indexes its leading surrogate) and a surrogate argument to `TakeBooks` are not modelled.
- Aliasing of editions: a rename made through another reference after `Add` does not reach the model's items, which are values. `RenamingBreaksIndex` shows the stale index that would result.
- Capacity hints: `new List<T>(n)` and `n / 2` only preallocate. Only the negative-capacity exception is modelled.
- `Dispose` of the enumerator and the non-generic `IEnumerable.GetEnumerator`: they have no behaviour.
- JSON persistence, the console menu, random generation and the retry loop (`LibraryHSE/Program.cs`), and the menu record `Utils/MenuItem.cs`: I/O and nondeterminism outside the library.
