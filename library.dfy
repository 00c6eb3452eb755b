/**
 * `MyLibrary<T>`: an ordered list of print editions together with a derived
 * index, `FirstLettersOfTheBooks`, holding the first character of each Book's
 * name in the order the Books appear. The library is modelled at the one
 * instantiation the program uses, `T = PrintEdition` (here `Edition`).
 *
 * The pure part (the index, the filters behind `TakeBooks`, the page
 * aggregates and the text of `ToString`) is a set of functions over
 * sequences; the class keeps the two lists as fields that `Add` and
 * `TakeBooks` update, and its invariant `Valid` says the index is in lockstep
 * with the items.
 */
module Library {
  import opened Wrappers
  import opened Text
  import opened Editions
  import opened Enumeration

  /** `int.MaxValue`: `Enumerable.Sum` over `int` throws past it. */
  const IntMax: int := 0x7fff_ffff

  /** Exceptions raised by the library's own operations. */
  datatype LibraryError =
    | CapacityOutOfRange  // `new List<T>(n)` with a negative capacity
    | SumOverflow         // the checked page total exceeds `int.MaxValue`

  /** Exceptions `Add` raises while indexing a Book after appending it. */
  datatype AddFault =
    | NullName    // `Name!` is null: NullReferenceException
    | EmptyName   // `Name[0]` on "": IndexOutOfRangeException

  // ---------------------------------------------------------------------
  // The letter index

  /** A Book can be indexed: its name is present and non-empty. */
  predicate Indexable(e: Edition) {
    e.Book? ==> e.name.Some? && |e.name.value| > 0
  }

  predicate AllIndexable(s: seq<Edition>) {
    forall i :: 0 <= i < |s| ==> Indexable(s[i])
  }

  predicate AllValid(s: seq<Edition>) {
    forall i :: 0 <= i < |s| ==> s[i].Valid()
  }

  /** The index entry an edition contributes: its first letter for a Book, nothing otherwise. */
  function LetterOf(e: Edition): seq<char>
    requires Indexable(e)
  {
    if e.Book? then [e.name.value[0]] else []
  }

  /** The index as it should be: the first letter of each Book of `s`, in order. */
  function FirstLetters(s: seq<Edition>): seq<char>
    requires AllIndexable(s)
  {
    if s == [] then [] else LetterOf(s[0]) + FirstLetters(s[1..])
  }

  lemma {:induction false} FirstLettersAppend(a: seq<Edition>, b: seq<Edition>)
    requires AllIndexable(a) && AllIndexable(b)
    ensures AllIndexable(a + b)
    ensures FirstLetters(a + b) == FirstLetters(a) + FirstLetters(b)
    decreases |a|
  {
    if a != [] {
      assert (a + b)[0] == a[0] && (a + b)[1..] == a[1..] + b;
      FirstLettersAppend(a[1..], b);
      calc {
        FirstLetters(a + b);
        LetterOf(a[0]) + FirstLetters(a[1..] + b);
        LetterOf(a[0]) + (FirstLetters(a[1..]) + FirstLetters(b));
        (LetterOf(a[0]) + FirstLetters(a[1..])) + FirstLetters(b);
      }
    } else {
      assert a + b == b;
    }
  }

  // ---------------------------------------------------------------------
  // Counting and summing pages by kind

  datatype Kind = BookKind | MagazineKind

  predicate OfKind(e: Edition, k: Kind) {
    match k
    case BookKind => e.Book?
    case MagazineKind => e.Magazine?
  }

  /** How many editions of kind `k` are in `s`. */
  function KindCount(s: seq<Edition>, k: Kind): nat {
    if s == [] then 0 else (if OfKind(s[0], k) then 1 else 0) + KindCount(s[1..], k)
  }

  /** The sum of `Pages` over the editions of kind `k` in `s`. */
  function KindPages(s: seq<Edition>, k: Kind): int {
    if s == [] then 0 else (if OfKind(s[0], k) then s[0].pages else 0) + KindPages(s[1..], k)
  }

  /** `this.Sum(edition => edition.Pages)`: the sum of `Pages` over every item. */
  function TotalPages(s: seq<Edition>): int {
    if s == [] then 0 else s[0].pages + TotalPages(s[1..])
  }

  /** The index has exactly one entry per Book. */
  lemma {:induction false} LettersCountBooks(s: seq<Edition>)
    requires AllIndexable(s)
    ensures |FirstLetters(s)| == KindCount(s, BookKind)
    decreases |s|
  {
    if s != [] {
      LettersCountBooks(s[1..]);
    }
  }

  /** Every item is a Book or a Magazine, so the total splits into the two kinds' sums. */
  lemma {:induction false} TotalSplitsByKind(s: seq<Edition>)
    ensures TotalPages(s) == KindPages(s, BookKind) + KindPages(s, MagazineKind)
    ensures |s| == KindCount(s, BookKind) + KindCount(s, MagazineKind)
    decreases |s|
  {
    if s != [] {
      TotalSplitsByKind(s[1..]);
    }
  }

  /** Every valid edition has at least one page, so a kind's pages are at least its count. */
  lemma {:induction false} PagesAtLeastCount(s: seq<Edition>, k: Kind)
    requires AllValid(s)
    ensures KindPages(s, k) >= KindCount(s, k)
    decreases |s|
  {
    if s != [] {
      assert s[0].Valid();
      PagesAtLeastCount(s[1..], k);
    }
  }

  // ---------------------------------------------------------------------
  // Averages, as exact ratios

  /** An exact quotient `num / den`, standing for the `double` the source returns. */
  datatype Ratio = Ratio(num: int, den: int)

  /**
   * `AverageBookPages` / `AverageMagazinePages`: 0 when there is no edition of
   * that kind, otherwise the kind's page sum over its count.
   */
  function AveragePages(s: seq<Edition>, k: Kind): (r: Ratio)
    ensures r.den >= 1
    ensures KindCount(s, k) == 0 ==> r.num == 0
    ensures KindCount(s, k) > 0 ==> r.num == KindPages(s, k) && r.den == KindCount(s, k)
  {
    if KindCount(s, k) == 0 then Ratio(0, 1) else Ratio(KindPages(s, k), KindCount(s, k))
  }

  /** With at least one edition of the kind, the average is at least one page. */
  lemma AverageAtLeastOne(s: seq<Edition>, k: Kind)
    requires AllValid(s) && KindCount(s, k) > 0
    ensures AveragePages(s, k).num >= AveragePages(s, k).den
  {
    PagesAtLeastCount(s, k);
  }

  // ---------------------------------------------------------------------
  // The filters behind `TakeBooks`

  /** `edition is Book && edition.Name!.StartsWith(start)`. */
  predicate TakenBy(e: Edition, c: char) {
    e.Book? && e.name.Some? && |e.name.value| > 0 && e.name.value[0] == c
  }

  /** `Library.RemoveAll(edition => TakenBy(edition, c))`. */
  function RemoveTaken(s: seq<Edition>, c: char): (r: seq<Edition>)
    ensures |r| <= |s|
  {
    if s == [] then []
    else (if TakenBy(s[0], c) then [] else [s[0]]) + RemoveTaken(s[1..], c)
  }

  /** `FirstLettersOfTheBooks.RemoveAll(ch => ch == c)`. */
  function RemoveLetter(l: seq<char>, c: char): (r: seq<char>)
    ensures |r| <= |l|
  {
    if l == [] then []
    else (if l[0] == c then [] else [l[0]]) + RemoveLetter(l[1..], c)
  }

  /** Filtering a concatenation filters each part: the kept items keep their order. */
  lemma {:induction false} RemoveTakenAppend(a: seq<Edition>, b: seq<Edition>, c: char)
    ensures RemoveTaken(a + b, c) == RemoveTaken(a, c) + RemoveTaken(b, c)
    decreases |a|
  {
    if a != [] {
      assert (a + b)[0] == a[0] && (a + b)[1..] == a[1..] + b;
      RemoveTakenAppend(a[1..], b, c);
      var head := if TakenBy(a[0], c) then [] else [a[0]];
      calc {
        RemoveTaken(a + b, c);
        head + RemoveTaken(a[1..] + b, c);
        head + (RemoveTaken(a[1..], c) + RemoveTaken(b, c));
        (head + RemoveTaken(a[1..], c)) + RemoveTaken(b, c);
      }
    } else {
      assert a + b == b;
    }
  }

  /** Exactly the taken Books disappear; every other item keeps its multiplicity. */
  lemma {:induction false} RemoveTakenCounts(s: seq<Edition>, c: char, e: Edition)
    ensures multiset(RemoveTaken(s, c))[e] == if TakenBy(e, c) then 0 else multiset(s)[e]
    decreases |s|
  {
    if s != [] {
      RemoveTakenCounts(s[1..], c, e);
      assert s == [s[0]] + s[1..];
    }
  }

  /** Kept items are exactly the items of `s` that are not taken. */
  lemma RemoveTakenMembers(s: seq<Edition>, c: char, e: Edition)
    ensures e in RemoveTaken(s, c) <==> e in s && !TakenBy(e, c)
  {
    RemoveTakenCounts(s, c, e);
  }

  /** A second removal with the same letter removes nothing more. */
  lemma {:induction false} RemoveTakenIdempotent(s: seq<Edition>, c: char)
    ensures RemoveTaken(RemoveTaken(s, c), c) == RemoveTaken(s, c)
    decreases |s|
  {
    if s != [] {
      RemoveTakenIdempotent(s[1..], c);
      var head := if TakenBy(s[0], c) then [] else [s[0]];
      RemoveTakenAppend(head, RemoveTaken(s[1..], c), c);
    }
  }

  /** Taking Books leaves every Magazine, so the Magazine count and pages are unchanged. */
  lemma {:induction false} RemoveTakenKeepsMagazines(s: seq<Edition>, c: char)
    ensures KindCount(RemoveTaken(s, c), MagazineKind) == KindCount(s, MagazineKind)
    ensures KindPages(RemoveTaken(s, c), MagazineKind) == KindPages(s, MagazineKind)
    decreases |s|
  {
    if s != [] {
      RemoveTakenKeepsMagazines(s[1..], c);
      var rest := RemoveTaken(s[1..], c);
      if TakenBy(s[0], c) {
        assert RemoveTaken(s, c) == rest;
      } else {
        var r := RemoveTaken(s, c);
        assert r == [s[0]] + rest;
        assert r[0] == s[0] && r[1..] == rest;
      }
    }
  }

  /** `TakeBooks` does not change the Magazine average. */
  lemma TakeBooksKeepsMagazineAverage(s: seq<Edition>, c: char)
    ensures AveragePages(RemoveTaken(s, c), MagazineKind) == AveragePages(s, MagazineKind)
  {
    RemoveTakenKeepsMagazines(s, c);
  }

  lemma {:induction false} RemoveLetterAppend(a: seq<char>, b: seq<char>, c: char)
    ensures RemoveLetter(a + b, c) == RemoveLetter(a, c) + RemoveLetter(b, c)
    decreases |a|
  {
    if a != [] {
      assert (a + b)[0] == a[0] && (a + b)[1..] == a[1..] + b;
      RemoveLetterAppend(a[1..], b, c);
      var head := if a[0] == c then [] else [a[0]];
      calc {
        RemoveLetter(a + b, c);
        head + RemoveLetter(a[1..] + b, c);
        head + (RemoveLetter(a[1..], c) + RemoveLetter(b, c));
        (head + RemoveLetter(a[1..], c)) + RemoveLetter(b, c);
      }
    } else {
      assert a + b == b;
    }
  }

  /** Every occurrence of `c` goes; every other letter keeps its multiplicity. */
  lemma {:induction false} RemoveLetterCounts(l: seq<char>, c: char, x: char)
    ensures multiset(RemoveLetter(l, c))[x] == if x == c then 0 else multiset(l)[x]
    decreases |l|
  {
    if l != [] {
      RemoveLetterCounts(l[1..], c, x);
      assert l == [l[0]] + l[1..];
    }
  }

  /** Removing the same letter twice is the same as removing it once. */
  lemma {:induction false} RemoveLetterIdempotent(l: seq<char>, c: char)
    ensures RemoveLetter(RemoveLetter(l, c), c) == RemoveLetter(l, c)
    decreases |l|
  {
    if l != [] {
      RemoveLetterIdempotent(l[1..], c);
      var head := if l[0] == c then [] else [l[0]];
      RemoveLetterAppend(head, RemoveLetter(l[1..], c), c);
    }
  }

  /**
   * The lockstep property of `TakeBooks`: removing the Books that start with
   * `c` from the items removes exactly the entries `c` from their index.
   */
  lemma {:induction false} RemoveTakenKeepsIndex(s: seq<Edition>, c: char)
    requires AllIndexable(s)
    ensures AllIndexable(RemoveTaken(s, c))
    ensures FirstLetters(RemoveTaken(s, c)) == RemoveLetter(FirstLetters(s), c)
    decreases |s|
  {
    if s != [] {
      RemoveTakenKeepsIndex(s[1..], c);
      var head := if TakenBy(s[0], c) then [] else [s[0]];
      var rest := RemoveTaken(s[1..], c);
      assert RemoveTaken(s, c) == head + rest;
      assert AllIndexable(head);
      FirstLettersAppend(head, rest);
      RemoveLetterAppend(LetterOf(s[0]), FirstLetters(s[1..]), c);
      if head != [] {
        assert head == [s[0]] && FirstLetters(head) == LetterOf(s[0]);
      }
    }
  }

  /** Taking keeps every remaining item valid. */
  lemma RemoveTakenKeepsValid(s: seq<Edition>, c: char)
    requires AllValid(s)
    ensures AllValid(RemoveTaken(s, c))
  {
    forall i | 0 <= i < |RemoveTaken(s, c)|
      ensures RemoveTaken(s, c)[i].Valid()
    {
      RemoveTakenMembers(s, c, RemoveTaken(s, c)[i]);
    }
  }

  /**
   * Taking 'A' from a Book "Alpha", a Book "Beta" and a Magazine "Any" takes
   * only "Alpha": the Magazine stays although its name starts with 'A'.
   */
  lemma TakeBooksExample()
    ensures var alpha := Book(Some("Alpha"), 5, None);
      var beta := Book(Some("Beta"), 5, None);
      var any := Magazine(Some("Any"), 5, 2);
      RemoveTaken([alpha, beta, any], 'A') == [beta, any] &&
      RemoveLetter(FirstLetters([alpha, beta, any]), 'A') == FirstLetters([beta, any])
  {
    var alpha := Book(Some("Alpha"), 5, None);
    var beta := Book(Some("Beta"), 5, None);
    var any := Magazine(Some("Any"), 5, 2);
    var s := [alpha, beta, any];
    assert TakenBy(alpha, 'A') && !TakenBy(beta, 'A') && !TakenBy(any, 'A');
    assert s[1..] == [beta, any] && s[1..][1..] == [any] && [any][1..] == [];
    assert RemoveTaken([any], 'A') == [any];
    assert RemoveTaken([beta, any], 'A') == [beta, any];
    assert FirstLetters([any]) == [];
    assert FirstLetters([beta, any]) == "B";
    assert FirstLetters(s) == "AB";
    assert "AB"[1..] == "B" && "B"[1..] == [];
  }

  /** Two Books of 10 and 20 pages average 15 pages; with no Magazine that average is 0. */
  lemma AverageExample()
    ensures var s := [Book(None, 10, None), Book(None, 20, None)];
      AveragePages(s, BookKind) == Ratio(30, 2) && AveragePages(s, MagazineKind) == Ratio(0, 1)
  {
  }

  // ---------------------------------------------------------------------
  // `Add` as written, including its failure path

  /**
   * `Add` as the source writes it: the item is appended first, then a Book's
   * name is indexed; a null or empty name throws after the append, leaving
   * the item in the list with no index entry.
   */
  function AddAsWritten(items: seq<Edition>, letters: seq<char>, e: Edition)
    : (r: (seq<Edition>, seq<char>, Option<AddFault>))
    ensures r.0 == items + [e]
    ensures r.2.None? <==> Indexable(e)
    ensures r.2.None? ==> r.1 == letters + LetterOf(e)
    ensures r.2.Some? ==> r.1 == letters
  {
    if !e.Book? then (items + [e], letters, None)
    else if e.name.None? then (items + [e], letters, Some(NullName))
    else if |e.name.value| == 0 then (items + [e], letters, Some(EmptyName))
    else (items + [e], letters + [e.name.value[0]], None)
  }

  /** A successful `Add` keeps the index in lockstep with the items. */
  lemma AddKeepsIndex(items: seq<Edition>, e: Edition)
    requires AllIndexable(items) && Indexable(e)
    ensures var r := AddAsWritten(items, FirstLetters(items), e);
      AllIndexable(r.0) && r.1 == FirstLetters(r.0)
  {
    FirstLettersAppend(items, [e]);
  }

  /**
   * Adding a Book whose name is null or empty leaves the index one entry
   * short: the list holds one more Book than the index has letters.
   */
  lemma UnindexableAddBreaksIndex(items: seq<Edition>, e: Edition)
    requires AllIndexable(items) && !Indexable(e)
    ensures var r := AddAsWritten(items, FirstLetters(items), e);
      r.2.Some? && KindCount(r.0, BookKind) == |r.1| + 1
  {
    LettersCountBooks(items);
    BookCountAppend(items, e);
  }

  lemma {:induction false} BookCountAppend(s: seq<Edition>, e: Edition)
    ensures KindCount(s + [e], BookKind) == KindCount(s, BookKind) + (if e.Book? then 1 else 0)
    decreases |s|
  {
    if s != [] {
      assert (s + [e])[1..] == s[1..] + [e];
      BookCountAppend(s[1..], e);
    }
  }

  /**
   * The name setter is public, so renaming a Book already in the library
   * leaves a stale index entry: the index no longer matches the items.
   */
  lemma RenamingBreaksIndex()
    ensures var before := [Book(Some("Alpha"), 5, None)];
      var after := [SetName(before[0], Some("Beta"))];
      AllIndexable(after) && FirstLetters(before) == "A" && FirstLetters(after) == "B"
  {
  }

  // ---------------------------------------------------------------------
  // The text of `ToString`

  /** The texts of the items, in insertion order. */
  function ItemTexts(s: seq<Edition>): (r: seq<string>)
    ensures |r| == |s|
    decreases |s|
  {
    if s == [] then [] else ItemTexts(s[..|s| - 1]) + [EditionText(s[|s| - 1])]
  }

  /** Each text on a line of its own: a line break before each one. */
  function JoinLines(ts: seq<string>): string
    decreases |ts|
  {
    if ts == [] then "" else JoinLines(ts[..|ts| - 1]) + "\n" + ts[|ts| - 1]
  }

  /** `Overall pages = <total>` followed by one line per item. */
  function LibraryText(s: seq<Edition>): string {
    "Overall pages = " + IntToString(TotalPages(s)) + JoinLines(ItemTexts(s))
  }

  /** The lines of a concatenation are the lines of its parts, in order. */
  lemma {:induction false} JoinLinesAppend(a: seq<string>, b: seq<string>)
    ensures JoinLines(a + b) == JoinLines(a) + JoinLines(b)
    decreases |b|
  {
    if b != [] {
      var ab := a + b;
      var b', last := b[..|b| - 1], b[|b| - 1];
      assert ab[..|ab| - 1] == a + b';
      assert ab[|ab| - 1] == last;
      JoinLinesAppend(a, b');
    } else {
      assert a + b == a;
    }
  }

  lemma {:induction false} ItemTextsAppend(a: seq<Edition>, b: seq<Edition>)
    ensures ItemTexts(a + b) == ItemTexts(a) + ItemTexts(b)
    decreases |b|
  {
    if b != [] {
      var ab := a + b;
      var b', last := b[..|b| - 1], b[|b| - 1];
      assert ab[..|ab| - 1] == a + b';
      assert ab[|ab| - 1] == last;
      ItemTextsAppend(a, b');
    } else {
      assert a + b == a;
    }
  }

  /** The item lines follow insertion order: the text of `a + b` lists `a`'s items, then `b`'s. */
  lemma ItemLinesInOrder(a: seq<Edition>, b: seq<Edition>)
    ensures JoinLines(ItemTexts(a + b)) == JoinLines(ItemTexts(a)) + JoinLines(ItemTexts(b))
  {
    ItemTextsAppend(a, b);
    JoinLinesAppend(ItemTexts(a), ItemTexts(b));
  }

  /** Writing one more item adds its text as one more line after the lines so far. */
  lemma {:induction false} ItemTextsStep(s: seq<Edition>, k: nat)
    requires k < |s|
    ensures ItemTexts(s[..k + 1]) == ItemTexts(s[..k]) + [EditionText(s[k])]
  {
    var p := s[..k + 1];
    assert p[..|p| - 1] == s[..k] && p[|p| - 1] == s[k];
  }

  lemma JoinLinesStep(header: string, ts: seq<string>, t: string)
    ensures header + JoinLines(ts + [t]) == header + JoinLines(ts) + "\n" + t
  {
    var p := ts + [t];
    assert p[..|p| - 1] == ts && p[|p| - 1] == t;
  }

  /** The header line reports the total, which the two kinds' page sums make up. */
  lemma LibraryTextHeader(s: seq<Edition>)
    ensures var head := "Overall pages = " + IntToString(TotalPages(s));
      head <= LibraryText(s) &&
      ParseInt(head[16..]) == Some(KindPages(s, BookKind) + KindPages(s, MagazineKind))
  {
    var head := "Overall pages = " + IntToString(TotalPages(s));
    assert head[16..] == IntToString(TotalPages(s));
    IntToStringRoundTrip(TotalPages(s));
    TotalSplitsByKind(s);
  }

  // ---------------------------------------------------------------------
  // The library object

  class MyLibrary {
    /** `Library`: the editions, in insertion order. */
    var items: seq<Edition>
    /** `FirstLettersOfTheBooks`: the derived index. */
    var firstLetters: seq<char>
    /** The `OnTake` notifications raised so far, each carrying its letter. */
    var takeEvents: seq<char>

    /** Every item is valid, every Book is indexable, and the index matches the items. */
    ghost predicate Valid()
      reads this
    {
      AllValid(items) && AllIndexable(items) && firstLetters == FirstLetters(items)
    }

    /** `new MyLibrary(n)`: the capacity is only a preallocation hint. */
    constructor (capacity: nat)
      ensures Valid()
      ensures items == [] && firstLetters == [] && takeEvents == []
    {
      items := [];
      firstLetters := [];
      takeEvents := [];
    }

    /** Appends the edition, and a Book's first letter to the index. */
    method Add(e: Edition)
      requires Valid()
      requires e.Valid() && Indexable(e)
      modifies this
      ensures Valid()
      ensures items == old(items) + [e]
      ensures firstLetters == old(firstLetters) + LetterOf(e)
      ensures (items, firstLetters, None) == AddAsWritten(old(items), old(firstLetters), e)
      ensures takeEvents == old(takeEvents)
    {
      FirstLettersAppend(items, [e]);
      items := items + [e];
      if e.Book? {
        firstLetters := firstLetters + [e.name.value[0]];
      }
    }

    /**
     * Removes every Book whose name starts with `c` and every `c` from the
     * index, then raises one `OnTake` notification carrying `c`.
     */
    method TakeBooks(c: char)
      requires Valid()
      modifies this
      ensures Valid()
      ensures items == RemoveTaken(old(items), c)
      ensures firstLetters == RemoveLetter(old(firstLetters), c)
      ensures takeEvents == old(takeEvents) + [c]
    {
      RemoveTakenKeepsIndex(items, c);
      RemoveTakenKeepsValid(items, c);
      items := RemoveTaken(items, c);
      firstLetters := RemoveLetter(firstLetters, c);
      takeEvents := takeEvents + [c];
    }

    function AverageBookPages(): (r: Ratio)
      reads this
      ensures r == AveragePages(items, BookKind)
    {
      AveragePages(items, BookKind)
    }

    function AverageMagazinePages(): (r: Ratio)
      reads this
      ensures r == AveragePages(items, MagazineKind)
    {
      AveragePages(items, MagazineKind)
    }

    /** `GetEnumerator`: a fresh cursor, not started, over the items. */
    method GetEnumerator() returns (en: LibraryEnumerator<Edition>)
      ensures fresh(en) && en.Valid()
      ensures en.list == items && en.index == 0 && en.current == None
    {
      en := new LibraryEnumerator(items);
    }

    /**
     * `ToString`: the checked page total first (throwing past `int.MaxValue`),
     * then one line per edition as the enumerator yields them.
     */
    method ToString() returns (r: Result<string, LibraryError>)
      requires Valid()
      ensures r.Failure? <==> TotalPages(items) > IntMax
      ensures r.Failure? ==> r.error == SumOverflow
      ensures r.Success? ==> r.value == LibraryText(items)
    {
      var total := TotalPages(items);
      if total > IntMax {
        return Failure(SumOverflow);
      }
      var header := "Overall pages = " + IntToString(total);
      var sb := header;
      var en := GetEnumerator();
      var more := en.MoveNext();
      ghost var done: nat := 0;
      while more
        invariant en.Valid() && en.list == items
        invariant done <= |items|
        invariant more ==> en.index == done + 1 && en.current == Some(items[done])
        invariant !more ==> en.index == done == |items|
        invariant sb == header + JoinLines(ItemTexts(items[..done]))
        decreases |items| - done
      {
        var edition := en.Current().value;
        ItemTextsStep(items, done);
        JoinLinesStep(header, ItemTexts(items[..done]), EditionText(edition));
        sb := sb + "\n" + EditionText(edition);
        done := done + 1;
        more := en.MoveNext();
      }
      assert items[..done] == items;
      return Success(sb);
    }
  }

  /** `new MyLibrary(n)` including the framework's rejection of a negative capacity. */
  method NewLibrary(n: int) returns (r: Result<MyLibrary, LibraryError>)
    ensures r.Failure? <==> n < 0
    ensures r.Failure? ==> r.error == CapacityOutOfRange
    ensures r.Success? ==> fresh(r.value) && r.value.Valid()
    ensures r.Success? ==> r.value.items == [] && r.value.firstLetters == [] && r.value.takeEvents == []
  {
    if n < 0 {
      return Failure(CapacityOutOfRange);
    }
    var lib := new MyLibrary(n);
    return Success(lib);
  }
}
