/**
 * Print editions: the abstract `PrintEdition` with its two concrete kinds,
 * `Book` (adds an author) and `Magazine` (adds a publication period).
 * An edition is a value; the only way the library builds one is through the
 * validating constructors `NewBook` and `NewMagazine`, which fail instead of
 * producing an edition with a page count (or period) below 1.
 */
module Editions {
  import opened Wrappers
  import opened Text

  /** The `ArgumentException`s raised by the validating `init` accessors. */
  datatype Error = PagesOutOfRange | PeriodOutOfRange

  /** A `PrintEdition` is either a `Book` or a `Magazine`; `name` and `author` may be null. */
  datatype Edition =
    | Book(name: Option<string>, pages: int, author: Option<string>)
    | Magazine(name: Option<string>, pages: int, period: int)
  {
    /** What construction guarantees of every edition that exists. */
    predicate Valid() {
      pages >= 1 && (Magazine? ==> period >= 1)
    }
  }

  /** The `Pages` init accessor: rejects values below 1. */
  function CheckPages(pages: int): (r: Option<Error>)
    ensures r.None? <==> pages >= 1
    ensures r.Some? ==> r.value == PagesOutOfRange
  {
    if pages < 1 then Some(PagesOutOfRange) else None
  }

  /** The `Period` init accessor: rejects values below 1. */
  function CheckPeriod(period: int): (r: Option<Error>)
    ensures r.None? <==> period >= 1
    ensures r.Some? ==> r.value == PeriodOutOfRange
  {
    if period < 1 then Some(PeriodOutOfRange) else None
  }

  /** `new Book(name, pages, author)`: only the inherited page check; the author is not validated. */
  function NewBook(name: Option<string>, pages: int, author: Option<string>): (r: Result<Edition, Error>)
    ensures r.Failure? <==> pages < 1
    ensures r.Failure? ==> r.error == PagesOutOfRange
    ensures r.Success? ==> r.value.Book? && r.value.Valid()
    ensures r.Success? ==> r.value.name == name && r.value.pages == pages && r.value.author == author
  {
    match CheckPages(pages)
    case Some(err) => Failure(err)
    case None => Success(Book(name, pages, author))
  }

  /**
   * `new Magazine(name, pages, period)`: the base constructor runs first, so
   * the page check precedes the period check.
   */
  function NewMagazine(name: Option<string>, pages: int, period: int): (r: Result<Edition, Error>)
    ensures r.Success? <==> pages >= 1 && period >= 1
    ensures pages < 1 ==> r == Failure(PagesOutOfRange)
    ensures pages >= 1 && period < 1 ==> r == Failure(PeriodOutOfRange)
    ensures r.Success? ==> r.value.Magazine? && r.value.Valid()
    ensures r.Success? ==> r.value.name == name && r.value.pages == pages && r.value.period == period
  {
    match CheckPages(pages)
    case Some(err) => Failure(err)
    case None =>
      match CheckPeriod(period)
      case Some(err) => Failure(err)
      case None => Success(Magazine(name, pages, period))
  }

  /** Every valid edition is exactly what its constructor builds from its own fields. */
  lemma ConstructorsReachEveryValidEdition(e: Edition)
    requires e.Valid()
    ensures e.Book? ==> NewBook(e.name, e.pages, e.author) == Success(e)
    ensures e.Magazine? ==> NewMagazine(e.name, e.pages, e.period) == Success(e)
  {
  }

  /** The `Name` setter: only the name changes; the validated fields are untouched. */
  function SetName(e: Edition, name: Option<string>): (r: Edition)
    ensures r.name == name && r.pages == e.pages
    ensures r.Book? == e.Book?
    ensures r.Book? ==> r.author == e.author
    ensures r.Magazine? ==> r.period == e.period
    ensures r.Valid() == e.Valid()
  {
    e.(name := name)
  }

  /**
   * `Print`: raises `OnPrint` and changes no field. The notifications raised
   * so far are a log of the editions that were printed.
   */
  function Print(e: Edition, raised: seq<Edition>): (r: (Edition, seq<Edition>))
    ensures r.0 == e
    ensures |r.1| == |raised| + 1 && r.1[..|raised|] == raised && r.1[|raised|] == e
  {
    (e, raised + [e])
  }

  /** A null string interpolates as the empty string. */
  function NameText(s: Option<string>): string {
    match s
    case None => ""
    case Some(v) => v
  }

  /** `PrintEdition.ToString`: `name=<name>; pages=<pages>`. */
  function BaseText(e: Edition): string {
    "name=" + NameText(e.name) + "; pages=" + IntToString(e.pages)
  }

  /** What each kind's `ToString` adds after the base text. */
  function KindText(e: Edition): string {
    match e
    case Book(_, _, author) => "; author=" + NameText(author)
    case Magazine(_, _, period) => "; period=" + IntToString(period)
  }

  /** The overriding `ToString` of `Book` and `Magazine`. */
  function EditionText(e: Edition): string {
    BaseText(e) + KindText(e)
  }

  /** Each kind's text is the base text followed by its own field. */
  lemma EditionTextExtendsBase(e: Edition)
    ensures BaseText(e) <= EditionText(e)
    ensures e.Book? ==> EditionText(e)[|BaseText(e)|..] == "; author=" + NameText(e.author)
    ensures e.Magazine? ==> EditionText(e)[|BaseText(e)|..] == "; period=" + IntToString(e.period)
  {
    var base, rest := BaseText(e), KindText(e);
    assert (base + rest)[..|base|] == base;
    assert (base + rest)[|base|..] == rest;
  }

  /** The page count reads back from the base text, after `name=<name>; pages=`. */
  lemma BaseTextPagesReadBack(e: Edition)
    ensures var start := |"name=" + NameText(e.name) + "; pages="|;
      start <= |BaseText(e)| && ParseInt(BaseText(e)[start..]) == Some(e.pages)
  {
    var head := "name=" + NameText(e.name) + "; pages=";
    var digits := IntToString(e.pages);
    assert BaseText(e) == head + digits;
    assert (head + digits)[|head|..] == digits;
    IntToStringRoundTrip(e.pages);
  }
}
