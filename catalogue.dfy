/**
 * The product catalogue: the abstract Product with its validated name and
 * price, and the four concrete kinds (music, movie, e-book, paper book).
 * The class hierarchy becomes one `Product` class whose kind-specific payload
 * is the `Details` datatype; the abstract `getProdTypeStr` becomes a function
 * over that payload.
 */
module Catalogue {
  import Identity
  import Text

  /** A person's name, a plain value with no invariant. */
  datatype PersonName = PersonName(firstName: string, lastName: string)

  /** The name every kind's constructor uses when none is given. */
  const NoName := PersonName("", "")

  datatype Genre = Blues | Classical | Country | Folk | Jazz | Metal | Pop | RnB | Rock

  datatype FilmRate = NotRated | G | PG | PG_13 | R | NC_17

  /** The two concrete book kinds; they differ only in their type label. */
  datatype BookFormat = Electronic | Paper

  /** The fields each concrete kind adds to the common product fields. */
  datatype Details =
    | Audio(singer: PersonName, genre: Genre)
    | Video(director: PersonName, filmRate: FilmRate, releaseYear: int, runTime: int)
    | Book(format: BookFormat, author: PersonName, pages: int)

  /** The name stored when the constructor is given a blank one. */
  const Placeholder := "!No Name Product!"

  /** The price stored when the constructor is given one out of range. */
  const DefaultPrice := 1.0

  /** Prices are accepted in the open interval (0, 1000). */
  predicate InPriceRange(p: real)
  {
    0.0 < p < 1000.0
  }

  /** The constructor's name rule: a name that trims to nothing becomes the placeholder. */
  function NormalizeName(name: string): (r: string)
    ensures Text.IsBlank(name) ==> r == Placeholder
    ensures !Text.IsBlank(name) ==> r == name
    ensures !Text.IsBlank(r)
  {
    Text.TrimEmptyIffBlank(name);
    assert Placeholder[0] == '!';
    if Text.Trim(name) == "" then Placeholder else name
  }

  /** The constructor's price rule: a price outside (0, 1000) becomes 1.0. */
  function NormalizePrice(price: real): (r: real)
    ensures InPriceRange(r)
    ensures InPriceRange(price) ==> r == price
    ensures !InPriceRange(price) ==> r == DefaultPrice
  {
    if price > 0.0 && price < 1000.0 then price else 1.0
  }

  /** Normalizing twice is the same as normalizing once, for both rules. */
  lemma NormalizeIdempotent(name: string, price: real)
    ensures NormalizeName(NormalizeName(name)) == NormalizeName(name)
    ensures NormalizePrice(NormalizePrice(price)) == NormalizePrice(price)
  {
  }

  /** The fixed type label of each concrete kind. */
  function TypeLabel(d: Details): (typeLabel: string)
    ensures typeLabel == "Music" <==> d.Audio?
    ensures typeLabel == "Movie" <==> d.Video?
    ensures typeLabel == "E book" <==> d.Book? && d.format == Electronic
    ensures typeLabel == "Paper book" <==> d.Book? && d.format == Paper
  {
    match d
    case Audio(_, _) => "Music"
    case Video(_, _, _, _) => "Movie"
    case Book(Electronic, _, _) => "E book"
    case Book(Paper, _, _) => "Paper book"
  }

  /** Two payloads belong to the same concrete kind. */
  ghost predicate SameKind(d: Details, e: Details)
  {
    (d.Audio? && e.Audio?) || (d.Video? && e.Video?) || (d.Book? && e.Book? && d.format == e.format)
  }

  /** The label identifies the kind: two labels agree exactly when the kinds do. */
  lemma TypeLabelIdentifiesKind(d: Details, e: Details)
    ensures TypeLabel(d) == TypeLabel(e) <==> SameKind(d, e)
  {
  }

  /** A movie is a new release for a threshold year when it came out that year or later. */
  function IsNewRelease(d: Details, year: int): (isNew: bool)
    requires d.Video?
    ensures isNew <==> year <= d.releaseYear
  {
    d.releaseYear >= year
  }

  /** The threshold is inclusive, and a release stays new for every earlier threshold. */
  lemma NewReleaseBoundary(d: Details, year: int)
    requires d.Video?
    ensures IsNewRelease(d, d.releaseYear) && !IsNewRelease(d, d.releaseYear + 1)
    ensures IsNewRelease(d, year) ==> forall earlier :: earlier <= year ==> IsNewRelease(d, earlier)
  {
  }

  class Product {
    const id: int
    var name: string
    var price: real
    var reviewRate: real
    var details: Details

    /** The state every concrete constructor leaves behind. */
    ghost predicate Initialized(givenName: string, givenPrice: real)
      reads this
    {
      name == NormalizeName(givenName) && price == NormalizePrice(givenPrice) && reviewRate == 0.0
    }

    constructor Music(ids: Identity.IdAllocator, givenName: string := "", givenPrice: real := 1.0,
                      singer: PersonName := NoName)
      requires ids.Valid()
      modifies ids
      ensures ids.Valid() && id == old(ids.nextId) && ids.nextId == old(ids.nextId) + 1
      ensures ids.Issued() == old(ids.Issued()) + [id]
      ensures Initialized(givenName, givenPrice)
      ensures details == Audio(singer, Pop)
    {
      var newId := ids.CreateNewId();
      id := newId;
      name := NormalizeName(givenName);
      price := NormalizePrice(givenPrice);
      reviewRate := 0.0;
      details := Audio(singer, Pop);
    }

    constructor Movie(ids: Identity.IdAllocator, givenName: string := "", givenPrice: real := 1.0,
                      director: PersonName := NoName, releaseYear: int := 2000, runTime: int := 90)
      requires ids.Valid()
      modifies ids
      ensures ids.Valid() && id == old(ids.nextId) && ids.nextId == old(ids.nextId) + 1
      ensures ids.Issued() == old(ids.Issued()) + [id]
      ensures Initialized(givenName, givenPrice)
      ensures details == Video(director, NotRated, releaseYear, runTime)
    {
      var newId := ids.CreateNewId();
      id := newId;
      name := NormalizeName(givenName);
      price := NormalizePrice(givenPrice);
      reviewRate := 0.0;
      details := Video(director, NotRated, releaseYear, runTime);
    }

    /** The book constructor, shared by e-books and paper books. */
    constructor Book(ids: Identity.IdAllocator, format: BookFormat, givenName: string := "",
                     givenPrice: real := 1.0, author: PersonName := NoName, pages: int := 0)
      requires ids.Valid()
      modifies ids
      ensures ids.Valid() && id == old(ids.nextId) && ids.nextId == old(ids.nextId) + 1
      ensures ids.Issued() == old(ids.Issued()) + [id]
      ensures Initialized(givenName, givenPrice)
      ensures details == Details.Book(format, author, pages)
    {
      var newId := ids.CreateNewId();
      id := newId;
      name := NormalizeName(givenName);
      price := NormalizePrice(givenPrice);
      reviewRate := 0.0;
      details := Details.Book(format, author, pages);
    }

    /** Overwrites the name without the constructor's blank check. */
    method SetName(newName: string)
      modifies this
      ensures name == newName
      ensures price == old(price) && reviewRate == old(reviewRate) && details == old(details)
    {
      name := newName;
    }

    /** Accepts the new price only inside (0, 1000); otherwise nothing changes. */
    method SetPrice(newPrice: real)
      modifies this
      ensures price == if InPriceRange(newPrice) then newPrice else old(price)
      ensures InPriceRange(old(price)) ==> InPriceRange(price)
      ensures name == old(name) && reviewRate == old(reviewRate) && details == old(details)
    {
      if newPrice > 0.0 && newPrice < 1000.0 {
        price := newPrice;
      }
    }

    /** Overwrites the review rate without any check. */
    method SetReviewRate(rate: real)
      modifies this
      ensures reviewRate == rate
      ensures name == old(name) && price == old(price) && details == old(details)
    {
      reviewRate := rate;
    }

    method SetSinger(singer: PersonName)
      requires details.Audio?
      modifies this
      ensures details == old(details).(singer := singer)
      ensures name == old(name) && price == old(price) && reviewRate == old(reviewRate)
    {
      details := details.(singer := singer);
    }

    method SetGenre(genre: Genre)
      requires details.Audio?
      modifies this
      ensures details == old(details).(genre := genre)
      ensures name == old(name) && price == old(price) && reviewRate == old(reviewRate)
    {
      details := details.(genre := genre);
    }

    method SetDirector(director: PersonName)
      requires details.Video?
      modifies this
      ensures details == old(details).(director := director)
      ensures name == old(name) && price == old(price) && reviewRate == old(reviewRate)
    {
      details := details.(director := director);
    }

    method SetFilmRate(filmRate: FilmRate)
      requires details.Video?
      modifies this
      ensures details == old(details).(filmRate := filmRate)
      ensures name == old(name) && price == old(price) && reviewRate == old(reviewRate)
    {
      details := details.(filmRate := filmRate);
    }

    method SetReleaseYear(year: int)
      requires details.Video?
      modifies this
      ensures details == old(details).(releaseYear := year)
      ensures name == old(name) && price == old(price) && reviewRate == old(reviewRate)
    {
      details := details.(releaseYear := year);
    }

    method SetRunTime(runTime: int)
      requires details.Video?
      modifies this
      ensures details == old(details).(runTime := runTime)
      ensures name == old(name) && price == old(price) && reviewRate == old(reviewRate)
    {
      details := details.(runTime := runTime);
    }

    method SetAuthor(author: PersonName)
      requires details.Book?
      modifies this
      ensures details == old(details).(author := author)
      ensures name == old(name) && price == old(price) && reviewRate == old(reviewRate)
    {
      details := details.(author := author);
    }

    method SetPages(pages: int)
      requires details.Book?
      modifies this
      ensures details == old(details).(pages := pages)
      ensures name == old(name) && price == old(price) && reviewRate == old(reviewRate)
    {
      details := details.(pages := pages);
    }
  }
}
