/**
 * The demonstration run of the original program, with the figures its
 * summary reports stated as postconditions.
 */
module Demo {
  import Identity
  import opened Catalogue
  import opened Shopping

  /** The 1977 movie of the demonstration is a new release for 1900 and 1977 but not for 1978. */
  lemma StarWarsRelease()
    ensures var d := Video(PersonName("George", "Lucas"), PG, 1977, 120);
            IsNewRelease(d, 1900) && IsNewRelease(d, 1977) && !IsNewRelease(d, 1978)
  {
  }

  /** The prices the demonstration gives its eight products, in creation order. */
  const DemoPrices: seq<real> := [16.5, 15.0, 13.75, 22.0, 22.0, 8.3, 11.8, 17.0]

  /** Creates a song, then sets its genre and review rate, as the demonstration does for each song. */
  method NewSong(ids: Identity.IdAllocator, title: string, price: real, singer: PersonName, genre: Genre,
                 rate: real) returns (p: Product)
    requires ids.Valid() && InPriceRange(price)
    modifies ids
    ensures fresh(p) && ids.Valid() && ids.nextId == old(ids.nextId) + 1
    ensures p.id == old(ids.nextId) && p.price == price && TypeLabel(p.details) == "Music"
    ensures p.details == Audio(singer, genre) && p.reviewRate == rate
  {
    p := new Product.Music(ids, title, price, singer);
    p.SetGenre(genre);
    p.SetReviewRate(rate);
  }

  /** Creates a movie, then sets its film rating and review rate. */
  method NewMovie(ids: Identity.IdAllocator, title: string, price: real, director: PersonName,
                  releaseYear: int, runTime: int, filmRate: FilmRate, rate: real) returns (p: Product)
    requires ids.Valid() && InPriceRange(price)
    modifies ids
    ensures fresh(p) && ids.Valid() && ids.nextId == old(ids.nextId) + 1
    ensures p.id == old(ids.nextId) && p.price == price && TypeLabel(p.details) == "Movie"
    ensures p.details == Video(director, filmRate, releaseYear, runTime) && p.reviewRate == rate
  {
    p := new Product.Movie(ids, title, price, director, releaseYear, runTime);
    p.SetFilmRate(filmRate);
    p.SetReviewRate(rate);
  }

  /** Creates a book of the given format, then sets its review rate. */
  method NewBook(ids: Identity.IdAllocator, format: BookFormat, title: string, price: real,
                 author: PersonName, pages: int, rate: real) returns (p: Product)
    requires ids.Valid() && InPriceRange(price)
    modifies ids
    ensures fresh(p) && ids.Valid() && ids.nextId == old(ids.nextId) + 1
    ensures p.id == old(ids.nextId) && p.price == price
    ensures TypeLabel(p.details) == if format == Electronic then "E book" else "Paper book"
    ensures p.details == Details.Book(format, author, pages) && p.reviewRate == rate
  {
    p := new Product.Book(ids, format, title, price, author, pages);
    p.SetReviewRate(rate);
  }

  /**
   * Creates the demonstration's eight products with a fresh allocator: three
   * songs, two movies, an e-book, a paper book and one more song. They receive
   * the IDs 1 to 8 in creation order and keep their given prices.
   */
  method CreateProducts() returns (products: seq<Product>)
    ensures |products| == 8
    ensures forall k :: 0 <= k < 8 ==> products[k].id == k + 1 && products[k].price == DemoPrices[k]
    ensures TypeLabel(products[5].details) == "E book" && TypeLabel(products[6].details) == "Paper book"
  {
    var ids := new Identity.IdAllocator();
    var music1 := NewSong(ids, "Yesterday", 16.5, PersonName("Beetles", ""), Pop, 9.8);
    var music2 := NewSong(ids, "Imagine", 15.0, PersonName("John", "Lennon"), Rock, 9.2);
    var music3 := NewSong(ids, "We are the World", 13.75, PersonName("Michael", "Jackson"), Country, 9.1);
    var movie1 := NewMovie(ids, "Sound of Music", 22.0, PersonName("Robert", "Wise"), 1965, 175, G, 9.2);
    var movie2 := NewMovie(ids, "Star Wars", 22.0, PersonName("George", "Lucas"), 1977, 120, PG, 8.5);
    var ebook := NewBook(ids, Electronic, "The old Man and the Sea", 8.3, PersonName("Ernest", "Hemmingway"), 127, 9.5);
    var paperbook := NewBook(ids, Paper, "To Kill a Mockingbird", 11.8, PersonName("Harper", "Lee"), 281, 9.6);
    var extra := NewSong(ids, "Thunderstruck", 17.0, PersonName("AC", "DC"), Metal, 9.0);
    products := [music1, music2, music3, movie1, movie2, ebook, paperbook, extra];
  }

  /** A cart for John Smith holding the first seven products; the eighth is then refused. */
  method FillCart(products: seq<Product>) returns (cart: Cart, fullAfterSeven: bool, extraAdded: bool)
    requires |products| == 8
    ensures fresh(cart) && cart.Valid() && cart.purchasedItems == products[..7]
    ensures fullAfterSeven && !extraAdded
  {
    cart := new Cart(PersonName("John", "Smith"));
    for k := 0 to 7
      invariant cart.Valid() && cart.purchasedItems == products[..k]
    {
      var added := cart.AddItem(products[k]);
      assert products[..k + 1] == products[..k] + [products[k]];
    }
    fullAfterSeven := cart.IsCartFull();
    extraAdded := cart.AddItem(products[7]);
  }

  /** The five items left in the demonstration's cart are priced 16.5, 13.75, 22, 22 and 8.3. */
  lemma {:induction false} RemainingTotal(rest: seq<Product>)
    requires |rest| == 5
    requires rest[0].price == 16.5 && rest[1].price == 13.75 && rest[2].price == 22.0
    requires rest[3].price == 22.0 && rest[4].price == 8.3
    ensures SumPrices(rest) == 82.55
  {
    SumPricesAppend([], rest[0]);
    SumPricesAppend(rest[..1], rest[1]);
    SumPricesAppend(rest[..2], rest[2]);
    SumPricesAppend(rest[..3], rest[3]);
    SumPricesAppend(rest[..4], rest[4]);
    assert rest[..1] == [] + [rest[0]];
    assert rest[..2] == rest[..1] + [rest[1]];
    assert rest[..3] == rest[..2] + [rest[2]];
    assert rest[..4] == rest[..3] + [rest[3]];
    assert rest == rest[..4] + [rest[4]];
  }

  /**
   * Fills a cart, then removes the paper book (ID 7) and the second song
   * (ID 2). The summary then counts five items totalling
   * 16.5 + 13.75 + 22 + 22 + 8.3.
   */
  method Shop(products: seq<Product>) returns (fullAfterSeven: bool, extraAdded: bool,
                                               fullAfterRemovals: bool, count: nat, total: real)
    requires |products| == 8
    requires forall k :: 0 <= k < 8 ==> products[k].id == k + 1 && products[k].price == DemoPrices[k]
    ensures fullAfterSeven && !extraAdded && !fullAfterRemovals
    ensures count == 5 && total == 82.55
  {
    var cart;
    cart, fullAfterSeven, extraAdded := FillCart(products);

    var removed := cart.RemoveItem(7);
    assert forall k :: 0 <= k < 7 ==> products[..7][k].id == k + 1;
    assert products[..7][6].id == 7;
    assert FindIndex(products[..7], 7) == 6;
    assert cart.purchasedItems == products[..6];
    removed := cart.RemoveItem(2);
    assert forall k :: 0 <= k < 6 ==> products[..6][k].id == k + 1;
    assert products[..6][1].id == 2;
    assert FindIndex(products[..6], 2) == 1;
    var rest := [products[0], products[2], products[3], products[4], products[5]];
    assert cart.purchasedItems == rest;
    fullAfterRemovals := cart.IsCartFull();

    count, total := cart.Summary();
    RemainingTotal(rest);
  }

  /** The demonstration run: create the products, then shop with them. */
  method PurchaseScenario() returns (fullAfterSeven: bool, extraAdded: bool, fullAfterRemovals: bool,
                                     count: nat, total: real)
    ensures fullAfterSeven && !extraAdded && !fullAfterRemovals
    ensures count == 5 && total == 82.55
  {
    var products := CreateProducts();
    fullAfterSeven, extraAdded, fullAfterRemovals, count, total := Shop(products);
  }
}
