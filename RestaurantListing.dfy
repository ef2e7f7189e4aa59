/** The restaurant listing (`src/pages/RestaurantListingScreen.tsx`): a
    case-insensitive search over names and cuisines, and a filter dialog whose
    choices are stored but never applied to the list. */
module RestaurantListingScreen {
  import opened Text
  import opened Seqs

  datatype Restaurant = Restaurant(
    id: string,
    name: string,
    imageUrl: string,
    cuisineTypes: seq<string>,
    ratingTenths: int,      // 4.2 is 42
    deliveryTime: string)

  const PizzaHeaven := Restaurant("r1", "Pizza Heaven", "pizza-heaven.jpg", ["Pizza", "Italian"], 42, "30-40 min")
  const SuperSlice := Restaurant("r2", "Super Slice", "super-slice.jpg", ["Pizza"], 40, "25-35 min")
  const CheesyBites := Restaurant("r3", "Cheesy Bites", "cheesy-bites.jpg", ["Pizza", "Fast Food"], 38, "30-40 min")
  const ItalianoOriginale := Restaurant("r4", "Italiano Originale", "italiano.jpg", ["Pizza", "Italian", "Pasta"], 46, "40-50 min")

  /** The listing's placeholder data, in display order. */
  const PlaceholderRestaurants: seq<Restaurant> := [PizzaHeaven, SuperSlice, CheesyBites, ItalianoOriginale]

  /** The search test on one restaurant. */
  predicate Matches(r: Restaurant, query: string) {
    Contains(Lower(r.name), Lower(query)) ||
    exists i :: 0 <= i < |r.cuisineTypes| && Contains(Lower(r.cuisineTypes[i]), Lower(query))
  }

  function MatchesQuery(query: string): Restaurant -> bool {
    (r: Restaurant) => Matches(r, query)
  }

  /** `displayedRestaurants`: the restaurants that match, in list order. */
  function Displayed(rs: seq<Restaurant>, query: string): (r: seq<Restaurant>)
    ensures IsSubsequence(r, rs)
    ensures forall i :: 0 <= i < |r| ==> r[i] in rs && Matches(r[i], query)
    ensures forall i :: 0 <= i < |rs| && Matches(rs[i], query) ==> rs[i] in r
  {
    Filter(rs, MatchesQuery(query))
  }

  /** An empty search shows every restaurant. */
  lemma EmptyQueryShowsAll(rs: seq<Restaurant>)
    ensures Displayed(rs, "") == rs
  {
    forall i | 0 <= i < |rs| ensures Matches(rs[i], "") {
      ContainsEmpty(Lower(rs[i].name));
    }
    FilterKeepsAll(rs, MatchesQuery(""));
  }

  /** Queries that agree up to letter case show the same restaurants. */
  lemma CaseInsensitive(rs: seq<Restaurant>, q1: string, q2: string)
    requires Lower(q1) == Lower(q2)
    ensures Displayed(rs, q1) == Displayed(rs, q2)
  {
    FilterExtensional(rs, MatchesQuery(q1), MatchesQuery(q2));
  }

  /** Upper-casing the query, in particular, changes nothing. */
  lemma UpperQuerySameResult(rs: seq<Restaurant>, q: string)
    ensures Displayed(rs, Upper(q)) == Displayed(rs, q)
  {
    UpperAgreesWithLower(Upper(q), q);
    assert Upper(Upper(q)) == Upper(q) by {
      assert forall i :: 0 <= i < |q| ==> UpperChar(UpperChar(q[i])) == UpperChar(q[i]);
    }
    CaseInsensitive(rs, Upper(q), q);
  }

  /** Searching a shown list again with the same query shows it unchanged. */
  lemma SearchIdempotent(rs: seq<Restaurant>, q: string)
    ensures Displayed(Displayed(rs, q), q) == Displayed(rs, q)
  {
    var d := Displayed(rs, q);
    FilterKeepsAll(d, MatchesQuery(q));
  }

  /** The listing shows either the grid of matches or the "No restaurants found"
      message, with the "Try adjusting" hint only for a non-empty search. */
  datatype ListingView = Grid(restaurants: seq<Restaurant>) | NoneFound(showHint: bool)

  function View(rs: seq<Restaurant>, query: string): (v: ListingView)
    ensures v.Grid? <==> |Displayed(rs, query)| > 0
    ensures v.Grid? ==> v.restaurants == Displayed(rs, query)
    ensures v.NoneFound? ==> (v.showHint <==> query != "")
  {
    var shown := Displayed(rs, query);
    if |shown| > 0 then Grid(shown) else NoneFound(query != "")
  }

  /** Every placeholder restaurant lists "Pizza" first, so searching "PIZZA" shows
      the whole list. */
  lemma PizzaSearch()
    ensures Displayed(PlaceholderRestaurants, "PIZZA") == PlaceholderRestaurants
  {
    forall k | 0 <= k < |PlaceholderRestaurants| ensures Matches(PlaceholderRestaurants[k], "PIZZA") {
      PizzaCuisineMatches(PlaceholderRestaurants[k]);
    }
    FilterKeepsAll(PlaceholderRestaurants, MatchesQuery("PIZZA"));
  }

  lemma PizzaCuisineMatches(r: Restaurant)
    requires |r.cuisineTypes| > 0 && r.cuisineTypes[0] == "Pizza"
    ensures Matches(r, "PIZZA")
  {
    assert Lower("PIZZA") == "pizza";
    assert Lower("Pizza") == "pizza";
    ContainsPrefix("pizza", "pizza");
  }

  /** A search that no restaurant matches shows the "No restaurants found" message. */
  lemma NoMatchShowsNoneFound(rs: seq<Restaurant>, query: string)
    requires forall k :: 0 <= k < |rs| ==> !Matches(rs[k], query)
    ensures Displayed(rs, query) == []
    ensures View(rs, query) == NoneFound(query != "")
  {
  }

  /** The listing screen's state: the search text and the dialog with its choices. */
  datatype Filters = Filters(ratingHalves: int, priceRange: seq<int>, deliveryTime: string)

  class ListingScreen {
    var searchQuery: string
    var filters: Filters
    var isFilterDialogOpen: bool

    constructor ()
      ensures searchQuery == "" && !isFilterDialogOpen
      ensures filters == Filters(0, [0, 50], "any")
      ensures DisplayedNow() == PlaceholderRestaurants
    {
      searchQuery := "";
      filters := Filters(0, [0, 50], "any");
      isFilterDialogOpen := false;
      EmptyQueryShowsAll(PlaceholderRestaurants);
    }

    /** What the screen shows now: only the search text takes part. */
    function DisplayedNow(): seq<Restaurant>
      reads this
    {
      Displayed(PlaceholderRestaurants, searchQuery)
    }

    /** The header's search callback, which stores the query as typed. */
    method Search(query: string)
      modifies this`searchQuery
      ensures searchQuery == query
    {
      searchQuery := query;
    }

    /** The dialog's trigger and its outside-click/escape (`onOpenChange`). */
    method SetDialogOpen(open: bool)
      modifies this`isFilterDialogOpen
      ensures isFilterDialogOpen == open
    {
      isFilterDialogOpen := open;
    }

    /** The rating slider, inside the dialog and so present only while it is open,
        stores its value (in half-star steps) in `filters`; the list shown does not
        move. */
    method SlideRating(halves: int)
      modifies this`filters
      ensures filters == if isFilterDialogOpen then old(filters).(ratingHalves := halves) else old(filters)
      ensures DisplayedNow() == old(DisplayedNow())
    {
      if isFilterDialogOpen {
        filters := filters.(ratingHalves := halves);
      }
    }

    /** `handleApplyFilters`: closes the dialog; the list shown does not move. */
    method ApplyFilters()
      modifies this`isFilterDialogOpen
      ensures !isFilterDialogOpen
      ensures DisplayedNow() == old(DisplayedNow())
    {
      isFilterDialogOpen := false;
    }

    /** The dialog's "Cancel" button. */
    method CancelFilters()
      modifies this`isFilterDialogOpen
      ensures !isFilterDialogOpen
    {
      isFilterDialogOpen := false;
    }
  }
}
