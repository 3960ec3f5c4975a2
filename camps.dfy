/** The camp listing: the loaded camps are split into upcoming and past
    against today's date, each list is searched by a case-insensitive
    substring and sorted by date or by name, and each card chooses its
    directions link and its timings text.

    The camp store and the clock are parameters: `LoadCamps` receives what
    the store returned (or `None` when the fetch failed) and today's date as
    an ISO `YYYY-MM-DD` string. */
module Camps {
  import opened Seqs
  import opened Text

  // ---------------------------------------------------------------------
  // Data model
  // ---------------------------------------------------------------------

  /** Coordinates of a camp; either may be missing from the record. */
  datatype Location = Location(lat: Option<real>, lng: Option<real>)

  /** The fields of a camp record the listing and the card read. Every field
      is optional, as in the store; `date` is an ISO `YYYY-MM-DD` string. */
  datatype Camp = Camp(campName: Option<string>, organizerName: Option<string>, date: Option<string>,
                       startTime: Option<string>, endTime: Option<string>, address: Option<string>,
                       location: Option<Location>, status: Option<string>)

  /** The page's state after loading: the two lists and the loading flag. */
  datatype Listing = Listing(upcoming: seq<Camp>, past: seq<Camp>, loading: bool)

  /** The page before the first load finishes. */
  const InitialListing := Listing([], [], true)

  // ---------------------------------------------------------------------
  // Upcoming and past
  // ---------------------------------------------------------------------

  predicate IsArchived(c: Camp)
  {
    c.status == Some("archived")
  }

  /** `camp.date >= today && camp.status !== 'archived'`. A camp without a
      date fails the comparison, since `undefined >= today` is false. */
  predicate IsUpcoming(c: Camp, today: string)
  {
    c.date.Some? && !Less(c.date.value, today) && !IsArchived(c)
  }

  /** `camp.date < today && camp.status !== 'archived'`; also false for a
      camp without a date. */
  predicate IsPast(c: Camp, today: string)
  {
    c.date.Some? && Less(c.date.value, today) && !IsArchived(c)
  }

  /** A camp that can be listed at all: dated and not archived. */
  predicate IsListed(c: Camp)
  {
    c.date.Some? && !IsArchived(c)
  }

  function UpcomingTest(today: string): Camp -> bool
  {
    c => IsUpcoming(c, today)
  }

  function PastTest(today: string): Camp -> bool
  {
    c => IsPast(c, today)
  }

  function ListedTest(): Camp -> bool
  {
    c => IsListed(c)
  }

  /** The camps that belong to the upcoming list, in store order. */
  function UpcomingOf(camps: seq<Camp>, today: string): (r: seq<Camp>)
    ensures forall c :: c in r <==> c in camps && IsUpcoming(c, today)
    ensures forall c :: multiset(r)[c] == if IsUpcoming(c, today) then multiset(camps)[c] else 0
  {
    Filter(camps, UpcomingTest(today))
  }

  /** The camps that belong to the past list, in store order. */
  function PastOf(camps: seq<Camp>, today: string): (r: seq<Camp>)
    ensures forall c :: c in r <==> c in camps && IsPast(c, today)
    ensures forall c :: multiset(r)[c] == if IsPast(c, today) then multiset(camps)[c] else 0
  {
    Filter(camps, PastTest(today))
  }

  /** The dated, non-archived camps, in store order. */
  function ListedOf(camps: seq<Camp>): (r: seq<Camp>)
    ensures forall c :: c in r <==> c in camps && IsListed(c)
    ensures forall c :: multiset(r)[c] == if IsListed(c) then multiset(camps)[c] else 0
  {
    Filter(camps, ListedTest())
  }

  /** The upcoming and past lists split the listable camps between them:
      each copy of a listable camp in the store is in exactly one of them. */
  lemma SplitCountsEachCampOnce(camps: seq<Camp>, today: string)
    ensures multiset(UpcomingOf(camps, today)) + multiset(PastOf(camps, today)) == multiset(ListedOf(camps))
    ensures forall c :: multiset(UpcomingOf(camps, today))[c] + multiset(PastOf(camps, today))[c] ==
                        if IsListed(c) then multiset(camps)[c] else 0
  {
    FilterSplit(camps, UpcomingTest(today), PastTest(today), ListedTest());
  }

  /** A camp dated today is upcoming, not past. */
  lemma CampTodayIsUpcoming(c: Camp, today: string)
    requires c.date == Some(today) && !IsArchived(c)
    ensures IsUpcoming(c, today) && !IsPast(c, today)
  {
    LessIrreflexive(today);
  }

  // ---------------------------------------------------------------------
  // Orders
  // ---------------------------------------------------------------------

  /** The comparators the page sorts with: by date, nearest first or newest
      first, or by camp name. */
  datatype Order = DateAscending | DateDescending | NameAscending

  /** The sort key of a date comparison; only dated camps reach a sort. */
  function DateKey(c: Camp): string
  {
    if c.date.Some? then c.date.value else ""
  }

  /** The sort key of a name comparison; a camp without a name sorts as "". */
  function NameKey(c: Camp): string
  {
    if c.campName.Some? then c.campName.value else ""
  }

  /** The comparator puts `a` no later than `b`: it returns zero or less. */
  predicate Before(a: Camp, b: Camp, order: Order)
  {
    match order
    case DateAscending => AtMost(DateKey(a), DateKey(b))
    case DateDescending => AtMost(DateKey(b), DateKey(a))
    case NameAscending => AtMost(NameKey(a), NameKey(b))
  }

  lemma BeforeTotal(a: Camp, b: Camp, order: Order)
    ensures Before(a, b, order) || Before(b, a, order)
  {
    match order
    case DateAscending => AtMostTotal(DateKey(a), DateKey(b));
    case DateDescending => AtMostTotal(DateKey(a), DateKey(b));
    case NameAscending => AtMostTotal(NameKey(a), NameKey(b));
  }

  lemma BeforeTransitive(a: Camp, b: Camp, c: Camp, order: Order)
    requires Before(a, b, order) && Before(b, c, order)
    ensures Before(a, c, order)
  {
    match order
    case DateAscending => AtMostTransitive(DateKey(a), DateKey(b), DateKey(c));
    case DateDescending => AtMostTransitive(DateKey(c), DateKey(b), DateKey(a));
    case NameAscending => AtMostTransitive(NameKey(a), NameKey(b), NameKey(c));
  }

  predicate SortedBy(s: seq<Camp>, order: Order)
  {
    forall i, j :: 0 <= i < j < |s| ==> Before(s[i], s[j], order)
  }

  /** Prepending a camp that goes no later than every element keeps a list sorted. */
  lemma SortedCons(c: Camp, s: seq<Camp>, order: Order)
    requires SortedBy(s, order)
    requires forall x :: x in s ==> Before(c, x, order)
    ensures SortedBy([c] + s, order)
  {
    var r := [c] + s;
    forall i, j | 0 <= i < j < |r| ensures Before(r[i], r[j], order) {
      if i == 0 {
        assert r[j] == s[j - 1] && s[j - 1] in s;
      } else {
        assert r[i] == s[i - 1] && r[j] == s[j - 1];
      }
    }
  }

  // ---------------------------------------------------------------------
  // Sorting
  // ---------------------------------------------------------------------

  /** Inserts `c` before the first element it does not go after, so camps
      that compare equal keep their order, as `Array.prototype.sort` does. */
  function Insert(c: Camp, s: seq<Camp>, order: Order): (r: seq<Camp>)
    ensures multiset(r) == multiset(s) + multiset{c}
  {
    if s == [] || Before(c, s[0], order) then [c] + s
    else
      assert s == [s[0]] + s[1..];
      [s[0]] + Insert(c, s[1..], order)
  }

  /** `camps.sort(comparator)` for the comparator of `order`, on a copy. */
  function SortCamps(s: seq<Camp>, order: Order): (r: seq<Camp>)
    ensures multiset(r) == multiset(s)
  {
    if s == [] then []
    else
      assert s == [s[0]] + s[1..];
      Insert(s[0], SortCamps(s[1..], order), order)
  }

  lemma {:induction false} InsertSorted(c: Camp, s: seq<Camp>, order: Order)
    requires SortedBy(s, order)
    ensures SortedBy(Insert(c, s, order), order)
  {
    if s == [] {
    } else if Before(c, s[0], order) {
      forall x | x in s ensures Before(c, x, order) {
        if x != s[0] {
          BeforeTransitive(c, s[0], x, order);
        }
      }
      SortedCons(c, s, order);
    } else {
      BeforeTotal(c, s[0], order);
      assert SortedBy(s[1..], order);
      InsertSorted(c, s[1..], order);
      var rest := Insert(c, s[1..], order);
      forall x | x in rest ensures Before(s[0], x, order) {
        assert x in multiset(rest);
        if x != c {
          assert x in s[1..];
        }
      }
      SortedCons(s[0], rest, order);
    }
  }

  /** The sort's result is ordered by the comparator. */
  lemma {:induction false} SortCampsSorted(s: seq<Camp>, order: Order)
    ensures SortedBy(SortCamps(s, order), order)
  {
    if s != [] {
      SortCampsSorted(s[1..], order);
      InsertSorted(s[0], SortCamps(s[1..], order), order);
    }
  }

  /** The tail of a sorted list is sorted. */
  lemma SortedTail(s: seq<Camp>, order: Order)
    requires s != [] && SortedBy(s, order)
    ensures SortedBy(s[1..], order)
  {
    var t := s[1..];
    forall i, j | 0 <= i < j < |t| ensures Before(t[i], t[j], order) {
      assert t[i] == s[i + 1] && t[j] == s[j + 1];
    }
  }

  /** A camp that goes no later than the head is inserted in front. */
  lemma InsertLeast(c: Camp, t: seq<Camp>, order: Order)
    requires t == [] || Before(c, t[0], order)
    ensures Insert(c, t, order) == [c] + t
  {
  }

  /** Sorting a list that is already in order leaves it as it is. */
  lemma {:induction false} SortOfSorted(s: seq<Camp>, order: Order)
    requires SortedBy(s, order)
    ensures SortCamps(s, order) == s
  {
    if s != [] {
      var t := s[1..];
      SortedTail(s, order);
      SortOfSorted(t, order);
      if t != [] {
        assert t[0] == s[1];
      }
      InsertLeast(s[0], t, order);
      assert [s[0]] + t == s;
    }
  }

  /** Keeping some elements of a sorted list keeps it sorted. */
  lemma {:induction false} FilterKeepsSorted(s: seq<Camp>, p: Camp -> bool, order: Order)
    requires SortedBy(s, order)
    ensures SortedBy(Filter(s, p), order)
  {
    if s != [] {
      assert SortedBy(s[1..], order);
      FilterKeepsSorted(s[1..], p, order);
      if p(s[0]) {
        forall x | x in Filter(s[1..], p) ensures Before(s[0], x, order) {
          var j :| 0 <= j < |s[1..]| && s[1..][j] == x;
          assert s[j + 1] == x;
        }
        SortedCons(s[0], Filter(s[1..], p), order);
      }
    }
  }

  // ---------------------------------------------------------------------
  // Loading
  // ---------------------------------------------------------------------

  /** `loadCamps`: on a successful fetch, the upcoming list nearest first and
      the past list newest first; on a failed fetch the lists stay as they
      were. The loading flag is cleared either way. */
  function LoadCamps(fetched: Option<seq<Camp>>, today: string, current: Listing): (r: Listing)
    ensures !r.loading
    ensures fetched.None? ==> r.upcoming == current.upcoming && r.past == current.past
    ensures fetched.Some? ==>
              multiset(r.upcoming) == multiset(UpcomingOf(fetched.value, today)) &&
              multiset(r.past) == multiset(PastOf(fetched.value, today))
  {
    match fetched
    case None => Listing(current.upcoming, current.past, false)
    case Some(camps) =>
      Listing(SortCamps(UpcomingOf(camps, today), DateAscending),
              SortCamps(PastOf(camps, today), DateDescending), false)
  }

  /** A first load that fails shows two empty lists and no loading state. */
  lemma FailedFirstLoadShowsNothing(today: string)
    ensures LoadCamps(None, today, InitialListing) == Listing([], [], false)
  {
  }

  /** After a successful load, every listable camp is in exactly one list,
      archived and undated camps are in neither, and the lists are in their
      default orders. */
  lemma LoadedListsPartition(camps: seq<Camp>, today: string, current: Listing)
    ensures var r := LoadCamps(Some(camps), today, current);
            SortedBy(r.upcoming, DateAscending) && SortedBy(r.past, DateDescending) &&
            (forall c :: c in r.upcoming <==> c in camps && IsUpcoming(c, today)) &&
            (forall c :: c in r.past <==> c in camps && IsPast(c, today)) &&
            (forall c :: c in camps ==> (IsListed(c) <==> c in r.upcoming || c in r.past)) &&
            (forall c :: c in r.upcoming ==> c !in r.past) &&
            multiset(r.upcoming) + multiset(r.past) == multiset(ListedOf(camps)) &&
            (forall c :: multiset(r.upcoming)[c] + multiset(r.past)[c] ==
                         if IsListed(c) then multiset(camps)[c] else 0)
  {
    var r := LoadCamps(Some(camps), today, current);
    SortCampsSorted(UpcomingOf(camps, today), DateAscending);
    SortCampsSorted(PastOf(camps, today), DateDescending);
    SplitCountsEachCampOnce(camps, today);
    forall c ensures c in r.upcoming <==> c in multiset(UpcomingOf(camps, today)) {
    }
    forall c ensures c in r.past <==> c in multiset(PastOf(camps, today)) {
    }
  }

  // ---------------------------------------------------------------------
  // Search and sort
  // ---------------------------------------------------------------------

  /** `field?.toLowerCase().includes(term)`: a missing field does not match. */
  predicate FieldIncludes(field: Option<string>, term: string)
  {
    field.Some? && Contains(Lower(field.value), term)
  }

  /** The lower-cased term occurs in the lower-cased name, address or organizer. */
  predicate MatchesSearch(c: Camp, term: string)
  {
    FieldIncludes(c.campName, term) || FieldIncludes(c.address, term) || FieldIncludes(c.organizerName, term)
  }

  function SearchTest(term: string): Camp -> bool
  {
    c => MatchesSearch(c, term)
  }

  /** The comparator `filterCamps` sorts with: by name when `sortOption` is
      'name', whatever the tab; otherwise by date, ascending on the
      'upcoming' tab and descending on any other. */
  function OrderFor(sortOption: string, activeTab: string): (order: Order)
    ensures order == NameAscending <==> sortOption == "name"
    ensures order == DateAscending <==> sortOption != "name" && activeTab == "upcoming"
    ensures order == DateDescending <==> sortOption != "name" && activeTab != "upcoming"
  {
    if sortOption == "name" then NameAscending
    else if activeTab == "upcoming" then DateAscending
    else DateDescending
  }

  /** `filterCamps`: the camps that match the search, sorted by the order the
      sort option and the active tab choose. The result is a reordering of
      the matching camps. */
  function FilterCamps(camps: seq<Camp>, searchTerm: string, sortOption: string, activeTab: string)
    : (r: seq<Camp>)
    ensures multiset(r) == multiset(Filter(camps, SearchTest(Lower(searchTerm))))
    ensures forall c :: c in r <==> c in camps && MatchesSearch(c, Lower(searchTerm))
    ensures forall c :: multiset(r)[c] == if MatchesSearch(c, Lower(searchTerm)) then multiset(camps)[c] else 0
    ensures |r| <= |camps|
  {
    var term := Lower(searchTerm);
    var matched := Filter(camps, SearchTest(term));
    assert forall c :: c in matched <==> c in camps && MatchesSearch(c, term);
    assert forall c :: multiset(matched)[c] == if MatchesSearch(c, term) then multiset(camps)[c] else 0;
    var r := SortCamps(matched, OrderFor(sortOption, activeTab));
    assert forall c :: c in r <==> c in multiset(matched);
    r
  }

  /** The search result is ordered by the chosen comparator. */
  lemma FilterCampsSorted(camps: seq<Camp>, searchTerm: string, sortOption: string, activeTab: string)
    ensures SortedBy(FilterCamps(camps, searchTerm, sortOption, activeTab), OrderFor(sortOption, activeTab))
  {
    SortCampsSorted(Filter(camps, SearchTest(Lower(searchTerm))), OrderFor(sortOption, activeTab));
  }

  /** An empty search keeps exactly the camps that have a name, an address or
      an organizer; it never adds a camp. */
  lemma EmptySearchKeepsCampsWithAField(camps: seq<Camp>, sortOption: string, activeTab: string)
    ensures forall c :: c in FilterCamps(camps, "", sortOption, activeTab) <==>
              c in camps && (c.campName.Some? || c.address.Some? || c.organizerName.Some?)
  {
    assert Lower("") == "";
    forall c: Camp ensures MatchesSearch(c, "") <==> c.campName.Some? || c.address.Some? || c.organizerName.Some? {
      if c.campName.Some? { ContainsEmpty(Lower(c.campName.value)); }
      if c.address.Some? { ContainsEmpty(Lower(c.address.value)); }
      if c.organizerName.Some? { ContainsEmpty(Lower(c.organizerName.value)); }
    }
  }

  /** Searching a list already in the date order of the tab, with the date
      sort, only drops camps: the rest keep their order. */
  lemma DateSearchOfSortedKeepsOrder(xs: seq<Camp>, searchTerm: string, activeTab: string)
    requires SortedBy(xs, OrderFor("date", activeTab))
    ensures FilterCamps(xs, searchTerm, "date", activeTab) == Filter(xs, SearchTest(Lower(searchTerm)))
  {
    var order := OrderFor("date", activeTab);
    var p := SearchTest(Lower(searchTerm));
    FilterKeepsSorted(xs, p, order);
    SortOfSorted(Filter(xs, p), order);
  }

  /** With the date sort on the matching tab, searching a freshly loaded list
      keeps the order the load gave it. */
  lemma DateSearchKeepsLoadedOrder(camps: seq<Camp>, today: string, current: Listing, searchTerm: string)
    ensures var r := LoadCamps(Some(camps), today, current);
            FilterCamps(r.upcoming, searchTerm, "date", "upcoming") ==
              Filter(r.upcoming, SearchTest(Lower(searchTerm))) &&
            FilterCamps(r.past, searchTerm, "date", "past") ==
              Filter(r.past, SearchTest(Lower(searchTerm)))
  {
    var r := LoadCamps(Some(camps), today, current);
    SortCampsSorted(UpcomingOf(camps, today), DateAscending);
    SortCampsSorted(PastOf(camps, today), DateDescending);
    DateSearchOfSortedKeepsOrder(r.upcoming, searchTerm, "upcoming");
    DateSearchOfSortedKeepsOrder(r.past, searchTerm, "past");
  }

  // ---------------------------------------------------------------------
  // The camp card
  // ---------------------------------------------------------------------

  /** JavaScript truthiness of an optional coordinate: present and not zero. */
  predicate Truthy(v: Option<real>)
  {
    v.Some? && v.value != 0.0
  }

  /** Where "Get Directions" leads: a route to the coordinates, or a map
      search for the address. */
  datatype Directions = Route(lat: real, lng: real) | AddressSearch(address: Option<string>)

  /** The route is chosen exactly when both coordinates are truthy, so a zero
      coordinate falls back to the address search. */
  function DirectionsFor(c: Camp): (d: Directions)
    ensures d.Route? <==> c.location.Some? && Truthy(c.location.value.lat) && Truthy(c.location.value.lng)
    ensures d.Route? ==> d.lat != 0.0 && d.lng != 0.0 &&
                         Some(d.lat) == c.location.value.lat && Some(d.lng) == c.location.value.lng
    ensures d.AddressSearch? ==> d.address == c.address
  {
    if c.location.Some? && Truthy(c.location.value.lat) && Truthy(c.location.value.lng) then
      Route(c.location.value.lat.value, c.location.value.lng.value)
    else
      AddressSearch(c.address)
  }

  /** The card's button: disabled on a past camp, directions otherwise. */
  function DirectionsAction(c: Camp, isPast: bool): (a: Option<Directions>)
    ensures a.None? <==> isPast
    ensures a.Some? ==> a.value == DirectionsFor(c)
  {
    if isPast then None else Some(DirectionsFor(c))
  }

  /** JavaScript truthiness of an optional string: present and non-empty. */
  predicate Present(v: Option<string>)
  {
    v.Some? && v.value != ""
  }

  /** The timings line: "start - end" when both times are present, else "All Day". */
  function Timings(c: Camp): (t: string)
    ensures Present(c.startTime) && Present(c.endTime) ==>
              t == c.startTime.value + " - " + c.endTime.value
    ensures !(Present(c.startTime) && Present(c.endTime)) ==> t == "All Day"
  {
    if Present(c.startTime) && Present(c.endTime) then c.startTime.value + " - " + c.endTime.value
    else "All Day"
  }

  /** The card shows "All Day" exactly when a time is missing: a real
      range always has its " - " separator, which "All Day" lacks. */
  lemma AllDayIffTimeMissing(c: Camp)
    ensures Timings(c) == "All Day" <==> !(Present(c.startTime) && Present(c.endTime))
  {
    if Present(c.startTime) && Present(c.endTime) {
      var t := Timings(c);
      var k := |c.startTime.value| + 1;
      assert t[k] == '-';
      assert '-' !in "All Day";
    }
  }
}
