/** src/pages/Offers.js and src/pages/Activities.js: the two listing pages run the same filter
    over the stored items (active ones, then the search term, then the category) and show the
    same join button. Both are modelled once, over `DataService.StoredItem`. */
module ListingPages {
  import opened JsText
  import opened Wrappers
  import opened DataService
  import opened Sequences

  /** `items.filter(keep)`: exactly the items `keep` accepts, in their order. */
  function Filter(s: seq<StoredItem>, keep: StoredItem -> bool): (r: seq<StoredItem>)
    ensures |r| <= |s|
    ensures forall x :: x in r ==> x in s && keep(x)
    ensures forall i :: 0 <= i < |s| && keep(s[i]) ==> s[i] in r
    ensures SubsequenceOf(r, s)
  {
    if s == [] then []
    else
      var rest := Filter(s[1..], keep);
      assert forall i :: 1 <= i < |s| ==> s[i] == s[1..][i - 1];
      if keep(s[0]) then [s[0]] + rest else rest
  }

  /** Filtering twice is filtering once by both conditions. */
  lemma {:induction false} FilterTwice(s: seq<StoredItem>, p: StoredItem -> bool, q: StoredItem -> bool,
                                       both: StoredItem -> bool)
    requires forall x :: both(x) == (p(x) && q(x))
    ensures Filter(Filter(s, p), q) == Filter(s, both)
  {
    if s != [] {
      FilterTwice(s[1..], p, q, both);
      if p(s[0]) {
        assert Filter(s, p) == [s[0]] + Filter(s[1..], p);
        assert ([s[0]] + Filter(s[1..], p))[1..] == Filter(s[1..], p);
      }
    }
  }

  /** Filters by conditions that accept the same items give the same list. */
  lemma {:induction false} FilterSame(s: seq<StoredItem>, p: StoredItem -> bool, q: StoredItem -> bool)
    requires forall x :: p(x) == q(x)
    ensures Filter(s, p) == Filter(s, q)
  {
    if s != [] {
      FilterSame(s[1..], p, q);
    }
  }

  /** The search: the term occurs, ignoring case, in the title or in the description. */
  predicate Matches(item: StoredItem, term: string) {
    Includes(ToLower(item.title), ToLower(term)) || Includes(ToLower(item.description), ToLower(term))
  }

  /** Whether the page shows an item: it is active, it matches the term unless the term is empty,
      and it has the category unless none is chosen. */
  predicate Shown(item: StoredItem, searchTerm: string, categoryFilter: string) {
    && item.isActive
    && (searchTerm != [] ==> Matches(item, searchTerm))
    && (categoryFilter != [] ==> item.category == categoryFilter)
  }

  /** `filterOffers` / `filterActivities`: the chain of filters, each applied only when its
      criterion is set. Each stage keeps a subsequence of the one before, so the page lists
      stored items in their stored order. */
  function FilterListings(items: seq<StoredItem>, searchTerm: string, categoryFilter: string): (r: seq<StoredItem>)
    ensures SubsequenceOf(r, items)
  {
    var active := Filter(items, (x: StoredItem) => x.isActive);
    var searched := if searchTerm != [] then Filter(active, x => Matches(x, searchTerm)) else active;
    var r := if categoryFilter != [] then Filter(searched, (x: StoredItem) => x.category == categoryFilter) else searched;
    assert SubsequenceOf(r, items) by {
      SubsequenceReflexive(active);
      SubsequenceReflexive(searched);
      SubsequenceTransitive(searched, active, items);
      SubsequenceTransitive(r, searched, items);
    }
    r
  }

  /** The chain shows exactly the items `Shown` accepts: every item listed is active, matches the
      term when there is one and has the chosen category when there is one, and no item that
      passes is missing. With no term and no category the page lists every active item. */
  lemma FilterListingsMeaning(items: seq<StoredItem>, searchTerm: string, categoryFilter: string)
    ensures FilterListings(items, searchTerm, categoryFilter) == Filter(items, x => Shown(x, searchTerm, categoryFilter))
    ensures forall x :: x in FilterListings(items, searchTerm, categoryFilter) ==>
      x in items && x.isActive
      && (searchTerm != [] ==> Matches(x, searchTerm))
      && (categoryFilter != [] ==> x.category == categoryFilter)
    ensures forall i :: 0 <= i < |items| && Shown(items[i], searchTerm, categoryFilter) ==>
      items[i] in FilterListings(items, searchTerm, categoryFilter)
    ensures searchTerm == [] && categoryFilter == [] ==>
      FilterListings(items, searchTerm, categoryFilter) == Filter(items, (x: StoredItem) => x.isActive)
  {
    var active: StoredItem -> bool := (x: StoredItem) => x.isActive;
    var search: StoredItem -> bool := x => Matches(x, searchTerm);
    var category: StoredItem -> bool := (x: StoredItem) => x.category == categoryFilter;
    var shown: StoredItem -> bool := x => Shown(x, searchTerm, categoryFilter);
    if searchTerm != [] && categoryFilter != [] {
      var both: StoredItem -> bool := (x: StoredItem) => x.isActive && Matches(x, searchTerm);
      FilterTwice(items, active, search, both);
      FilterTwice(items, both, category, shown);
    } else if searchTerm != [] {
      FilterTwice(items, active, search, shown);
    } else if categoryFilter != [] {
      FilterTwice(items, active, category, shown);
    } else {
      FilterSame(items, active, shown);
    }
  }

  /** `isUserParticipating`: the id is among the user's participations. */
  predicate IsUserParticipating(participations: seq<int>, id: int) {
    id in participations
  }

  /** The button a listing card shows. */
  datatype JoinButton = SignInFirst | AlreadyJoined | Full | Join

  function JoinButtonFor(signedIn: bool, participations: seq<int>, item: StoredItem): (b: JoinButton)
    ensures b == Join <==>
      signedIn && !IsUserParticipating(participations, item.id) && item.participants < item.maxParticipants
    ensures b == Full <==>
      signedIn && !IsUserParticipating(participations, item.id) && item.participants >= item.maxParticipants
    ensures b == SignInFirst <==> !signedIn
  {
    if !signedIn then SignInFirst
    else if IsUserParticipating(participations, item.id) then AlreadyJoined
    else if item.participants >= item.maxParticipants then Full
    else Join
  }

  /** The page's button and the storage service agree: when the card is the first stored item
      with its id, an enabled join button means the service's join succeeds, and a full card means
      it fails. */
  lemma ButtonAgreesWithService(signedIn: bool, participations: seq<int>, items: seq<StoredItem>, k: nat)
    requires k < |items| && FindIndex(items, items[k].id) == Some(k)
    ensures JoinButtonFor(signedIn, participations, items[k]) == Join ==> CanJoin(items, items[k].id)
    ensures JoinButtonFor(signedIn, participations, items[k]) == Full ==> !CanJoin(items, items[k].id)
  {
  }
}
