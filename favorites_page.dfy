/** src/pages/Favorites.js: `getFavoriteItems` walks the user's favourites and collects, for each
    one, the first offer or activity with its id, tagged with its kind. */
module FavoritesPage {
  import opened Wrappers
  import opened DataService

  const OfferKind := "offer"
  const ActivityKind := "activity"

  /** An item shown on the page: the stored item spread, with its kind. */
  datatype FavoriteItem = FavoriteItem(item: StoredItem, kind: string)

  /** What one favourite resolves to: for an offer or activity favourite, the first item of that
      list with its id, if any; nothing for any other kind. */
  function Resolve(fav: Favorite, offers: seq<StoredItem>, activities: seq<StoredItem>): (r: Option<FavoriteItem>)
    ensures r.Some? ==> r.value.kind == fav.kind && r.value.item.id == fav.id
    ensures r.Some? && fav.kind == OfferKind ==> r.value.item in offers
    ensures r.Some? && fav.kind == ActivityKind ==> r.value.item in activities
    ensures r.None? <==>
      || (fav.kind != OfferKind && fav.kind != ActivityKind)
      || (fav.kind == OfferKind && FindIndex(offers, fav.id).None?)
      || (fav.kind == ActivityKind && FindIndex(activities, fav.id).None?)
  {
    if fav.kind == OfferKind then
      match FindIndex(offers, fav.id)
      case Some(k) => Some(FavoriteItem(offers[k], OfferKind))
      case None => None
    else if fav.kind == ActivityKind then
      match FindIndex(activities, fav.id)
      case Some(k) => Some(FavoriteItem(activities[k], ActivityKind))
      case None => None
    else None
  }

  /** The list the page shows for `favs`: the resolved favourites, in order, the others skipped. */
  function FavoriteItems(favs: seq<Favorite>, offers: seq<StoredItem>, activities: seq<StoredItem>): (r: seq<FavoriteItem>)
    ensures |r| <= |favs|
    ensures forall j :: 0 <= j < |r| ==> r[j].kind in {OfferKind, ActivityKind}
    ensures forall j :: 0 <= j < |r| ==>
      exists i :: 0 <= i < |favs| && Resolve(favs[i], offers, activities) == Some(r[j])
  {
    if favs == [] then []
    else
      var init := favs[..|favs| - 1];
      var rest := FavoriteItems(init, offers, activities);
      assert forall i :: 0 <= i < |init| ==> init[i] == favs[i];
      match Resolve(favs[|favs| - 1], offers, activities)
      case Some(x) => rest + [x]
      case None => rest
  }

  /** The list follows the favourites' order: the items for a longer list of favourites are the
      items for its beginning followed by those for its end. */
  lemma {:induction false} FavoriteItemsAppend(a: seq<Favorite>, b: seq<Favorite>,
                                               offers: seq<StoredItem>, activities: seq<StoredItem>)
    ensures FavoriteItems(a + b, offers, activities) == FavoriteItems(a, offers, activities) + FavoriteItems(b, offers, activities)
    decreases |b|
  {
    if b == [] {
      assert a + b == a;
    } else {
      var b' := b[..|b| - 1];
      FavoriteItemsAppend(a, b', offers, activities);
      assert (a + b)[..|a + b| - 1] == a + b';
      assert (a + b)[|a + b| - 1] == b[|b| - 1];
    }
  }

  /** One favourite on its own gives its resolved item, or nothing. */
  lemma OneFavorite(fav: Favorite, offers: seq<StoredItem>, activities: seq<StoredItem>)
    ensures var r := FavoriteItems([fav], offers, activities);
      match Resolve(fav, offers, activities)
      case Some(x) => r == [x]
      case None => r == []
  {
    assert [fav][..0] == [];
  }

  /** `getFavoriteItems`: one pass over the favourites, pushing each one that resolves. */
  method GetFavoriteItems(favorites: seq<Favorite>, offers: seq<StoredItem>, activities: seq<StoredItem>)
    returns (favoriteItems: seq<FavoriteItem>)
    ensures favoriteItems == FavoriteItems(favorites, offers, activities)
  {
    favoriteItems := [];
    var i := 0;
    while i < |favorites|
      invariant 0 <= i <= |favorites|
      invariant favoriteItems == FavoriteItems(favorites[..i], offers, activities)
    {
      var fav := favorites[i];
      assert favorites[..i + 1][..i] == favorites[..i];
      if fav.kind == OfferKind {
        var k := FindIndex(offers, fav.id);
        if k.Some? {
          favoriteItems := favoriteItems + [FavoriteItem(offers[k.value], OfferKind)];
        }
      } else if fav.kind == ActivityKind {
        var k := FindIndex(activities, fav.id);
        if k.Some? {
          favoriteItems := favoriteItems + [FavoriteItem(activities[k.value], ActivityKind)];
        }
      }
      i := i + 1;
    }
    assert favorites[..i] == favorites;
  }
}
