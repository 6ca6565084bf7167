/** src/services/dataService.js: the browser-side store of offers, activities, participations and
    favourites, kept as JSON in local storage. Each storage entry is a field of `LocalData`; the
    per-user entries are maps keyed by the user id as the entry names spell it, and an absent entry
    is the empty list. */
module DataService {
  import opened Wrappers

  /** A stored offer or activity, with the fields the service and the pages read. */
  datatype StoredItem = StoredItem(
    id: int, title: string, description: string, discount: string, category: string,
    participants: int, maxParticipants: int, date: Option<string>, isActive: bool)

  datatype Favorite = Favorite(id: int, kind: string, date: string)

  function DefaultOffers(): seq<StoredItem> {
    [ StoredItem(1, "Oferta de Verano", "Descuentos especiales en productos de temporada", "20%", "temporada", 0, 100, None, true),
      StoredItem(2, "Promoción Nocturna", "Ofertas exclusivas después de las 8pm", "15%", "nocturna", 0, 50, None, true),
      StoredItem(3, "Fin de Semana Especial", "Descuentos en todos los productos los fines de semana", "30%", "fin-de-semana", 0, 200, None, true) ]
  }

  function DefaultActivities(): seq<StoredItem> {
    [ StoredItem(1, "Taller de Cocina", "Aprende a preparar platillos gourmet con chefs expertos", "25%", "taller", 0, 20, Some("2024-03-15"), true),
      StoredItem(2, "Tour Cultural", "Recorrido por los lugares históricos más importantes de la ciudad", "30%", "tour", 0, 30, Some("2024-03-20"), true),
      StoredItem(3, "Clase de Yoga", "Sesiones de yoga para todos los niveles en un ambiente relajante", "20%", "clase", 0, 15, Some("2024-03-18"), true) ]
  }

  /** What `getOffers`/`getActivities` return for a stored list: the defaults in place of an empty one. */
  function Seeded(stored: seq<StoredItem>, defaults: seq<StoredItem>): seq<StoredItem> {
    if stored == [] then defaults else stored
  }

  /** No item holds more participants than it allows. */
  predicate WithinCapacity(items: seq<StoredItem>) {
    forall i :: 0 <= i < |items| ==> items[i].participants <= items[i].maxParticipants
  }

  /** The default offers start empty and within capacity, with ids 1, 2 and 3. */
  lemma DefaultOffersWellFormed()
    ensures var d := DefaultOffers();
      && |d| == 3 && WithinCapacity(d)
      && forall i :: 0 <= i < 3 ==> d[i].id == i + 1 && d[i].participants == 0
  {
  }

  /** The default activities start empty and within capacity, with ids 1, 2 and 3. */
  lemma DefaultActivitiesWellFormed()
    ensures var d := DefaultActivities();
      && |d| == 3 && WithinCapacity(d)
      && forall i :: 0 <= i < 3 ==> d[i].id == i + 1 && d[i].participants == 0
  {
  }

  /** `findIndex(item => item.id === id)`. */
  function FindIndex(items: seq<StoredItem>, id: int): (r: Option<nat>)
    ensures r.Some? ==> r.value < |items| && items[r.value].id == id
    ensures r.Some? ==> forall j :: 0 <= j < r.value ==> items[j].id != id
    ensures r.None? <==> forall j :: 0 <= j < |items| ==> items[j].id != id
  {
    if items == [] then None
    else if items[0].id == id then Some(0)
    else match FindIndex(items[1..], id)
      case None => None
      case Some(i) => Some(i + 1)
  }

  /** Whether joining item `id` succeeds: the first item with that id has room. */
  predicate CanJoin(items: seq<StoredItem>, id: int) {
    var k := FindIndex(items, id);
    k.Some? && items[k.value].participants < items[k.value].maxParticipants
  }

  /** The list after a successful join: one more participant on the first item with the id. */
  function AfterJoin(items: seq<StoredItem>, id: int): (r: seq<StoredItem>)
    requires CanJoin(items, id)
    ensures |r| == |items|
    ensures var k := FindIndex(items, id).value;
      r[k] == items[k].(participants := items[k].participants + 1)
      && forall j :: 0 <= j < |items| && j != k ==> r[j] == items[j]
  {
    var k := FindIndex(items, id).value;
    items[k := items[k].(participants := items[k].participants + 1)]
  }

  /** The lookup reads only the ids. */
  lemma {:induction false} FindIndexSameIds(a: seq<StoredItem>, b: seq<StoredItem>, id: int)
    requires |a| == |b| && forall j :: 0 <= j < |a| ==> a[j].id == b[j].id
    ensures FindIndex(a, id) == FindIndex(b, id)
  {
    if a != [] {
      FindIndexSameIds(a[1..], b[1..], id);
    }
  }

  /** A join finds the same item again, so a second join goes to the same one. */
  lemma JoinKeepsLookup(items: seq<StoredItem>, id: int, x: int)
    requires CanJoin(items, id)
    ensures FindIndex(AfterJoin(items, id), x) == FindIndex(items, x)
  {
    FindIndexSameIds(AfterJoin(items, id), items, x);
  }

  /** Joining never takes an item over its capacity. */
  lemma JoinKeepsCapacity(items: seq<StoredItem>, id: int)
    requires WithinCapacity(items) && CanJoin(items, id)
    ensures WithinCapacity(AfterJoin(items, id))
  {
  }

  /** A user's list under a per-user key. */
  function Entry<T>(m: map<string, seq<T>>, userId: string): seq<T> {
    if userId in m then m[userId] else []
  }

  predicate SameFavorite(f: Favorite, id: int, kind: string) { f.id == id && f.kind == kind }

  /** No favourite is listed twice. */
  predicate NoDuplicates(favs: seq<Favorite>) {
    forall i, j :: 0 <= i < j < |favs| ==> !(favs[i].id == favs[j].id && favs[i].kind == favs[j].kind)
  }

  predicate IsFavoriteIn(favs: seq<Favorite>, id: int, kind: string) {
    exists i :: 0 <= i < |favs| && SameFavorite(favs[i], id, kind)
  }

  /** `favorites.filter(fav => !(fav.id === id && fav.type === type))`. */
  function WithoutFavorite(favs: seq<Favorite>, id: int, kind: string): (r: seq<Favorite>)
    ensures forall f :: f in r <==> f in favs && !SameFavorite(f, id, kind)
    ensures |r| <= |favs|
  {
    if favs == [] then []
    else
      assert favs == [favs[0]] + favs[1..];
      (if SameFavorite(favs[0], id, kind) then [] else [favs[0]]) + WithoutFavorite(favs[1..], id, kind)
  }

  /** Filtering keeps the other favourites in their order, so it keeps them free of duplicates. */
  lemma {:induction false} WithoutKeepsNoDuplicates(favs: seq<Favorite>, id: int, kind: string)
    requires NoDuplicates(favs)
    ensures NoDuplicates(WithoutFavorite(favs, id, kind))
  {
    if favs != [] {
      var t := favs[1..];
      assert NoDuplicates(t) by {
        forall i, j | 0 <= i < j < |t| ensures !(t[i].id == t[j].id && t[i].kind == t[j].kind) {
          assert t[i] == favs[i + 1] && t[j] == favs[j + 1];
        }
      }
      WithoutKeepsNoDuplicates(t, id, kind);
      var rt := WithoutFavorite(t, id, kind);
      if !SameFavorite(favs[0], id, kind) {
        var r := [favs[0]] + rt;
        forall j | 0 < j < |r| ensures !(r[0].id == r[j].id && r[0].kind == r[j].kind) {
          assert r[j] == rt[j - 1] && r[j] in rt && r[j] in t;
          var k :| 0 <= k < |t| && t[k] == r[j];
          assert favs[k + 1] == r[j];
        }
        forall i, j | 0 < i < j < |r| ensures !(r[i].id == r[j].id && r[i].kind == r[j].kind) {
          assert r[i] == rt[i - 1] && r[j] == rt[j - 1];
        }
      }
    }
  }

  class LocalData {
    var offers: seq<StoredItem>
    var activities: seq<StoredItem>
    var offerJoins: map<string, seq<int>>
    var activityJoins: map<string, seq<int>>
    var favorites: map<string, seq<Favorite>>

    /** Empty storage. */
    constructor ()
      ensures offers == [] && activities == [] && offerJoins == map[] && activityJoins == map[] && favorites == map[]
    {
      offers, activities, offerJoins, activityJoins, favorites := [], [], map[], map[], map[];
    }

    /** Every user's favourites are free of duplicates. */
    ghost predicate FavoritesUnique()
      reads this
    {
      forall u :: u in favorites ==> NoDuplicates(favorites[u])
    }

    /** `getOffers`: an empty list is replaced by the defaults, which are stored. */
    method GetOffers() returns (r: seq<StoredItem>)
      modifies this
      ensures offers == Seeded(old(offers), DefaultOffers()) && r == offers
      ensures activities == old(activities) && offerJoins == old(offerJoins)
      ensures activityJoins == old(activityJoins) && favorites == old(favorites)
    {
      if offers == [] {
        offers := DefaultOffers();
      }
      r := offers;
    }

    /** `getActivities`: the same seeding for activities. */
    method GetActivities() returns (r: seq<StoredItem>)
      modifies this
      ensures activities == Seeded(old(activities), DefaultActivities()) && r == activities
      ensures offers == old(offers) && offerJoins == old(offerJoins)
      ensures activityJoins == old(activityJoins) && favorites == old(favorites)
    {
      if activities == [] {
        activities := DefaultActivities();
      }
      r := activities;
    }

    /** `participateInOffer`: after the seeding of `getOffers`, succeeds exactly when the first
        offer with the id has room; then that offer gains one participant and the id is appended
        to the user's list, even when it is already there. A refusal changes nothing more. */
    method ParticipateInOffer(offerId: int, userId: string) returns (ok: bool)
      modifies this
      ensures var seeded := Seeded(old(offers), DefaultOffers());
        && ok == CanJoin(seeded, offerId)
        && (ok ==> offers == AfterJoin(seeded, offerId)
                   && offerJoins == old(offerJoins)[userId := Entry(old(offerJoins), userId) + [offerId]])
        && (!ok ==> offers == seeded && offerJoins == old(offerJoins))
        && (WithinCapacity(seeded) ==> WithinCapacity(offers))
      ensures activities == old(activities) && activityJoins == old(activityJoins) && favorites == old(favorites)
    {
      var list := GetOffers();
      var k := FindIndex(list, offerId);
      if k.Some? && list[k.value].participants < list[k.value].maxParticipants {
        if WithinCapacity(list) {
          JoinKeepsCapacity(list, offerId);
        }
        offers := AfterJoin(list, offerId);
        offerJoins := offerJoins[userId := Entry(offerJoins, userId) + [offerId]];
        ok := true;
      } else {
        ok := false;
      }
    }

    /** `participateInActivity`: the same for activities. */
    method ParticipateInActivity(activityId: int, userId: string) returns (ok: bool)
      modifies this
      ensures var seeded := Seeded(old(activities), DefaultActivities());
        && ok == CanJoin(seeded, activityId)
        && (ok ==> activities == AfterJoin(seeded, activityId)
                   && activityJoins == old(activityJoins)[userId := Entry(old(activityJoins), userId) + [activityId]])
        && (!ok ==> activities == seeded && activityJoins == old(activityJoins))
        && (WithinCapacity(seeded) ==> WithinCapacity(activities))
      ensures offers == old(offers) && offerJoins == old(offerJoins) && favorites == old(favorites)
    {
      var list := GetActivities();
      var k := FindIndex(list, activityId);
      if k.Some? && list[k.value].participants < list[k.value].maxParticipants {
        if WithinCapacity(list) {
          JoinKeepsCapacity(list, activityId);
        }
        activities := AfterJoin(list, activityId);
        activityJoins := activityJoins[userId := Entry(activityJoins, userId) + [activityId]];
        ok := true;
      } else {
        ok := false;
      }
    }

    /** Joining the same offer twice, with room for both, records it twice for the user. */
    method ParticipateTwice(offerId: int, userId: string) returns (first: bool, second: bool)
      requires offers != [] && CanJoin(offers, offerId)
      requires var k := FindIndex(offers, offerId).value; offers[k].participants + 1 < offers[k].maxParticipants
      modifies this
      ensures first && second
      ensures Entry(offerJoins, userId) == Entry(old(offerJoins), userId) + [offerId, offerId]
      ensures var k := FindIndex(old(offers), offerId).value;
        |offers| == |old(offers)| && offers[k].participants == old(offers)[k].participants + 2
    {
      ghost var k := FindIndex(offers, offerId).value;
      ghost var o0, j0 := offers, offerJoins;
      first := ParticipateInOffer(offerId, userId);
      JoinKeepsLookup(o0, offerId, offerId);
      ghost var o1, j1 := offers, offerJoins;
      assert o1 == AfterJoin(o0, offerId) && o1 != [];
      assert Entry(j1, userId) == Entry(j0, userId) + [offerId];
      assert o1[k].participants == o0[k].participants + 1;
      second := ParticipateInOffer(offerId, userId);
      assert offers == AfterJoin(o1, offerId);
      assert Entry(offerJoins, userId) == Entry(j1, userId) + [offerId];
    }

    /** `getUserParticipations`. */
    function UserParticipations(userId: string): (r: (seq<int>, seq<int>))
      reads this
    {
      (Entry(offerJoins, userId), Entry(activityJoins, userId))
    }

    /** `getUserFavorites`. */
    function UserFavorites(userId: string): seq<Favorite>
      reads this
    {
      Entry(favorites, userId)
    }

    /** `isItemFavorite`. */
    predicate IsItemFavorite(itemId: int, userId: string, kind: string)
      reads this
    {
      IsFavoriteIn(Entry(favorites, userId), itemId, kind)
    }

    /** `addToFavorites`: appends the favourite, stamped `now`, exactly when it is not there yet,
        and says whether it did; the lists stay free of duplicates. */
    method AddToFavorites(itemId: int, userId: string, kind: string, now: string) returns (added: bool)
      modifies this
      ensures added <==> !IsFavoriteIn(Entry(old(favorites), userId), itemId, kind)
      ensures added ==> favorites == old(favorites)[userId := Entry(old(favorites), userId) + [Favorite(itemId, kind, now)]]
      ensures !added ==> favorites == old(favorites)
      ensures IsItemFavorite(itemId, userId, kind)
      ensures old(FavoritesUnique()) ==> FavoritesUnique()
      ensures offers == old(offers) && activities == old(activities)
      ensures offerJoins == old(offerJoins) && activityJoins == old(activityJoins)
    {
      var favs := Entry(favorites, userId);
      if !IsFavoriteIn(favs, itemId, kind) {
        var f := Favorite(itemId, kind, now);
        favorites := favorites[userId := favs + [f]];
        assert SameFavorite((favs + [f])[|favs|], itemId, kind);
        added := true;
      } else {
        added := false;
      }
    }

    /** `removeFromFavorites`: drops every entry for the item, keeps the others in order, and
        always answers true. */
    method RemoveFromFavorites(itemId: int, userId: string, kind: string) returns (r: bool)
      modifies this
      ensures r
      ensures favorites == old(favorites)[userId := WithoutFavorite(Entry(old(favorites), userId), itemId, kind)]
      ensures !IsItemFavorite(itemId, userId, kind)
      ensures old(FavoritesUnique()) ==> FavoritesUnique()
      ensures offers == old(offers) && activities == old(activities)
      ensures offerJoins == old(offerJoins) && activityJoins == old(activityJoins)
    {
      var favs := Entry(favorites, userId);
      if FavoritesUnique() {
        WithoutKeepsNoDuplicates(favs, itemId, kind);
      }
      var kept := WithoutFavorite(favs, itemId, kind);
      favorites := favorites[userId := kept];
      assert forall i :: 0 <= i < |kept| ==> kept[i] in kept;
      r := true;
    }
  }
}
