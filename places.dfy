/**
 * The Place handlers: list the places of a city, get, delete, create and
 * update one place, and search places by states, cities and amenities.
 */
module PlacesViews {
  import opened Models
  import opened Collections
  import opened Associations
  import opened Storage

  /** `GET /cities/<city_id>/places`: 404 for an unknown city, else one record per place of the city. */
  method GetPlaces(storage: Store, cityId: string) returns (r: Response)
    ensures cityId !in storage.cities ==> r == Abort(404, "")
    ensures cityId in storage.cities ==>
      && r.Ok? && r.code == 200 && r.body.Records?
      && PlaceRecords(storage.places, r.body.items, PlacesOfCity(storage.places, cityId))
  {
    if cityId !in storage.cities {
      return Abort(404, "");
    }
    var ids := Enumerate(PlacesOfCity(storage.places, cityId));
    assert forall id :: id in ids ==> id in storage.places;
    var items: seq<Dict> := [];
    for i := 0 to |ids|
      invariant |items| == i
      invariant forall j :: 0 <= j < i ==> items[j] == PlaceDict(ids[j], storage.places[ids[j]])
    {
      items := items + [PlaceDict(ids[i], storage.places[ids[i]])];
    }
    assert Ids(items) == ids;
    forall d | d in items
      ensures IdOf(d) in storage.places && d == PlaceDict(IdOf(d), storage.places[IdOf(d)])
    {
      var j :| 0 <= j < |items| && items[j] == d;
    }
    r := Ok(200, Records(items));
  }

  /** `GET /places/<place_id>`: the record of the place, or 404. */
  method GetPlace(storage: Store, placeId: string) returns (r: Response)
    ensures placeId !in storage.places ==> r == Abort(404, "")
    ensures placeId in storage.places ==> r.Ok? && r.code == 200 && r.body.Record?
    ensures r.Ok? ==> IdOf(r.body.fields) == placeId && r.body.fields == PlaceDict(placeId, storage.places[placeId])
  {
    if placeId in storage.places {
      return Ok(200, Record(PlaceDict(placeId, storage.places[placeId])));
    }
    r := Abort(404, "");
  }

  /** `DELETE /places/<place_id>`: removes exactly that place; 404 and no change for an unknown id. */
  method DeletePlace(storage: Store, placeId: string) returns (r: Response)
    modifies storage`places
    ensures placeId in old(storage.places) ==>
      storage.places == old(storage.places) - {placeId} && r == Ok(200, Record(map[]))
    ensures placeId !in old(storage.places) ==>
      storage.places == old(storage.places) && r == Abort(404, "")
  {
    if placeId in storage.places {
      storage.RemovePlace(placeId);
      return Ok(200, Record(map[]));
    }
    r := Abort(404, "");
  }

  /** `if not request.get_json()`: no JSON object, or an empty one. */
  predicate Supplied(body: Option<Dict>) {
    body.Some? && body.value != map[]
  }

  /** The keys the Place constructor does not keep as plain attributes. */
  const ConstructorKeys: set<string> := {"id", "created_at", "updated_at", "__class__", "city_id", "user_id"}

  /**
   * The keys that write a place's link list: `amenity_ids` with file
   * storage. With the database the links are the `amenities` relationship,
   * and `amenity_ids` is a plain attribute that nothing reads.
   */
  function LinkKeys(db: bool): set<string> {
    if db then {} else {"amenity_ids"}
  }

  /** `Place(**body)` followed by `place.city_id = city_id`. */
  function NewPlace(body: Dict, cityId: string, db: bool): (p: Place)
    requires "user_id" in body && body["user_id"].JStr?
    ensures p.cityId == cityId
    ensures JStr(p.userId) == body["user_id"]
    ensures forall k :: k in body && k !in ConstructorKeys && k !in LinkKeys(db) ==> k in p.attrs && p.attrs[k] == body[k]
    ensures forall k :: k in p.attrs ==> k in body && k !in ConstructorKeys && k !in LinkKeys(db)
    ensures db || "amenity_ids" !in body ==> p.amenityIds == []
    ensures !db && "amenity_ids" in body ==> p.amenityIds == Strings(Items(body["amenity_ids"]))
  {
    Place(cityId, body["user_id"].s,
          if !db && "amenity_ids" in body then Strings(Items(body["amenity_ids"])) else [],
          map k | k in body && k !in ConstructorKeys && k !in LinkKeys(db) :: body[k])
  }

  /**
   * `POST /cities/<city_id>/places`, checking in this order: the city exists
   * (404), the body is a non-empty JSON object (400), it has "user_id" (400),
   * that user exists (404), it has "name" (400). Only when every check passes
   * is the place `newId` stored, with the city of the URL; the response is 201.
   * `newId` is the fresh id the Place constructor draws; `db` says whether
   * the database backend is configured.
   */
  method CreatePlace(storage: Store, cityId: string, body: Option<Dict>, newId: string, db: bool) returns (r: Response)
    requires newId !in storage.places
    modifies storage`places
    ensures cityId !in storage.cities ==>
      r == Abort(404, "") && storage.places == old(storage.places)
    ensures cityId in storage.cities && !Supplied(body) ==>
      r == Abort(400, "Not a JSON") && storage.places == old(storage.places)
    ensures cityId in storage.cities && Supplied(body) && "user_id" !in body.value ==>
      r == Abort(400, "Missing user_id") && storage.places == old(storage.places)
    ensures cityId in storage.cities && Supplied(body) && "user_id" in body.value
            && !Resolves(storage.users, body.value["user_id"]) ==>
      r == Abort(404, "") && storage.places == old(storage.places)
    ensures cityId in storage.cities && Supplied(body) && "user_id" in body.value
            && Resolves(storage.users, body.value["user_id"]) && "name" !in body.value ==>
      r == Abort(400, "Missing name") && storage.places == old(storage.places)
    ensures cityId in storage.cities && Supplied(body) && "user_id" in body.value
            && Resolves(storage.users, body.value["user_id"]) && "name" in body.value ==>
      && storage.places == old(storage.places)[newId := NewPlace(body.value, cityId, db)]
      && r == Ok(201, Record(PlaceDict(newId, NewPlace(body.value, cityId, db))))
  {
    if cityId !in storage.cities {
      return Abort(404, "");
    }
    if !Supplied(body) {
      return Abort(400, "Not a JSON");
    }
    var data := body.value;
    if "user_id" !in data {
      return Abort(400, "Missing user_id");
    }
    if !Resolves(storage.users, data["user_id"]) {
      return Abort(404, "");
    }
    if "name" !in data {
      return Abort(400, "Missing name");
    }
    var place := NewPlace(data, cityId, db);
    storage.PutPlace(newId, place);
    r := Ok(201, Record(PlaceDict(newId, place)));
  }

  /** The keys `update_place` never writes. */
  const Protected: set<string> := {"id", "user_id", "city_id", "created_at", "updated_at"}

  /** `setattr(place, key, value)`; with file storage `amenity_ids` is the link list itself. */
  function SetAttr(p: Place, key: string, value: Json, db: bool): (q: Place)
    ensures q.cityId == p.cityId && q.userId == p.userId
    ensures key in LinkKeys(db) ==> q.attrs == p.attrs && q.amenityIds == Strings(Items(value))
    ensures key !in LinkKeys(db) ==> q.amenityIds == p.amenityIds && key in q.attrs && q.attrs[key] == value
    ensures forall k :: k in p.attrs && k != key ==> k in q.attrs && q.attrs[k] == p.attrs[k]
    ensures forall k :: k in q.attrs ==> k in p.attrs || k == key
  {
    if key in LinkKeys(db) then p.(amenityIds := Strings(Items(value)))
    else p.(attrs := p.attrs[key := value])
  }

  /**
   * The place after `update_place` has copied every key of `body` that is not
   * protected. Owner and city stay as they were, each other key of the body
   * takes the body's value, and attributes the body does not name keep theirs.
   */
  function Merge(p: Place, body: Dict, db: bool): (q: Place)
    ensures q.cityId == p.cityId && q.userId == p.userId
    ensures forall k :: k in body && k !in Protected && k !in LinkKeys(db) ==> k in q.attrs && q.attrs[k] == body[k]
    ensures forall k :: k in p.attrs && k !in body ==> k in q.attrs && q.attrs[k] == p.attrs[k]
    ensures forall k :: k in q.attrs ==> k in p.attrs || k in body
    ensures !db && "amenity_ids" in body ==> q.amenityIds == Strings(Items(body["amenity_ids"]))
    ensures db || "amenity_ids" !in body ==> q.amenityIds == p.amenityIds
  {
    Place(p.cityId, p.userId,
          if !db && "amenity_ids" in body then Strings(Items(body["amenity_ids"])) else p.amenityIds,
          p.attrs + map k | k in body && k !in Protected && k !in LinkKeys(db) :: body[k])
  }

  /** Merging nothing leaves the place as it is. */
  lemma MergeNothing(p: Place, db: bool)
    ensures Merge(p, map[], db) == p
  {
    assert Merge(p, map[], db).attrs == p.attrs;
  }

  /** One more turn of the loop of lines 78-81: a protected key is skipped, any other is set. */
  lemma MergeStep(p: Place, done: Dict, key: string, value: Json, db: bool)
    requires key !in done
    ensures Merge(p, done[key := value], db) ==
            if key in Protected then Merge(p, done, db) else SetAttr(Merge(p, done, db), key, value, db)
  {
    var before, after := Merge(p, done, db), Merge(p, done[key := value], db);
    if key in Protected || key in LinkKeys(db) {
      assert after.attrs == before.attrs;
    } else {
      assert after.attrs == before.attrs[key := value];
    }
  }

  /** Sending the same update twice gives the place the first one gave. */
  lemma MergeIdempotent(p: Place, body: Dict, db: bool)
    ensures Merge(Merge(p, body, db), body, db) == Merge(p, body, db)
  {
    var once := Merge(p, body, db);
    assert Merge(once, body, db).attrs == once.attrs;
  }

  /** The record an update returns shows the body's values and the old id, owner and city. */
  lemma MergeShownInRecord(id: string, p: Place, body: Dict, db: bool)
    ensures var d := PlaceDict(id, Merge(p, body, db));
      && IdOf(d) == id
      && d["city_id"] == PlaceDict(id, p)["city_id"]
      && d["user_id"] == PlaceDict(id, p)["user_id"]
      && forall k :: k in body && k !in Protected && k !in RecordKeys && k !in LinkKeys(db) ==>
           k in d && d[k] == body[k]
  {
  }

  /**
   * `PUT /places/<place_id>`: 404 for an unknown place, 400 "Not a JSON" for a
   * missing or empty body; otherwise the stored place becomes `Merge` of the
   * old one with the body, and its record is returned with 200.
   */
  method UpdatePlace(storage: Store, placeId: string, body: Option<Dict>, db: bool) returns (r: Response)
    modifies storage`places
    ensures placeId !in old(storage.places) ==>
      r == Abort(404, "") && storage.places == old(storage.places)
    ensures placeId in old(storage.places) && !Supplied(body) ==>
      r == Abort(400, "Not a JSON") && storage.places == old(storage.places)
    ensures placeId in old(storage.places) && Supplied(body) ==>
      && storage.places == old(storage.places)[placeId := Merge(old(storage.places)[placeId], body.value, db)]
      && r == Ok(200, Record(PlaceDict(placeId, storage.places[placeId])))
  {
    if placeId !in storage.places {
      return Abort(404, "");
    }
    if !Supplied(body) {
      return Abort(400, "Not a JSON");
    }
    var place := ApplyBody(storage.places[placeId], body.value, db);
    storage.PutPlace(placeId, place);
    r := Ok(200, Record(PlaceDict(placeId, place)));
  }

  /** Lines 78-81: `setattr` for every key of the body that is not protected. */
  method ApplyBody(p: Place, data: Dict, db: bool) returns (place: Place)
    ensures place == Merge(p, data, db)
  {
    place := p;
    MergeNothing(p, db);
    assert data - data.Keys == map[];
    var rest := data.Keys;
    while rest != {}
      invariant rest <= data.Keys
      invariant place == Merge(p, data - rest, db)
      decreases rest
    {
      var key :| key in rest;
      MergeStep(p, data - rest, key, data[key], db);
      assert (data - rest)[key := data[key]] == data - (rest - {key});
      if key !in Protected {
        place := SetAttr(place, key, data[key], db);
      }
      rest := rest - {key};
    }
    assert data - rest == data;
  }

  // ---------------------------------------------------------------------------
  // POST /places_search
  // ---------------------------------------------------------------------------

  /** Line 102: the search is filtered when the body is non-empty and one of its filters is true. */
  predicate Filtered(data: Dict) {
    && data != map[]
    && (Truthy(Field(data, "states")) || Truthy(Field(data, "cities")) || Truthy(Field(data, "amenities")))
  }

  /** The places of the cities of the listed states, plus those of the listed cities (lines 107-123). */
  ghost function Located(storage: Store, data: Dict): set<string>
    reads storage
  {
    PlacesIn(storage.places, CitiesIn(storage.cities, ResolvedIds(storage.states, Items(Field(data, "states")))))
    + PlacesIn(storage.places, ResolvedIds(storage.cities, Items(Field(data, "cities"))))
  }

  /** `all(amenity in place.amenities for amenity in amenities_objs)`. */
  predicate HasAmenities(p: Place, wanted: set<string>) {
    forall a :: a in wanted ==> a in p.amenityIds
  }

  /**
   * Whether a filtered search returns the place `id`. Without an amenity
   * filter: it is located by the states or cities filter. With one: it is
   * located (or nothing was located, and then every place qualifies) and it
   * is linked to every requested amenity that exists.
   */
  ghost predicate Selected(storage: Store, data: Dict, id: string)
    reads storage
  {
    var located := Located(storage, data);
    var amenityFilter := Field(data, "amenities");
    if !Truthy(amenityFilter) then id in located
    else
      && id in storage.places
      && (located == {} || id in located)
      && HasAmenities(storage.places[id], ResolvedIds(storage.amenities, Items(amenityFilter)))
  }

  /** `place_dict.pop('amenities', None)`. */
  function Shape(d: Dict): (e: Dict)
    ensures "amenities" !in e
    ensures IdOf(e) == IdOf(d)
    ensures forall k :: k != "amenities" ==> (k in e <==> k in d)
  {
    d - {"amenities"}
  }

  /** The records of a filtered search: exactly the selected places, each without "amenities". */
  ghost predicate SearchRecords(storage: Store, data: Dict, items: seq<Dict>)
    reads storage
  {
    && (forall id :: id in Ids(items) <==> Selected(storage, data, id))
    && (forall d :: d in items ==>
          && "amenities" !in d
          && IdOf(d) in storage.places
          && d == Shape(PlaceDict(IdOf(d), storage.places[IdOf(d)])))
  }

  /**
   * The multiset of places lines 108-115 collect: for each listed state that
   * exists, every place of every city of that state, once per listing.
   */
  ghost function StatePlaces(states: map<string, State>, cities: map<string, City>,
                             places: map<string, Place>, items: seq<Json>): multiset<string>
    decreases |items|
  {
    if items == [] then multiset{}
    else
      var last := items[|items| - 1];
      StatePlaces(states, cities, places, items[..|items| - 1])
      + (if Resolves(states, last) then multiset(PlacesIn(places, CitiesOfState(cities, last.s))) else multiset{})
  }

  /** The places the states filter collects are those whose city belongs to a listed, existing state. */
  lemma {:induction false} StatePlacesMembers(states: map<string, State>, cities: map<string, City>,
                                              places: map<string, Place>, items: seq<Json>)
    ensures forall id :: id in StatePlaces(states, cities, places, items) <==>
                         id in PlacesIn(places, CitiesIn(cities, ResolvedIds(states, items)))
  {
    if items != [] {
      var init, last := items[..|items| - 1], items[|items| - 1];
      StatePlacesMembers(states, cities, places, init);
      assert items == init + [last];
      assert ResolvedIds(states, items) ==
             ResolvedIds(states, init) + (if Resolves(states, last) then {last.s} else {});
    }
  }

  /**
   * When no state is listed twice, the states filter collects each place at
   * most once: a place has one city and a city one state.
   */
  lemma {:induction false} StatePlacesOnce(states: map<string, State>, cities: map<string, City>,
                                           places: map<string, Place>, items: seq<Json>)
    requires NoDups(items)
    ensures forall id :: StatePlaces(states, cities, places, items)[id] <= 1
  {
    if items != [] {
      var init, last := items[..|items| - 1], items[|items| - 1];
      assert NoDups(init);
      StatePlacesOnce(states, cities, places, init);
      StatePlacesMembers(states, cities, places, init);
      assert last !in init;
      forall id | Resolves(states, last) && id in PlacesIn(places, CitiesOfState(cities, last.s))
        ensures id !in StatePlaces(states, cities, places, init)
      {
        assert last.s !in ResolvedIds(states, init);
      }
    }
  }

  /** Listing a state twice collects its places twice: the states filter does not remove repetitions. */
  lemma StatePlacesRepeat(states: map<string, State>, cities: map<string, City>,
                          places: map<string, Place>, stateId: string, id: string)
    requires stateId in states && id in PlacesIn(places, CitiesOfState(cities, stateId))
    ensures StatePlaces(states, cities, places, [JStr(stateId), JStr(stateId)])[id] == 2
  {
    var items := [JStr(stateId), JStr(stateId)];
    var m := multiset(PlacesIn(places, CitiesOfState(cities, stateId)));
    assert m[id] == 1;
    assert items[..1] == [JStr(stateId)];
    assert items[..1][..0] == [];
    assert StatePlaces(states, cities, places, items[..1]) == m;
    assert StatePlaces(states, cities, places, items) == m + m;
  }

  /** Lines 112-115 for one state: every place of every city of the state is appended. */
  method AppendStatePlaces(cities: map<string, City>, places: map<string, Place>,
                           stateId: string, list0: seq<string>) returns (list: seq<string>)
    ensures |list| >= |list0| && list[..|list0|] == list0
    ensures multiset(list) == multiset(list0) + multiset(PlacesIn(places, CitiesOfState(cities, stateId)))
  {
    var cityIds := Enumerate(CitiesOfState(cities, stateId));
    list := list0;
    ghost var seen: set<string> := {};
    for j := 0 to |cityIds|
      invariant seen == set c | c in cityIds[..j]
      invariant |list| >= |list0| && list[..|list0|] == list0
      invariant multiset(list) == multiset(list0) + multiset(PlacesIn(places, seen))
    {
      // Line 113: a City object is always true.
      var placeIds := Enumerate(PlacesOfCity(places, cityIds[j]));
      ghost var mid := list;
      list := AppendEach(list, placeIds);
      assert list[..|mid|] == mid;
      DistinctMultiset(placeIds, PlacesOfCity(places, cityIds[j]));
      assert cityIds[j] !in cityIds[..j];
      PlacesInAddCity(places, seen, cityIds[j]);
      DisjointUnionMultiset(PlacesIn(places, seen), PlacesOfCity(places, cityIds[j]));
      assert cityIds[..j + 1] == cityIds[..j] + [cityIds[j]];
      seen := seen + {cityIds[j]};
    }
    assert cityIds[..|cityIds|] == cityIds;
    assert seen == CitiesOfState(cities, stateId);
  }

  /** Lines 114-115: every place of one city is appended in turn. */
  method AppendEach(list0: seq<string>, placeIds: seq<string>) returns (list: seq<string>)
    ensures list == list0 + placeIds
  {
    list := list0;
    for k := 0 to |placeIds|
      invariant list == list0 + placeIds[..k]
    {
      list := list + [placeIds[k]];
    }
    assert placeIds[..|placeIds|] == placeIds;
  }

  /** Lines 108-115: the places of the listed states, once per listing; unknown state ids are skipped. */
  method CollectStatePlaces(states: map<string, State>, cities: map<string, City>,
                            places: map<string, Place>, items: seq<Json>) returns (list: seq<string>)
    ensures multiset(list) == StatePlaces(states, cities, places, items)
  {
    list := [];
    for i := 0 to |items|
      invariant multiset(list) == StatePlaces(states, cities, places, items[..i])
    {
      assert items[..i + 1][..i] == items[..i];
      if Resolves(states, items[i]) {
        list := AppendStatePlaces(cities, places, items[i].s, list);
      }
    }
    assert items[..|items|] == items;
  }

  /**
   * Lines 117-123: the places of the listed cities that are not in the list
   * yet are appended; the list so far is kept as it is, and unknown city ids
   * are skipped.
   */
  method AddCityPlaces(cities: map<string, City>, places: map<string, Place>,
                       items: seq<Json>, list0: seq<string>) returns (list: seq<string>)
    ensures |list| >= |list0| && list[..|list0|] == list0
    ensures forall id :: id in list <==> id in list0 || id in PlacesIn(places, ResolvedIds(cities, items))
    ensures forall id :: id in list[|list0|..] ==> id !in list0
    ensures NoDups(list[|list0|..])
    ensures NoDups(list0) ==> NoDups(list)
  {
    list := list0;
    for i := 0 to |items|
      invariant |list| >= |list0| && list[..|list0|] == list0
      invariant forall id :: id in list <==> id in list0 || id in PlacesIn(places, ResolvedIds(cities, items[..i]))
      invariant forall id :: id in list[|list0|..] ==> id !in list0
      invariant NoDups(list[|list0|..])
      invariant NoDups(list0) ==> NoDups(list)
    {
      assert items[..i + 1] == items[..i] + [items[i]];
      if Resolves(cities, items[i]) {
        var placeIds := Enumerate(PlacesOfCity(places, items[i].s));
        for k := 0 to |placeIds|
          invariant |list| >= |list0| && list[..|list0|] == list0
          invariant forall id :: id in list <==>
                      id in list0 || id in PlacesIn(places, ResolvedIds(cities, items[..i])) || id in placeIds[..k]
          invariant forall id :: id in list[|list0|..] ==> id !in list0
          invariant NoDups(list[|list0|..])
          invariant NoDups(list0) ==> NoDups(list)
        {
          assert placeIds[..k + 1] == placeIds[..k] + [placeIds[k]];
          if placeIds[k] !in list {
            assert (list + [placeIds[k]])[|list0|..] == list[|list0|..] + [placeIds[k]];
            list := list + [placeIds[k]];
          }
        }
        assert placeIds[..|placeIds|] == placeIds;
      }
    }
    assert items[..|items|] == items;
  }

  /** The places of `ids` linked to every amenity of `wanted`, in their order (line 134). */
  function KeepWithAmenities(places: map<string, Place>, ids: seq<string>, wanted: set<string>): seq<string>
    requires forall id :: id in ids ==> id in places
  {
    if ids == [] then []
    else
      var last := ids[|ids| - 1];
      KeepWithAmenities(places, ids[..|ids| - 1], wanted)
      + (if HasAmenities(places[last], wanted) then [last] else [])
  }

  /** A place is kept exactly when it is in the list and has every wanted amenity. */
  lemma {:induction false} KeepWithAmenitiesMembers(places: map<string, Place>, ids: seq<string>, wanted: set<string>)
    requires forall id :: id in ids ==> id in places
    ensures forall id :: id in KeepWithAmenities(places, ids, wanted) <==>
                         id in ids && HasAmenities(places[id], wanted)
  {
    if ids != [] {
      var init := ids[..|ids| - 1];
      assert ids == init + [ids[|ids| - 1]];
      KeepWithAmenitiesMembers(places, init, wanted);
    }
  }

  /** Filtering keeps a repetition-free list repetition-free. */
  lemma {:induction false} KeepWithAmenitiesOnce(places: map<string, Place>, ids: seq<string>, wanted: set<string>)
    requires forall id :: id in ids ==> id in places
    requires NoDups(ids)
    ensures NoDups(KeepWithAmenities(places, ids, wanted))
  {
    if ids != [] {
      var init := ids[..|ids| - 1];
      assert NoDups(init);
      KeepWithAmenitiesOnce(places, init, wanted);
      KeepWithAmenitiesMembers(places, init, wanted);
      assert ids[|ids| - 1] !in init;
    }
  }

  /**
   * Lines 128-135 with the intended predicate: resolve the requested amenity
   * ids (unknown ones are skipped), then keep, in order, the places linked to
   * every resolved amenity.
   */
  method FilterByAmenities(amenities: map<string, Amenity>, places: map<string, Place>,
                           items: seq<Json>, list0: seq<string>) returns (list: seq<string>)
    requires forall id :: id in list0 ==> id in places
    ensures list == KeepWithAmenities(places, list0, ResolvedIds(amenities, items))
  {
    var wanted: set<string> := {};
    for i := 0 to |items|
      invariant wanted == ResolvedIds(amenities, items[..i])
    {
      assert items[..i + 1] == items[..i] + [items[i]];
      if Resolves(amenities, items[i]) {
        wanted := wanted + {items[i].s};
      }
    }
    assert items[..|items|] == items;
    list := [];
    for i := 0 to |list0|
      invariant list == KeepWithAmenities(places, list0[..i], wanted)
    {
      assert list0[..i + 1][..i] == list0[..i];
      if HasAmenities(places[list0[i]], wanted) {
        list := list + [list0[i]];
      }
    }
    assert list0[..|list0|] == list0;
  }

  /**
   * Lines 107-123: the places of the listed states, then those of the listed
   * cities not collected yet. Without repeated states, no place is repeated.
   */
  method Locate(storage: Store, data: Dict) returns (list: seq<string>)
    ensures forall id :: id in list <==> id in Located(storage, data)
    ensures forall id :: id in list ==> id in storage.places
    ensures NoDups(Items(Field(data, "states"))) ==> NoDups(list)
  {
    var states, cities := Field(data, "states"), Field(data, "cities");
    list := [];
    if Truthy(states) {
      list := CollectStatePlaces(storage.states, storage.cities, storage.places, Items(states));
    }
    StatePlacesMembers(storage.states, storage.cities, storage.places, Items(states));
    assert forall id :: id in list <==> id in multiset(list);
    if NoDups(Items(states)) {
      StatePlacesOnce(storage.states, storage.cities, storage.places, Items(states));
      NoDupsFromCounts(list);
    }
    if Truthy(cities) {
      list := AddCityPlaces(storage.cities, storage.places, Items(cities), list);
    }
  }

  /** Lines 138-142: the record of each place, without "amenities", in list order. */
  method ShapeRecords(places: map<string, Place>, list: seq<string>) returns (items: seq<Dict>)
    requires forall id :: id in list ==> id in places
    ensures Ids(items) == list
    ensures forall d :: d in items ==>
      "amenities" !in d && IdOf(d) in places && d == Shape(PlaceDict(IdOf(d), places[IdOf(d)]))
  {
    items := [];
    for i := 0 to |list|
      invariant |items| == i
      invariant forall j :: 0 <= j < i ==> items[j] == Shape(PlaceDict(list[j], places[list[j]]))
    {
      items := items + [Shape(PlaceDict(list[i], places[list[i]]))];
    }
    assert Ids(items) == list;
    forall d | d in items
      ensures "amenities" !in d && IdOf(d) in places && d == Shape(PlaceDict(IdOf(d), places[IdOf(d)]))
    {
      var j :| 0 <= j < |items| && items[j] == d;
    }
  }

  /**
   * `POST /places_search` with the amenity filter as intended. 400 when the
   * body is not JSON. An empty body, or one whose three filters are all
   * false, gives every stored place once. Otherwise the records are exactly
   * the `Selected` places, each without "amenities"; when no state is listed
   * twice, no place is listed twice.
   */
  method SearchPlaces(storage: Store, body: Option<Dict>) returns (r: Response)
    ensures body.None? ==> r == Abort(400, "Not a JSON")
    ensures body.Some? ==> r.Ok? && r.code == 200 && r.body.Records?
    ensures body.Some? && !Filtered(body.value) ==>
      PlaceRecords(storage.places, r.body.items, storage.places.Keys)
    ensures body.Some? && Filtered(body.value) ==>
      SearchRecords(storage, body.value, r.body.items)
    ensures body.Some? && Filtered(body.value) && NoDups(Items(Field(body.value, "states"))) ==>
      NoDups(Ids(r.body.items))
  {
    if body.None? {
      return Abort(400, "Not a JSON");
    }
    var data := body.value;
    var states, cities, amenities := Field(data, "states"), Field(data, "cities"), Field(data, "amenities");
    if data == map[] || !(Truthy(states) || Truthy(cities) || Truthy(amenities)) {
      var all := Enumerate(storage.places.Keys);
      return Ok(200, Records(PlaceDicts(storage.places, all)));
    }

    var list := Locate(storage, data);
    ghost var located := Located(storage, data);
    if Truthy(amenities) {
      if list == [] {
        list := Enumerate(storage.places.Keys);
      } else {
        assert list[0] in located;
      }
      var wanted := ResolvedIds(storage.amenities, Items(amenities));
      KeepWithAmenitiesMembers(storage.places, list, wanted);
      if NoDups(list) {
        KeepWithAmenitiesOnce(storage.places, list, wanted);
      }
      list := FilterByAmenities(storage.amenities, storage.places, Items(amenities), list);
    }
    assert forall id :: id in list <==> Selected(storage, data, id);
    var items := ShapeRecords(storage.places, list);
    r := Ok(200, Records(items));
  }

  // ---------------------------------------------------------------------------
  // The amenity filter of lines 125-135 as written
  // ---------------------------------------------------------------------------

  /**
   * `POST /places_search` as written. `Amenity` is not imported, so as soon as
   * the amenity filter is true and reached, the lookup at line 130 raises a
   * NameError and the request fails with 500. Without an amenity filter it
   * behaves as `SearchPlaces`.
   */
  method SearchPlacesAsWritten(storage: Store, body: Option<Dict>) returns (r: Response)
    ensures body.None? ==> r == Abort(400, "Not a JSON")
    ensures body.Some? && Filtered(body.value) && Truthy(Field(body.value, "amenities")) ==>
      r == Abort(500, "Internal Server Error")
    ensures body.Some? && !Truthy(Field(body.value, "amenities")) ==>
      r.Ok? && r.code == 200 && r.body.Records?
    ensures body.Some? && !Filtered(body.value) ==>
      PlaceRecords(storage.places, r.body.items, storage.places.Keys)
    ensures body.Some? && Filtered(body.value) && !Truthy(Field(body.value, "amenities")) ==>
      SearchRecords(storage, body.value, r.body.items)
    ensures body.Some? && Filtered(body.value) && !Truthy(Field(body.value, "amenities"))
            && NoDups(Items(Field(body.value, "states"))) ==>
      NoDups(Ids(r.body.items))
  {
    if body.Some? && Filtered(body.value) && Truthy(Field(body.value, "amenities")) {
      return Abort(500, "Internal Server Error");
    }
    r := SearchPlaces(storage, body);
  }

  /**
   * Lines 133-135 as written, with the missing import set aside: every kept
   * place is appended to the very list the loop walks, and Python's list
   * iterator visits what is appended too. The model runs at most `steps`
   * iterations from position `i`.
   */
  function AppendWhileIterating(xs: seq<string>, keep: set<string>, i: nat, steps: nat): (ys: seq<string>)
    ensures |xs| <= |ys| <= |xs| + steps
    ensures forall x :: x in ys <==> x in xs
    decreases steps
  {
    if steps == 0 || i >= |xs| then xs
    else AppendWhileIterating(if xs[i] in keep then xs + [xs[i]] else xs, keep, i + 1, steps - 1)
  }

  /** Nothing is ever removed: a place without the amenities stays in the list. */
  lemma {:induction false} AppendKeepsPrefix(xs: seq<string>, keep: set<string>, i: nat, steps: nat)
    ensures |AppendWhileIterating(xs, keep, i, steps)| >= |xs|
    ensures AppendWhileIterating(xs, keep, i, steps)[..|xs|] == xs
    decreases steps
  {
    if steps > 0 && i < |xs| {
      var ys := if xs[i] in keep then xs + [xs[i]] else xs;
      AppendKeepsPrefix(ys, keep, i + 1, steps - 1);
      assert ys[..|xs|] == xs;
      var zs := AppendWhileIterating(ys, keep, i + 1, steps - 1);
      assert zs[..|xs|] == zs[..|ys|][..|xs|];
    }
  }

  /**
   * Once a kept place lies ahead of the loop, the loop never reaches the end
   * of the list: after any number of steps it is still inside it.
   */
  lemma {:induction false} AppendNeverEnds(xs: seq<string>, keep: set<string>, i: nat, steps: nat, j: nat)
    requires i <= j < |xs| && xs[j] in keep
    ensures i + steps < |AppendWhileIterating(xs, keep, i, steps)|
    decreases steps
  {
    if steps > 0 {
      if xs[i] in keep {
        var ys := xs + [xs[i]];
        AppendNeverEnds(ys, keep, i + 1, steps - 1, |xs|);
      } else {
        AppendNeverEnds(xs, keep, i + 1, steps - 1, j);
      }
    }
  }
}
