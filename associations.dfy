/**
 * Relationship views the handlers rely on. `city.places` and `state.cities`
 * are derived from the `city_id` of each place and the `state_id` of each
 * city; a place's amenities are the ids of its link list that still resolve;
 * linking appends an id once and unlinking removes it.
 */
module Associations {
  import opened Models
  import opened Collections

  /** The places whose city is one of `cityIds`. */
  function PlacesIn(places: map<string, Place>, cityIds: set<string>): set<string> {
    set id | id in places && places[id].cityId in cityIds
  }

  /** `city.places`, as the set of their ids. */
  function PlacesOfCity(places: map<string, Place>, cityId: string): set<string> {
    PlacesIn(places, {cityId})
  }

  /** The cities whose state is one of `stateIds`. */
  function CitiesIn(cities: map<string, City>, stateIds: set<string>): set<string> {
    set id | id in cities && cities[id].stateId in stateIds
  }

  /** `state.cities`, as the set of their ids. */
  function CitiesOfState(cities: map<string, City>, stateId: string): set<string> {
    CitiesIn(cities, {stateId})
  }

  /** The ids among `items` that resolve in `table`; the others are skipped. */
  function ResolvedIds<T>(table: map<string, T>, items: seq<Json>): set<string> {
    set v | v in items && Resolves(table, v) :: v.s
  }

  /** Adding the places of one more city to a set of cities adds exactly that city's places, which were not there. */
  lemma PlacesInAddCity(places: map<string, Place>, cityIds: set<string>, cityId: string)
    requires cityId !in cityIds
    ensures PlacesIn(places, cityIds + {cityId}) == PlacesIn(places, cityIds) + PlacesOfCity(places, cityId)
    ensures PlacesIn(places, cityIds) !! PlacesOfCity(places, cityId)
  {
  }

  /** The linked amenities that still resolve, as a set: what `get_amenities` lists in file mode. */
  function LinkedAmenities(amenities: map<string, Amenity>, linkIds: seq<string>): set<string> {
    set a | a in amenities && a in linkIds
  }

  /**
   * `place.amenities` of the database backend: the linked amenities that
   * exist, in link order.
   */
  function ResolvedLinks(amenities: map<string, Amenity>, linkIds: seq<string>): (r: seq<string>)
    ensures forall a :: a in r <==> a in LinkedAmenities(amenities, linkIds)
    ensures NoDups(linkIds) ==> NoDups(r)
  {
    if linkIds == [] then []
    else
      var rest := ResolvedLinks(amenities, linkIds[1..]);
      assert NoDups(linkIds) ==> NoDups(linkIds[1..]) && linkIds[0] !in rest;
      (if linkIds[0] in amenities then [linkIds[0]] else []) + rest
  }

  /** `place.amenity_ids.append(a)` when `a` is not linked yet; the list as it is otherwise. */
  function Link(linkIds: seq<string>, a: string): (r: seq<string>)
    ensures forall x :: x in r <==> x in linkIds || x == a
    ensures multiset(r)[a] == if a in linkIds then multiset(linkIds)[a] else 1
  {
    if a in linkIds then linkIds else linkIds + [a]
  }

  /** `list.remove(a)`: drops the first occurrence of `a`. */
  function Unlink(linkIds: seq<string>, a: string): seq<string> {
    if linkIds == [] then []
    else if linkIds[0] == a then linkIds[1..]
    else [linkIds[0]] + Unlink(linkIds[1..], a)
  }

  /** Linking an already linked amenity leaves the list as it is; so linking twice is linking once. */
  lemma LinkIdempotent(linkIds: seq<string>, a: string)
    ensures a in Link(linkIds, a)
    ensures a in linkIds ==> Link(linkIds, a) == linkIds
    ensures Link(Link(linkIds, a), a) == Link(linkIds, a)
  {
  }

  /**
   * Linking keeps the earlier ids in order, adds `a` at most once at the end,
   * and so keeps a repetition-free list repetition-free.
   */
  lemma LinkAppendsOnce(linkIds: seq<string>, a: string)
    ensures |Link(linkIds, a)| == |linkIds| + (if a in linkIds then 0 else 1)
    ensures Link(linkIds, a)[..|linkIds|] == linkIds
    ensures NoDups(linkIds) ==> NoDups(Link(linkIds, a))
  {
    assert (linkIds + [a])[..|linkIds|] == linkIds;
  }

  /** Unlinking undoes a link that was not there before. */
  lemma {:induction false} UnlinkUndoesLink(linkIds: seq<string>, a: string)
    requires a !in linkIds
    ensures Unlink(Link(linkIds, a), a) == linkIds
  {
    if linkIds != [] {
      assert Link(linkIds, a) == [linkIds[0]] + Link(linkIds[1..], a);
      UnlinkUndoesLink(linkIds[1..], a);
    }
  }

  /** On a repetition-free list, unlinking removes `a` and keeps every other id. */
  lemma {:induction false} UnlinkRemoves(linkIds: seq<string>, a: string)
    requires NoDups(linkIds)
    ensures a !in Unlink(linkIds, a)
    ensures forall x :: x != a ==> (x in Unlink(linkIds, a) <==> x in linkIds)
    ensures NoDups(Unlink(linkIds, a))
  {
    if linkIds != [] {
      assert NoDups(linkIds[1..]);
      UnlinkRemoves(linkIds[1..], a);
      if linkIds[0] != a {
        assert linkIds[0] !in linkIds[1..];
      }
    }
  }
}
