/**
 * The handlers for the links between a Place and its Amenities: list them,
 * link one, and the delete route. `db` says whether the database backend is
 * configured (`HBNB_TYPE_STORAGE == 'db'`); otherwise file storage is used.
 */
module PlacesAmenitiesViews {
  import opened Models
  import opened Collections
  import opened Associations
  import opened Storage

  /**
   * `GET /places/<place_id>/amenities`: 404 for an unknown place; otherwise
   * the record of every stored amenity the place links to. Link ids whose
   * amenity no longer exists are skipped. File storage lists each amenity
   * once; the database lists them in link order.
   */
  method GetAmenities(storage: Store, placeId: string, db: bool) returns (r: Response)
    ensures placeId !in storage.places ==> r == Abort(404, "")
    ensures placeId in storage.places ==>
      && r.Ok? && r.code == 200 && r.body.Records?
      && (forall id :: id in Ids(r.body.items) <==>
                       id in LinkedAmenities(storage.amenities, storage.places[placeId].amenityIds))
      && (forall d :: d in r.body.items ==>
                      IdOf(d) in storage.amenities && d == AmenityDict(IdOf(d), storage.amenities[IdOf(d)]))
    ensures placeId in storage.places && !db ==> NoDups(Ids(r.body.items))
    ensures placeId in storage.places && db ==>
      Ids(r.body.items) == ResolvedLinks(storage.amenities, storage.places[placeId].amenityIds)
  {
    if placeId !in storage.places {
      return Abort(404, "");
    }
    var place := storage.places[placeId];
    var ids: seq<string>;
    if db {
      ids := ResolvedLinks(storage.amenities, place.amenityIds);
    } else {
      var all := Enumerate(storage.amenities.Keys);
      ids := [];
      for i := 0 to |all|
        invariant NoDups(ids)
        invariant forall a :: a in ids <==> a in all[..i] && a in place.amenityIds
      {
        assert all[..i + 1] == all[..i] + [all[i]];
        assert all[i] !in all[..i];
        if all[i] in place.amenityIds {
          ids := ids + [all[i]];
        }
      }
      assert all[..|all|] == all;
    }
    r := Ok(200, Records(AmenityDicts(storage.amenities, ids)));
  }

  /**
   * `DELETE /places/<place_id>/amenities/<amenity_id>` as written: 404 and no
   * change when the place or the amenity does not exist or they are not
   * linked; otherwise the Amenity record itself is deleted from storage (not
   * the link), and the result is 200. The place keeps the id in its link
   * list, and no place lists that amenity any more.
   */
  method DeleteAmenity(storage: Store, placeId: string, amenityId: string, db: bool) returns (r: Response)
    modifies storage`amenities
    ensures placeId !in storage.places || amenityId !in old(storage.amenities)
            || amenityId !in storage.places[placeId].amenityIds ==>
      r == Abort(404, "") && storage.amenities == old(storage.amenities)
    ensures placeId in storage.places && amenityId in old(storage.amenities)
            && amenityId in storage.places[placeId].amenityIds ==>
      && storage.amenities == old(storage.amenities) - {amenityId}
      && r == Ok(200, Record(map[]))
      && forall q :: q in storage.places ==>
           amenityId !in LinkedAmenities(storage.amenities, storage.places[q].amenityIds)
  {
    if placeId !in storage.places || amenityId !in storage.amenities {
      return Abort(404, "");
    }
    var place := storage.places[placeId];
    if db {
      if amenityId !in ResolvedLinks(storage.amenities, place.amenityIds) {
        return Abort(404, "");
      }
    } else {
      if amenityId !in place.amenityIds {
        return Abort(404, "");
      }
    }
    storage.RemoveAmenity(amenityId);
    r := Ok(200, Record(map[]));
  }

  /**
   * `POST /places/<place_id>/amenities/<amenity_id>`: 404 and no change when
   * the place or the amenity does not exist. An amenity already linked
   * leaves the place as it is and gives 200; otherwise its id is appended to
   * the place's links and the result is 201. Either way the amenity's record
   * is returned.
   */
  method PostAmenity(storage: Store, placeId: string, amenityId: string, db: bool) returns (r: Response)
    modifies storage`places
    ensures placeId !in old(storage.places) || amenityId !in storage.amenities ==>
      r == Abort(404, "") && storage.places == old(storage.places)
    ensures placeId in old(storage.places) && amenityId in storage.amenities ==>
      var links := old(storage.places)[placeId].amenityIds;
      && storage.places == old(storage.places)[placeId := old(storage.places)[placeId].(amenityIds := Link(links, amenityId))]
      && r == Ok(if amenityId in links then 200 else 201, Record(AmenityDict(amenityId, storage.amenities[amenityId])))
  {
    if placeId !in storage.places || amenityId !in storage.amenities {
      return Abort(404, "");
    }
    var place := storage.places[placeId];
    var amenity := storage.amenities[amenityId];
    var linked := if db then amenityId in ResolvedLinks(storage.amenities, place.amenityIds)
                  else amenityId in place.amenityIds;
    if linked {
      return Ok(200, Record(AmenityDict(amenityId, amenity)));
    }
    storage.PutPlace(placeId, place.(amenityIds := place.amenityIds + [amenityId]));
    r := Ok(201, Record(AmenityDict(amenityId, amenity)));
  }

  /**
   * The delete route as evidently intended: the same checks and codes as
   * `DeleteAmenity`, but only the link of this place is removed, and the
   * Amenity record stays.
   */
  method UnlinkAmenity(storage: Store, placeId: string, amenityId: string) returns (r: Response)
    modifies storage`places
    ensures placeId !in old(storage.places) || amenityId !in storage.amenities
            || amenityId !in old(storage.places)[placeId].amenityIds ==>
      r == Abort(404, "") && storage.places == old(storage.places)
    ensures placeId in old(storage.places) && amenityId in storage.amenities
            && amenityId in old(storage.places)[placeId].amenityIds ==>
      var links := old(storage.places)[placeId].amenityIds;
      && storage.places == old(storage.places)[placeId := old(storage.places)[placeId].(amenityIds := Unlink(links, amenityId))]
      && r == Ok(200, Record(map[]))
  {
    if placeId !in storage.places || amenityId !in storage.amenities {
      return Abort(404, "");
    }
    var place := storage.places[placeId];
    if amenityId !in place.amenityIds {
      return Abort(404, "");
    }
    storage.PutPlace(placeId, place.(amenityIds := Unlink(place.amenityIds, amenityId)));
    r := Ok(200, Record(map[]));
  }

  /**
   * What the two delete routes do to another place `other` linked to the
   * same amenity: as written, the amenity disappears from its list too; as
   * intended, its list is untouched.
   */
  lemma DeleteVersusUnlink(amenities: map<string, Amenity>, places: map<string, Place>,
                           placeId: string, other: string, amenityId: string)
    requires placeId in places && other in places && placeId != other
    requires amenityId in amenities
    requires amenityId in places[placeId].amenityIds && amenityId in places[other].amenityIds
    ensures amenityId !in LinkedAmenities(amenities - {amenityId}, places[other].amenityIds)
    ensures var unlinked := places[placeId := places[placeId].(amenityIds := Unlink(places[placeId].amenityIds, amenityId))];
      amenityId in LinkedAmenities(amenities, unlinked[other].amenityIds)
  {
  }
}
