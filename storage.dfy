/**
 * The storage object the handlers share: one table per entity type, each
 * mapping an id to its record. `save()` writes the tables out and changes
 * nothing in them, so it has no counterpart here.
 */
module Storage {
  import opened Models

  class Store {
    var states: map<string, State>
    var cities: map<string, City>
    var users: map<string, User>
    var amenities: map<string, Amenity>
    var places: map<string, Place>

    /** A store holding the given tables. */
    constructor (states: map<string, State>, cities: map<string, City>, users: map<string, User>,
                 amenities: map<string, Amenity>, places: map<string, Place>)
      ensures this.states == states && this.cities == cities && this.users == users
      ensures this.amenities == amenities && this.places == places
    {
      this.states := states;
      this.cities := cities;
      this.users := users;
      this.amenities := amenities;
      this.places := places;
    }

    /** `storage.new(place)` or `place.save()`: the place `id` is stored as `p`. */
    method PutPlace(id: string, p: Place)
      modifies this`places
      ensures places == old(places)[id := p]
    {
      places := places[id := p];
    }

    /** `storage.delete(place)`. */
    method RemovePlace(id: string)
      modifies this`places
      ensures places == old(places) - {id}
    {
      places := places - {id};
    }

    /** `storage.delete(amenity)`. */
    method RemoveAmenity(id: string)
      modifies this`amenities
      ensures amenities == old(amenities) - {id}
    {
      amenities := amenities - {id};
    }
  }
}
