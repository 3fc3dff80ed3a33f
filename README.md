# Places and Place–Amenity handlers of the HBnB REST API, in Dafny

This project models the request handlers for **Places** (`api/v1/views/places.py`) and for the
links between a Place and its **Amenities** (`api/v1/views/places_amenities.py`) of the HBnB
property-rental REST API. Routing, JSON parsing and serialisation are stripped away. What is
left is a set of rules over an in-memory store:

- **Storage** (`storage.dfy`): a `Store` object holds one table per entity type (State, City,
  User, Amenity, Place). Each table maps an id to a record. `storage.get` is a map lookup.
  `storage.delete` and `storage.new` change a table. `save()` only persists, so it has no
  counterpart.
- **Records and results** (`models.dfy`): decoded JSON values, Python truthiness, the entity
  records, their `to_dict` form, and the handler result `Response = Ok(code, body) |
  Abort(code, message)`. A request body is `Option<Dict>`, where `None` means "not JSON".
- **Associations** (`associations.dfy`):
  - `city.places` is derived from each place's `city_id`, and `state.cities` from each city's
    `state_id`. The model files that define them are not part of this model, so this is an
    assumption.
  - A place's amenities are the ids in its link list that still resolve.
  - Linking appends an id once. Unlinking removes the first occurrence.
- **Place handlers** (`places.dfy`):
  - list, get and delete a place;
  - create a place, with its ordered checks;
  - update a place, merging the body and skipping protected keys;
  - search by states, cities and amenities.
- **Link handlers** (`places_amenities.py` → `places_amenities.dfy`): list, link and delete.
  The storage backend switch (`HBNB_TYPE_STORAGE == 'db'`) is the boolean parameter `db`.
- **Iteration** (`collections.dfy`): a `for` loop over a storage dict or a relationship visits
  each element once. `Enumerate` models that visit; the order is left open.

Each handler that changes storage is a method whose `modifies` frame names the one table it
may change (`storage\`places` or `storage\`amenities`). Its `ensures` give the new table in terms
of the old one. Each handler that only reads states its result exactly. Searches and listings
state the result as "exactly these records, each once". The loops of the source are methods
with invariants, proved against specification functions (`Merge`, `StatePlaces`,
`KeepWithAmenities`). The single append and removal of a link are stated with `Link` and
`Unlink`. Lemmas prove the properties of all these functions.

Where the code departs from what its routes suggest, the model follows the code:

- The search's states branch does not remove repetitions. A state listed twice yields its
  places twice (`StatePlacesRepeat`). With distinct state ids no place repeats
  (`StatePlacesOnce`, `SearchPlaces`).
- `update_place` skips protected keys silently instead of rejecting the request.
- The delete-link route deletes the Amenity record itself (see Findings).

## Model

| member | source | states |
|---|---|---|
| `PlacesViews.GetPlaces` | api/v1/views/places.py:14-24 | Unknown city gives 404. Otherwise 200, with exactly one record per place whose `city_id` is the city, each the `to_dict` of that place. |
| `PlacesViews.GetPlace` | api/v1/views/places.py:27-33 | Unknown id gives 404. Otherwise 200 with the place's record, whose id is the requested one. |
| `PlacesViews.DeletePlace` | api/v1/views/places.py:36-45 | A known id is removed and no other record changes; result 200 with `{}`. An unknown id gives 404 and no change. |
| `PlacesViews.NewPlace` | api/v1/views/places.py:64-65 | The created place has the URL's city even when the body names another `city_id`. Its owner is the body's `user_id`. Every other body key is an attribute, except that with file storage `amenity_ids` becomes the link list (its string elements). |
| `PlacesViews.CreatePlace` | api/v1/views/places.py:48-67 | Checks in order: city (404), JSON body (400 "Not a JSON"), `user_id` present (400 "Missing user_id"), user exists (404), `name` present (400 "Missing name"). Any failure stores nothing. Success stores exactly the new place and answers 201 with its record. With the database, a body `amenity_ids` is a plain attribute and leaves the links empty. |
| `PlacesViews.Merge` | api/v1/views/places.py:78-81 | City and owner never change. Every unprotected body key ends up with the body's value, except `amenity_ids` with file storage, which replaces the link list by the string elements of the value. Attributes the body does not name keep their value, and no other attribute appears. |
| `PlacesViews.MergeStep` | api/v1/views/places.py:78-81 | Processing one more key is exactly one `setattr`, or nothing when the key is protected. |
| `PlacesViews.MergeIdempotent` | api/v1/views/places.py:70-83 | Applying the same update body twice gives the place that one application gives. |
| `PlacesViews.MergeShownInRecord` | api/v1/views/places.py:78-83 | The returned record keeps id, `city_id` and `user_id`, and shows every other body key with the body's value (with file storage `amenity_ids` goes to the link list instead). |
| `PlacesViews.SetAttr` | api/v1/views/places.py:81 | One `setattr` never changes city or owner. With file storage `amenity_ids` replaces the link list and leaves the attributes alone. Any other key takes the given value, and every other attribute stays as it was. |
| `PlacesViews.ApplyBody` | api/v1/views/places.py:78-81 | The setattr loop over the body's keys, in any order, yields `Merge` of the place and the body. |
| `PlacesViews.UpdatePlace` | api/v1/views/places.py:70-83 | Unknown id gives 404. A missing or empty body gives 400. Otherwise only that place changes, to `Merge(old, body)`; result 200 with its record. With the database, `amenity_ids` is a plain attribute and the links stay as they were. |
| `PlacesViews.AppendStatePlaces` | api/v1/views/places.py:112-115 | For one state, the list so far is kept as a prefix and grows by exactly the places of the state's cities, each once. |
| `PlacesViews.AppendEach` | api/v1/views/places.py:114-115 | Appending the places of one city in turn leaves the list followed by those places, in the order visited. |
| `PlacesViews.CollectStatePlaces` | api/v1/views/places.py:108-115 | The collected multiset is `StatePlaces`: the places of every listed state that exists, once per listing. Unknown state ids are skipped. |
| `PlacesViews.StatePlacesMembers` | api/v1/views/places.py:108-115 | A place is collected iff its city belongs to a listed state that exists. |
| `PlacesViews.StatePlacesOnce` | api/v1/views/places.py:108-115 | With no state listed twice, no place is collected twice. |
| `PlacesViews.StatePlacesRepeat` | api/v1/views/places.py:108-115 | A state listed twice collects each of its places twice: the branch does not remove repetitions. |
| `PlacesViews.AddCityPlaces` | api/v1/views/places.py:117-123 | The list so far is kept as a prefix. Exactly the places of the listed cities that exist are added. Nothing already present is added again, and the added part has no repetition. |
| `PlacesViews.Locate` | api/v1/views/places.py:106-123 | The list holds exactly the places of the listed states' cities and of the listed cities, all of them stored; with no state listed twice, no place repeats. |
| `PlacesViews.FilterByAmenities` | api/v1/views/places.py:125-135 | Intended filter: the result is `KeepWithAmenities` of the list. Only the requested amenity ids that exist count. |
| `PlacesViews.KeepWithAmenitiesMembers` | api/v1/views/places.py:133-134 | A place is kept iff it is in the list and is linked to every resolved requested amenity. |
| `PlacesViews.KeepWithAmenitiesOnce` | api/v1/views/places.py:133-135 | Filtering keeps a repetition-free list repetition-free. |
| `PlacesViews.Shape` | api/v1/views/places.py:141 | The shaped record has no "amenities" key, keeps the id, and keeps every other key. |
| `PlacesViews.ShapeRecords` | api/v1/views/places.py:137-142 | One record per listed place, in list order, each its `to_dict` without "amenities". |
| `PlacesViews.SearchPlaces` | api/v1/views/places.py:86-144 | Non-JSON gives 400. An empty body, or one whose three filters are all false, gives every stored place exactly once. Otherwise the records are exactly the `Selected` places, none with an "amenities" key. With no state listed twice, none repeats. |
| `PlacesViews.SearchPlacesAsWritten` | api/v1/views/places.py:125-135 | As written, a true amenities filter makes the request fail with 500, because `Amenity` is not imported. Without one, the result is that of `SearchPlaces`: every stored place once for an unfiltered body, otherwise exactly the `Selected` places, with no repetition when no state is listed twice. |
| `PlacesViews.AppendWhileIterating` | api/v1/views/places.py:133-135 | The loop as written, run for a bounded number of steps: the list grows by at most one place per step and never gains or loses a distinct place. |
| `PlacesViews.AppendKeepsPrefix` | api/v1/views/places.py:133-135 | The loop as written never removes a place: the original list stays a prefix after any number of steps. |
| `PlacesViews.AppendNeverEnds` | api/v1/views/places.py:133-135 | As written, once a matching place lies ahead, the loop is still inside the list after any number of steps, so it never ends. |
| `PlacesAmenitiesViews.GetAmenities` | api/v1/views/places_amenities.py:14-28 | Unknown place gives 404. Otherwise 200, with exactly the stored amenities whose id is in the place's link list; stale ids are skipped. File storage lists each once; the database lists them in link order. |
| `PlacesAmenitiesViews.DeleteAmenity` | api/v1/views/places_amenities.py:31-47 | Missing place, missing amenity or no link gives 404 and no change. Otherwise the Amenity record is removed and the result is 200. The link list is not edited, and no place lists the amenity any more. |
| `PlacesAmenitiesViews.PostAmenity` | api/v1/views/places_amenities.py:50-67 | Missing place or amenity gives 404 and no change. An already linked pair gives 200 with the links unchanged. Otherwise the id is appended and the result is 201. The amenity's record is returned. |
| `PlacesAmenitiesViews.UnlinkAmenity` | api/v1/views/places_amenities.py:31-47 | Intended delete route: same 404 cases; on a linked pair only this place's link is removed and the Amenity stays. |
| `PlacesAmenitiesViews.DeleteVersusUnlink` | api/v1/views/places_amenities.py:45-47 | For another place linked to the same amenity, the route as written hides the amenity from it. The intended route leaves it listed. |
| `Associations.ResolvedLinks` | api/v1/views/places_amenities.py:21-22 | `place.amenities` of the database: exactly the linked ids that exist, in link order, without repetition when the links have none. |
| `Associations.PlacesInAddCity` | api/v1/views/places.py:112-115 | The places of one more city are disjoint from those already collected and add exactly that city's places. |
| `Associations.Link` | api/v1/views/places_amenities.py:59-65 | After linking, the list holds exactly the earlier ids and the amenity. An absent amenity occurs once, and a present one keeps its count. |
| `Associations.LinkIdempotent` | api/v1/views/places_amenities.py:59-65 | After linking, the amenity is linked. Linking a linked amenity changes nothing, so linking twice equals linking once. |
| `Associations.LinkAppendsOnce` | api/v1/views/places_amenities.py:61-65 | Linking keeps the earlier ids in order and adds the id once at the end, only when absent; a repetition-free list stays repetition-free. |
| `Associations.UnlinkUndoesLink` | api/v1/views/places_amenities.py:59-65 | Unlinking an amenity that was linked by this request restores the previous link list. |
| `Associations.UnlinkRemoves` | api/v1/views/places_amenities.py:43-45 | On a repetition-free list, unlinking removes the amenity, keeps every other id, and keeps the list repetition-free. |
| `Storage.Store.PutPlace` | api/v1/views/places.py:66 | Storing a place sets exactly that entry of the place table. |
| `Storage.Store.RemovePlace` | api/v1/views/places.py:42 | Deleting a place removes exactly that entry of the place table. |
| `Storage.Store.RemoveAmenity` | api/v1/views/places_amenities.py:45 | Deleting an amenity removes exactly that entry of the amenity table. |
| `Collections.Enumerate` | api/v1/views/places.py:103 | Iterating a storage dict or relationship visits every element exactly once. |
| `Models.Strings` | api/v1/views/places.py:81 | An id list stored through `amenity_ids` holds exactly the string elements of the list given. |

## Left out

- `api/v1/views/index.py` (`status`, `stats`): a constant and six forwarded `storage.count` calls, with no logic of their own.
- Flask routing, `jsonify`, and `abort` as an exception. A body is `Option<Dict>`. JSON bodies that are not objects (a list, a string, a number) are not modelled.
- Iteration order of storage dicts and ORM relationships: results are stated as "exactly these, each once", and their order is left open. The one exception is the database listing of a place's amenities, described next.
- PlacesAmenitiesViews.GetAmenities: with the database, the model lists the amenities in link order, as `ResolvedLinks`. The source reads an ORM relationship loaded without an ordering, so the row order is unspecified there.
- PlacesViews.UpdatePlace: a body key `amenities` is stored as a plain attribute. With the database, `place.amenities` is the link relationship: an empty list would clear the links, and a list of id strings cannot be assigned, so the request would fail with 500. Neither is modelled.
- PlacesViews.CreatePlace: as for updates, a body key `amenities` is stored as a plain attribute, while with the database the constructor writes the link relationship through it.
- JSON numbers are integers; floating point is not modelled. No handler computes with numbers.
- `to_dict` and the Place constructor live in model files that are not part of this model. Records carry the attributes plus `id`, `city_id`, `user_id` and `__class__`. Timestamps (`created_at`, `updated_at`) are not modelled.
- PlacesViews.CreatePlace: the new id is a parameter assumed fresh, standing for the constructor's `uuid4`. An `id`, `created_at`, `updated_at` or `__class__` key in the body is not modelled as reaching the record.
- PlacesViews.UpdatePlace: with file storage, for the key `amenity_ids` the source stores the body's value itself. The model stores the string elements of a list value, and the empty list for any other value.
- PlacesViews.CreatePlace: with file storage, a body `amenity_ids` is handed to the constructor as it is. The model keeps the string elements of a list value, and the empty list for any other value.
- PlacesViews.UpdatePlace: a body key `__class__` makes Python's `setattr` raise; the model stores it as an ordinary attribute (which `to_dict` then overrides).
- PlacesViews.SearchPlaces: a filter value that is not a list is treated as listing nothing. Python iterates a string character by character and an object by its keys, and raises `TypeError` on a number or `true`. A non-string element of a list never resolves.
- Each place is assumed to own its `amenity_ids` list; whether the Place class shares a class-level default list is decided by a model file not part of this model.
- Places are values in the store's table. An update replaces the table entry; aliasing of Place objects is not modelled.
- `storage.save()` persistence, the file and SQLAlchemy engines, and any cascade the database applies on delete. The database view of a place's amenities is modelled as the linked ids that still exist.
- Concurrent requests racing on the shared storage object.

## Findings

| source | as written | input that shows it | evidently intended | confidence | as-written member | corrected member |
|---|---|---|---|---|---|---|
| api/v1/views/places.py:125-135 | `Amenity` is never imported, so a true `amenities` filter raises NameError at line 130 (HTTP 500). With the import added, line 127 binds a dict view that has no `append`. Line 135 appends to the list walked at line 133, so nothing is removed and the loop never ends once a place matches. | `POST /places_search` with body `{"amenities": ["a1"]}` | keep, in order, the places linked to every requested amenity that exists | high (not executed) | `PlacesViews.SearchPlacesAsWritten` | `PlacesViews.FilterByAmenities` |
| api/v1/views/places_amenities.py:45 | `storage.delete(amenity)` deletes the Amenity record, so the amenity vanishes for every place, while the place's `amenity_ids` keeps a stale id | `DELETE /places/p1/amenities/a1` when place `p2` is also linked to `a1` | remove only the link between this place and this amenity | medium (not executed) | `PlacesAmenitiesViews.DeleteAmenity` | `PlacesAmenitiesViews.UnlinkAmenity` |

The lemmas `PlacesViews.AppendKeepsPrefix` and `PlacesViews.AppendNeverEnds` model lines 133-135 as written with the import
set aside. `PlacesAmenitiesViews.DeleteVersusUnlink` compares the two delete routes on a second linked place.
