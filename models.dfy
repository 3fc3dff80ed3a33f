/**
 * JSON values, the entity records the handlers read and write, their
 * dictionary form, and the result a request handler produces.
 */
module Models {
  import opened Collections

  datatype Option<+T> = None | Some(value: T)

  /** A decoded JSON value. Numbers are integers: floating point is not modelled. */
  datatype Json =
    | JNull
    | JBool(b: bool)
    | JNum(n: int)
    | JStr(s: string)
    | JList(items: seq<Json>)
    | JObj(fields: map<string, Json>)

  /** A JSON object, and the attribute dictionary of a record. */
  type Dict = map<string, Json>

  /** Python's truth value of a decoded JSON value: null, false, 0, "", [] and {} are false. */
  predicate Truthy(v: Json) {
    match v
    case JNull => false
    case JBool(b) => b
    case JNum(n) => n != 0
    case JStr(s) => s != ""
    case JList(items) => items != []
    case JObj(fields) => fields != map[]
  }

  /** `d.get(key, None)`. */
  function Field(d: Dict, key: string): Json {
    if key in d then d[key] else JNull
  }

  /** The elements a `for` loop visits in a filter value; a value that is not a list yields none. */
  function Items(v: Json): seq<Json> {
    if v.JList? then v.items else []
  }

  /** The string elements of a list, in order: an id list as an attribute holds it. */
  function Strings(items: seq<Json>): (ids: seq<string>)
    ensures forall id :: id in ids <==> JStr(id) in items
  {
    if items == [] then []
    else (if items[0].JStr? then [items[0].s] else []) + Strings(items[1..])
  }

  /** `storage.get(cls, v)` finds a record: `v` is a string id that the table holds. */
  predicate Resolves<T>(table: map<string, T>, v: Json) {
    v.JStr? && v.s in table
  }

  /** A State; its attributes play no part here. */
  datatype State = State(attrs: Dict)

  /** A City belongs to the State `stateId`. */
  datatype City = City(stateId: string, attrs: Dict)

  /** A User; only its existence is checked here. */
  datatype User = User(attrs: Dict)

  /** An Amenity with its attributes (name, ...). */
  datatype Amenity = Amenity(attrs: Dict)

  /**
   * A Place: its City, its owning User, the ids of the Amenities linked to it
   * (the inline `amenity_ids` list of file storage, or the rows of the join
   * table of the database), and its other attributes (name, description,
   * number_rooms, price_by_night, ...).
   */
  datatype Place = Place(cityId: string, userId: string, amenityIds: seq<string>, attrs: Dict)

  /** The keys `to_dict` always writes from the record itself. */
  const RecordKeys: set<string> := {"id", "city_id", "user_id", "__class__"}

  /** The id a dictionary carries under "id", or "" when it carries none. */
  function IdOf(d: Dict): string {
    if "id" in d && d["id"].JStr? then d["id"].s else ""
  }

  /** The ids of a list of dictionaries, in order. */
  function Ids(items: seq<Dict>): (ids: seq<string>)
    ensures |ids| == |items|
    ensures forall i :: 0 <= i < |items| ==> ids[i] == IdOf(items[i])
  {
    seq(|items|, i requires 0 <= i < |items| => IdOf(items[i]))
  }

  /** `place.to_dict()`: the attributes, with id, city_id, user_id and the class name on top. */
  function PlaceDict(id: string, p: Place): (d: Dict)
    ensures IdOf(d) == id
    ensures "city_id" in d && d["city_id"] == JStr(p.cityId)
    ensures "user_id" in d && d["user_id"] == JStr(p.userId)
    ensures forall k :: k in p.attrs && k !in RecordKeys ==> k in d && d[k] == p.attrs[k]
    ensures forall k :: k in d ==> k in p.attrs || k in RecordKeys
  {
    p.attrs + map["id" := JStr(id), "city_id" := JStr(p.cityId), "user_id" := JStr(p.userId),
                  "__class__" := JStr("Place")]
  }

  /** `amenity.to_dict()`. */
  function AmenityDict(id: string, a: Amenity): (d: Dict)
    ensures IdOf(d) == id
    ensures forall k :: k in a.attrs && k !in RecordKeys ==> k in d && d[k] == a.attrs[k]
  {
    a.attrs + map["id" := JStr(id), "__class__" := JStr("Amenity")]
  }

  /** `[place.to_dict() for place in ...]` over the places `ids`. */
  function PlaceDicts(places: map<string, Place>, ids: seq<string>): (ds: seq<Dict>)
    requires forall id :: id in ids ==> id in places
    ensures Ids(ds) == ids
    ensures forall d :: d in ds ==> IdOf(d) in places && d == PlaceDict(IdOf(d), places[IdOf(d)])
  {
    seq(|ids|, i requires 0 <= i < |ids| => PlaceDict(ids[i], places[ids[i]]))
  }

  /** `[amenity.to_dict() for amenity in ...]` over the amenities `ids`. */
  function AmenityDicts(amenities: map<string, Amenity>, ids: seq<string>): (ds: seq<Dict>)
    requires forall id :: id in ids ==> id in amenities
    ensures Ids(ds) == ids
    ensures forall d :: d in ds ==> IdOf(d) in amenities && d == AmenityDict(IdOf(d), amenities[IdOf(d)])
  {
    seq(|ids|, i requires 0 <= i < |ids| => AmenityDict(ids[i], amenities[ids[i]]))
  }

  /**
   * Every dictionary of `items` is the `to_dict` of the stored place it names,
   * and the names are exactly the places of `wanted`, each once.
   */
  ghost predicate PlaceRecords(places: map<string, Place>, items: seq<Dict>, wanted: set<string>) {
    && NoDups(Ids(items))
    && (forall id :: id in Ids(items) <==> id in wanted)
    && (forall d :: d in items ==> IdOf(d) in places && d == PlaceDict(IdOf(d), places[IdOf(d)]))
  }

  /** The body of a successful response. */
  datatype Body = Record(fields: Dict) | Records(items: seq<Dict>)

  /**
   * What a handler returns: `jsonify(body), code`, or `abort(code, message)`.
   * An `abort(code)` without a description has message "" (Flask's default text).
   */
  datatype Response = Ok(code: int, body: Body) | Abort(code: int, message: string)
}
