/** The flat result schema both providers are normalised into, the detail
    columns the batch runners write, and the inputs every adapter call
    receives from outside the core. */
module Schema {
  import opened Python

  /** What one HTTP request hands back: the decoded body of a response that
      passed `raise_for_status()`, an HTTP error status, or any other
      failure (timeout, connection error, undecodable body). */
  datatype Response = Body(json: Value) | HttpError(status: int) | Failed

  /** `if save_json:` inside an adapter: a debug dump was asked for. */
  predicate DumpRequested(saveJson: Option<string>) {
    saveJson.Some? && saveJson.value != ""
  }

  /** The first element of the list under `listKey` in a decoded body, when
      the body is a dict and that element is a dict itself. */
  function FirstDocument(response: Response, listKey: string): Option<map<string, Value>> {
    if response.Body? && response.json.Dict? && listKey in response.json.entries then
      var docs := response.json.entries[listKey];
      if docs.List? && docs.items != [] && docs.items[0].Dict? then Some(docs.items[0].entries) else None
    else None
  }

  /** `float(doc.get(key, 0) or 0)`: a missing or falsy coordinate counts as 0. */
  function Coordinate(doc: map<string, Value>, key: string, parseText: string -> Option<real>): Outcome<Value> {
    var x :- ToFloat(Or(Lookup(doc, key, Int(0)), Int(0)), parseText);
    Ok(Float(x))
  }

  /** The keys a result dict of either adapter can hold; `Name` is the
      string each one is stored under. */
  datatype Key =
    | Longitude | Latitude | AddressName | AddressType
    | RoadAddress | RoadZoneNo | RoadRegion1 | RoadRegion2 | RoadRegion3 | RoadName
    | RoadMainBuildingNo | RoadSubBuildingNo | RoadBuildingName | RoadUndergroundYn
    | Address | AddressRegion1 | AddressRegion2 | AddressRegion3 | AddressRegion3H
    | AddressHCode | AddressBCode | AddressMainNo | AddressSubNo | AddressMountainYn

  function Name(k: Key): string {
    match k
    case Longitude => "longitude"
    case Latitude => "latitude"
    case AddressName => "address_name"
    case AddressType => "address_type"
    case RoadAddress => "road_address"
    case RoadZoneNo => "road_zone_no"
    case RoadRegion1 => "road_region_1depth"
    case RoadRegion2 => "road_region_2depth"
    case RoadRegion3 => "road_region_3depth"
    case RoadName => "road_name"
    case RoadMainBuildingNo => "road_main_building_no"
    case RoadSubBuildingNo => "road_sub_building_no"
    case RoadBuildingName => "road_building_name"
    case RoadUndergroundYn => "road_underground_yn"
    case Address => "address"
    case AddressRegion1 => "address_region_1depth"
    case AddressRegion2 => "address_region_2depth"
    case AddressRegion3 => "address_region_3depth"
    case AddressRegion3H => "address_region_3depth_h"
    case AddressHCode => "address_h_code"
    case AddressBCode => "address_b_code"
    case AddressMainNo => "address_main_no"
    case AddressSubNo => "address_sub_no"
    case AddressMountainYn => "address_mountain_yn"
  }

  /** Length, first character and seventeenth character: enough to tell
      every key name apart. */
  function Fingerprint(s: string): (int, char, char) {
    (|s|, if |s| > 0 then s[0] else ' ', if |s| > 16 then s[16] else ' ')
  }

  /** No two keys share a name, so a result dict keyed by `Key` is a dict
      keyed by the names. */
  lemma NameInjective(a: Key, b: Key)
    ensures Name(a) == Name(b) ==> a == b
  {
    if Name(a) == Name(b) {
      assert Fingerprint(Name(a)) == Fingerprint(Name(b));
    }
  }

  /** A flat result dict as the adapters return it. */
  type Record = map<Key, Value>

  /** Keys of a forward-geocoding result. */
  const KakaoForwardKeys: set<Key> := {Longitude, Latitude, AddressName, AddressType}
  const NaverForwardKeys: set<Key> := {Longitude, Latitude, RoadAddress, Address}

  /** The road-address namespace of a reverse result. */
  const RoadHeadlineKeys: set<Key> := {RoadAddress, RoadZoneNo}
  const RoadDetailKeys: set<Key> := {
    RoadRegion1, RoadRegion2, RoadRegion3, RoadName,
    RoadMainBuildingNo, RoadSubBuildingNo, RoadBuildingName, RoadUndergroundYn
  }
  /** The lot-number-address namespace of a reverse result. */
  const AddressHeadlineKeys: set<Key> := {Address}
  const AddressDetailKeys: set<Key> := {
    AddressRegion1, AddressRegion2, AddressRegion3, AddressRegion3H,
    AddressHCode, AddressBCode, AddressMainNo, AddressSubNo, AddressMountainYn
  }

  function RoadKeys(details: bool): set<Key> {
    RoadHeadlineKeys + (if details then RoadDetailKeys else {})
  }

  function AddressKeys(details: bool): set<Key> {
    AddressHeadlineKeys + (if details then AddressDetailKeys else {})
  }

  /** The key set of a Kakao reverse result. */
  function ReverseKeys(details: bool): set<Key> {
    RoadKeys(details) + AddressKeys(details)
  }

  /** Membership in the road namespace, by constructor. */
  predicate InRoad(k: Key, details: bool) {
    match k
    case RoadAddress | RoadZoneNo => true
    case RoadRegion1 | RoadRegion2 | RoadRegion3 | RoadName
       | RoadMainBuildingNo | RoadSubBuildingNo | RoadBuildingName | RoadUndergroundYn => details
    case _ => false
  }

  /** Membership in the lot-number namespace, by constructor. */
  predicate InAddress(k: Key, details: bool) {
    match k
    case Address => true
    case AddressRegion1 | AddressRegion2 | AddressRegion3 | AddressRegion3H
       | AddressHCode | AddressBCode | AddressMainNo | AddressSubNo | AddressMountainYn => details
    case _ => false
  }

  /** The two namespace predicates describe the two key sets. */
  lemma KeySetsByConstructor(details: bool)
    ensures forall k :: k in RoadKeys(details) <==> InRoad(k, details)
    ensures forall k :: k in AddressKeys(details) <==> InAddress(k, details)
    ensures forall k :: k in ReverseKeys(details) <==> InRoad(k, details) || InAddress(k, details)
  {
  }

  /** The two headline columns every reverse pass writes. */
  const HeadlineKeys: set<Key> := {RoadAddress, Address}

  /** The detail columns, in the order the batch runner writes them. */
  const DetailColumns: seq<Key> := [
    RoadZoneNo, RoadRegion1, RoadRegion2, RoadRegion3, RoadName,
    RoadMainBuildingNo, RoadSubBuildingNo, RoadBuildingName, RoadUndergroundYn,
    AddressRegion1, AddressRegion2, AddressRegion3, AddressRegion3H,
    AddressHCode, AddressBCode, AddressMainNo, AddressSubNo, AddressMountainYn
  ]

  /** The detail-mode result schema is the two headline keys plus exactly
      the eighteen detail columns; without details a
      Kakao result has the two headline keys and the road postal code. */
  lemma DetailColumnsCompleteSchema()
    ensures forall k :: k in ReverseKeys(true) - HeadlineKeys <==> k in DetailColumns
    ensures HeadlineKeys !! set k | k in DetailColumns
    ensures ReverseKeys(false) == {RoadAddress, RoadZoneNo, Address}
    ensures |DetailColumns| == 18
  {
    DetailColumnsElements();
    DetailKeys();
    HeadlinesNotDetails();
    BriefKeys();
  }

  lemma BriefKeys()
    ensures ReverseKeys(false) == {RoadAddress, RoadZoneNo, Address}
  {
  }

  lemma HeadlinesNotDetails()
    ensures HeadlineKeys !! set k | k in DetailColumns
  {
  }

  lemma DetailColumnsElements()
    ensures forall k :: k in DetailColumns <==> k in RoadDetailKeys + AddressDetailKeys + {RoadZoneNo}
  {
  }

  lemma DetailKeys()
    ensures ReverseKeys(true) - HeadlineKeys == RoadDetailKeys + AddressDetailKeys + {RoadZoneNo}
  {
  }

  /** Field names of a Kakao `road_address` / `address` object. */
  const AddressNameField := "address_name"
  const ZoneNoField := "zone_no"
  const Region1Field := "region_1depth_name"
  const Region2Field := "region_2depth_name"
  const Region3Field := "region_3depth_name"
  const Region3HField := "region_3depth_h_name"
  const RoadNameField := "road_name"
  const MainBuildingNoField := "main_building_no"
  const SubBuildingNoField := "sub_building_no"
  const BuildingNameField := "building_name"
  const UndergroundYnField := "underground_yn"
  const HCodeField := "h_code"
  const BCodeField := "b_code"
  const MainAddressNoField := "main_address_no"
  const SubAddressNoField := "sub_address_no"
  const MountainYnField := "mountain_yn"

  /** The Kakao object field behind each reverse-result key. */
  function KakaoField(key: Key): string {
    match key
    case RoadAddress => AddressNameField
    case RoadZoneNo => ZoneNoField
    case RoadRegion1 => Region1Field
    case RoadRegion2 => Region2Field
    case RoadRegion3 => Region3Field
    case RoadName => RoadNameField
    case RoadMainBuildingNo => MainBuildingNoField
    case RoadSubBuildingNo => SubBuildingNoField
    case RoadBuildingName => BuildingNameField
    case RoadUndergroundYn => UndergroundYnField
    case Address => AddressNameField
    case AddressRegion1 => Region1Field
    case AddressRegion2 => Region2Field
    case AddressRegion3 => Region3Field
    case AddressRegion3H => Region3HField
    case AddressHCode => HCodeField
    case AddressBCode => BCodeField
    case AddressMainNo => MainAddressNoField
    case AddressSubNo => SubAddressNoField
    case AddressMountainYn => MountainYnField
    case _ => Name(key)
  }
}
