/** The Kakao Local adapter of the two-provider module: forward geocoding
    (`geocode_address`) and reverse geocoding (`reverse_geocode_coords`),
    each given the outcome of its one HTTP request. */
module KakaoAdapter {
  import opened Python
  import opened Schema

  /** The body of the `try` block once the response is decoded. */
  function ForwardFromBody(data: Value, parseText: string -> Option<real>): Outcome<Option<Record>> {
    var documents :- Get(data, "documents", List([]));
    if !Truthy(documents) then Ok(None)
    else
      var doc :- First(documents);
      if !doc.Dict? then Raised
      else
        var longitude :- Coordinate(doc.entries, "x", parseText);
        var latitude :- Coordinate(doc.entries, "y", parseText);
        Ok(Some(map[
          Longitude := longitude,
          Latitude := latitude,
          AddressName := Lookup(doc.entries, "address_name", Str("")),
          AddressType := Lookup(doc.entries, "address_type", Str(""))
        ]))
  }

  /** `geocode_address(address)`; `response` is what its request returned. */
  function GeocodeAddress(address: Value, response: Response, parseText: string -> Option<real>): (r: Option<Record>)
    // a missing or empty address returns before any request is made
    ensures IsNa(address) || address == Str("") ==> r == None
    // HTTP errors and failed requests are swallowed
    ensures !response.Body? ==> r == None
    // no documents: no match
    ensures (response.Body? && response.json.Dict?
             && !Truthy(Lookup(response.json.entries, "documents", List([])))) ==> r == None
    ensures r.Some? ==> r.value.Keys == KakaoForwardKeys
    // the result is read from the first document only
    ensures r.Some? ==> FirstDocument(response, "documents").Some?
    ensures r.Some? ==>
              var doc := FirstDocument(response, "documents").value;
              && Coordinate(doc, "x", parseText) == Ok(r.value[Longitude])
              && Coordinate(doc, "y", parseText) == Ok(r.value[Latitude])
              && r.value[AddressName] == Lookup(doc, "address_name", Str(""))
              && r.value[AddressType] == Lookup(doc, "address_type", Str(""))
    // a missing or empty x or y becomes 0
    ensures r.Some? ==>
              var doc := FirstDocument(response, "documents").value;
              && (!Truthy(Lookup(doc, "x", Null)) ==> r.value[Longitude] == Float(0.0))
              && (!Truthy(Lookup(doc, "y", Null)) ==> r.value[Latitude] == Float(0.0))
    // and conversely a first document whose coordinates convert always yields a result
    ensures (!IsNa(address) && address != Str("") && FirstDocument(response, "documents").Some?
             && Coordinate(FirstDocument(response, "documents").value, "x", parseText).Ok?
             && Coordinate(FirstDocument(response, "documents").value, "y", parseText).Ok?) ==> r.Some?
  {
    if IsNa(address) || address == Str("") then None
    else match response
      case Body(data) => (match ForwardFromBody(data, parseText) case Ok(v) => v case Raised => None)
      case _ => None
  }

  /** The vendor object a reverse-result namespace is read from:
      `if key in doc and doc[key]:` takes `doc[key]` (which must then be a
      dict for `.get` to work), and anything else blanks the namespace,
      represented by `Null`. */
  function NamespaceObject(doc: Value, key: string): (r: Outcome<Value>)
    ensures r.Ok? ==> r.value == Null || (r.value.Dict? && r.value.entries != map[])
    // on a dict document: the truthy object under `key`, raising exactly when it is no dict
    ensures doc.Dict? ==> (r.Raised? <==> !WellFormedObject(Lookup(doc.entries, key, Null)))
    ensures r.Ok? && doc.Dict? ==> r.value == Selected(doc.entries, key)
    // on any other document the membership test must fail for the namespace to be blanked
    ensures !doc.Dict? ==> (r.Ok? <==> Contains(doc, key) == Ok(false)) && (r.Ok? ==> r.value == Null)
  {
    var present :- Contains(doc, key);
    if !present then Ok(Null)
    else
      var obj :- Subscript(doc, key);
      if !Truthy(obj) then Ok(Null)
      else if obj.Dict? then Ok(obj)
      else Raised
  }

  /** The two namespace objects of the first document of a decoded body, or
      None when there are no documents. */
  function ReverseFromBody(data: Value): Outcome<Option<(Value, Value)>> {
    var documents :- Get(data, "documents", List([]));
    if !Truthy(documents) then Ok(None)
    else
      var doc :- First(documents);
      var road :- NamespaceObject(doc, "road_address");
      var addr :- NamespaceObject(doc, "address");
      Ok(Some((road, addr)))
  }

  /** Whether `reverse_geocode_coords` returns a dict, and if so the road
      and lot-number vendor objects it is read from (`Null` for a blanked
      namespace). `written` says whether the debug dump, when one is asked
      for, was written: a failed write raises inside the try. */
  function ReverseObjects(lon: Value, lat: Value, saveJson: Option<string>,
                          written: bool, response: Response): (r: Option<(Value, Value)>)
    // a missing coordinate returns before any request is made
    ensures IsNa(lon) || IsNa(lat) ==> r == None
    // HTTP errors, failed requests and failed dumps are swallowed
    ensures !response.Body? ==> r == None
    ensures DumpRequested(saveJson) && !written ==> r == None
    // no documents: no result
    ensures (response.Body? && response.json.Dict?
             && !Truthy(Lookup(response.json.entries, "documents", List([])))) ==> r == None
    // a result is read from the first document only: an absent, null or
    // empty vendor object blanks its namespace, and a present one is used as is
    ensures r.Some? && FirstDocument(response, "documents").Some? ==>
              var doc := FirstDocument(response, "documents").value;
              && r.value.0 == Selected(doc, "road_address")
              && r.value.1 == Selected(doc, "address")
  {
    if IsNa(lon) || IsNa(lat) then None
    else match response
      case Body(data) =>
        if DumpRequested(saveJson) && !written then None
        else (match ReverseFromBody(data) case Ok(v) => v case Raised => None)
      case _ => None
  }

  /** The object under `key` in a document when it is truthy, else `Null`. */
  function Selected(doc: map<string, Value>, key: string): Value {
    var obj := Lookup(doc, key, Null);
    if Truthy(obj) then obj else Null
  }

  /** A first document whose two namespace objects are each falsy or a dict
      always yields a result. */
  lemma {:induction false} ReverseSucceeds(lon: Value, lat: Value, saveJson: Option<string>,
                                           written: bool, response: Response)
    requires !IsNa(lon) && !IsNa(lat) && (DumpRequested(saveJson) ==> written)
    requires FirstDocument(response, "documents").Some?
    requires WellFormedObject(Lookup(FirstDocument(response, "documents").value, "road_address", Null))
    requires WellFormedObject(Lookup(FirstDocument(response, "documents").value, "address", Null))
    ensures ReverseObjects(lon, lat, saveJson, written, response).Some?
  {
    var doc := response.json.entries["documents"].items[0];
    assert First(response.json.entries["documents"]) == Ok(doc);
    assert NamespaceObject(doc, "road_address").Ok?;
    assert NamespaceObject(doc, "address").Ok?;
  }

  /** One reverse-result field read from a namespace object: its vendor
      field, "" when the vendor left it out, and "" for a blanked namespace. */
  function Field(obj: Value, k: Key): Value {
    if obj.Dict? then Lookup(obj.entries, KakaoField(k), Str("")) else Str("")
  }

  /** The value of key `k` of a reverse result read from `road` and `addr`. */
  function ReverseField(road: Value, addr: Value, k: Key): Value {
    Field(if InRoad(k, true) then road else addr, k)
  }

  /** A blanked namespace has every key set to "". */
  lemma BlankedNamespace(road: Value, addr: Value, details: bool)
    ensures !road.Dict? ==> forall k :: k in RoadKeys(details) ==> ReverseField(road, addr, k) == Str("")
    ensures !addr.Dict? ==> forall k :: k in AddressKeys(details) ==> ReverseField(road, addr, k) == Str("")
  {
    KeySetsByConstructor(details);
  }

  /** `reverse_geocode_coords`, building the result dict one key at a time. */
  method ReverseGeocodeCoords(lon: Value, lat: Value, details: bool, saveJson: Option<string>,
                              written: bool, response: Response) returns (r: Option<Record>)
    ensures r.Some? <==> ReverseObjects(lon, lat, saveJson, written, response).Some?
    ensures r.Some? ==> r.value.Keys == ReverseKeys(details)
    ensures r.Some? ==>
              var (road, addr) := ReverseObjects(lon, lat, saveJson, written, response).value;
              forall k :: k in r.value ==> r.value[k] == ReverseField(road, addr, k)
  {
    if IsNa(lon) || IsNa(lat) || !response.Body? {
      return None;
    }
    var data := response.json;
    if (DumpRequested(saveJson) && !written) || !data.Dict? {
      return None;
    }
    var documents := Lookup(data.entries, "documents", List([]));
    if !Truthy(documents) {
      return None;
    }
    var first := First(documents);
    if first.Raised? {
      return None;
    }
    var doc := first.value;
    var result: Record := map[];
    var road := RoadBlock(result, doc, details);
    if road.Raised? {
      return None;
    }
    result := road.value;
    var addr := AddressBlock(result, doc, details);
    if addr.Raised? {
      return None;
    }
    result := addr.value;
    KeySetsByConstructor(details);
    return Some(result);
  }

  /** The `road_address` block of `reverse_geocode_coords`: the road keys
      filled from `doc["road_address"]` when that is present and truthy, and
      set to "" otherwise; it raises when the object is truthy but no dict. */
  method RoadBlock(result: Record, doc: Value, details: bool) returns (out: Outcome<Record>)
    ensures out.Ok? <==> NamespaceObject(doc, "road_address").Ok?
    ensures out.Ok? ==> forall k :: k in out.value <==> k in result || InRoad(k, details)
    ensures out.Ok? ==> forall k :: k in out.value ==>
              out.value[k] == if InRoad(k, details) then Field(NamespaceObject(doc, "road_address").value, k) else result[k]
  {
    var road, ok := Present(doc, "road_address");
    if !ok {
      return Raised;
    }
    if Truthy(road) {
      if !road.Dict? {
        return Raised;
      }
      var m := road.entries;
      var filled := FillRoad(result, s => Lookup(m, s, Str("")), details);
      return Ok(filled);
    } else {
      var filled := FillRoad(result, s => Str(""), details);
      return Ok(filled);
    }
  }

  /** The `address` block, like RoadBlock for the lot-number keys. */
  method AddressBlock(result: Record, doc: Value, details: bool) returns (out: Outcome<Record>)
    ensures out.Ok? <==> NamespaceObject(doc, "address").Ok?
    ensures out.Ok? ==> forall k :: k in out.value <==> k in result || InAddress(k, details)
    ensures out.Ok? ==> forall k :: k in out.value ==>
              out.value[k] == if InAddress(k, details) then Field(NamespaceObject(doc, "address").value, k) else result[k]
  {
    var addr, ok := Present(doc, "address");
    if !ok {
      return Raised;
    }
    if Truthy(addr) {
      if !addr.Dict? {
        return Raised;
      }
      var m := addr.entries;
      var filled := FillAddress(result, s => Lookup(m, s, Str("")), details);
      return Ok(filled);
    } else {
      var filled := FillAddress(result, s => Str(""), details);
      return Ok(filled);
    }
  }

  /** `key in doc and doc[key]` up to the truth test: the object under `key`
      when `key in doc` (Null when it is not), with `ok` false when the
      membership test or the subscript raises. */
  method Present(doc: Value, key: string) returns (obj: Value, ok: bool)
    ensures ok <==> Contains(doc, key).Ok? && (Contains(doc, key).value ==> Subscript(doc, key).Ok?)
    ensures ok && Contains(doc, key).value ==> obj == Subscript(doc, key).value
    ensures ok && !Contains(doc, key).value ==> obj == Null
  {
    var present := Contains(doc, key);
    if present.Raised? {
      return Null, false;
    }
    if !present.value {
      return Null, true;
    }
    var sub := Subscript(doc, key);
    if sub.Raised? {
      return Null, false;
    }
    return sub.value, true;
  }

  /** The road-address block: the road keys of the result set one by one,
      each from `get` applied to its Kakao field name (`road.get(name, "")`
      for a present object, `""` for a blanked namespace). */
  method FillRoad(result: Record, get: string -> Value, details: bool) returns (out: Record)
    ensures forall k :: k in out <==> k in result || InRoad(k, details)
    ensures forall k :: k in out ==> out[k] == if InRoad(k, details) then get(KakaoField(k)) else result[k]
  {
    out := result;
    out := out[RoadAddress := get(AddressNameField)];
    out := out[RoadZoneNo := get(ZoneNoField)];
    if details {
      out := out[RoadRegion1 := get(Region1Field)];
      out := out[RoadRegion2 := get(Region2Field)];
      out := out[RoadRegion3 := get(Region3Field)];
      out := out[RoadName := get(RoadNameField)];
      out := out[RoadMainBuildingNo := get(MainBuildingNoField)];
      out := out[RoadSubBuildingNo := get(SubBuildingNoField)];
      out := out[RoadBuildingName := get(BuildingNameField)];
      out := out[RoadUndergroundYn := get(UndergroundYnField)];
    }
  }

  /** The lot-number-address block, like FillRoad for the lot-number keys. */
  method FillAddress(result: Record, get: string -> Value, details: bool) returns (out: Record)
    ensures forall k :: k in out <==> k in result || InAddress(k, details)
    ensures forall k :: k in out ==> out[k] == if InAddress(k, details) then get(KakaoField(k)) else result[k]
  {
    out := result;
    out := out[Address := get(AddressNameField)];
    if details {
      out := out[AddressRegion1 := get(Region1Field)];
      out := out[AddressRegion2 := get(Region2Field)];
      out := out[AddressRegion3 := get(Region3Field)];
      out := out[AddressRegion3H := get(Region3HField)];
      out := out[AddressHCode := get(HCodeField)];
      out := out[AddressBCode := get(BCodeField)];
      out := out[AddressMainNo := get(MainAddressNoField)];
      out := out[AddressSubNo := get(SubAddressNoField)];
      out := out[AddressMountainYn := get(MountainYnField)];
    }
  }
}
