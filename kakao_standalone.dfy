/** The Kakao-only module: its adapter (`_geocode_address`,
    `_reverse_geocode_coords`) and its batch runners (`geocode`,
    `reverse_geocode`), which share the lazily built adapter instance. */
module KakaoStandalone {
  import opened Python
  import opened Schema
  import opened Dispatch
  import KakaoAdapter
  import Batch

  // ------------------------------------------------------------- forward

  /** `float(doc.get(key, 0))`: a missing coordinate counts as 0, but a null
      or empty one raises. */
  function RawCoordinate(doc: map<string, Value>, key: string, parseText: string -> Option<real>): Outcome<Value> {
    var x :- ToFloat(Lookup(doc, key, Int(0)), parseText);
    Ok(Float(x))
  }

  /** The body of the `try` block of `_geocode_address` once the response
      is decoded. */
  function ForwardFromBody(data: Value, parseText: string -> Option<real>): Outcome<Option<Record>> {
    var documents :- Get(data, "documents", List([]));
    if !Truthy(documents) then Ok(None)
    else
      var doc :- First(documents);
      if !doc.Dict? then Raised
      else
        var longitude :- RawCoordinate(doc.entries, "x", parseText);
        var latitude :- RawCoordinate(doc.entries, "y", parseText);
        Ok(Some(map[
          Longitude := longitude,
          Latitude := latitude,
          AddressName := Lookup(doc.entries, "address_name", Str("")),
          AddressType := Lookup(doc.entries, "address_type", Str(""))
        ]))
  }

  /** `_geocode_address(address)`; `response` is what its request returned. */
  function GeocodeAddress(address: Value, response: Response, parseText: string -> Option<real>): (r: Option<Record>)
    ensures IsNa(address) || address == Str("") ==> r == None
    ensures !response.Body? ==> r == None
    ensures r.Some? ==> r.value.Keys == KakaoForwardKeys
    ensures r.Some? ==> FirstDocument(response, "documents").Some?
    ensures r.Some? ==>
              var doc := FirstDocument(response, "documents").value;
              && RawCoordinate(doc, "x", parseText) == Ok(r.value[Longitude])
              && RawCoordinate(doc, "y", parseText) == Ok(r.value[Latitude])
              && r.value[AddressName] == Lookup(doc, "address_name", Str(""))
              && r.value[AddressType] == Lookup(doc, "address_type", Str(""))
    // a null or empty coordinate in the first document loses the match
    ensures (&& FirstDocument(response, "documents").Some?
             && (|| Lookup(FirstDocument(response, "documents").value, "x", Int(0)) in {Null, Str("")}
                 || Lookup(FirstDocument(response, "documents").value, "y", Int(0)) in {Null, Str("")})) ==> r == None
    // a document without a coordinate counts it as 0
    ensures r.Some? ==>
              var doc := FirstDocument(response, "documents").value;
              && ("x" !in doc ==> r.value[Longitude] == Float(0.0))
              && ("y" !in doc ==> r.value[Latitude] == Float(0.0))
    // and conversely a first document whose coordinates convert always yields a result
    ensures (!IsNa(address) && address != Str("") && FirstDocument(response, "documents").Some?
             && RawCoordinate(FirstDocument(response, "documents").value, "x", parseText).Ok?
             && RawCoordinate(FirstDocument(response, "documents").value, "y", parseText).Ok?) ==> r.Some?
  {
    if IsNa(address) || address == Str("") then None
    else match response
      case Body(data) => (match ForwardFromBody(data, parseText) case Ok(v) => v case Raised => None)
      case _ => None
  }

  /** Where the first document's coordinates are truthy the two Kakao
      adapters agree; a null `x` is 0 for the two-provider adapter but
      loses the match here. */
  lemma {:induction false} ForwardAgreesOnTruthyCoordinates(address: Value, response: Response, parseText: string -> Option<real>)
    requires FirstDocument(response, "documents").Some?
    requires Truthy(Lookup(FirstDocument(response, "documents").value, "x", Null))
    requires Truthy(Lookup(FirstDocument(response, "documents").value, "y", Null))
    ensures GeocodeAddress(address, response, parseText) == KakaoAdapter.GeocodeAddress(address, response, parseText)
  {
    var doc := FirstDocument(response, "documents").value;
    assert RawCoordinate(doc, "x", parseText) == Coordinate(doc, "x", parseText);
    assert RawCoordinate(doc, "y", parseText) == Coordinate(doc, "y", parseText);
    var documents := response.json.entries["documents"];
    assert First(documents) == Ok(Dict(doc));
  }

  // ------------------------------------------------------------- reverse

  /** The vendor object a namespace is read from: `if key in doc:` takes
      `doc[key]`, which must be a dict for `.get` to work (a JSON null
      raises); an absent key blanks the namespace, represented by `Null`. */
  function NamespaceObject(doc: Value, key: string): (r: Outcome<Value>)
    ensures r.Ok? ==> r.value == Null || r.value.Dict?
    ensures r.Ok? && doc.Dict? ==> r.value == Lookup(doc.entries, key, Null)
    ensures doc.Dict? && key in doc.entries && !doc.entries[key].Dict? ==> r == Raised
  {
    var present :- Contains(doc, key);
    if !present then Ok(Null)
    else
      var obj :- Subscript(doc, key);
      if obj.Dict? then Ok(obj) else Raised
  }

  /** The two namespace objects of the first document, or None when there
      are no documents. */
  function ReverseFromBody(data: Value): Outcome<Option<(Value, Value)>> {
    var documents :- Get(data, "documents", List([]));
    if !Truthy(documents) then Ok(None)
    else
      var doc :- First(documents);
      var road :- NamespaceObject(doc, "road_address");
      var addr :- NamespaceObject(doc, "address");
      Ok(Some((road, addr)))
  }

  /** Whether `_reverse_geocode_coords` returns a dict, and if so the road
      and lot-number objects it is read from. */
  function ReverseObjects(lon: Value, lat: Value, saveJson: Option<string>,
                          written: bool, response: Response): (r: Option<(Value, Value)>)
    ensures IsNa(lon) || IsNa(lat) ==> r == None
    ensures !response.Body? ==> r == None
    ensures DumpRequested(saveJson) && !written ==> r == None
    // no documents: no result
    ensures (response.Body? && response.json.Dict?
             && !Truthy(Lookup(response.json.entries, "documents", List([])))) ==> r == None
    ensures r.Some? && FirstDocument(response, "documents").Some? ==>
              var doc := FirstDocument(response, "documents").value;
              && r.value.0 == Lookup(doc, "road_address", Null)
              && r.value.1 == Lookup(doc, "address", Null)
  {
    if IsNa(lon) || IsNa(lat) then None
    else match response
      case Body(data) =>
        if DumpRequested(saveJson) && !written then None
        else (match ReverseFromBody(data) case Ok(v) => v case Raised => None)
      case _ => None
  }

  /** A present namespace whose object is no dict (JSON null included)
      loses the whole result, the other namespace with it. */
  lemma {:induction false} NonDictNamespaceLosesResult(lon: Value, lat: Value, saveJson: Option<string>,
                                                       written: bool, response: Response)
    requires FirstDocument(response, "documents").Some?
    requires var doc := FirstDocument(response, "documents").value;
             || ("road_address" in doc && !doc["road_address"].Dict?)
             || ("address" in doc && !doc["address"].Dict?)
    ensures ReverseObjects(lon, lat, saveJson, written, response) == None
  {
    var doc := FirstDocument(response, "documents").value;
    var documents := response.json.entries["documents"];
    assert First(documents) == Ok(Dict(doc));
    assert Get(response.json, "documents", List([])) == Ok(documents);
    assert ReverseFromBody(response.json) == Raised;
  }

  /** A first document whose present namespace keys hold dicts always
      yields a result: with NonDictNamespaceLosesResult, the result exists
      exactly when this holds. */
  lemma {:induction false} ReverseSucceeds(lon: Value, lat: Value, saveJson: Option<string>,
                                           written: bool, response: Response)
    requires !IsNa(lon) && !IsNa(lat) && (DumpRequested(saveJson) ==> written)
    requires FirstDocument(response, "documents").Some?
    requires var doc := FirstDocument(response, "documents").value;
             && ("road_address" in doc ==> doc["road_address"].Dict?)
             && ("address" in doc ==> doc["address"].Dict?)
    ensures ReverseObjects(lon, lat, saveJson, written, response).Some?
  {
    var doc := FirstDocument(response, "documents").value;
    var documents := response.json.entries["documents"];
    assert First(documents) == Ok(Dict(doc));
    assert NamespaceObject(Dict(doc), "road_address").Ok?;
    assert NamespaceObject(Dict(doc), "address").Ok?;
  }

  /** `_reverse_geocode_coords`, building the result dict one key at a time
      with the same blocks as the two-provider adapter. */
  method ReverseGeocodeCoords(lon: Value, lat: Value, details: bool, saveJson: Option<string>,
                              written: bool, response: Response) returns (r: Option<Record>)
    ensures r.Some? <==> ReverseObjects(lon, lat, saveJson, written, response).Some?
    ensures r.Some? ==> r.value.Keys == ReverseKeys(details)
    ensures r.Some? ==>
              var (road, addr) := ReverseObjects(lon, lat, saveJson, written, response).value;
              forall k :: k in r.value ==> r.value[k] == KakaoAdapter.ReverseField(road, addr, k)
  {
    if IsNa(lon) || IsNa(lat) || !response.Body? {
      return None;
    }
    var data := response.json;
    if (DumpRequested(saveJson) && !written) || !data.Dict? {
      return None;
    }
    var documents := Lookup(data.entries, "documents", List([]));
    if !Truthy(documents) {
      return None;
    }
    var first := First(documents);
    if first.Raised? {
      return None;
    }
    var doc := first.value;
    var result: Record := map[];
    var road := RoadBlock(result, doc, details);
    if road.Raised? {
      return None;
    }
    result := road.value;
    var addr := AddressBlock(result, doc, details);
    if addr.Raised? {
      return None;
    }
    result := addr.value;
    KeySetsByConstructor(details);
    return Some(result);
  }

  /** The `road_address` block: filled from `doc["road_address"]` when the
      key is present, blanked when it is absent. */
  method RoadBlock(result: Record, doc: Value, details: bool) returns (out: Outcome<Record>)
    ensures out.Ok? <==> NamespaceObject(doc, "road_address").Ok?
    ensures out.Ok? ==> forall k :: k in out.value <==> k in result || InRoad(k, details)
    ensures out.Ok? ==> forall k :: k in out.value ==>
              out.value[k] == if InRoad(k, details) then KakaoAdapter.Field(NamespaceObject(doc, "road_address").value, k) else result[k]
  {
    var present := Contains(doc, "road_address");
    if present.Raised? {
      return Raised;
    }
    if !present.value {
      var filled := KakaoAdapter.FillRoad(result, s => Str(""), details);
      return Ok(filled);
    }
    var road := Subscript(doc, "road_address");
    if road.Raised? || !road.value.Dict? {
      return Raised;
    }
    var m := road.value.entries;
    var filled := KakaoAdapter.FillRoad(result, s => Lookup(m, s, Str("")), details);
    return Ok(filled);
  }

  /** The `address` block, like RoadBlock for the lot-number keys. */
  method AddressBlock(result: Record, doc: Value, details: bool) returns (out: Outcome<Record>)
    ensures out.Ok? <==> NamespaceObject(doc, "address").Ok?
    ensures out.Ok? ==> forall k :: k in out.value <==> k in result || InAddress(k, details)
    ensures out.Ok? ==> forall k :: k in out.value ==>
              out.value[k] == if InAddress(k, details) then KakaoAdapter.Field(NamespaceObject(doc, "address").value, k) else result[k]
  {
    var present := Contains(doc, "address");
    if present.Raised? {
      return Raised;
    }
    if !present.value {
      var filled := KakaoAdapter.FillAddress(result, s => Str(""), details);
      return Ok(filled);
    }
    var addr := Subscript(doc, "address");
    if addr.Raised? || !addr.value.Dict? {
      return Raised;
    }
    var m := addr.value.entries;
    var filled := KakaoAdapter.FillAddress(result, s => Lookup(m, s, Str("")), details);
    return Ok(filled);
  }

  /** A response whose one document has a JSON-null `road_address` (the
      vendor's answer for a point without a road address) and a lot-number
      address. */
  function NullRoadResponse(): Response {
    Body(Dict(map["documents" := List([Dict(map["road_address" := Null,
                                                 "address" := Dict(map["address_name" := Str("1-1")])])])]))
  }

  /** On that response this module returns no result at all, while the
      two-provider adapter blanks the road namespace and keeps the lot-number
      address. */
  lemma NullRoadAddressLosesResult()
    ensures ReverseObjects(Float(127.0), Float(37.5), None, true, NullRoadResponse()) == None
    ensures KakaoAdapter.ReverseObjects(Float(127.0), Float(37.5), None, true, NullRoadResponse())
            == Some((Null, Dict(map["address_name" := Str("1-1")])))
    ensures KakaoAdapter.ReverseField(Null, Dict(map["address_name" := Str("1-1")]), Address) == Str("1-1")
  {
    var doc := Dict(map["road_address" := Null, "address" := Dict(map["address_name" := Str("1-1")])]);
    assert First(List([doc])) == Ok(doc);
    assert "address_name" in map["address_name" := Str("1-1")];
    assert NamespaceObject(doc, "road_address") == Raised;
    assert KakaoAdapter.NamespaceObject(doc, "road_address") == Ok(Null);
    assert KakaoAdapter.NamespaceObject(doc, "address") == Ok(Dict(map["address_name" := Str("1-1")]));
  }

  /** Wherever this module returns a result, the two-provider adapter
      returns one with the same value under every key. */
  lemma {:induction false} ReverseAgreesWhereDefined(lon: Value, lat: Value, saveJson: Option<string>,
                                                     written: bool, response: Response)
    requires ReverseObjects(lon, lat, saveJson, written, response).Some?
    ensures KakaoAdapter.ReverseObjects(lon, lat, saveJson, written, response).Some?
    ensures var (road, addr) := ReverseObjects(lon, lat, saveJson, written, response).value;
            var (road2, addr2) := KakaoAdapter.ReverseObjects(lon, lat, saveJson, written, response).value;
            forall k :: KakaoAdapter.ReverseField(road, addr, k) == KakaoAdapter.ReverseField(road2, addr2, k)
  {
    var doc := First(Lookup(response.json.entries, "documents", List([]))).value;
    var road := NamespaceObject(doc, "road_address").value;
    var addr := NamespaceObject(doc, "address").value;
    assert KakaoAdapter.NamespaceObject(doc, "road_address") == Ok(if Truthy(road) then road else Null);
    assert KakaoAdapter.NamespaceObject(doc, "address") == Ok(if Truthy(addr) then addr else Null);
  }

  // --------------------------------------------------------------- batch

  /** One row of `geocode`: `result["longitude"]` and `result["latitude"]`
      raise KeyError when a found result lacks them. */
  function StrictRow(row: Batch.Row, addressColumn: string, lonColumn: string, latColumn: string,
                     lookup: Value -> Option<Record>): Result<Batch.Row> {
    var result := lookup(Batch.Cell(row, addressColumn));
    if !Batch.Found(result) then Success(row)
    else if Longitude !in result.value then Failure(MissingKey(Name(Longitude)))
    else if Latitude !in result.value then Failure(MissingKey(Name(Latitude)))
    else Success(Batch.Row(row.index, row.cells[lonColumn := result.value[Longitude]][latColumn := result.value[Latitude]]))
  }

  /** The rows in order; the first row that raises ends the run. */
  function StrictRows(rows: seq<Batch.Row>, addressColumn: string, lonColumn: string, latColumn: string,
                      lookup: Value -> Option<Record>): Result<seq<Batch.Row>>
    decreases |rows|
  {
    if rows == [] then Success([])
    else
      var first :- StrictRow(rows[0], addressColumn, lonColumn, latColumn, lookup);
      Prepend([first], StrictRows(rows[1..], addressColumn, lonColumn, latColumn, lookup))
  }

  function StrictTable(t: Batch.Table, addressColumn: string, lonColumn: string, latColumn: string,
                       lookup: Value -> Option<Record>): Result<Batch.Table> {
    var rows :- StrictRows(t.rows, addressColumn, lonColumn, latColumn, lookup);
    Success(Batch.Table(t.columns, rows))
  }

  /** `done` followed by the outcome of the remaining rows. */
  function Prepend(done: seq<Batch.Row>, rest: Result<seq<Batch.Row>>): Result<seq<Batch.Row>> {
    var r :- rest;
    Success(done + r)
  }

  lemma PrependNothing(rest: Result<seq<Batch.Row>>)
    ensures Prepend([], rest) == rest
  {
    if rest.Success? {
      assert [] + rest.value == rest.value;
    }
  }

  lemma PrependTwice(done: seq<Batch.Row>, more: seq<Batch.Row>, rest: Result<seq<Batch.Row>>)
    ensures Prepend(done, Prepend(more, rest)) == Prepend(done + more, rest)
  {
    if rest.Success? {
      assert done + (more + rest.value) == (done + more) + rest.value;
    }
  }

  /** The row loop of `geocode`. */
  method StrictForwardRows(t: Batch.Table, addressColumn: string, lonColumn: string, latColumn: string,
                           lookup: Value -> Option<Record>) returns (r: Result<Batch.Table>)
    ensures r == StrictTable(t, addressColumn, lonColumn, latColumn, lookup)
  {
    var rows: seq<Batch.Row> := [];
    assert t.rows[0..] == t.rows;
    PrependNothing(StrictRows(t.rows, addressColumn, lonColumn, latColumn, lookup));
    for i := 0 to |t.rows|
      invariant StrictRows(t.rows, addressColumn, lonColumn, latColumn, lookup)
                == Prepend(rows, StrictRows(t.rows[i..], addressColumn, lonColumn, latColumn, lookup))
    {
      assert t.rows[i..][1..] == t.rows[i + 1..];
      var row := t.rows[i];
      var result := lookup(Batch.Cell(row, addressColumn));
      var cells := row.cells;
      if result.Some? && result.value != map[] {
        if Longitude !in result.value {
          return Failure(MissingKey(Name(Longitude)));
        }
        cells := cells[lonColumn := result.value[Longitude]];
        if Latitude !in result.value {
          return Failure(MissingKey(Name(Latitude)));
        }
        cells := cells[latColumn := result.value[Latitude]];
      }
      assert StrictRow(row, addressColumn, lonColumn, latColumn, lookup) == Success(Batch.Row(row.index, cells));
      PrependTwice(rows, [Batch.Row(row.index, cells)], StrictRows(t.rows[i + 1..], addressColumn, lonColumn, latColumn, lookup));
      rows := rows + [Batch.Row(row.index, cells)];
    }
    assert t.rows[|t.rows|..] == [];
    assert rows + [] == rows;
    return Success(Batch.Table(t.columns, rows));
  }

  /** When every found result carries both coordinates, the strict rows
      are exactly the rows of the two-provider runner. */
  lemma {:induction false} StrictRowsAgree(rows: seq<Batch.Row>, addressColumn: string, lonColumn: string, latColumn: string,
                                           lookup: Value -> Option<Record>)
    requires forall a :: Batch.Found(lookup(a)) ==> Longitude in lookup(a).value && Latitude in lookup(a).value
    ensures StrictRows(rows, addressColumn, lonColumn, latColumn, lookup).Success?
    ensures var done := StrictRows(rows, addressColumn, lonColumn, latColumn, lookup).value;
            |done| == |rows| &&
            forall i :: 0 <= i < |rows| ==> done[i] == Batch.ForwardRow(rows[i], addressColumn, lonColumn, latColumn, lookup)
    decreases |rows|
  {
    if rows != [] {
      StrictRowsAgree(rows[1..], addressColumn, lonColumn, latColumn, lookup);
      var a := Batch.Cell(rows[0], addressColumn);
      assert Batch.Found(lookup(a)) ==> Longitude in lookup(a).value && Latitude in lookup(a).value;
    }
  }

  /** Driven by this module's own adapter the strict runner never raises
      KeyError and writes what the two-provider runner writes. */
  lemma StrictNeverFailsOnKakao(t: Batch.Table, addressColumn: string, lonColumn: string, latColumn: string,
                                responses: Value -> Response, parseText: string -> Option<real>)
    ensures var lookup := a => GeocodeAddress(a, responses(a), parseText);
            StrictTable(t, addressColumn, lonColumn, latColumn, lookup)
            == Success(Batch.ForwardTable(t, addressColumn, lonColumn, latColumn, lookup))
  {
    var lookup := a => GeocodeAddress(a, responses(a), parseText);
    forall a | Batch.Found(lookup(a))
      ensures Longitude in lookup(a).value && Latitude in lookup(a).value
    {
      var g := GeocodeAddress(a, responses(a), parseText);
      assert lookup(a) == g;
      assert g.value.Keys == KakaoForwardKeys;
      assert Longitude in KakaoForwardKeys && Latitude in KakaoForwardKeys;
    }
    StrictRowsAgree(t.rows, addressColumn, lonColumn, latColumn, lookup);
    var done := StrictRows(t.rows, addressColumn, lonColumn, latColumn, lookup).value;
    assert done == Batch.ForwardTable(t, addressColumn, lonColumn, latColumn, lookup).rows;
  }

  /** `geocode(df, address_column, ...)` of this module. */
  method Geocode(t: Batch.Table, addressColumn: string, lonColumn: string, latColumn: string,
                 slot: ApiSlot, credentialsFound: bool, lookup: Value -> Option<Record>) returns (r: Result<Batch.Table>)
    requires slot.Valid()
    modifies slot
    ensures slot.Valid()
    ensures addressColumn !in t.columns ==> r == Failure(MissingColumn(addressColumn)) && slot.instance == old(slot.instance)
    ensures addressColumn in t.columns && old(slot.instance).None? && !credentialsFound ==> r == Failure(MissingCredentials)
    ensures addressColumn in t.columns && (old(slot.instance).Some? || credentialsFound) ==>
              r == StrictTable(Batch.AddColumn(Batch.AddColumn(t, lonColumn), latColumn), addressColumn, lonColumn, latColumn, lookup)
    // the adapter is built on the first run that gets past the column check and finds credentials
    ensures addressColumn in t.columns && old(slot.instance).None? && credentialsFound ==>
              slot.instance.Some? && fresh(slot.instance.value)
    ensures !(addressColumn in t.columns && old(slot.instance).None? && credentialsFound) ==>
              slot.instance == old(slot.instance)
  {
    if addressColumn !in t.columns {
      return Failure(MissingColumn(addressColumn));
    }
    var got := slot.GetApiInstance(credentialsFound);
    if got.Failure? {
      return Failure(got.error);
    }
    var prepared := Batch.AddColumn(Batch.AddColumn(t, lonColumn), latColumn);
    r := StrictForwardRows(prepared, addressColumn, lonColumn, latColumn, lookup);
  }

  /** The dump base name of this module: no provider in the automatic name,
      and `save_json` itself otherwise. */
  function JsonBase(saveJson: Batch.SaveJson, timestamp: string): Option<string> {
    match saveJson
    case NoDump => None
    case Flag(on) => if on then Some("reverse_geocode_" + timestamp) else None
    case PathText(s) =>
      if s == "" then None
      else if s == "auto" then Some("reverse_geocode_" + timestamp)
      else Some(s)
  }

  /** The two modules name dumps alike, except that the two-provider one
      puts the provider before the timestamp. */
  lemma JsonBaseMatches(saveJson: Batch.SaveJson, provider: Option<string>, timestamp: string)
    ensures JsonBase(saveJson, Batch.ProviderText(provider) + "_" + timestamp) == Batch.JsonBase(saveJson, provider, timestamp)
  {
    var p := Batch.ProviderText(provider);
    assert "reverse_geocode_" + (p + "_" + timestamp) == "reverse_geocode_" + p + "_" + timestamp;
  }

  /** `reverse_geocode(df, longitude_column, latitude_column, ...)` of this
      module. Its eighteen explicit detail writes are the writes of the
      shared detail loop, in the same order. */
  method ReverseGeocode(t: Batch.Table, lonColumn: string, latColumn: string, addressColumn: string, roadColumn: string,
                        details: bool, saveJson: Batch.SaveJson, timestamp: string,
                        slot: ApiSlot, credentialsFound: bool,
                        reverse: (Value, Value, bool, Option<string>) -> Option<Record>) returns (r: Result<Batch.Table>)
    requires slot.Valid()
    modifies slot
    ensures slot.Valid()
    ensures lonColumn !in t.columns ==> r == Failure(MissingColumn(lonColumn)) && slot.instance == old(slot.instance)
    ensures lonColumn in t.columns && latColumn !in t.columns ==>
              r == Failure(MissingColumn(latColumn)) && slot.instance == old(slot.instance)
    ensures lonColumn in t.columns && latColumn in t.columns && old(slot.instance).None? && !credentialsFound ==>
              r == Failure(MissingCredentials)
    // both columns present and an adapter at hand: the run succeeds
    ensures lonColumn in t.columns && latColumn in t.columns && (old(slot.instance).Some? || credentialsFound) ==>
              r.Success?
    ensures lonColumn in t.columns && latColumn in t.columns && old(slot.instance).None? && credentialsFound ==>
              slot.instance.Some? && fresh(slot.instance.value)
    ensures !(lonColumn in t.columns && latColumn in t.columns && old(slot.instance).None? && credentialsFound) ==>
              slot.instance == old(slot.instance)
    ensures r.Success? ==>
              && lonColumn in t.columns && latColumn in t.columns
              && r.value == Batch.ReverseTable(Batch.ReversePrepared(t, addressColumn, roadColumn, details),
                                               lonColumn, latColumn, addressColumn, roadColumn, details,
                                               JsonBase(saveJson, timestamp), reverse)
  {
    if lonColumn !in t.columns {
      return Failure(MissingColumn(lonColumn));
    }
    if latColumn !in t.columns {
      return Failure(MissingColumn(latColumn));
    }
    var got := slot.GetApiInstance(credentialsFound);
    if got.Failure? {
      return Failure(got.error);
    }
    var prepared := Batch.AddColumn(Batch.AddColumn(t, addressColumn), roadColumn);
    if details {
      prepared := Batch.InitColumns(prepared, Batch.DetailNames());
    }
    var base := JsonBase(saveJson, timestamp);
    var out := Batch.ReverseRows(prepared, lonColumn, latColumn, addressColumn, roadColumn, details, base, reverse);
    return Success(out);
  }
}
