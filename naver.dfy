/** The Naver Maps adapter of the two-provider module: forward geocoding
    (`geocode_address`), reverse geocoding (`reverse_geocode_coords`) and
    the helpers that pick a reverse-geocoding entry and read its text, road
    name and building name. */
module NaverAdapter {
  import opened Python
  import opened Schema

  // ---------------------------------------------------------------------
  // Forward geocoding

  /** The body of the `try` block once the response is decoded. */
  function ForwardFromBody(data: Value, parseText: string -> Option<real>): Outcome<Option<Record>> {
    var addresses :- Get(data, "addresses", List([]));
    if !Truthy(addresses) then Ok(None)
    else
      var first :- First(addresses);
      if !first.Dict? then Raised
      else
        var longitude :- Coordinate(first.entries, "x", parseText);
        var latitude :- Coordinate(first.entries, "y", parseText);
        Ok(Some(map[
          Longitude := longitude,
          Latitude := latitude,
          RoadAddress := Or(Lookup(first.entries, "roadAddress", Str("")), Str("")),
          Address := Or(Lookup(first.entries, "jibunAddress", Str("")), Str(""))
        ]))
  }

  /** `geocode_address(address)`; `response` is what its request returned. */
  function GeocodeAddress(address: Value, response: Response, parseText: string -> Option<real>): (r: Option<Record>)
    // a missing or empty address returns before any request is made
    ensures IsNa(address) || address == Str("") ==> r == None
    // HTTP errors and failed requests are swallowed
    ensures !response.Body? ==> r == None
    // no addresses: no match
    ensures (response.Body? && response.json.Dict?
             && !Truthy(Lookup(response.json.entries, "addresses", List([])))) ==> r == None
    ensures r.Some? ==> r.value.Keys == NaverForwardKeys
    // the result is read from the first address only
    ensures r.Some? ==> FirstDocument(response, "addresses").Some?
    ensures r.Some? ==>
              var first := FirstDocument(response, "addresses").value;
              && Coordinate(first, "x", parseText) == Ok(r.value[Longitude])
              && Coordinate(first, "y", parseText) == Ok(r.value[Latitude])
              && (Truthy(Lookup(first, "roadAddress", Null)) ==> r.value[RoadAddress] == first["roadAddress"])
              && (Truthy(Lookup(first, "jibunAddress", Null)) ==> r.value[Address] == first["jibunAddress"])
    // a missing or falsy address text becomes ""
    ensures r.Some? ==>
              var first := FirstDocument(response, "addresses").value;
              && (!Truthy(Lookup(first, "roadAddress", Null)) ==> r.value[RoadAddress] == Str(""))
              && (!Truthy(Lookup(first, "jibunAddress", Null)) ==> r.value[Address] == Str(""))
    // and conversely a first address whose coordinates convert always yields a result
    ensures (!IsNa(address) && address != Str("") && FirstDocument(response, "addresses").Some?
             && Coordinate(FirstDocument(response, "addresses").value, "x", parseText).Ok?
             && Coordinate(FirstDocument(response, "addresses").value, "y", parseText).Ok?) ==> r.Some?
  {
    if IsNa(address) || address == Str("") then None
    else match response
      case Body(data) => (match ForwardFromBody(data, parseText) case Ok(v) => v case Raised => None)
      case _ => None
  }

  // ---------------------------------------------------------------------
  // Picking an entry of a reverse-geocoding answer

  /** `isinstance(r, dict) and r.get("name") == name` */
  predicate Named(v: Value, name: string) {
    v.Dict? && Lookup(v.entries, "name", Null) == Str(name)
  }

  /** The first dict entry of `items` whose name is `name`. */
  function FirstNamed(items: seq<Value>, name: string): Option<map<string, Value>> {
    if items == [] then None
    else if Named(items[0], name) then Some(items[0].entries)
    else FirstNamed(items[1..], name)
  }

  /** FirstNamed finds an entry exactly when there is one, and the entry it
      finds is the first one. */
  lemma {:induction false} FirstNamedIsFirst(items: seq<Value>, name: string)
    ensures FirstNamed(items, name).None? <==> forall i :: 0 <= i < |items| ==> !Named(items[i], name)
    ensures FirstNamed(items, name).Some? ==>
              exists i :: 0 <= i < |items| && items[i] == Dict(FirstNamed(items, name).value)
                && Named(items[i], name) && forall j :: 0 <= j < i ==> !Named(items[j], name)
  {
    if items != [] && !Named(items[0], name) {
      FirstNamedIsFirst(items[1..], name);
      if FirstNamed(items, name).Some? {
        var i :| 0 <= i < |items[1..]| && items[1..][i] == Dict(FirstNamed(items, name).value)
          && Named(items[1..][i], name) && forall j :: 0 <= j < i ==> !Named(items[1..][j], name);
        assert items[i + 1] == items[1..][i];
        forall j | 0 <= j < i + 1
          ensures !Named(items[j], name)
        {
          if j > 0 {
            assert items[j] == items[1..][j - 1];
          }
        }
      }
      forall i | 0 <= i < |items[1..]|
        ensures items[1..][i] == items[i + 1]
      {
      }
    }
  }

  /** `_pick_naver_result(results, name)` on whatever `results` is: a list is
      searched; iterating a string or a dict only yields strings, which are
      never dicts; anything else is not iterable and raises. */
  function Pick(results: Value, name: string): Outcome<Option<map<string, Value>>> {
    match results
    case List(items) => Ok(FirstNamed(items, name))
    case Str(_) => Ok(None)
    case Dict(_) => Ok(None)
    case _ => Raised
  }

  /** `_pick_naver_result`: the `for` loop with its early return. */
  method PickNaverResult(results: Value, name: string) returns (r: Outcome<Option<map<string, Value>>>)
    ensures r == Pick(results, name)
  {
    if results.Str? || results.Dict? {
      return Ok(None);
    }
    if !results.List? {
      return Raised;
    }
    var items := results.items;
    var i := 0;
    while i < |items|
      invariant 0 <= i <= |items|
      invariant FirstNamed(items, name) == FirstNamed(items[i..], name)
    {
      var entry := items[i];
      if entry.Dict? && Lookup(entry.entries, "name", Null) == Str(name) {
        return Ok(Some(entry.entries));
      }
      assert items[i..][1..] == items[i + 1..];
      i := i + 1;
    }
    return Ok(None);
  }

  // ---------------------------------------------------------------------
  // Reading an entry

  /** `(region.get(key) or {}).get("name", "")` */
  function AreaName(region: Value, key: string): Outcome<Value> {
    var area :- Get(region, key, Null);
    Get(Or(area, EmptyDict), "name", Str(""))
  }

  /** `[p for p in parts if p]`, written from the end so that it grows the
      way a loop over `parts` does. */
  function Truthies(parts: seq<Value>): (r: seq<Value>)
    ensures forall i :: 0 <= i < |r| ==> Truthy(r[i])
    ensures forall v :: v in r <==> v in parts && Truthy(v)
    ensures |r| <= |parts|
  {
    if parts == [] then []
    else Truthies(parts[..|parts| - 1]) + (if Truthy(parts[|parts| - 1]) then [parts[|parts| - 1]] else [])
  }

  /** Filtering a concatenation filters each half, so the kept parts stay
      in their order. */
  lemma {:induction false} TruthiesConcat(a: seq<Value>, b: seq<Value>)
    ensures Truthies(a + b) == Truthies(a) + Truthies(b)
    decreases |b|
  {
    if b == [] {
      assert a + b == a;
    } else {
      var init := b[..|b| - 1];
      assert (a + b)[..|a + b| - 1] == a + init;
      TruthiesConcat(a, init);
    }
  }

  /** The pieces `_naver_result_text` appends after the area names: the land
      name, and `number1` or `number1-number2`. */
  function LandParts(landName: Value, number1: Value, number2: Value, show: Value -> string): seq<Value> {
    (if Truthy(landName) then [Str(ToStr(landName, show))] else [])
    + (if Truthy(number1) then
         [Str(if Truthy(number2) then ToStr(number1, show) + "-" + ToStr(number2, show) else ToStr(number1, show))]
       else [])
  }

  /** The parts `_naver_result_text` joins when the entry has no usable
      `text`: the non-empty area1 to area4 names, then the land pieces. Any
      of its `.get` calls on a non-dict raises. */
  function FallbackParts(entry: map<string, Value>, show: Value -> string): Outcome<seq<Value>> {
    var region := Or(Lookup(entry, "region", Null), EmptyDict);
    var land := Or(Lookup(entry, "land", Null), EmptyDict);
    var area1 :- AreaName(region, "area1");
    var area2 :- AreaName(region, "area2");
    var area3 :- AreaName(region, "area3");
    var area4 :- AreaName(region, "area4");
    var landName :- Get(land, "name", Null);
    var number1 :- Get(land, "number1", Null);
    var number2 :- Get(land, "number2", Null);
    Ok(Truthies([area1, area2, area3, area4])
       + LandParts(Or(landName, Str("")), Or(number1, Str("")), Or(number2, Str("")), show))
  }

  /** `str(p).strip()` for each part. */
  function Cleaned(parts: seq<Value>, show: Value -> string): (r: seq<string>)
    ensures |r| == |parts|
    ensures forall i :: 0 <= i < |r| ==> r[i] == Strip(ToStr(parts[i], show))
    ensures forall i :: 0 <= i < |r| ==> IsStripped(r[i])
  {
    seq(|parts|, i requires 0 <= i < |parts| => Strip(ToStr(parts[i], show)))
  }

  /** `[s for s in strs if s]`, written from the end so that it grows the
      way a loop over `strs` does. */
  function NonEmpty(strs: seq<string>): (r: seq<string>)
    ensures forall i :: 0 <= i < |r| ==> r[i] != ""
  {
    if strs == [] then []
    else
      var last := strs[|strs| - 1];
      var init := strs[..|strs| - 1];
      NonEmpty(init) + (if last != "" then [last] else [])
  }

  /** Filtering leaves nothing exactly when every input is empty. */
  lemma {:induction false} NonEmptyIsEmpty(strs: seq<string>)
    ensures NonEmpty(strs) == [] <==> forall i :: 0 <= i < |strs| ==> strs[i] == ""
    decreases |strs|
  {
    if strs != [] {
      var init := strs[..|strs| - 1];
      assert forall i :: 0 <= i < |init| ==> init[i] == strs[i];
      NonEmptyIsEmpty(init);
    }
  }

  /** Filtering keeps only parts of the input, so stripped parts stay
      stripped. */
  lemma {:induction false} NonEmptyStripped(strs: seq<string>)
    requires forall i :: 0 <= i < |strs| ==> IsStripped(strs[i])
    ensures forall i :: 0 <= i < |NonEmpty(strs)| ==> IsStripped(NonEmpty(strs)[i])
    decreases |strs|
  {
    if strs != [] {
      var init := strs[..|strs| - 1];
      assert forall i :: 0 <= i < |init| ==> init[i] == strs[i];
      NonEmptyStripped(init);
    }
  }

  /** The entry's `text` is a string with something besides whitespace. */
  predicate HasText(entry: map<string, Value>) {
    var txt := Lookup(entry, "text", Null);
    txt.Str? && Strip(txt.s) != ""
  }

  /** `_naver_result_text(result)` */
  function TextOf(result: Value, show: Value -> string): (r: Outcome<string>)
    // never any whitespace at either end
    ensures r.Ok? ==> IsStripped(r.value)
    // nothing to read: ""
    ensures !Truthy(result) || !result.Dict? ==> r == Ok("")
    // a usable text is returned stripped
    ensures result.Dict? && Truthy(result) && HasText(result.entries) ==> r == Ok(Strip(result.entries["text"].s))
    // otherwise the result is "" exactly when no fallback part shows anything
    ensures r.Ok? && result.Dict? && Truthy(result) && !HasText(result.entries) ==>
              && FallbackParts(result.entries, show).Ok?
              && var cleaned := Cleaned(FallbackParts(result.entries, show).value, show);
                 (r.value == "" <==> forall i :: 0 <= i < |cleaned| ==> cleaned[i] == "")
  {
    if !Truthy(result) || !result.Dict? then Ok("")
    else if HasText(result.entries) then Ok(Strip(result.entries["text"].s))
    else
      var parts :- FallbackParts(result.entries, show);
      var cleaned := Cleaned(parts, show);
      var pieces := NonEmpty(cleaned);
      NonEmptyStripped(cleaned);
      NonEmptyIsEmpty(cleaned);
      JoinStripped(pieces);
      Ok(Join(" ", pieces))
  }

  /** `_naver_result_text`: the area names filtered into `parts`, the land
      pieces appended, and the stripped non-empty parts joined. */
  method NaverResultText(result: Value, show: Value -> string) returns (r: Outcome<string>)
    ensures r == TextOf(result, show)
  {
    if !Truthy(result) || !result.Dict? {
      return Ok("");
    }
    var txt := Lookup(result.entries, "text", Null);
    if txt.Str? && Strip(txt.s) != "" {
      return Ok(Strip(txt.s));
    }
    var region := Or(Lookup(result.entries, "region", Null), EmptyDict);
    var land := Or(Lookup(result.entries, "land", Null), EmptyDict);
    var area1 :- AreaName(region, "area1");
    var area2 :- AreaName(region, "area2");
    var area3 :- AreaName(region, "area3");
    var area4 :- AreaName(region, "area4");
    var areas := [area1, area2, area3, area4];

    var parts := KeepTruthy(areas);
    parts :- AppendLand(parts, land, show);
    assert parts == FallbackParts(result.entries, show).value;

    var pieces := CleanPieces(parts, show);
    return Ok(Join(" ", pieces));
  }

  /** The land pieces of `_naver_result_text` appended to `parts`; any
      `.get` on a land value that is no dict raises. */
  method AppendLand(parts: seq<Value>, land: Value, show: Value -> string) returns (r: Outcome<seq<Value>>)
    ensures !land.Dict? ==> r == Raised
    ensures land.Dict? ==>
              r == Ok(parts + LandParts(Or(Lookup(land.entries, "name", Null), Str("")),
                                        Or(Lookup(land.entries, "number1", Null), Str("")),
                                        Or(Lookup(land.entries, "number2", Null), Str("")), show))
  {
    if !land.Dict? {
      return Raised;
    }
    var landName := Or(Lookup(land.entries, "name", Null), Str(""));
    var number1 := Or(Lookup(land.entries, "number1", Null), Str(""));
    var number2 := Or(Lookup(land.entries, "number2", Null), Str(""));
    var named: seq<Value> := [];
    if Truthy(landName) {
      named := [Str(ToStr(landName, show))];
    }
    var numbered: seq<Value> := [];
    if Truthy(number1) {
      var num := if Truthy(number2) then ToStr(number1, show) + "-" + ToStr(number2, show) else ToStr(number1, show);
      numbered := [Str(num)];
    }
    assert named + numbered == LandParts(landName, number1, number2, show);
    assert parts + named + numbered == parts + (named + numbered);
    return Ok(parts + named + numbered);
  }

  /** `[p for p in parts if p]` */
  method KeepTruthy(areas: seq<Value>) returns (parts: seq<Value>)
    ensures parts == Truthies(areas)
  {
    parts := [];
    var i := 0;
    while i < |areas|
      invariant 0 <= i <= |areas|
      invariant parts == Truthies(areas[..i])
    {
      assert areas[..i + 1][..i] == areas[..i];
      if Truthy(areas[i]) {
        parts := parts + [areas[i]];
      }
      i := i + 1;
    }
    assert areas[..i] == areas;
  }

  /** Filtering one more element appends it unless it is empty. */
  lemma NonEmptyStep(strs: seq<string>, j: nat)
    requires j < |strs|
    ensures NonEmpty(strs[..j + 1]) == NonEmpty(strs[..j]) + (if strs[j] != "" then [strs[j]] else [])
  {
    assert strs[..j + 1][..j] == strs[..j];
  }

  /** `[str(p).strip() for p in parts if str(p).strip()]` */
  method CleanPieces(parts: seq<Value>, show: Value -> string) returns (pieces: seq<string>)
    ensures pieces == NonEmpty(Cleaned(parts, show))
  {
    ghost var cleaned := Cleaned(parts, show);
    pieces := [];
    var j := 0;
    while j < |parts|
      invariant 0 <= j <= |parts|
      invariant pieces == NonEmpty(cleaned[..j])
    {
      var piece := Strip(ToStr(parts[j], show));
      NonEmptyStep(cleaned, j);
      if piece != "" {
        pieces := pieces + [piece];
      }
      j := j + 1;
    }
    assert cleaned[..j] == cleaned;
  }

  /** `result.get("land") or {}` for a dict entry. */
  function Land(entry: map<string, Value>): Value {
    Or(Lookup(entry, "land", Null), EmptyDict)
  }

  /** `str(name).strip() if name else ""` */
  function StrippedName(name: Value, show: Value -> string): (r: string)
    ensures IsStripped(r)
    ensures !Truthy(name) ==> r == ""
    ensures name.Str? ==> r == Strip(name.s)
  {
    if Truthy(name) then Strip(ToStr(name, show)) else ""
  }

  /** `_naver_road_name(result)`: the stripped `land.name`, or "". */
  function RoadNameOf(result: Value, show: Value -> string): (r: Outcome<string>)
    ensures r.Ok? ==> IsStripped(r.value)
    ensures !Truthy(result) || !result.Dict? ==> r == Ok("")
    // it raises exactly when the land value is truthy but no dict
    ensures Truthy(result) && result.Dict? ==> (r.Raised? <==> !Land(result.entries).Dict?)
    ensures Truthy(result) && result.Dict? && Land(result.entries).Dict? ==>
              var name := Lookup(Land(result.entries).entries, "name", Null);
              && (!Truthy(name) ==> r == Ok(""))
              && (name.Str? ==> r == Ok(Strip(name.s)))
  {
    if !Truthy(result) || !result.Dict? then Ok("")
    else
      var name :- Get(Land(result.entries), "name", Null);
      Ok(StrippedName(name, show))
  }

  /** `_naver_building_name(result)`: the stripped `land.addition0.value`, or "". */
  function BuildingNameOf(result: Value, show: Value -> string): (r: Outcome<string>)
    ensures r.Ok? ==> IsStripped(r.value)
    ensures !Truthy(result) || !result.Dict? ==> r == Ok("")
    ensures Truthy(result) && result.Dict? ==> (r.Raised? <==> !Land(result.entries).Dict?)
    ensures Truthy(result) && result.Dict? && Land(result.entries).Dict? ==>
              var addition0 := Lookup(Land(result.entries).entries, "addition0", Null);
              && (!addition0.Dict? ==> r == Ok(""))
              && (addition0.Dict? && Lookup(addition0.entries, "value", Null).Str? ==>
                    r == Ok(Strip(Lookup(addition0.entries, "value", Null).s)))
  {
    if !Truthy(result) || !result.Dict? then Ok("")
    else
      var name :- AdditionValue(Land(result.entries));
      Ok(StrippedName(name, show))
  }

  /** `addition0 = land.get("addition0") or {}` and then
      `addition0.get("value") if isinstance(addition0, dict) else ""`. */
  function AdditionValue(land: Value): (r: Outcome<Value>)
    ensures r.Raised? <==> !land.Dict?
    ensures land.Dict? && !Lookup(land.entries, "addition0", Null).Dict? ==> !Truthy(r.value)
    ensures land.Dict? && Lookup(land.entries, "addition0", Null).Dict? ==>
              r.value == Lookup(Lookup(land.entries, "addition0", Null).entries, "value", Null)
  {
    var addition0 :- Get(land, "addition0", Null);
    var addition0' := Or(addition0, EmptyDict);
    Ok(if addition0'.Dict? then Lookup(addition0'.entries, "value", Null) else Str(""))
  }

  // ---------------------------------------------------------------------
  // Reverse geocoding

  /** The values a Naver reverse result is made of. */
  datatype NaverFields = NaverFields(
    roadText: string, addrText: string,
    area1: Value, area2: Value, area3: Value,
    roadName: string, buildingName: string)

  /** `(data.get("results") or []) if isinstance(data, dict) else []` */
  function NaverResults(data: Value): Value {
    if data.Dict? then Or(Lookup(data.entries, "results", Null), List([])) else List([])
  }

  /** `road or addr or results[0]`: a picked entry holds a `name`, so it is
      a non-empty dict and truthy. */
  function Base(results: Value, road: Option<map<string, Value>>, addr: Option<map<string, Value>>): Outcome<Value> {
    if road.Some? then Ok(Dict(road.value))
    else if addr.Some? then Ok(Dict(addr.value))
    else First(results)
  }

  /** `(base.get("region") or {}) if isinstance(base, dict) else {}` */
  function Region(base: Value): Value {
    if base.Dict? then Or(Lookup(base.entries, "region", Null), EmptyDict) else EmptyDict
  }

  /** `_naver_result_text(entry) if entry else ""` */
  function PickedText(entry: Option<map<string, Value>>, show: Value -> string): Outcome<string> {
    if entry.Some? then TextOf(Dict(entry.value), show) else Ok("")
  }

  /** `_naver_road_name(entry) if entry else ""` */
  function PickedRoadName(entry: Option<map<string, Value>>, show: Value -> string): Outcome<string> {
    if entry.Some? then RoadNameOf(Dict(entry.value), show) else Ok("")
  }

  /** `_naver_building_name(entry) if entry else ""` */
  function PickedBuildingName(entry: Option<map<string, Value>>, show: Value -> string): Outcome<string> {
    if entry.Some? then BuildingNameOf(Dict(entry.value), show) else Ok("")
  }

  /** The body of the `try` block once the response is decoded: the values
      the result is made of, None when there are no results, Raised when a
      helper raises. */
  function FieldsFromBody(data: Value, details: bool, show: Value -> string): (r: Outcome<Option<NaverFields>>)
    // an empty or missing `results`, or a body that is no dict: no result
    ensures !Truthy(NaverResults(data)) ==> r == Ok(None)
    // every text is free of surrounding whitespace
    ensures r.Ok? && r.value.Some? ==>
              var f := r.value.value;
              IsStripped(f.roadText) && IsStripped(f.addrText) && IsStripped(f.roadName) && IsStripped(f.buildingName)
  {
    var results := NaverResults(data);
    if !Truthy(results) then Ok(None)
    else
      var road :- Pick(results, "roadaddr");
      var addr :- Pick(results, "addr");
      var base :- Base(results, road, addr);
      var f :- EntryFields(road, addr, base, details, show);
      Ok(Some(f))
  }

  /** The values read from the picked entries and the base entry. */
  function EntryFields(road: Option<map<string, Value>>, addr: Option<map<string, Value>>, base: Value,
                       details: bool, show: Value -> string): (r: Outcome<NaverFields>)
    ensures r.Ok? ==>
              IsStripped(r.value.roadText) && IsStripped(r.value.addrText) && IsStripped(r.value.roadName) && IsStripped(r.value.buildingName)
    ensures r.Ok? ==> PickedText(road, show) == Ok(r.value.roadText) && PickedText(addr, show) == Ok(r.value.addrText)
  {
    var roadText :- PickedText(road, show);
    var addrText :- PickedText(addr, show);
    if !details then Ok(NaverFields(roadText, addrText, Str(""), Str(""), Str(""), "", ""))
    else
      var region := Region(base);
      var area1 :- AreaName(region, "area1");
      var area2 :- AreaName(region, "area2");
      var area3 :- AreaName(region, "area3");
      var roadName :- PickedRoadName(road, show);
      var buildingName :- PickedBuildingName(road, show);
      Ok(NaverFields(roadText, addrText, area1, area2, area3, roadName, buildingName))
  }

  /** The two addresses are the texts of the picked entries, "" when none
      was picked. */
  lemma TextSources(data: Value, details: bool, show: Value -> string)
    requires FieldsFromBody(data, details, show).Ok? && FieldsFromBody(data, details, show).value.Some?
    requires NaverResults(data).List?
    ensures var f := FieldsFromBody(data, details, show).value.value;
            var items := NaverResults(data).items;
            && PickedText(FirstNamed(items, "roadaddr"), show) == Ok(f.roadText)
            && PickedText(FirstNamed(items, "addr"), show) == Ok(f.addrText)
  {
    var results := NaverResults(data);
    var items := results.items;
    var road := FirstNamed(items, "roadaddr");
    var addr := FirstNamed(items, "addr");
    assert Pick(results, "roadaddr") == Ok(road);
    assert Pick(results, "addr") == Ok(addr);
    var base := Base(results, road, addr).value;
    assert FieldsFromBody(data, details, show) == Ok(Some(EntryFields(road, addr, base, details, show).value));
  }

  /** In detail mode the area names come from the roadaddr entry, else the
      addr entry, else the first entry, and the road and building names
      from the roadaddr entry only. */
  lemma DetailSources(data: Value, show: Value -> string)
    requires FieldsFromBody(data, true, show).Ok? && FieldsFromBody(data, true, show).value.Some?
    requires NaverResults(data).List?
    ensures var f := FieldsFromBody(data, true, show).value.value;
            var items := NaverResults(data).items;
            var road := FirstNamed(items, "roadaddr");
            var addr := FirstNamed(items, "addr");
            items != [] &&
            var base := if road.Some? then Dict(road.value) else if addr.Some? then Dict(addr.value) else items[0];
            && AreaName(Region(base), "area1") == Ok(f.area1)
            && AreaName(Region(base), "area2") == Ok(f.area2)
            && AreaName(Region(base), "area3") == Ok(f.area3)
            && PickedRoadName(road, show) == Ok(f.roadName)
            && PickedBuildingName(road, show) == Ok(f.buildingName)
  {
    var results := NaverResults(data);
    var items := results.items;
    var road := FirstNamed(items, "roadaddr");
    var addr := FirstNamed(items, "addr");
    assert Pick(results, "roadaddr") == Ok(road);
    assert Pick(results, "addr") == Ok(addr);
    var base := if road.Some? then Dict(road.value) else if addr.Some? then Dict(addr.value) else items[0];
    assert Base(results, road, addr) == Ok(base);
    assert FieldsFromBody(data, true, show) == Ok(Some(EntryFields(road, addr, base, true, show).value));
  }

  /** An entry every `.get` of the adapter can read: its `region`, each
      area of that region and its `land` are each falsy or a dict. */
  predicate Readable(entry: map<string, Value>) {
    var region := Lookup(entry, "region", Null);
    && WellFormedObject(region)
    && (region.Dict? ==>
          && WellFormedObject(Lookup(region.entries, "area1", Null))
          && WellFormedObject(Lookup(region.entries, "area2", Null))
          && WellFormedObject(Lookup(region.entries, "area3", Null))
          && WellFormedObject(Lookup(region.entries, "area4", Null)))
    && WellFormedObject(Lookup(entry, "land", Null))
  }

  /** The area names of a readable region can be read. */
  lemma RegionReadable(entry: map<string, Value>)
    requires Readable(entry)
    ensures var region := Or(Lookup(entry, "region", Null), EmptyDict);
            && AreaName(region, "area1").Ok? && AreaName(region, "area2").Ok?
            && AreaName(region, "area3").Ok? && AreaName(region, "area4").Ok?
  {
  }

  /** The text, road name and building name of a readable entry never raise. */
  lemma EntryReadable(entry: map<string, Value>, show: Value -> string)
    requires Readable(entry)
    ensures TextOf(Dict(entry), show).Ok?
    ensures RoadNameOf(Dict(entry), show).Ok?
    ensures BuildingNameOf(Dict(entry), show).Ok?
  {
    RegionReadable(entry);
  }

  /** A picked entry is one of the entries, so it is readable when they all are. */
  lemma PickedReadable(items: seq<Value>, name: string)
    requires forall i :: 0 <= i < |items| && items[i].Dict? ==> Readable(items[i].entries)
    ensures FirstNamed(items, name).Some? ==> Readable(FirstNamed(items, name).value)
  {
    FirstNamedIsFirst(items, name);
  }

  /** A body whose `results` is a non-empty list of readable entries always
      yields the values of a result, whichever entries are picked. */
  lemma FieldsSucceed(data: Value, details: bool, show: Value -> string)
    requires NaverResults(data).List? && NaverResults(data).items != []
    requires var items := NaverResults(data).items;
             forall i :: 0 <= i < |items| && items[i].Dict? ==> Readable(items[i].entries)
    ensures FieldsFromBody(data, details, show).Ok? && FieldsFromBody(data, details, show).value.Some?
  {
    var results := NaverResults(data);
    var items := results.items;
    var road := FirstNamed(items, "roadaddr");
    var addr := FirstNamed(items, "addr");
    assert Pick(results, "roadaddr") == Ok(road);
    assert Pick(results, "addr") == Ok(addr);
    PickedReadable(items, "roadaddr");
    PickedReadable(items, "addr");
    var base := if road.Some? then Dict(road.value) else if addr.Some? then Dict(addr.value) else items[0];
    assert Base(results, road, addr) == Ok(base);
    if road.Some? {
      EntryReadable(road.value, show);
    }
    if addr.Some? {
      EntryReadable(addr.value, show);
    }
    if base.Dict? {
      RegionReadable(base.entries);
    }
    assert EntryFields(road, addr, base, details, show).Ok?;
  }

  /** Whether `reverse_geocode_coords` returns a dict, and if so the values
      it is made of. `written` says whether the debug dump, when one is
      asked for, was written. */
  function ReverseSelection(lon: Value, lat: Value, details: bool, saveJson: Option<string>,
                            written: bool, response: Response, show: Value -> string): (r: Option<NaverFields>)
    // a missing coordinate returns before any request is made
    ensures IsNa(lon) || IsNa(lat) ==> r == None
    // HTTP errors, failed requests and failed dumps are swallowed
    ensures !response.Body? ==> r == None
    ensures DumpRequested(saveJson) && !written ==> r == None
    // otherwise the decoded body decides
    ensures r.Some? ==> response.Body? && FieldsFromBody(response.json, details, show) == Ok(r)
    ensures (!IsNa(lon) && !IsNa(lat) && response.Body? && (DumpRequested(saveJson) ==> written)
             && FieldsFromBody(response.json, details, show).Ok?) ==> r == FieldsFromBody(response.json, details, show).value
  {
    if IsNa(lon) || IsNa(lat) then None
    else match response
      case Body(data) =>
        if DumpRequested(saveJson) && !written then None
        else (match FieldsFromBody(data, details, show) case Ok(v) => v case Raised => None)
      case _ => None
  }

  /** With both coordinates, the dump written when one is asked for and a
      body whose `results` is a non-empty list of readable entries, a result
      is always returned. */
  lemma ReverseSucceeds(lon: Value, lat: Value, details: bool, saveJson: Option<string>,
                        written: bool, response: Response, show: Value -> string)
    requires !IsNa(lon) && !IsNa(lat) && (DumpRequested(saveJson) ==> written) && response.Body?
    requires NaverResults(response.json).List? && NaverResults(response.json).items != []
    requires var items := NaverResults(response.json).items;
             forall i :: 0 <= i < |items| && items[i].Dict? ==> Readable(items[i].entries)
    ensures ReverseSelection(lon, lat, details, saveJson, written, response, show).Some?
  {
    FieldsSucceed(response.json, details, show);
  }

  /** The keys of a Naver reverse result. */
  predicate InNaver(k: Key, details: bool) {
    match k
    case RoadAddress | Address => true
    case Longitude | Latitude | AddressName | AddressType => false
    case _ => details
  }

  /** The keys the Naver adapter always sets to "". */
  predicate AlwaysBlank(k: Key) {
    match k
    case RoadZoneNo | RoadMainBuildingNo | RoadSubBuildingNo | RoadUndergroundYn
       | AddressRegion3H | AddressHCode | AddressBCode | AddressMainNo | AddressSubNo | AddressMountainYn => true
    case _ => false
  }

  /** The value under each key of a Naver reverse result. */
  function NaverField(f: NaverFields, k: Key): Value {
    match k
    case RoadAddress => Str(f.roadText)
    case Address => Str(f.addrText)
    case RoadRegion1 | AddressRegion1 => f.area1
    case RoadRegion2 | AddressRegion2 => f.area2
    case RoadRegion3 | AddressRegion3 => f.area3
    case RoadName => Str(f.roadName)
    case RoadBuildingName => Str(f.buildingName)
    case _ => Str("")
  }

  /** In detail mode Naver fills the same twenty keys as Kakao; otherwise
      only the two address lines. */
  lemma NaverKeys(details: bool)
    ensures forall k :: InNaver(k, details) <==> k in (if details then ReverseKeys(true) else HeadlineKeys)
  {
    KeySetsByConstructor(true);
  }

  /** `reverse_geocode_coords`. The values are read first and the dict is
      written afterwards; the source interleaves the two, which makes no
      difference because a raising read discards the dict. */
  method ReverseGeocodeCoords(lon: Value, lat: Value, details: bool, saveJson: Option<string>,
                              written: bool, response: Response, show: Value -> string) returns (r: Option<Record>)
    ensures r.Some? <==> ReverseSelection(lon, lat, details, saveJson, written, response, show).Some?
    ensures r.Some? ==> forall k :: k in r.value <==> InNaver(k, details)
    ensures r.Some? ==>
              var f := ReverseSelection(lon, lat, details, saveJson, written, response, show).value;
              forall k :: k in r.value ==> r.value[k] == NaverField(f, k)
  {
    if IsNa(lon) || IsNa(lat) || !response.Body? {
      return None;
    }
    if DumpRequested(saveJson) && !written {
      return None;
    }
    var fields := ReadFields(response.json, details, show);
    if fields.Raised? || fields.value.None? {
      return None;
    }
    var out := Assemble(fields.value.value, details);
    return Some(out);
  }

  /** The reads of `reverse_geocode_coords` after the response is decoded. */
  method ReadFields(data: Value, details: bool, show: Value -> string) returns (r: Outcome<Option<NaverFields>>)
    ensures r == FieldsFromBody(data, details, show)
  {
    var results := if data.Dict? then Or(Lookup(data.entries, "results", Null), List([])) else List([]);
    if !Truthy(results) {
      return Ok(None);
    }
    var road :- PickNaverResult(results, "roadaddr");
    var addr :- PickNaverResult(results, "addr");
    var base :- Base(results, road, addr);
    var f :- ReadEntryFields(road, addr, base, details, show);
    return Ok(Some(f));
  }

  /** The reads from the picked entries and the base entry. */
  method ReadEntryFields(road: Option<map<string, Value>>, addr: Option<map<string, Value>>, base: Value,
                         details: bool, show: Value -> string) returns (r: Outcome<NaverFields>)
    ensures r == EntryFields(road, addr, base, details, show)
  {
    var roadText := Ok("");
    if road.Some? {
      roadText := NaverResultText(Dict(road.value), show);
    }
    var addrText := Ok("");
    if addr.Some? {
      addrText := NaverResultText(Dict(addr.value), show);
    }
    if roadText.Raised? || addrText.Raised? {
      return Raised;
    }
    if !details {
      return Ok(NaverFields(roadText.value, addrText.value, Str(""), Str(""), Str(""), "", ""));
    }
    var region := Region(base);
    var area1 :- AreaName(region, "area1");
    var area2 :- AreaName(region, "area2");
    var area3 :- AreaName(region, "area3");
    var roadName :- PickedRoadName(road, show);
    var buildingName :- PickedBuildingName(road, show);
    return Ok(NaverFields(roadText.value, addrText.value, area1, area2, area3, roadName, buildingName));
  }

  /** The result dict: the two address lines, then in detail mode the road
      and lot-number blocks. */
  method Assemble(f: NaverFields, details: bool) returns (out: Record)
    ensures forall k :: k in out <==> InNaver(k, details)
    ensures forall k :: k in out ==> out[k] == NaverField(f, k)
    // ten detail values are always "", and the area names are shared by both namespaces
    ensures forall k :: k in out && AlwaysBlank(k) ==> out[k] == Str("")
    ensures details ==> && RoadRegion1 in out && AddressRegion1 in out && out[RoadRegion1] == out[AddressRegion1] == f.area1
                        && RoadRegion2 in out && AddressRegion2 in out && out[RoadRegion2] == out[AddressRegion2] == f.area2
                        && RoadRegion3 in out && AddressRegion3 in out && out[RoadRegion3] == out[AddressRegion3] == f.area3
  {
    out := map[RoadAddress := Str(f.roadText), Address := Str(f.addrText)];
    if details {
      out := FillRoad(out, f);
      out := FillAddress(out, f);
    }
  }

  /** The road block of the detail mode, one key at a time. */
  method FillRoad(result: Record, f: NaverFields) returns (out: Record)
    ensures forall k :: k in out <==> k in result || RoadDetail(k)
    ensures forall k :: k in out ==> out[k] == if RoadDetail(k) then NaverField(f, k) else result[k]
  {
    out := result;
    out := out[RoadZoneNo := Str("")];
    out := out[RoadRegion1 := f.area1];
    out := out[RoadRegion2 := f.area2];
    out := out[RoadRegion3 := f.area3];
    out := out[RoadName := Str(f.roadName)];
    out := out[RoadMainBuildingNo := Str("")];
    out := out[RoadSubBuildingNo := Str("")];
    out := out[RoadBuildingName := Str(f.buildingName)];
    out := out[RoadUndergroundYn := Str("")];
  }

  /** The lot-number block of the detail mode, one key at a time. */
  method FillAddress(result: Record, f: NaverFields) returns (out: Record)
    ensures forall k :: k in out <==> k in result || AddressDetail(k)
    ensures forall k :: k in out ==> out[k] == if AddressDetail(k) then NaverField(f, k) else result[k]
  {
    out := result;
    out := out[AddressRegion1 := f.area1];
    out := out[AddressRegion2 := f.area2];
    out := out[AddressRegion3 := f.area3];
    out := out[AddressRegion3H := Str("")];
    out := out[AddressHCode := Str("")];
    out := out[AddressBCode := Str("")];
    out := out[AddressMainNo := Str("")];
    out := out[AddressSubNo := Str("")];
    out := out[AddressMountainYn := Str("")];
  }

  predicate RoadDetail(k: Key) {
    match k
    case RoadZoneNo | RoadRegion1 | RoadRegion2 | RoadRegion3 | RoadName
       | RoadMainBuildingNo | RoadSubBuildingNo | RoadBuildingName | RoadUndergroundYn => true
    case _ => false
  }

  predicate AddressDetail(k: Key) {
    match k
    case AddressRegion1 | AddressRegion2 | AddressRegion3 | AddressRegion3H
       | AddressHCode | AddressBCode | AddressMainNo | AddressSubNo | AddressMountainYn => true
    case _ => false
  }
}
