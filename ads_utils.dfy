/** Targeting normalisation and error classification from ads_api/utils.py. */
module AdsUtils {
  import opened Wrappers
  import opened Values

  // ---------------------------------------------------------------------------
  // handle_api_error
  // ---------------------------------------------------------------------------

  /** The body of a failed response: either not JSON at all, or a decoded JSON object. */
  datatype ErrorBody = Undecodable | Decoded(json: map<string, Value>)

  /** The fixed four-field record `handle_api_error` returns. */
  datatype ErrorRecord = ErrorRecord(code: Value, message: Value, errorType: Value, subcode: Value)

  /** Classifies a failed response by its status code, raw text and body. Fails with the exception
      Python raises when the `error` member is not an object (`.get` on a non-dict). */
  function HandleApiError(status: int, text: string, body: ErrorBody): (r: Result<ErrorRecord, string>)
    // invalid JSON: the status, the raw text (or a fixed message when it is empty), subcode "invalid_json"
    ensures body.Undecodable? ==>
      r == Success(ErrorRecord(Int(status), Str(if text == "" then "Unknown API error" else text),
                               Str("api_error"), Str("invalid_json")))
    // JSON without an error object: only the status is known
    ensures body.Decoded? && "error" !in body.json ==>
      r == Success(ErrorRecord(Int(status), Str("Unknown API error"), Str("api_error"), Str("unknown")))
    // an error object: each field copied from it when present, else its fixed fallback
    ensures body.Decoded? && "error" in body.json ==>
      (r.Success? <==> body.json["error"].Obj?)
    ensures body.Decoded? && "error" in body.json && body.json["error"].Obj? ==>
      var info := body.json["error"].fields;
      && r.value.code == (if "code" in info then info["code"] else Str("unknown"))
      && r.value.message == (if "message" in info then info["message"] else Str("Unknown error"))
      && r.value.errorType == (if "type" in info then info["type"] else Str("unknown"))
      && r.value.subcode == (if "error_subcode" in info then info["error_subcode"] else Str("unknown"))
  {
    match body
    case Undecodable =>
      Success(ErrorRecord(Int(status), Str(if text == "" then "Unknown API error" else text),
                          Str("api_error"), Str("invalid_json")))
    case Decoded(json) =>
      if "error" in json then
        match json["error"]
        case Obj(info) =>
          Success(ErrorRecord(Get(info, "code", Str("unknown")), Get(info, "message", Str("Unknown error")),
                              Get(info, "type", Str("unknown")), Get(info, "error_subcode", Str("unknown"))))
        case _ => Failure("AttributeError")
      else
        Success(ErrorRecord(Int(status), Str("Unknown API error"), Str("api_error"), Str("unknown")))
  }

  // ---------------------------------------------------------------------------
  // format_targeting_spec
  // ---------------------------------------------------------------------------

  /** The only keys the formatted targeting spec may hold. */
  const TargetingKeys: set<string> := {"age_min", "age_max", "genders", "geo_locations", "interests"}

  /** Python's `isinstance(v, list) and len(v) > 0`. */
  predicate IsNonEmptyList(v: Value) {
    v.List? && |v.items| > 0
  }

  /** Every entry has length exactly two (the ISO 3166-1 alpha-2 heuristic). */
  predicate AllLengthTwo(entries: seq<Value>) {
    forall i :: 0 <= i < |entries| ==> Len(entries[i]) == Some(2)
  }

  /** Evaluating `all(len(loc) == 2 for loc in entries)` raises: an entry without a length is reached
      before any entry whose length differs from two stops the scan. */
  predicate LengthCheckRaises(entries: seq<Value>) {
    exists i :: 0 <= i < |entries| && Len(entries[i]).None? && AllLengthTwo(entries[..i])
  }

  /** Python's short-circuiting `all(len(loc) == 2 for loc in entries)`. */
  function AllHaveLengthTwo(entries: seq<Value>): (r: Result<bool, string>)
    ensures r.Failure? <==> LengthCheckRaises(entries)
    ensures r.Success? ==> (r.value <==> AllLengthTwo(entries))
  {
    if entries == [] then Success(true)
    else
      match Len(entries[0])
      case None =>
        assert AllLengthTwo(entries[..0]);
        Failure("TypeError")
      case Some(n) =>
        if n != 2 then
          assert !LengthCheckRaises(entries) by {
            forall i | 0 <= i < |entries| && Len(entries[i]).None?
              ensures !AllLengthTwo(entries[..i])
            {
              assert i > 0 && entries[..i][0] == entries[0];
            }
          }
          Success(false)
        else
          var rest := AllHaveLengthTwo(entries[1..]);
          assert LengthCheckRaises(entries[1..]) <==> LengthCheckRaises(entries) by {
            forall i | 0 <= i < |entries| - 1
              ensures AllLengthTwo(entries[1..][..i]) <==> AllLengthTwo(entries[..i + 1])
            {
              assert entries[..i + 1] == [entries[0]] + entries[1..][..i];
            }
            if LengthCheckRaises(entries) {
              var i :| 0 <= i < |entries| && Len(entries[i]).None? && AllLengthTwo(entries[..i]);
              assert i > 0;
              assert Len(entries[1..][i - 1]).None?;
            }
            if LengthCheckRaises(entries[1..]) {
              var i :| 0 <= i < |entries| - 1 && Len(entries[1..][i]).None? && AllLengthTwo(entries[1..][..i]);
              assert Len(entries[i + 1]).None?;
            }
          }
          assert AllLengthTwo(entries[1..]) <==> AllLengthTwo(entries) by {
            if AllLengthTwo(entries[1..]) {
              forall i | 0 <= i < |entries| ensures Len(entries[i]) == Some(2) {
                if i > 0 { assert entries[i] == entries[1..][i - 1]; }
              }
            }
          }
          rest
  }

  /** The `geo_locations` value built from a flat list of country codes. */
  function GeoLocations(countries: seq<Value>): Value {
    Obj(map["countries" := List(countries), "cities" := List([]), "regions" := List([])])
  }

  /** The age part of the spec: each age bound copied when present. */
  function AgeEntries(data: map<string, Value>): (m: map<string, Value>)
    ensures m.Keys <= {"age_min", "age_max"}
    ensures forall k :: k in {"age_min", "age_max"} ==> (k in m <==> k in data)
    ensures forall k :: k in m ==> m[k] == data[k]
  {
    (if "age_min" in data then map["age_min" := data["age_min"]] else map[])
    + (if "age_max" in data then map["age_max" := data["age_max"]] else map[])
  }

  /** The gender part of the spec: the input list, only when it is a non-empty list. */
  function GenderEntries(data: map<string, Value>): (m: map<string, Value>)
    ensures "genders" in m <==> "genders" in data && IsNonEmptyList(data["genders"])
    ensures m.Keys <= {"genders"}
    ensures "genders" in m ==> m["genders"] == data["genders"]
  {
    if "genders" in data && IsNonEmptyList(data["genders"]) then map["genders" := data["genders"]] else map[]
  }

  /** The location part of the spec: an explicit `geo_locations` wins; otherwise a non-empty `locations`
      list becomes the country list when every entry has length two, and an empty country list otherwise. */
  function GeoEntries(data: map<string, Value>): (r: Result<map<string, Value>, string>)
    ensures "geo_locations" in data ==> r == Success(map["geo_locations" := data["geo_locations"]])
    ensures "geo_locations" !in data && !("locations" in data && IsNonEmptyList(data["locations"])) ==>
      r == Success(map[])
    ensures "geo_locations" !in data && "locations" in data && IsNonEmptyList(data["locations"]) ==>
      var entries := data["locations"].items;
      && (r.Failure? <==> LengthCheckRaises(entries))
      && (r.Success? ==>
            r.value == map["geo_locations" := GeoLocations(if AllLengthTwo(entries) then entries else [])])
  {
    if "geo_locations" in data then Success(map["geo_locations" := data["geo_locations"]])
    else if "locations" in data && IsNonEmptyList(data["locations"]) then
      var entries := data["locations"].items;
      var allTwo :- AllHaveLengthTwo(entries);
      Success(map["geo_locations" := GeoLocations(if allTwo then entries else [])])
    else Success(map[])
  }

  /** Python's `a, b = v` for a two-element target; lists, tuples and strings are iterable. */
  function UnpackPair(v: Value): (r: Result<(Value, Value), string>)
    ensures r.Success? <==> (v.List? || v.Tuple? || v.Str?) && Len(v) == Some(2)
    // the first element is bound to the first target, the second to the second
    ensures r.Success? && (v.List? || v.Tuple?) ==> r.value == (v.items[0], v.items[1])
    ensures r.Success? && v.Str? ==> r.value == (Str([v.s[0]]), Str([v.s[1]]))
  {
    match v
    case List(items) => if |items| == 2 then Success((items[0], items[1])) else Failure("ValueError")
    case Tuple(items) => if |items| == 2 then Success((items[0], items[1])) else Failure("ValueError")
    case Str(s) => if |s| == 2 then Success((Str([s[0]]), Str([s[1]]))) else Failure("ValueError")
    case _ => Failure("TypeError")
  }

  /** The `{id, name}` object of one interest pair. */
  function InterestObject(pair: (Value, Value)): Value {
    Obj(map["id" := pair.0, "name" := pair.1])
  }

  /** The list comprehension over interest pairs: one `{id, name}` object per pair, in order; it raises
      at the first entry that is not a pair. */
  function InterestObjects(entries: seq<Value>): (r: Result<seq<Value>, string>)
    ensures r.Success? <==> forall i :: 0 <= i < |entries| ==> UnpackPair(entries[i]).Success?
    ensures r.Success? ==>
      && |r.value| == |entries|
      && forall i :: 0 <= i < |entries| ==> r.value[i] == InterestObject(UnpackPair(entries[i]).value)
    ensures r.Failure? ==>
      exists i :: 0 <= i < |entries| && UnpackPair(entries[i]) == Failure(r.error)
                  && forall j :: 0 <= j < i ==> UnpackPair(entries[j]).Success?
  {
    if entries == [] then Success([])
    else
      match UnpackPair(entries[0])
      case Failure(e) => Failure(e)
      case Success(pair) =>
        var rest :- InterestObjects(entries[1..]);
        Success([InterestObject(pair)] + rest)
  }

  /** The interest part of the spec, present whenever the input holds an `interests` list. */
  function InterestEntries(data: map<string, Value>): (r: Result<map<string, Value>, string>)
    ensures !("interests" in data && data["interests"].List?) ==> r == Success(map[])
    ensures "interests" in data && data["interests"].List? ==>
      match InterestObjects(data["interests"].items)
      case Success(objects) => r == Success(map["interests" := List(objects)])
      case Failure(e) => r == Failure(e)
  {
    if "interests" in data && data["interests"].List? then
      var objects :- InterestObjects(data["interests"].items);
      Success(map["interests" := List(objects)])
    else Success(map[])
  }

  /** `format_targeting_spec`: a partial, additive map transform of loosely shaped targeting data. */
  function FormatTargetingSpec(data: map<string, Value>): (r: Result<map<string, Value>, string>)
    // it raises only where the location length check or the interest unpacking raises
    ensures r.Failure? <==> GeoEntries(data).Failure? || InterestEntries(data).Failure?
    // the output is assembled from the four parts alone, so nothing but the five keys appears
    ensures r.Success? ==>
      r.value == AgeEntries(data) + GenderEntries(data) + GeoEntries(data).value + InterestEntries(data).value
    ensures r.Success? ==> r.value.Keys <= TargetingKeys
    // the location step runs first, so its error wins when both raise
    ensures GeoEntries(data).Failure? ==> r == Failure(GeoEntries(data).error)
    ensures GeoEntries(data).Success? && InterestEntries(data).Failure? ==> r == Failure(InterestEntries(data).error)
  {
    var geo :- GeoEntries(data);
    var interests :- InterestEntries(data);
    var spec := AgeEntries(data) + GenderEntries(data) + geo + interests;
    assert geo.Keys <= {"geo_locations"};
    assert interests.Keys <= {"interests"};
    Success(spec)
  }

  /** Ages and genders reach the formatted spec unchanged, and only when the source holds them in a
      usable form; an explicit `geo_locations` is passed through verbatim, whatever `locations` says. */
  lemma FormattedSpecPassesThrough(data: map<string, Value>)
    requires FormatTargetingSpec(data).Success?
    ensures var spec := FormatTargetingSpec(data).value;
      && (forall k :: k in {"age_min", "age_max"} ==> (k in spec <==> k in data))
      && (forall k :: k in {"age_min", "age_max"} && k in data ==> spec[k] == data[k])
      && ("genders" in spec <==> "genders" in data && IsNonEmptyList(data["genders"]))
      && ("genders" in spec ==> spec["genders"] == data["genders"])
      && ("geo_locations" in data ==> spec["geo_locations"] == data["geo_locations"])
  {
    var ages, genders := AgeEntries(data), GenderEntries(data);
    var geo, interests := GeoEntries(data).value, InterestEntries(data).value;
    assert geo.Keys <= {"geo_locations"};
    assert interests.Keys <= {"interests"};
    var spec := FormatTargetingSpec(data).value;
    assert spec == ages + genders + geo + interests;
    forall k | k in {"age_min", "age_max"} && k in data ensures k in spec && spec[k] == data[k] {
      assert k in ages && k !in genders && k !in geo && k !in interests;
    }
  }

  /** A non-empty `locations` list without an explicit `geo_locations` yields the list itself as the
      country list when every entry has length two, and no countries otherwise; cities and regions are
      always empty. An empty or non-list `locations` yields no `geo_locations` at all. */
  lemma FormattedSpecLocations(data: map<string, Value>)
    requires FormatTargetingSpec(data).Success? && "geo_locations" !in data
    ensures var spec := FormatTargetingSpec(data).value;
      && ("geo_locations" in spec <==> "locations" in data && IsNonEmptyList(data["locations"]))
      && ("geo_locations" in spec ==>
            var entries := data["locations"].items;
            spec["geo_locations"] == GeoLocations(if AllLengthTwo(entries) then entries else []))
  {
    var geo, interests := GeoEntries(data).value, InterestEntries(data).value;
    assert interests.Keys <= {"interests"};
    assert FormatTargetingSpec(data).value == AgeEntries(data) + GenderEntries(data) + geo + interests;
  }
}
