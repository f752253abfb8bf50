/**
 * Validation of resort settings: required fields present, coordinates a
 * numeric in-range pair, elevation a plausible number of feet, website an
 * http(s) URL, optional fields of the right type. The error list is built
 * by appending, one check after the other; `ResortErrors` is the list it
 * comes to and `WellFormedResort` the independent statement of validity.
 */
module ResortValidator {
  import opened Wrappers
  import opened Dicts
  import opened Fields
  import opened Resorts

  const REQUIRED_FIELDS: seq<string> := ["coordinates", "elevation", "website"]
  const OPTIONAL_FIELDS: seq<string> := ["region", "type", "vertical_drop"]

  const COORDS_SHAPE_ERROR := "Coordinates must be a tuple of (latitude, longitude)"
  const COORDS_TYPE_ERROR := "Coordinates must be numeric values"
  const COORDS_RANGE_ERROR := "Coordinates out of valid range (latitude: -90 to 90, longitude: -180 to 180)"
  const ELEVATION_TYPE_ERROR := "Elevation must be a numeric value"
  const ELEVATION_RANGE_ERROR := "Elevation out of reasonable range (0 to 30,000 feet)"
  const WEBSITE_TYPE_ERROR := "Website must be a string"
  const WEBSITE_PREFIX_ERROR := "Website URL must start with http:// or https://"
  const MAX_ELEVATION := 30000

  function MissingMessage(field: string): string {
    "Missing required field: " + field
  }

  function NumericMessage(field: string): string {
    "Field '" + field + "' must be a numeric value"
  }

  function StringMessage(field: string): string {
    "Field '" + field + "' must be a string"
  }

  // ---------------------------------------------------------------------
  // What each check accepts

  /** A 2-tuple of numbers with latitude in [-90, 90] and longitude in [-180, 180]. */
  predicate ValidCoordinates(f: Field) {
    f.FTuple? && |f.elems| == 2 && IsNumeric(f.elems[0]) && IsNumeric(f.elems[1]) &&
    -90.0 <= NumValue(f.elems[0]) <= 90.0 && -180.0 <= NumValue(f.elems[1]) <= 180.0
  }

  /** A number of feet in [0, 30000]. */
  predicate ValidElevation(f: Field) {
    IsNumeric(f) && 0.0 <= NumValue(f) <= MAX_ELEVATION as real
  }

  /** A string beginning with "http://" or "https://". */
  predicate ValidWebsite(f: Field) {
    f.FStr? && ("http://" <= f.s || "https://" <= f.s)
  }

  /** Settings that pass every check. Unknown extra fields are allowed. */
  predicate WellFormedResort(data: ResortData) {
    && "coordinates" in data && ValidCoordinates(data["coordinates"])
    && "elevation" in data && ValidElevation(data["elevation"])
    && "website" in data && ValidWebsite(data["website"])
    && ("vertical_drop" in data ==> IsNumeric(data["vertical_drop"]))
    && ("region" in data ==> data["region"].FStr?)
    && ("type" in data ==> data["type"].FStr?)
  }

  // ---------------------------------------------------------------------
  // The error list

  /** The fields absent from the settings, in the fields' order. */
  function Absent(fields: seq<string>, data: ResortData): (r: seq<string>)
    ensures |r| <= |fields|
  {
    if fields == [] then []
    else
      var f := fields[|fields| - 1];
      Absent(fields[..|fields| - 1], data) + (if f !in data then [f] else [])
  }

  /** A field is listed as absent exactly when it is one of the fields and not in the settings. */
  lemma {:induction false} AbsentMembers(fields: seq<string>, data: ResortData)
    ensures forall f :: f in Absent(fields, data) <==> f in fields && f !in data
  {
    if fields != [] {
      var prefix := fields[..|fields| - 1];
      assert fields == prefix + [fields[|fields| - 1]];
      AbsentMembers(prefix, data);
    }
  }

  /** One "Missing required field" message per absent field, in the fields' order. */
  function MissingErrors(fields: seq<string>, data: ResortData): (r: seq<string>)
    ensures |r| <= |fields|
  {
    if fields == [] then []
    else
      var f := fields[|fields| - 1];
      MissingErrors(fields[..|fields| - 1], data) + (if f !in data then [MissingMessage(f)] else [])
  }

  /** The missing-field messages name the absent fields, one each, in order. */
  lemma {:induction false} MissingErrorsNameAbsent(fields: seq<string>, data: ResortData)
    ensures var r := MissingErrors(fields, data);
      |r| == |Absent(fields, data)| &&
      forall i :: 0 <= i < |r| ==> r[i] == MissingMessage(Absent(fields, data)[i])
  {
    if fields != [] {
      MissingErrorsNameAbsent(fields[..|fields| - 1], data);
    }
  }

  /** The coordinates check: at most one error, the first of shape, type, range that fails. */
  function CoordinateErrors(data: ResortData): (r: seq<string>)
    ensures r == [] <==> "coordinates" !in data || ValidCoordinates(data["coordinates"])
    ensures "coordinates" in data ==> var c := data["coordinates"];
      (r == [COORDS_SHAPE_ERROR] <==> !(c.FTuple? && |c.elems| == 2)) &&
      (r == [COORDS_TYPE_ERROR] <==> c.FTuple? && |c.elems| == 2 && !(IsNumeric(c.elems[0]) && IsNumeric(c.elems[1])))
    ensures |r| <= 1
  {
    if "coordinates" !in data then []
    else
      var c := data["coordinates"];
      if !c.FTuple? || |c.elems| != 2 then [COORDS_SHAPE_ERROR]
      else if !(IsNumeric(c.elems[0]) && IsNumeric(c.elems[1])) then [COORDS_TYPE_ERROR]
      else if !(-90.0 <= NumValue(c.elems[0]) <= 90.0 && -180.0 <= NumValue(c.elems[1]) <= 180.0) then [COORDS_RANGE_ERROR]
      else []
  }

  /** The elevation check: a type error, or a range error, or nothing. */
  function ElevationErrors(data: ResortData): (r: seq<string>)
    ensures r == [] <==> "elevation" !in data || ValidElevation(data["elevation"])
    ensures r != [] ==> r == [ELEVATION_TYPE_ERROR] || r == [ELEVATION_RANGE_ERROR]
    ensures "elevation" in data ==> (r == [ELEVATION_TYPE_ERROR] <==> !IsNumeric(data["elevation"]))
  {
    if "elevation" !in data then []
    else
      var e := data["elevation"];
      if !IsNumeric(e) then [ELEVATION_TYPE_ERROR]
      else if NumValue(e) < 0.0 || NumValue(e) > MAX_ELEVATION as real then [ELEVATION_RANGE_ERROR]
      else []
  }

  /** The website check: a type error, or a prefix error, or nothing. */
  function WebsiteErrors(data: ResortData): (r: seq<string>)
    ensures r == [] <==> "website" !in data || ValidWebsite(data["website"])
    ensures r != [] ==> r == [WEBSITE_TYPE_ERROR] || r == [WEBSITE_PREFIX_ERROR]
    ensures "website" in data ==> (r == [WEBSITE_TYPE_ERROR] <==> !data["website"].FStr?)
  {
    if "website" !in data then []
    else
      var w := data["website"];
      if !w.FStr? then [WEBSITE_TYPE_ERROR]
      else if !("http://" <= w.s || "https://" <= w.s) then [WEBSITE_PREFIX_ERROR]
      else []
  }

  /** One optional field's check: `vertical_drop` must be numeric, `region` and `type` strings. */
  function OptionalError(field: string, data: ResortData): (r: seq<string>)
    ensures |r| <= 1
    ensures r == [] <==>
      (field !in data ||
       ((field == "vertical_drop" ==> IsNumeric(data[field])) &&
        ((field == "region" || field == "type") ==> data[field].FStr?)))
  {
    if field !in data then []
    else if field == "vertical_drop" && !IsNumeric(data[field]) then [NumericMessage(field)]
    else if (field == "region" || field == "type") && !data[field].FStr? then [StringMessage(field)]
    else []
  }

  /** The optional-field checks, in the fields' order. */
  function OptionalErrors(fields: seq<string>, data: ResortData): (r: seq<string>)
    ensures |r| <= |fields|
  {
    if fields == [] then []
    else OptionalErrors(fields[..|fields| - 1], data) + OptionalError(fields[|fields| - 1], data)
  }

  /** The optional checks report nothing exactly when each field's check reports nothing. */
  lemma OptionalErrorsEmpty(fields: seq<string>, data: ResortData)
    ensures OptionalErrors(fields, data) == [] <==> forall i :: 0 <= i < |fields| ==> OptionalError(fields[i], data) == []
  {
    if OptionalErrors(fields, data) == [] {
      NoOptionalErrorsEach(fields, data);
    } else {
      SomeOptionalError(fields, data);
    }
  }

  /** An empty list means every field's check passed. */
  lemma {:induction false} NoOptionalErrorsEach(fields: seq<string>, data: ResortData)
    requires OptionalErrors(fields, data) == []
    ensures forall i :: 0 <= i < |fields| ==> OptionalError(fields[i], data) == []
  {
    if fields != [] {
      var prefix := fields[..|fields| - 1];
      var last := fields[|fields| - 1];
      assert |OptionalErrors(prefix, data)| + |OptionalError(last, data)| == 0;
      NoOptionalErrorsEach(prefix, data);
      forall i | 0 <= i < |fields| ensures OptionalError(fields[i], data) == [] {
        if i < |prefix| {
          assert fields[i] == prefix[i];
        }
      }
    }
  }

  /** A non-empty list names a field whose check failed. */
  lemma {:induction false} SomeOptionalError(fields: seq<string>, data: ResortData)
    requires OptionalErrors(fields, data) != []
    ensures exists i :: 0 <= i < |fields| && OptionalError(fields[i], data) != []
  {
    var prefix := fields[..|fields| - 1];
    if OptionalErrors(prefix, data) != [] {
      SomeOptionalError(prefix, data);
      var i :| 0 <= i < |prefix| && OptionalError(prefix[i], data) != [];
      assert fields[i] == prefix[i];
    } else {
      assert OptionalError(fields[|fields| - 1], data) != [];
    }
  }

  /** Every error `validate_resort_data` reports, in the order it reports them. */
  function ResortErrors(data: ResortData): seq<string> {
    MissingErrors(REQUIRED_FIELDS, data) + CoordinateErrors(data) + ElevationErrors(data) +
    WebsiteErrors(data) + OptionalErrors(OPTIONAL_FIELDS, data)
  }

  /** No required field is missing exactly when all three are present. */
  lemma NoneMissing(data: ResortData)
    ensures MissingErrors(REQUIRED_FIELDS, data) == [] <==>
      "coordinates" in data && "elevation" in data && "website" in data
  {
    MissingErrorsNameAbsent(REQUIRED_FIELDS, data);
    AbsentMembers(REQUIRED_FIELDS, data);
    var absent := Absent(REQUIRED_FIELDS, data);
    if absent != [] {
      assert absent[0] in absent;
    }
    assert "coordinates" !in data ==> "coordinates" in absent;
    assert "elevation" !in data ==> "elevation" in absent;
    assert "website" !in data ==> "website" in absent;
  }

  /** Settings are reported valid exactly when they are well formed. */
  lemma ResortErrorsEmptyIff(data: ResortData)
    ensures ResortErrors(data) == [] <==> WellFormedResort(data)
  {
    NoneMissing(data);
    OptionalErrorsEmpty(OPTIONAL_FIELDS, data);
    var opt := OPTIONAL_FIELDS;
    assert (forall i :: 0 <= i < |opt| ==> OptionalError(opt[i], data) == []) <==>
      OptionalError(opt[0], data) == [] && OptionalError(opt[1], data) == [] && OptionalError(opt[2], data) == [];
  }

  /** Each absent required field is reported once, in the declared order, ahead of every other error. */
  lemma MissingReportedFirst(data: ResortData)
    ensures var absent := Absent(REQUIRED_FIELDS, data);
      |absent| <= |ResortErrors(data)| &&
      forall i :: 0 <= i < |absent| ==> ResortErrors(data)[i] == MissingMessage(absent[i])
  {
    MissingErrorsNameAbsent(REQUIRED_FIELDS, data);
  }

  /** The coordinates block of `validate_resort_data`. */
  method CheckCoordinates(data: ResortData, errors: seq<string>) returns (r: seq<string>)
    ensures r == errors + CoordinateErrors(data)
  {
    r := errors;
    if "coordinates" in data {
      var coords := data["coordinates"];
      if !coords.FTuple? || |coords.elems| != 2 {
        r := r + [COORDS_SHAPE_ERROR];
      } else if !(IsNumeric(coords.elems[0]) && IsNumeric(coords.elems[1])) {
        r := r + [COORDS_TYPE_ERROR];
      } else if !(-90.0 <= NumValue(coords.elems[0]) <= 90.0 && -180.0 <= NumValue(coords.elems[1]) <= 180.0) {
        r := r + [COORDS_RANGE_ERROR];
      }
    }
  }

  /** The elevation block of `validate_resort_data`. */
  method CheckElevation(data: ResortData, errors: seq<string>) returns (r: seq<string>)
    ensures r == errors + ElevationErrors(data)
  {
    r := errors;
    if "elevation" in data {
      var elevation := data["elevation"];
      if !IsNumeric(elevation) {
        r := r + [ELEVATION_TYPE_ERROR];
      } else if NumValue(elevation) < 0.0 || NumValue(elevation) > MAX_ELEVATION as real {
        r := r + [ELEVATION_RANGE_ERROR];
      }
    }
  }

  /** The website block of `validate_resort_data`. */
  method CheckWebsite(data: ResortData, errors: seq<string>) returns (r: seq<string>)
    ensures r == errors + WebsiteErrors(data)
  {
    r := errors;
    if "website" in data {
      var website := data["website"];
      if !website.FStr? {
        r := r + [WEBSITE_TYPE_ERROR];
      } else if !("http://" <= website.s || "https://" <= website.s) {
        r := r + [WEBSITE_PREFIX_ERROR];
      }
    }
  }

  /** The required-field loop of `validate_resort_data`. */
  method CheckRequired(data: ResortData) returns (errors: seq<string>)
    ensures errors == MissingErrors(REQUIRED_FIELDS, data)
  {
    errors := [];
    for i := 0 to |REQUIRED_FIELDS|
      invariant errors == MissingErrors(REQUIRED_FIELDS[..i], data)
    {
      var field := REQUIRED_FIELDS[i];
      assert REQUIRED_FIELDS[..i + 1][..i] == REQUIRED_FIELDS[..i];
      if field !in data {
        errors := errors + [MissingMessage(field)];
      }
    }
    assert REQUIRED_FIELDS[..|REQUIRED_FIELDS|] == REQUIRED_FIELDS;
  }

  /** The optional-field loop of `validate_resort_data`. */
  method CheckOptional(data: ResortData, checked: seq<string>) returns (errors: seq<string>)
    ensures errors == checked + OptionalErrors(OPTIONAL_FIELDS, data)
  {
    errors := checked;
    for i := 0 to |OPTIONAL_FIELDS|
      invariant errors == checked + OptionalErrors(OPTIONAL_FIELDS[..i], data)
    {
      var field := OPTIONAL_FIELDS[i];
      assert OPTIONAL_FIELDS[..i + 1][..i] == OPTIONAL_FIELDS[..i];
      ghost var next := checked + OptionalErrors(OPTIONAL_FIELDS[..i + 1], data);
      assert next == errors + OptionalError(field, data);
      if field in data {
        if field == "vertical_drop" && !IsNumeric(data[field]) {
          errors := errors + [NumericMessage(field)];
        } else if (field == "region" || field == "type") && !data[field].FStr? {
          errors := errors + [StringMessage(field)];
        }
      }
    }
    assert OPTIONAL_FIELDS[..|OPTIONAL_FIELDS|] == OPTIONAL_FIELDS;
  }

  /**
   * `validate_resort_data`: the required-field loop, the coordinate,
   * elevation and website checks, then the optional-field loop.
   */
  method ValidateResortData(name: string, data: ResortData) returns (isValid: bool, errors: seq<string>)
    ensures errors == ResortErrors(data)
    ensures isValid <==> errors == []
    ensures isValid <==> WellFormedResort(data)
  {
    errors := CheckRequired(data);
    errors := CheckCoordinates(data, errors);
    errors := CheckElevation(data, errors);
    errors := CheckWebsite(data, errors);
    errors := CheckOptional(data, errors);
    isValid := |errors| == 0;
    ResortErrorsEmptyIff(data);
  }

  // ---------------------------------------------------------------------
  // All resorts

  /** Name to error list for every resort whose list is not empty, in table order. */
  function Failures(resorts: seq<(string, ResortData)>): Dict<string, seq<string>> {
    if resorts == [] then []
    else
      var prefix := resorts[..|resorts| - 1];
      var last := resorts[|resorts| - 1];
      assert resorts == prefix + [last];
      var errors := ResortErrors(last.1);
      if errors == [] then Failures(prefix) else Set(Failures(prefix), last.0, errors)
  }

  /** A resort is listed exactly when it fails validation, with its own error list. */
  lemma {:induction false} FailuresGet(resorts: ResortTable, name: string)
    ensures Get(Failures(resorts), name) ==
      match Get(resorts, name)
      case None => None
      case Some(data) => if ResortErrors(data) == [] then None else Some(ResortErrors(data))
  {
    if resorts != [] {
      var prefix := resorts[..|resorts| - 1];
      var last := resorts[|resorts| - 1];
      assert resorts == prefix + [last];
      DistinctSnoc(prefix, last);
      FailuresGet(prefix, name);
      GetSnoc(prefix, last.0, last.1, name);
      if ResortErrors(last.1) != [] {
        SetGet(Failures(prefix), last.0, ResortErrors(last.1), name);
      }
      if name == last.0 && name !in Keys(prefix) {
        assert Get(prefix, name) == None;
      }
    }
  }

  /** Adding one resort to the table adds its entry when it fails. */
  lemma FailuresStep(resorts: seq<(string, ResortData)>, i: nat)
    requires i < |resorts|
    ensures var p := resorts[i];
      Failures(resorts[..i + 1]) ==
      if ResortErrors(p.1) == [] then Failures(resorts[..i]) else Set(Failures(resorts[..i]), p.0, ResortErrors(p.1))
  {
    assert resorts[..i + 1][..i] == resorts[..i];
  }

  /** `validate_all_resorts`: the loop over the table, keeping the failing resorts. */
  method ValidateAllResorts(resorts: ResortTable) returns (allErrors: Dict<string, seq<string>>)
    ensures allErrors == Failures(resorts)
  {
    allErrors := [];
    for i := 0 to |resorts|
      invariant allErrors == Failures(resorts[..i])
    {
      var name, data := resorts[i].0, resorts[i].1;
      FailuresStep(resorts, i);
      var isValid, errors := ValidateResortData(name, data);
      if !isValid {
        allErrors := Set(allErrors, name, errors);
      }
    }
    assert resorts[..|resorts|] == resorts;
  }

  /** A resort built from in-range numbers and an https address is well formed. */
  lemma ResortEntryValid(lat: real, lon: real, elevation: int, website: string, region: string, kind: string, verticalDrop: int)
    requires -90.0 <= lat <= 90.0 && -180.0 <= lon <= 180.0 && 0 <= elevation <= MAX_ELEVATION
    requires "https://" <= website
    ensures ResortErrors(Resort(lat, lon, elevation, website, region, kind, verticalDrop)) == []
  {
    ResortErrorsEmptyIff(Resort(lat, lon, elevation, website, region, kind, verticalDrop));
  }

  /** Every configured resort passes validation. */
  lemma ConfiguredResortsValid()
    ensures Failures(RESORTS) == []
  {
    var t := ResortTableData();
    forall i | 0 <= i < |t| ensures ResortErrors(t[i].1) == [] {
      ConfiguredEntryValid(i);
    }
    AllValidNoFailures(t);
  }

  /** Resort number i of the configured table passes validation. */
  lemma ConfiguredEntryValid(i: nat)
    requires i < |ROWS|
    ensures ResortErrors(ResortTableData()[i].1) == []
  {
    RowsInRange();
    var r := ROWS[i];
    ResortEntryValid(r.lat, r.lon, r.elevation, r.website, r.region, r.kind, r.verticalDrop);
  }

  /** Every declared entry has coordinates and an elevation in range and an https website. */
  lemma RowsInRange()
    ensures forall i :: 0 <= i < |ROWS| ==>
      -90.0 <= ROWS[i].lat <= 90.0 && -180.0 <= ROWS[i].lon <= 180.0 &&
      0 <= ROWS[i].elevation <= MAX_ELEVATION && "https://" <= ROWS[i].website
  {
  }

  lemma {:induction false} AllValidNoFailures(resorts: seq<(string, ResortData)>)
    requires forall i :: 0 <= i < |resorts| ==> ResortErrors(resorts[i].1) == []
    ensures Failures(resorts) == []
  {
    if resorts != [] {
      var prefix := resorts[..|resorts| - 1];
      assert forall i :: 0 <= i < |prefix| ==> prefix[i] == resorts[i];
      AllValidNoFailures(prefix);
    }
  }
}
