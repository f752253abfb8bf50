/**
 * Which resorts the system watches: the comma-separated ENABLED_RESORTS
 * setting, the enabled subset of a resort table, the resorts of one region,
 * and one resort's coordinates.  The table is a parameter; the system
 * passes `Resorts.RESORTS`.
 */
module ResortConfig {
  import opened Wrappers
  import opened Dicts
  import opened Fields
  import JsonValues
  import opened Strings
  import opened Resorts

  /**
   * The ENABLED_RESORTS setting: None when it is empty (unset), otherwise
   * the comma-separated names, each stripped of surrounding whitespace.
   */
  function EnabledResorts(setting: string): (r: Option<seq<string>>)
    ensures r.None? <==> setting == []
    ensures r.Some? ==>
      (|r.value| == |Split(setting, ',')| &&
       forall i :: 0 <= i < |r.value| ==> r.value[i] == Strip(Split(setting, ',')[i]))
  {
    if setting == [] then None
    else
      var parts := Split(setting, ',');
      Some(seq(|parts|, i requires 0 <= i < |parts| => Strip(parts[i])))
  }

  /** Names joined with commas read back as the same names, provided none holds a comma or stray whitespace. */
  lemma EnabledResortsJoin(names: seq<string>)
    requires names != [] && Join(names, ',') != []
    requires forall i :: 0 <= i < |names| ==> ',' !in names[i] && Strip(names[i]) == names[i]
    ensures EnabledResorts(Join(names, ',')) == Some(names)
  {
    var setting := Join(names, ',');
    SplitJoin(names, ',');
    var got := EnabledResorts(setting).value;
    assert |got| == |names|;
    forall i | 0 <= i < |names| ensures got[i] == names[i] {
      assert Split(setting, ',')[i] == names[i];
    }
    assert got == names;
  }

  /** The enabled resorts the loop has collected after looking at `names`. */
  function EnabledFrom(names: seq<string>, table: ResortTable): ResortTable {
    if names == [] then []
    else
      var name := names[|names| - 1];
      var enabled := EnabledFrom(names[..|names| - 1], table);
      match Get(table, name)
      case Some(data) => Set(enabled, name, data)
      case None => enabled
  }

  /**
   * An enabled name present in the table maps to its table entry; any other
   * name, an unknown enabled one included, is absent.
   */
  lemma {:induction false} EnabledFromGet(names: seq<string>, table: ResortTable, k: string)
    ensures Get(EnabledFrom(names, table), k) == if k in names then Get(table, k) else None
  {
    if names != [] {
      var init := names[..|names| - 1];
      var name := names[|names| - 1];
      assert names == init + [name];
      EnabledFromGet(init, table, k);
      match Get(table, name)
      case Some(data) =>
        SetGet(EnabledFrom(init, table), name, data, k);
      case None =>
    }
  }

  /** The enabled resorts' names are the enabled names the table knows. */
  lemma EnabledFromKeys(names: seq<string>, table: ResortTable)
    ensures Keys(EnabledFrom(names, table)) == Elems(names) * Keys(table)
  {
    forall k ensures k in Keys(EnabledFrom(names, table)) <==> k in Elems(names) * Keys(table) {
      EnabledFromGet(names, table, k);
    }
  }

  /** `get_enabled_resorts`: every resort when the setting is unset, otherwise the enabled ones found in the table. */
  method GetEnabledResorts(enabledNames: Option<seq<string>>, table: ResortTable) returns (enabled: ResortTable)
    ensures enabledNames.None? || enabledNames.value == [] ==> enabled == table
    ensures enabledNames.Some? && enabledNames.value != [] ==> enabled == EnabledFrom(enabledNames.value, table)
  {
    if enabledNames.None? || enabledNames.value == [] {
      return table;
    }
    var names := enabledNames.value;
    enabled := [];
    for i := 0 to |names|
      invariant enabled == EnabledFrom(names[..i], table)
    {
      assert names[..i + 1][..i] == names[..i];
      var name := names[i];
      var entry := Get(table, name);
      if entry.Some? {
        enabled := Set(enabled, name, entry.value);
      }
    }
    assert names[..|names|] == names;
  }

  /** `data.get("region") == region`. */
  predicate InRegion(data: ResortData, region: string) {
    "region" in data && data["region"] == FStr(region)
  }

  /** `get_resort_by_region`: the entries whose region is the given one, in table order. */
  function ResortsByRegion(table: ResortTable, region: string): (r: ResortTable)
    ensures forall p :: p in r <==> p in table && InRegion(p.1, region)
    ensures Keys(r) <= Keys(table)
  {
    if table == [] then []
    else
      var rest := ResortsByRegion(table[1..], region);
      KeysCons(table);
      if InRegion(table[0].1, region) then
        var r := [table[0]] + rest;
        assert r[1..] == rest;
        KeysCons(r);
        r
      else rest
  }

  /** The argument KeyError carries when a resort is not configured. */
  function NotFoundMessage(name: string): string {
    "Resort '" + name + "' not found in configuration"
  }

  /** `get_resort_coordinates`: KeyError for an unknown resort, else its `coordinates` entry. */
  function ResortCoordinates(table: ResortTable, name: string): (r: Result<Field, JsonValues.PyError>)
    ensures name !in Keys(table) ==> r == Err(JsonValues.KeyError(NotFoundMessage(name)))
    ensures name in Keys(table) ==>
      var data := Get(table, name).value;
      (r.Ok? <==> "coordinates" in data) &&
      (r.Ok? ==> (name, data) in table && r.value == data["coordinates"]) &&
      (r.Err? ==> r.error == JsonValues.KeyError("coordinates"))
  {
    match Get(table, name)
    case None => Err(JsonValues.KeyError(NotFoundMessage(name)))
    case Some(data) =>
      if "coordinates" in data then Ok(data["coordinates"]) else Err(JsonValues.KeyError("coordinates"))
  }
}
