/**
 * The configured resorts: ten ski areas around Park City, Utah, each with
 * coordinates, base elevation (feet), website, region, type and vertical
 * drop (feet). Python dicts keep insertion order, so the table is an
 * association list with distinct names.
 */
module Resorts {
  import opened Dicts
  import opened Fields

  /** One resort's settings, keyed by field name. */
  type ResortData = map<string, Field>

  /** Resort name to settings, in declaration order. */
  type ResortTable = Dict<string, ResortData>

  /** The settings of one configured resort. */
  function Resort(lat: real, lon: real, elevation: int, website: string, region: string, kind: string, verticalDrop: int)
    : ResortData
  {
    map[
      "coordinates" := FTuple([FFloat(lat), FFloat(lon)]),
      "elevation" := FInt(elevation),
      "website" := FStr(website),
      "region" := FStr(region),
      "type" := FStr(kind),
      "vertical_drop" := FInt(verticalDrop)]
  }

  /** One entry of `RESORTS` as declared: the name and the values of its settings. */
  datatype Row = Row(name: string, lat: real, lon: real, elevation: int, website: string,
                     region: string, kind: string, verticalDrop: int)

  /** The entries of `RESORTS`, in declaration order. */
  const ROWS: seq<Row> := [
    Row("Park City Mountain", 40.6514, -111.5080, 10000, "https://www.parkcitymountain.com", "Park City", "Alpine", 3200),
    Row("Deer Valley", 40.6374, -111.4783, 8100, "https://www.deervalley.com", "Park City", "Alpine (Ski Only)", 3000),
    Row("Snowbird", 40.5830, -111.6556, 7760, "https://www.snowbird.com", "Little Cottonwood Canyon", "Alpine", 3240),
    Row("Alta", 40.5884, -111.6387, 8530, "https://www.alta.com", "Little Cottonwood Canyon", "Alpine (Ski Only)", 2538),
    Row("Brighton", 40.5977, -111.5836, 8755, "https://www.brightonresort.com", "Big Cottonwood Canyon", "Alpine", 1875),
    Row("Solitude", 40.6199, -111.5919, 8755, "https://www.solitudemountain.com", "Big Cottonwood Canyon", "Alpine", 2494),
    Row("Snowbasin", 41.2160, -111.8572, 6400, "https://www.snowbasin.com", "Ogden", "Alpine", 3000),
    Row("Powder Mountain", 41.3803, -111.7803, 8900, "https://www.powdermountain.com", "Ogden", "Alpine", 2522),
    Row("Sundance", 40.3924, -111.5786, 6100, "https://www.sundanceresort.com", "Provo", "Alpine", 2150),
    Row("Woodward Park City", 40.7560, -111.5763, 6800, "https://www.woodwardparkcity.com", "Park City", "Action Sports", 400)]

  /** The settings dictionary of one entry. */
  function RowSettings(r: Row): ResortData {
    Resort(r.lat, r.lon, r.elevation, r.website, r.region, r.kind, r.verticalDrop)
  }

  /** `RESORTS`. */
  function ResortTableData(): (t: seq<(string, ResortData)>)
    ensures |t| == |ROWS| && forall i :: 0 <= i < |t| ==> t[i] == (ROWS[i].name, RowSettings(ROWS[i]))
    ensures DistinctKeys(t)
  {
    var t := seq(|ROWS|, i requires 0 <= i < |ROWS| => (ROWS[i].name, RowSettings(ROWS[i])));
    NamesDistinct();
    DistinctByIndex(t);
    t
  }

  /** No two configured resorts share a name. */
  lemma NamesDistinct()
    ensures forall i, j :: 0 <= i < j < |ROWS| ==> ROWS[i].name != ROWS[j].name
  {
  }

  /** `RESORTS`: ten resorts with distinct names. */
  const RESORTS: ResortTable := ResortTableData()
}
