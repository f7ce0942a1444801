/**
 * The data logic of the image panel (src/ImageItPanel.tsx): for every
 * configured sensor, find the series its query names, resolve the sensor's
 * current value on one of two paths, resolve its mapping ids to mapping
 * rules; write a dragged sensor's new position into a copy of the options;
 * and choose the background image's URL.
 *
 * The host's display reduction (`getFieldDisplayValues` with the "last"
 * reducer) is a parameter `reduce`, and the uniqueness token that defeats
 * image caching is a parameter `token`.
 */
module ImageItPanel {
  import opened Wrappers
  import opened Search
  import opened Types

  /** The query id that switches value resolution to the label lookup. */
  const SentinelId: string := "app"

  /** The label key whose value the label lookup compares with the alias. */
  const TileLabel: string := "tile"

  // ----- Series selection -------------------------------------------------

  /** A field answers a query when the query's id is empty or equals the field's name. */
  predicate FieldMatches(q: Query, f: Field)
  {
    q.id == "" || q.id == f.name
  }

  /** The inner `find` over a series' fields is truthy: some field answers the query. */
  function HasMatchingField(q: Query, frame: Frame): (b: bool)
    ensures b <==> exists i :: 0 <= i < |frame.fields| && FieldMatches(q, frame.fields[i])
  {
    Find(frame.fields, f => FieldMatches(q, f)).Some?
  }

  /** `k` is the first series holding a field that answers the query. */
  ghost predicate FirstMatchingSeries(series: seq<Frame>, q: Query, k: nat)
  {
    k < |series| && HasMatchingField(q, series[k]) &&
    forall j :: 0 <= j < k ==> !HasMatchingField(q, series[j])
  }

  /** The series a sensor reads: the first one holding a field that answers its query. */
  function SelectSeries(series: seq<Frame>, q: Query): (r: Option<Frame>)
    ensures r.None? <==> forall j :: 0 <= j < |series| ==> !HasMatchingField(q, series[j])
    ensures r.Some? ==> exists k: nat :: FirstMatchingSeries(series, q, k) && series[k] == r.value
  {
    Find(series, fr => HasMatchingField(q, fr))
  }

  /** The first matching series is the one selected, however it was located. */
  lemma SelectSeriesAt(series: seq<Frame>, q: Query, k: nat)
    requires FirstMatchingSeries(series, q, k)
    ensures SelectSeries(series, q) == Some(series[k])
  {
  }

  /** With an empty id every field answers, so the first series that has any field is selected. */
  lemma EmptyIdSelectsFirstSeriesWithFields(series: seq<Frame>, q: Query, k: nat)
    requires q.id == ""
    requires k < |series| && |series[k].fields| > 0
    requires forall j :: 0 <= j < k ==> series[j].fields == []
    ensures SelectSeries(series, q) == Some(series[k])
  {
    assert FieldMatches(q, series[k].fields[0]);
    SelectSeriesAt(series, q, k);
  }

  // ----- Label lookup (query id "app") ------------------------------------

  /**
   * The label test of the sentinel lookup: it passes when the alias is empty,
   * when the field has no label object at all, or when its "tile" label equals
   * the alias.
   */
  predicate TileMatches(q: Query, f: Field)
  {
    q.alias == "" || f.labels.None? ||
    (TileLabel in f.labels.value && f.labels.value[TileLabel] == q.alias)
  }

  predicate SentinelCandidate(q: Query, f: Field)
  {
    FieldMatches(q, f) && TileMatches(q, f)
  }

  /** `k` is the first field of the series that passes both the name and the label test. */
  ghost predicate FirstSentinelField(serie: Frame, q: Query, k: nat)
  {
    k < |serie.fields| && SentinelCandidate(q, serie.fields[k]) &&
    forall j :: 0 <= j < k ==> !SentinelCandidate(q, serie.fields[j])
  }

  /** The field the label lookup settles on. */
  function SentinelField(serie: Frame, q: Query): (r: Option<Field>)
    ensures r.None? <==> forall j :: 0 <= j < |serie.fields| ==> !SentinelCandidate(q, serie.fields[j])
    ensures r.Some? ==> exists k: nat :: FirstSentinelField(serie, q, k) && serie.fields[k] == r.value
  {
    Find(serie.fields, f => SentinelCandidate(q, f))
  }

  /** Reading index `length - 1`: the last value, or undefined when there is none. */
  function LastValue(values: seq<real>): (r: Option<real>)
    ensures r.Some? <==> values != []
    ensures r.Some? ==> r.value == values[|values| - 1]
  {
    if values == [] then None else Some(values[|values| - 1])
  }

  /** The value of the label lookup: read only from a field that carries labels. */
  function SentinelValue(serie: Frame, q: Query): (r: Option<real>)
    ensures (forall j :: 0 <= j < |serie.fields| ==> !SentinelCandidate(q, serie.fields[j])) ==> r.None?
    ensures forall k: nat :: FirstSentinelField(serie, q, k) ==>
      var f := serie.fields[k];
      r == if f.labels.Some? && f.values != [] then Some(f.values[|f.values| - 1]) else None
  {
    match SentinelField(serie, q)
    case None => None
    case Some(f) => if f.labels.Some? then LastValue(f.values) else None
  }

  /**
   * A labelled field whose "tile" label differs from a non-empty alias is never
   * chosen, and on the "app" query the chosen field is named "app".
   */
  lemma SentinelFieldRespectsTile(serie: Frame, q: Query)
    requires q.id == SentinelId
    ensures SentinelField(serie, q).Some? ==> SentinelField(serie, q).value.name == SentinelId
    ensures SentinelField(serie, q).Some? && q.alias != "" && SentinelField(serie, q).value.labels.Some? ==>
      var labels := SentinelField(serie, q).value.labels.value;
      TileLabel in labels && labels[TileLabel] == q.alias
  {
  }

  /**
   * An unlabelled field passes the label test, so when it comes first it is
   * chosen and yields undefined, even if a later field carries the right tile.
   */
  lemma UnlabelledFieldShadowsLaterTile()
    ensures
      var labelled := Field(SentinelId, Some(map[TileLabel := "roomA"]), [5.0, 9.0]);
      SentinelValue(Frame([Field(SentinelId, None, [1.0]), labelled]), Query(SentinelId, "roomA")) == None
  {
    var q := Query(SentinelId, "roomA");
    var serie := Frame([Field(SentinelId, None, [1.0]), Field(SentinelId, Some(map[TileLabel := "roomA"]), [5.0, 9.0])]);
  }

  /**
   * Series selection looks only at field names, so on the "app" query the
   * first series holding any "app" field is read, even when its tile differs
   * and a later series carries the requested tile.
   */
  lemma AppSeriesShadowsLaterTile(reduce: Frame -> seq<Display>)
    ensures
      var other := Frame([Field(SentinelId, Some(map[TileLabel := "roomB"]), [1.0])]);
      var wanted := Frame([Field(SentinelId, Some(map[TileLabel := "roomA"]), [7.0])]);
      SensorValue([other, wanted], Query(SentinelId, "roomA"), reduce) == None
  {
    var q := Query(SentinelId, "roomA");
    var other := Frame([Field(SentinelId, Some(map[TileLabel := "roomB"]), [1.0])]);
    var wanted := Frame([Field(SentinelId, Some(map[TileLabel := "roomA"]), [7.0])]);
    assert FieldMatches(q, other.fields[0]);
    assert FirstMatchingSeries([other, wanted], q, 0);
  }

  /** A labelled field with no values yields undefined rather than a fault. */
  lemma EmptyValuesAreUnresolved(labels: map<string, string>, q: Query)
    requires q.id == SentinelId && q.alias == ""
    ensures SentinelValue(Frame([Field(SentinelId, Some(labels), [])]), q) == None
  {
    var serie := Frame([Field(SentinelId, Some(labels), [])]);
  }

  // ----- Display lookup (any other query id) ------------------------------

  /** A display qualifies when its title is non-empty and contains the alias. */
  predicate TitleMatches(q: Query, d: Display)
  {
    d.title != "" && Includes(d.title, q.alias)
  }

  /** `k` is the first qualifying display. */
  ghost predicate FirstTitleMatch(displays: seq<Display>, q: Query, k: nat)
  {
    k < |displays| && TitleMatches(q, displays[k]) &&
    forall j :: 0 <= j < k ==> !TitleMatches(q, displays[j])
  }

  /** The value of the display lookup: the numeric value of the first qualifying display. */
  function GeneralValue(displays: seq<Display>, q: Query): (r: Option<real>)
    ensures (forall j :: 0 <= j < |displays| ==> !TitleMatches(q, displays[j])) ==> r.None?
    ensures r.Some? ==> exists k: nat :: FirstTitleMatch(displays, q, k) && r == displays[k].numeric
    ensures forall k: nat :: FirstTitleMatch(displays, q, k) ==> r == displays[k].numeric
  {
    match Find(displays, d => TitleMatches(q, d))
    case None => None
    case Some(d) => d.numeric
  }

  lemma GeneralValueAt(displays: seq<Display>, q: Query, k: nat)
    requires FirstTitleMatch(displays, q, k)
    ensures GeneralValue(displays, q) == displays[k].numeric
  {
  }

  /** An empty alias is contained in every title, so the first display with a non-empty title is used. */
  lemma EmptyAliasPicksFirstTitled(displays: seq<Display>, q: Query, k: nat)
    requires q.alias == ""
    requires k < |displays| && displays[k].title != ""
    requires forall j :: 0 <= j < k ==> displays[j].title == ""
    ensures GeneralValue(displays, q) == displays[k].numeric
  {
    GeneralValueAt(displays, q, k);
  }

  // ----- Per-sensor value -------------------------------------------------

  /** A sensor's value: undefined without a series, otherwise one of the two lookups. */
  function SensorValue(series: seq<Frame>, q: Query, reduce: Frame -> seq<Display>): (r: Option<real>)
    ensures (forall j :: 0 <= j < |series| ==> !HasMatchingField(q, series[j])) ==> r.None?
    ensures forall k: nat :: FirstMatchingSeries(series, q, k) ==>
      r == if q.id == SentinelId then SentinelValue(series[k], q) else GeneralValue(reduce(series[k]), q)
  {
    match SelectSeries(series, q)
    case None => None
    case Some(serie) =>
      if q.id == SentinelId then SentinelValue(serie, q) else GeneralValue(reduce(serie), q)
  }

  /** The "app" query never consults the display reduction. */
  lemma SentinelIgnoresReduction(series: seq<Frame>, q: Query, reduce1: Frame -> seq<Display>, reduce2: Frame -> seq<Display>)
    requires q.id == SentinelId
    ensures SensorValue(series, q, reduce1) == SensorValue(series, q, reduce2)
  {
  }

  /** A field named "app" tagged with the alias as its tile yields its last value. */
  lemma SentinelScenario()
    ensures
      var field := Field(SentinelId, Some(map[TileLabel := "roomA"]), [5.0, 9.0]);
      forall reduce: Frame -> seq<Display> ::
        SensorValue([Frame([field])], Query(SentinelId, "roomA"), reduce) == Some(9.0) &&
        SensorValue([Frame([field])], Query(SentinelId, "roomB"), reduce) == None
  {
    var field := Field(SentinelId, Some(map[TileLabel := "roomA"]), [5.0, 9.0]);
    forall reduce: Frame -> seq<Display>
      ensures SensorValue([Frame([field])], Query(SentinelId, "roomA"), reduce) == Some(9.0)
      ensures SensorValue([Frame([field])], Query(SentinelId, "roomB"), reduce) == None
    {
      assert FieldMatches(Query(SentinelId, "roomA"), field);
      SelectSeriesAt([Frame([field])], Query(SentinelId, "roomA"), 0);
      SelectSeriesAt([Frame([field])], Query(SentinelId, "roomB"), 0);
    }
  }

  // ----- Mapping resolution -----------------------------------------------

  /** `k` is the position of the first mapping carrying `id`. */
  ghost predicate FirstWithId(mappings: seq<Mapping>, id: string, k: nat)
  {
    k < |mappings| && mappings[k].id == id && forall j :: 0 <= j < k ==> mappings[j].id != id
  }

  /** `mappings.find(m => id === m.id)`: the first mapping carrying the id. */
  function LookupMapping(mappings: seq<Mapping>, id: string): (r: Option<Mapping>)
    ensures r.None? <==> forall j :: 0 <= j < |mappings| ==> mappings[j].id != id
    ensures r.Some? ==> r.value.id == id && exists k: nat :: FirstWithId(mappings, id, k) && mappings[k] == r.value
  {
    Find(mappings, (m: Mapping) => id == m.id)
  }

  /** Each id mapped to its mapping, unresolved ids dropped. */
  function ResolveMappings(ids: seq<string>, mappings: seq<Mapping>): (r: seq<Mapping>)
    ensures |r| <= |ids|
  {
    Defined(seq(|ids|, i requires 0 <= i < |ids| => LookupMapping(mappings, ids[i])))
  }

  /** Resolution works id by id: the result for a concatenation is the concatenation of the results. */
  lemma ResolveMappingsAppend(ids1: seq<string>, ids2: seq<string>, mappings: seq<Mapping>)
    ensures ResolveMappings(ids1 + ids2, mappings) == ResolveMappings(ids1, mappings) + ResolveMappings(ids2, mappings)
  {
    var lookups1 := seq(|ids1|, i requires 0 <= i < |ids1| => LookupMapping(mappings, ids1[i]));
    var lookups2 := seq(|ids2|, i requires 0 <= i < |ids2| => LookupMapping(mappings, ids2[i]));
    var ids := ids1 + ids2;
    assert seq(|ids|, i requires 0 <= i < |ids| => LookupMapping(mappings, ids[i])) == lookups1 + lookups2;
    DefinedAppend(lookups1, lookups2);
  }

  /** A single id resolves to the first mapping with that id, or to nothing. */
  lemma ResolveMappingsSingle(id: string, mappings: seq<Mapping>)
    ensures LookupMapping(mappings, id).None? ==> ResolveMappings([id], mappings) == []
    ensures LookupMapping(mappings, id).Some? ==> ResolveMappings([id], mappings) == [LookupMapping(mappings, id).value]
  {
    var lookups := seq(1, i requires 0 <= i < 1 => LookupMapping(mappings, [id][i]));
    assert lookups == [LookupMapping(mappings, id)];
    assert lookups[1..] == [];
  }

  /** An id that names no mapping is dropped without disturbing the others. */
  lemma UnresolvedIdDropped(before: seq<string>, id: string, after: seq<string>, mappings: seq<Mapping>)
    requires forall j :: 0 <= j < |mappings| ==> mappings[j].id != id
    ensures ResolveMappings(before + [id] + after, mappings) == ResolveMappings(before + after, mappings)
  {
    ResolveMappingsAppend(before + [id], after, mappings);
    ResolveMappingsAppend(before, [id], mappings);
    ResolveMappingsSingle(id, mappings);
    ResolveMappingsAppend(before, after, mappings);
  }

  /**
   * When every id names a mapping, the result lists, in the order of the ids,
   * the first mapping with each id; a repeated id gives a repeated mapping.
   */
  lemma ResolveMappingsAllResolved(ids: seq<string>, mappings: seq<Mapping>)
    requires forall i :: 0 <= i < |ids| ==> exists j :: 0 <= j < |mappings| && mappings[j].id == ids[i]
    ensures |ResolveMappings(ids, mappings)| == |ids|
    ensures forall i :: 0 <= i < |ids| ==> ResolveMappings(ids, mappings)[i] == LookupMapping(mappings, ids[i]).value
    ensures forall i, j :: 0 <= i < |ids| && 0 <= j < |ids| && ids[i] == ids[j] ==>
      ResolveMappings(ids, mappings)[i] == ResolveMappings(ids, mappings)[j]
  {
    var lookups := seq(|ids|, i requires 0 <= i < |ids| => LookupMapping(mappings, ids[i]));
    DefinedAllSome(lookups);
  }

  /** Every resolved mapping is one of the mappings and carries one of the ids. */
  lemma ResolvedMappingsComeFromIds(ids: seq<string>, mappings: seq<Mapping>)
    ensures forall m :: m in ResolveMappings(ids, mappings) ==> m in mappings && m.id in ids
  {
    var lookups := seq(|ids|, i requires 0 <= i < |ids| => LookupMapping(mappings, ids[i]));
    forall m | m in ResolveMappings(ids, mappings)
      ensures m in mappings && m.id in ids
    {
      var i :| 0 <= i < |ResolveMappings(ids, mappings)| && ResolveMappings(ids, mappings)[i] == m;
      assert Some(m) in lookups;
      var j :| 0 <= j < |lookups| && lookups[j] == Some(m);
      assert LookupMapping(mappings, ids[j]) == Some(m);
    }
  }

  // ----- What each sensor widget receives ----------------------------------

  /** The computed inputs of one sensor widget. */
  datatype SensorView = SensorView(value: Option<real>, mappings: seq<Mapping>)

  /** One view per sensor, in the sensors' order. */
  function ProjectSensors(options: Options, series: seq<Frame>, reduce: Frame -> seq<Display>): (views: seq<SensorView>)
    ensures |views| == |options.sensors|
    ensures forall i :: 0 <= i < |views| ==>
      views[i].value == SensorValue(series, options.sensors[i].query, reduce) &&
      views[i].mappings == ResolveMappings(options.sensors[i].mappingIds, options.mappings)
  {
    seq(|options.sensors|, i requires 0 <= i < |options.sensors| =>
      SensorView(SensorValue(series, options.sensors[i].query, reduce),
                 ResolveMappings(options.sensors[i].mappingIds, options.mappings)))
  }

  // ----- Dragging a sensor -------------------------------------------------

  /**
   * The new options after sensor `index` was dragged to `position`. The
   * options are values, so the deep copy shares nothing with the input and
   * the input is left as it was; the result is what `onOptionsChange` gets.
   */
  method OnSensorPositionChange(options: Options, position: Position, index: nat) returns (newOptions: Options)
    requires index < |options.sensors|
    ensures |newOptions.sensors| == |options.sensors|
    ensures newOptions.sensors[index].position == position
    ensures newOptions.sensors[index].(position := options.sensors[index].position) == options.sensors[index]
    ensures forall j :: 0 <= j < |options.sensors| && j != index ==> newOptions.sensors[j] == options.sensors[j]
    ensures newOptions.(sensors := options.sensors) == options
  {
    newOptions := options;
    var moved := newOptions.sensors[index].(position := position);
    newOptions := newOptions.(sensors := newOptions.sensors[index := moved]);
  }

  /** Moving a sensor changes neither its value nor its mappings, nor those of any other sensor. */
  lemma MovingKeepsViews(options: Options, position: Position, index: nat, series: seq<Frame>, reduce: Frame -> seq<Display>)
    requires index < |options.sensors|
    ensures
      var moved := options.(sensors := options.sensors[index := options.sensors[index].(position := position)]);
      ProjectSensors(moved, series, reduce) == ProjectSensors(options, series, reduce)
  {
    var moved := options.(sensors := options.sensors[index := options.sensors[index].(position := position)]);
    var a, b := ProjectSensors(moved, series, reduce), ProjectSensors(options, series, reduce);
    assert forall i :: 0 <= i < |a| ==> a[i] == b[i];
  }

  // ----- Background image --------------------------------------------------

  /**
   * The image URL: the configured one, or, when a refresh is forced, the
   * configured one followed by "?" and a fresh token.
   */
  function ImageUrl(options: Options, token: string): (url: string)
    ensures options.imageUrl <= url
    ensures url == options.imageUrl <==> !options.forceImageRefresh
    ensures options.forceImageRefresh ==>
      url[|options.imageUrl|] == '?' && url[|options.imageUrl| + 1..] == token
  {
    if options.forceImageRefresh then options.imageUrl + "?" + token else options.imageUrl
  }
}
