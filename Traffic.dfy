/** The traffic tool (`traffic.py`): the congestion label derived from the
    provider's jam factor, the flow-segment request, and the normalisation of
    the provider's reply into the eleven-field traffic record. */
module Traffic {
  import opened Json
  import opened Http
  import opened Text
  import opened Decimal

  // ---------------------------------------------------------------------
  // Congestion classification (`_status_from_jam`)
  // ---------------------------------------------------------------------

  /** The three labels, from least to most congested. */
  const Labels: set<string> := {"free", "moderate", "heavy"}

  /** The label for a jam factor. The provider's scale is 0 to 10, but no
      range is checked: every value falls in exactly one bracket, and the
      boundaries 4 and 8 belong to the upper bracket. */
  function StatusFromJam(jam: real): (level: string)
    ensures level in Labels
    ensures level == "free" <==> jam < 4.0
    ensures level == "moderate" <==> 4.0 <= jam < 8.0
    ensures level == "heavy" <==> 8.0 <= jam
  {
    if jam < 4.0 then "free"
    else if jam < 8.0 then "moderate"
    else "heavy"
  }

  /** Position of a label in the order free < moderate < heavy. */
  function Severity(level: string): nat
  {
    if level == "free" then 0 else if level == "moderate" then 1 else 2
  }

  /** A larger jam factor never yields a less congested label. */
  lemma StatusMonotone(j1: real, j2: real)
    requires j1 <= j2
    ensures Severity(StatusFromJam(j1)) <= Severity(StatusFromJam(j2))
  {
  }

  /** The boundary values and values outside 0..10 follow the same rule. */
  lemma StatusBoundaries()
    ensures StatusFromJam(3.999) == "free" && StatusFromJam(4.0) == "moderate"
    ensures StatusFromJam(7.999) == "moderate" && StatusFromJam(8.0) == "heavy"
    ensures StatusFromJam(-1.0) == "free" && StatusFromJam(11.0) == "heavy"
  {
  }

  /** The number Python compares with 4 and 8 when it evaluates
      `jam_factor < 4`: a JSON number is itself and a boolean counts as 0 or
      1 (Python's bool is an int). Null, strings, arrays and objects cannot be
      compared with an int and raise TypeError, which is None here. */
  function JamScore(v: Json): (r: Option<real>)
    ensures r.Some? <==> v.JNumber? || v.JBool?
    ensures v.JNumber? ==> r == Some(v.n)
    ensures v.JBool? ==> r == Some(if v.b then 1.0 else 0.0)
  {
    match v
    case JNumber(n) => Some(n)
    case JBool(b) => Some(if b then 1.0 else 0.0)
    case _ => None
  }

  // ---------------------------------------------------------------------
  // The request
  // ---------------------------------------------------------------------

  /** `BASE_TMPL` split around its two placeholders `{style}` and
      `{length_km}`. */
  const UrlHead: string := "https://api.tomtom.com/traffic/services/4/flowSegmentData/"
  const UrlTail: string := "/json"

  /** `BASE_TMPL.format(style=style, length_km=length_km)`: both values are
      substituted verbatim, the length as Python renders an int. */
  function TrafficUrl(style: string, lengthKm: int): string
  {
    UrlHead + style + "/" + IntToDecimal(lengthKm) + UrlTail
  }

  /** Reads the style and the segment length back out of a flow-segment URL,
      splitting at the last '/' before the tail. */
  function ParseTrafficUrl(url: string): Option<(string, int)>
  {
    if |url| >= |UrlHead| + |UrlTail| && url[..|UrlHead|] == UrlHead
       && url[|url| - |UrlTail|..] == UrlTail
    then
      match SplitLast(url[|UrlHead|..|url| - |UrlTail|], '/')
      case None => None
      case Some((style, digits)) =>
        match ParseInt(digits)
        case None => None
        case Some(n) => Some((style, n))
    else None
  }

  lemma NoSlashInDecimal(n: int)
    ensures '/' !in IntToDecimal(n)
  {
  }

  /** The URL determines the style and the length it was built from, whatever
      characters the (unvalidated) style holds. */
  lemma TrafficUrlRoundTrip(style: string, lengthKm: int)
    ensures ParseTrafficUrl(TrafficUrl(style, lengthKm)) == Some((style, lengthKm))
  {
    var digits := IntToDecimal(lengthKm);
    var url := TrafficUrl(style, lengthKm);
    assert url == UrlHead + (style + "/" + digits) + UrlTail;
    assert url[..|UrlHead|] == UrlHead;
    assert url[|url| - |UrlTail|..] == UrlTail;
    assert url[|UrlHead|..|url| - |UrlTail|] == style + ['/'] + digits;
    NoSlashInDecimal(lengthKm);
    SplitLastOfJoin(style, '/', digits);
    IntToDecimalRoundTrip(lengthKm);
  }

  /** Two different (style, length) pairs never produce the same URL. */
  lemma TrafficUrlInjective(s1: string, n1: int, s2: string, n2: int)
    requires TrafficUrl(s1, n1) == TrafficUrl(s2, n2)
    ensures s1 == s2 && n1 == n2
  {
    TrafficUrlRoundTrip(s1, n1);
    TrafficUrlRoundTrip(s2, n2);
  }

  /** The query string value `f"{lat},{lon}"`; `fmt` is Python's rendering of
      a float, which this model leaves abstract. */
  function Point(fmt: real -> string, lat: real, lon: real): string
  {
    fmt(lat) + "," + fmt(lon)
  }

  /** The query parameters of `traffic_flow`, in terms of the rendered point. */
  function TrafficParams(point: string, key: string, units: string): (params: map<string, string>)
    ensures params.Keys == {"point", "key", "unit"}
    ensures params["point"] == point && params["key"] == key && params["unit"] == units
  {
    var params := map["point" := point, "key" := key, "unit" := units];
    assert params.Keys == {"point", "key", "unit"};
    params
  }

  /** The request `traffic_flow` sends: the template URL and exactly the
      query parameters point, key and unit, the last two verbatim. */
  function TrafficRequest(fmt: real -> string, lat: real, lon: real, lengthKm: int,
                          style: string, units: string, key: string): (r: Request)
    ensures r.params.Keys == {"point", "key", "unit"}
    ensures r.params["key"] == key && r.params["unit"] == units
    ensures r.params["point"] == Point(fmt, lat, lon)
    ensures r.url == TrafficUrl(style, lengthKm)
    ensures ParseTrafficUrl(r.url) == Some((style, lengthKm))
  {
    TrafficUrlRoundTrip(style, lengthKm);
    Request(TrafficUrl(style, lengthKm), TrafficParams(Point(fmt, lat, lon), key, units))
  }

  /** As long as the rendering of the longitude holds no comma (Python's never
      does), the point parameter splits back into the two renderings. */
  lemma PointRoundTrip(fmt: real -> string, lat: real, lon: real)
    requires ',' !in fmt(lon)
    ensures SplitLast(Point(fmt, lat, lon), ',') == Some((fmt(lat), fmt(lon)))
  {
    SplitLastOfJoin(fmt(lat), ',', fmt(lon));
  }

  /** The defaults of `traffic_flow`'s optional arguments. */
  const DefaultLengthKm: int := 10
  const DefaultStyle: string := "absolute"
  const DefaultUnits: string := "KMPH"

  /** A call that gives only the coordinates asks for the absolute flow of a
      10 km segment in km/h. */
  lemma DefaultTrafficRequest(fmt: real -> string, lat: real, lon: real, key: string)
    ensures var r := TrafficRequest(fmt, lat, lon, DefaultLengthKm, DefaultStyle, DefaultUnits, key);
      && r.url == UrlHead + "absolute/10" + UrlTail
      && r.params["unit"] == "KMPH"
  {
    assert NatToDecimal(1) == "1";
    assert IntToDecimal(10) == "1" + "0";
    assert "absolute" + "/" + ("1" + "0") == "absolute/10";
  }

  // ---------------------------------------------------------------------
  // The response
  // ---------------------------------------------------------------------

  /** Fields of `flowSegmentData` read with `seg[...]`: a missing one raises. */
  const RequiredFlowFields: set<string> :=
    {"currentSpeed", "freeFlowSpeed", "currentTravelTime", "freeFlowTravelTime",
     "confidence", "frc"}

  /** Fields read with `seg.get(...)` and a default. */
  const OptionalFlowFields: set<string> := {"jamFactor", "roadClosure"}

  /** The keys of the record `traffic_flow` returns. */
  const TrafficKeys: set<string> :=
    {"coordinates", "segment_length_km", "current_speed", "free_flow_speed",
     "current_travel_time_s", "free_flow_travel_time_s", "confidence",
     "jam_factor", "traffic_status", "road_closure", "frc"}

  /** A success body the tool can turn into a record: an object whose
      `flowSegmentData` is an object holding all required fields, and whose
      jam factor, when present, can be compared with a number. */
  predicate UsableFlowBody(body: Json)
  {
    && body.JObject?
    && "flowSegmentData" in body.fields
    && HasKeys(body.fields["flowSegmentData"], RequiredFlowFields)
    && var seg := body.fields["flowSegmentData"].fields;
       "jamFactor" in seg ==> seg["jamFactor"].JNumber? || seg["jamFactor"].JBool?
  }

  /** The normalisation step of `traffic_flow`, given the inputs it echoes and
      the provider's status and parsed body. A failed status wins before the
      body is looked at; otherwise the call either fails as Malformed or
      returns the full record, never a partial one. */
  function NormalizeTraffic(lat: real, lon: real, lengthKm: int, status: int, body: Json)
    : (r: Result<map<string, Json>>)
    ensures !IsSuccess(status) ==> r == Err(HttpError(status))
    ensures IsSuccess(status) ==> (r.Ok? <==> UsableFlowBody(body))
    ensures IsSuccess(status) && r.Err? ==> r.error == Malformed
    ensures r.Ok? ==> r.value.Keys == TrafficKeys
    ensures r.Ok? ==>
      var seg := body.fields["flowSegmentData"].fields;
      && r.value["coordinates"] == JObject(map["lat" := JNumber(lat), "lon" := JNumber(lon)])
      && r.value["segment_length_km"] == JNumber(lengthKm as real)
      && r.value["current_speed"] == seg["currentSpeed"]
      && r.value["free_flow_speed"] == seg["freeFlowSpeed"]
      && r.value["current_travel_time_s"] == seg["currentTravelTime"]
      && r.value["free_flow_travel_time_s"] == seg["freeFlowTravelTime"]
      && r.value["confidence"] == seg["confidence"]
      && r.value["frc"] == seg["frc"]
      && r.value["jam_factor"] == (if "jamFactor" in seg then seg["jamFactor"] else JNumber(0.0))
      && r.value["road_closure"] == (if "roadClosure" in seg then seg["roadClosure"] else JBool(false))
    ensures r.Ok? ==>
      && JamScore(r.value["jam_factor"]).Some?
      && r.value["traffic_status"] == JString(StatusFromJam(JamScore(r.value["jam_factor"]).value))
  {
    if !IsSuccess(status) then Err(HttpError(status))
    else
      var segment := Field(Some(body), "flowSegmentData");
      if segment.None? || !segment.value.JObject? then Err(Malformed)
      else
        var seg := segment.value.fields;
        var jam := GetOr(seg, "jamFactor", JNumber(0.0));
        if !(RequiredFlowFields <= seg.Keys) then Err(Malformed)
        else
          match JamScore(jam)
          case None => Err(Malformed)
          case Some(j) =>
            Ok(map[
              "coordinates" := JObject(map["lat" := JNumber(lat), "lon" := JNumber(lon)]),
              "segment_length_km" := JNumber(lengthKm as real),
              "current_speed" := seg["currentSpeed"],
              "free_flow_speed" := seg["freeFlowSpeed"],
              "current_travel_time_s" := seg["currentTravelTime"],
              "free_flow_travel_time_s" := seg["freeFlowTravelTime"],
              "confidence" := seg["confidence"],
              "jam_factor" := jam,
              "traffic_status" := JString(StatusFromJam(j)),
              "road_closure" := GetOr(seg, "roadClosure", JBool(false)),
              "frc" := seg["frc"]])
  }

  /** When the provider leaves out the jam factor and the road closure flag,
      the record reports 0, "free" and false. */
  lemma DefaultsWhenAbsent(lat: real, lon: real, lengthKm: int, status: int, body: Json)
    requires IsSuccess(status) && UsableFlowBody(body)
    requires "jamFactor" !in body.fields["flowSegmentData"].fields
    requires "roadClosure" !in body.fields["flowSegmentData"].fields
    ensures var r := NormalizeTraffic(lat, lon, lengthKm, status, body);
      && r.Ok?
      && r.value["jam_factor"] == JNumber(0.0)
      && r.value["traffic_status"] == JString("free")
      && r.value["road_closure"] == JBool(false)
  {
  }

  /** A missing required field, or a missing `flowSegmentData`, fails the
      whole call. */
  lemma MissingRequiredFails(lat: real, lon: real, lengthKm: int, status: int, body: Json, name: string)
    requires IsSuccess(status) && body.JObject?
    requires "flowSegmentData" !in body.fields
             || (name in RequiredFlowFields && body.fields["flowSegmentData"].JObject?
                 && name !in body.fields["flowSegmentData"].fields)
    ensures NormalizeTraffic(lat, lon, lengthKm, status, body) == Err(Malformed)
  {
  }

  /** The body with everything the tool does not read removed. */
  function Trimmed(body: Json): Json
  {
    match Field(Some(body), "flowSegmentData")
    case None => JNull
    case Some(JObject(seg)) =>
      JObject(map["flowSegmentData" :=
        JObject(map k | k in seg && k in RequiredFlowFields + OptionalFlowFields :: seg[k])])
    case Some(other) => JObject(map["flowSegmentData" := other])
  }

  /** Only the eight fields of `flowSegmentData` that the tool names affect
      its result: adding or removing any other part of the body changes
      nothing. */
  lemma OnlyNamedFieldsMatter(lat: real, lon: real, lengthKm: int, status: int, body: Json)
    ensures NormalizeTraffic(lat, lon, lengthKm, status, body)
         == NormalizeTraffic(lat, lon, lengthKm, status, Trimmed(body))
  {
    var r1 := NormalizeTraffic(lat, lon, lengthKm, status, body);
    var r2 := NormalizeTraffic(lat, lon, lengthKm, status, Trimmed(body));
    if r1.Ok? {
      assert r2.Ok?;
      assert r1.value == r2.value;
    }
  }

  /** A 401 or 403 reply fails with its status, whatever the body says. */
  lemma RejectedStatusIsHttpError(lat: real, lon: real, lengthKm: int, body: Json)
    ensures NormalizeTraffic(lat, lon, lengthKm, 401, body) == Err(HttpError(401))
    ensures NormalizeTraffic(lat, lon, lengthKm, 403, body) == Err(HttpError(403))
  {
  }

  /** A provider reply with a jam factor of 5.2 and no road closure flag. */
  function ModerateBody(): Json
  {
    JObject(map["flowSegmentData" := JObject(map[
      "currentSpeed" := JNumber(40.0), "freeFlowSpeed" := JNumber(60.0),
      "currentTravelTime" := JNumber(90.0), "freeFlowTravelTime" := JNumber(60.0),
      "confidence" := JNumber(0.95), "frc" := JString("FRC3"),
      "jamFactor" := JNumber(5.2)])])
  }

  lemma ModerateExample()
    ensures NormalizeTraffic(1.0, 2.0, 10, 200, ModerateBody()) == Ok(map[
      "coordinates" := JObject(map["lat" := JNumber(1.0), "lon" := JNumber(2.0)]),
      "segment_length_km" := JNumber(10.0),
      "current_speed" := JNumber(40.0),
      "free_flow_speed" := JNumber(60.0),
      "current_travel_time_s" := JNumber(90.0),
      "free_flow_travel_time_s" := JNumber(60.0),
      "confidence" := JNumber(0.95),
      "jam_factor" := JNumber(5.2),
      "traffic_status" := JString("moderate"),
      "road_closure" := JBool(false),
      "frc" := JString("FRC3")])
  {
    var seg := ModerateBody().fields["flowSegmentData"].fields;
    assert RequiredFlowFields <= seg.Keys;
    assert "roadClosure" !in seg;
    assert StatusFromJam(5.2) == "moderate";
  }

  /** A jam factor that is present but null is not replaced by the default:
      comparing None with 4 raises, so the call fails. */
  lemma NullJamFactorFails()
    ensures
      var seg := map["currentSpeed" := JNumber(40.0), "freeFlowSpeed" := JNumber(60.0),
                     "currentTravelTime" := JNumber(90.0), "freeFlowTravelTime" := JNumber(60.0),
                     "confidence" := JNumber(0.95), "frc" := JString("FRC3"),
                     "jamFactor" := JNull];
      NormalizeTraffic(1.0, 2.0, 10, 200, JObject(map["flowSegmentData" := JObject(seg)]))
        == Err(Malformed)
  {
  }

  /** A null `flowSegmentData` fails the call: `seg.get` on None raises. */
  lemma NullSegmentFails()
    ensures NormalizeTraffic(1.0, 2.0, 10, 200, JObject(map["flowSegmentData" := JNull])) == Err(Malformed)
  {
  }
}
