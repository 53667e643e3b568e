/** The request and prediction rules of the dashboard's Flask backend: the
    dashboard-data endpoint, the guard chain of the prediction endpoint, the
    feature vector handed to the classifier, the bucketing of its completion
    probability into a label, and the list of explanatory factors. */
module Backend {
  import opened Text
  import opened Json

  /** A parsed request body: the JSON object the frontend posts, with string values. */
  type Body = map<string, string>

  /** `data.get(key, '')` */
  function Field(body: Body, key: string): string
  {
    if key in body then body[key] else ""
  }

  /** `not data.get(key)` for a string-valued body: the key is absent or empty. */
  predicate Blank(body: Body, key: string)
  {
    key !in body || body[key] == ""
  }

  // ---------------------------------------------------------------------------
  // GET /api/dashboard-data

  const DashboardMissingMessage := "Dashboard data not available. Run data_pipeline.py first."

  datatype DashboardReply =
    | DashboardUnavailable(code: int, message: string)
    | DashboardServed(data: map<string, Json>, lastUpdated: Json)

  /** `now` is the ISO-8601 rendering of the server clock, used when the loaded
      insights carry no `generated_at` stamp. */
  function GetDashboardData(dashboard: Option<map<string, Json>>, now: string): (r: DashboardReply)
    ensures r.DashboardUnavailable? <==> dashboard.None?
    ensures r.DashboardUnavailable? ==> r.code == 500 && r.message == DashboardMissingMessage
    ensures r.DashboardServed? ==> r.data == dashboard.value
    ensures r.DashboardServed? && "generated_at" in r.data ==> r.lastUpdated == r.data["generated_at"]
    ensures r.DashboardServed? && "generated_at" !in r.data ==> r.lastUpdated == JStr(now)
  {
    match dashboard
    case None => DashboardUnavailable(500, DashboardMissingMessage)
    case Some(d) => DashboardServed(d, if "generated_at" in d then d["generated_at"] else JStr(now))
  }

  /** The JSON document jsonify writes for a dashboard reply, with its HTTP status. */
  function DashboardEnvelope(r: DashboardReply): (e: (int, Json))
    ensures e.1.JObj? && "status" in e.1.fields
    ensures e.1.fields["status"] == JStr("success") <==> r.DashboardServed?
    ensures r.DashboardUnavailable? ==>
              e.0 == r.code && e.1.fields.Keys == {"status", "message"} &&
              e.1.fields["status"] == JStr("error") && e.1.fields["message"] == JStr(r.message)
    ensures r.DashboardServed? ==>
              e.0 == 200 && e.1.fields.Keys == {"status", "data", "last_updated"} &&
              e.1.fields["data"] == JObj(r.data) && e.1.fields["last_updated"] == r.lastUpdated
  {
    match r
    case DashboardUnavailable(code, message) =>
      (code, JObj(map["status" := JStr("error"), "message" := JStr(message)]))
    case DashboardServed(data, lastUpdated) =>
      (200, JObj(map["status" := JStr("success"), "data" := JObj(data), "last_updated" := lastUpdated]))
  }

  // ---------------------------------------------------------------------------
  // POST /api/predict-completion: the guard chain

  const RequiredFields: seq<string> := ["service_type", "ward", "division"]

  const ModelMissingMessage := "ML model not available. Run data_pipeline.py first."

  datatype Rejection = Rejection(code: int, message: string)

  /** The list comprehension `[f for f in fields if not data.get(f)]`. */
  function MissingFields(fields: seq<string>, body: Body): (r: seq<string>)
    ensures IsSubsequence(r, fields)
    ensures forall f :: f in r <==> f in fields && Blank(body, f)
  {
    if fields == [] then []
    else if Blank(body, fields[0]) then [fields[0]] + MissingFields(fields[1..], body)
    else MissingFields(fields[1..], body)
  }

  /** The early returns of predict_completion, in the order it makes them: no
      model (500), then an absent or empty body (400), then missing required
      fields (400, naming them in the order of RequiredFields). None means the
      request reaches make_prediction. */
  function CheckRequest(modelLoaded: bool, body: Option<Body>): (r: Option<Rejection>)
    ensures r.None? <==> modelLoaded && body.Some? && forall f :: f in RequiredFields ==> !Blank(body.value, f)
    ensures !modelLoaded ==> r == Some(Rejection(500, ModelMissingMessage))
    ensures modelLoaded && (body.None? || body.value == map[]) ==> r == Some(Rejection(400, "No data provided"))
    ensures modelLoaded && body.Some? && body.value != map[] && r.Some? ==>
              r.value.code == 400 && MissingFields(RequiredFields, body.value) != [] &&
              r.value.message == "Missing required fields: " + Join(MissingFields(RequiredFields, body.value), ", ")
  {
    if !modelLoaded then Some(Rejection(500, ModelMissingMessage))
    else if body.None? then Some(Rejection(400, "No data provided"))
    else if body.value == map[] then
      assert RequiredFields[0] in RequiredFields;
      Some(Rejection(400, "No data provided"))
    else
      var missing := MissingFields(RequiredFields, body.value);
      if missing != [] then
        assert missing[0] in missing;
        Some(Rejection(400, "Missing required fields: " + Join(missing, ", ")))
      else None
  }

  // ---------------------------------------------------------------------------
  // make_prediction: the feature vector

  /** What the pipeline saved next to the classifier. `predictProba` stands for
      `model.predict_proba(features)[0]`: the class probabilities of the single
      row, which this model does not interpret. */
  datatype ModelData = ModelData(featureColumns: seq<string>, predictProba: seq<int> -> seq<real>)

  const ServicePrefix := "Service Request Type_"
  const WardPrefix := "Ward_"
  const DivisionPrefix := "Division_"

  /** The one-hot test of the column loop: a service, ward or division column
      whose name contains the matching input. */
  predicate CategoricalHit(col: string, serviceType: string, ward: string, division: string)
  {
    || (ServicePrefix <= col && Contains(col, serviceType))
    || (WardPrefix <= col && Contains(col, ward))
    || (DivisionPrefix <= col && Contains(col, division))
  }

  const TimeMapping: map<string, int> := map["morning" := 9, "afternoon" := 14, "evening" := 19, "night" := 2]

  const DayMapping: map<string, int> :=
    map["monday" := 0, "tuesday" := 1, "wednesday" := 2, "thursday" := 3,
        "friday" := 4, "saturday" := 5, "sunday" := 6]

  const DayNames: seq<string> := ["monday", "tuesday", "wednesday", "thursday", "friday", "saturday", "sunday"]

  /** `day_mapping.get(day.lower(), 1)` */
  function WeekdayCode(day: string): (code: int)
    ensures 0 <= code <= 6
  {
    var key := Lower(day);
    if key in DayMapping then DayMapping[key] else 1
  }

  /** `time_mapping.get(time.lower(), 12)` */
  function HourCode(time: string): (hour: int)
    ensures hour in {2, 9, 12, 14, 19}
  {
    var key := Lower(time);
    if key in TimeMapping then TimeMapping[key] else 12
  }

  /** The value the frame holds in column `col` once make_prediction has filled
      it: the one-hot loop writes 1 first, then the Month, Weekday and Hour
      assignments overwrite their own columns. */
  function CellValue(col: string, input: Body, month: int): int
  {
    var oneHot :=
      if CategoricalHit(col, Field(input, "service_type"), Field(input, "ward"), Field(input, "division"))
      then 1 else 0;
    if col == "Month" then month
    else if col == "Weekday" then WeekdayCode(Field(input, "day_of_week"))
    else if col == "Hour" then HourCode(Field(input, "time_of_day"))
    else oneHot
  }

  /** The single row of the feature frame, one cell per feature column. */
  function FeatureRow(columns: seq<string>, input: Body, month: int): (row: seq<int>)
    ensures |row| == |columns|
    ensures forall i :: 0 <= i < |columns| ==> row[i] == CellValue(columns[i], input, month)
  {
    seq(|columns|, i requires 0 <= i < |columns| => CellValue(columns[i], input, month))
  }

  /** The one-hot test in terms of positions: the column has the prefix and the
      input occurs somewhere in its name. */
  lemma CategoricalHitMeaning(col: string, serviceType: string, ward: string, division: string)
    ensures CategoricalHit(col, serviceType, ward, division) <==>
              || (ServicePrefix <= col && exists k: nat :: OccursAt(col, serviceType, k))
              || (WardPrefix <= col && exists k: nat :: OccursAt(col, ward, k))
              || (DivisionPrefix <= col && exists k: nat :: OccursAt(col, division, k))
  {
    ContainsIffOccurs(col, serviceType);
    ContainsIffOccurs(col, ward);
    ContainsIffOccurs(col, division);
  }

  /** Each weekday name, in any letter case, maps to its index from Monday. */
  lemma WeekdayCodeOfNames(i: nat, day: string)
    requires i < |DayNames| && Lower(day) == DayNames[i]
    ensures WeekdayCode(day) == i
  {
  }

  /** The weekday and hour lookups ignore letter case. */
  lemma LookupsIgnoreCase(s: string)
    ensures WeekdayCode(Lower(s)) == WeekdayCode(s)
    ensures HourCode(Lower(s)) == HourCode(s)
  {
    LowerIdempotent(s);
  }

  /** Cell by cell: a one-hot column is 1 exactly when the inputs select it and 0
      otherwise; Weekday lies in 0..6 and Hour is one of the mapped hours or the
      default 12. */
  lemma FeatureRowCells(columns: seq<string>, input: Body, month: int, i: nat)
    requires i < |columns|
    ensures var row := FeatureRow(columns, input, month);
            var hit := CategoricalHit(columns[i], Field(input, "service_type"), Field(input, "ward"), Field(input, "division"));
            && (columns[i] != "Month" && columns[i] != "Weekday" && columns[i] != "Hour" ==>
                  (row[i] == 1 <==> hit) && (row[i] == 0 <==> !hit))
            && (columns[i] == "Month" ==> row[i] == month)
            && (columns[i] == "Weekday" ==> 0 <= row[i] <= 6)
            && (columns[i] == "Hour" ==> row[i] in {2, 9, 12, 14, 19})
  {
  }

  /** Without a Weekday column the day of the week has no effect on the features. */
  lemma DayIgnoredWithoutWeekday(columns: seq<string>, input: Body, month: int, day: string)
    requires "Weekday" !in columns
    ensures FeatureRow(columns, input["day_of_week" := day], month) == FeatureRow(columns, input, month)
  {
    var other := input["day_of_week" := day];
    assert Field(other, "service_type") == Field(input, "service_type");
    assert Field(other, "ward") == Field(input, "ward");
    assert Field(other, "division") == Field(input, "division");
    assert Field(other, "time_of_day") == Field(input, "time_of_day");
  }

  /** Without an Hour column the time of day has no effect on the features. */
  lemma TimeIgnoredWithoutHour(columns: seq<string>, input: Body, month: int, time: string)
    requires "Hour" !in columns
    ensures FeatureRow(columns, input["time_of_day" := time], month) == FeatureRow(columns, input, month)
  {
    var other := input["time_of_day" := time];
    assert Field(other, "service_type") == Field(input, "service_type");
    assert Field(other, "ward") == Field(input, "ward");
    assert Field(other, "division") == Field(input, "division");
    assert Field(other, "day_of_week") == Field(input, "day_of_week");
  }

  /** The column loop: sets to 1 each one-hot column the inputs select and leaves
      every other cell as it was. */
  method EncodeCategoricals(features: array<int>, columns: seq<string>,
                            serviceType: string, ward: string, division: string)
    requires features.Length == |columns|
    modifies features
    ensures forall i :: 0 <= i < features.Length ==>
              features[i] == if CategoricalHit(columns[i], serviceType, ward, division) then 1 else old(features[i])
  {
    for i := 0 to |columns|
      invariant forall j :: 0 <= j < i ==>
                  features[j] == if CategoricalHit(columns[j], serviceType, ward, division) then 1 else old(features[j])
      invariant forall j :: i <= j < features.Length ==> features[j] == old(features[j])
    {
      var col := columns[i];
      if ServicePrefix <= col && Contains(col, serviceType) {
        features[i] := 1;
      } else if WardPrefix <= col && Contains(col, ward) {
        features[i] := 1;
      } else if DivisionPrefix <= col && Contains(col, division) {
        features[i] := 1;
      }
    }
  }

  /** `features.loc[0, name] = value`: pandas writes every column with that label. */
  method SetColumn(features: array<int>, columns: seq<string>, name: string, value: int)
    requires features.Length == |columns|
    modifies features
    ensures forall i :: 0 <= i < features.Length ==>
              features[i] == if columns[i] == name then value else old(features[i])
  {
    forall i | 0 <= i < features.Length && columns[i] == name {
      features[i] := value;
    }
  }

  /** Builds the frame make_prediction passes to the classifier. `month` is the
      server clock's current month. */
  method BuildFeatures(columns: seq<string>, input: Body, month: int) returns (row: seq<int>)
    ensures row == FeatureRow(columns, input, month)
  {
    var features := new int[|columns|](_ => 0);
    EncodeCategoricals(features, columns, Field(input, "service_type"), Field(input, "ward"), Field(input, "division"));
    if "Month" in columns {
      SetColumn(features, columns, "Month", month);
    }
    if "Weekday" in columns {
      SetColumn(features, columns, "Weekday", WeekdayCode(Field(input, "day_of_week")));
    }
    if "Hour" in columns {
      SetColumn(features, columns, "Hour", HourCode(Field(input, "time_of_day")));
    }
    row := features[..];
  }

  // ---------------------------------------------------------------------------
  // make_prediction: the label

  datatype Outcome = HighlyLikely | Likely | MayBe | Unlikely

  function OutcomeText(o: Outcome): string
  {
    match o
    case HighlyLikely => "Highly Likely to be Completed"
    case Likely => "Likely to be Completed"
    case MayBe => "May be Completed"
    case Unlikely => "Unlikely to be Completed"
  }

  /** The label text make_prediction returns names the band of the completion
      percentage it fell in. */
  lemma LabelBands(p: real)
    ensures OutcomeText(Bucket(p)) == "Highly Likely to be Completed" <==> p >= 70.0
    ensures OutcomeText(Bucket(p)) == "Likely to be Completed" <==> 50.0 <= p < 70.0
    ensures OutcomeText(Bucket(p)) == "May be Completed" <==> 30.0 <= p < 50.0
    ensures OutcomeText(Bucket(p)) == "Unlikely to be Completed" <==> p < 30.0
  {
  }

  /** How likely each label says completion is: Unlikely 0 up to HighlyLikely 3. */
  function Rank(o: Outcome): nat
  {
    match o
    case Unlikely => 0
    case MayBe => 1
    case Likely => 2
    case HighlyLikely => 3
  }

  const Thresholds: seq<real> := [30.0, 50.0, 70.0]

  /** How many of the thresholds `p` reaches. */
  function Reached(p: real, thresholds: seq<real>): nat
  {
    if thresholds == [] then 0
    else (if p >= thresholds[0] then 1 else 0) + Reached(p, thresholds[1..])
  }

  /** The if/elif chain over the completion percentage: the label's rank is the
      number of the 30/50/70 thresholds the percentage reaches. */
  function Bucket(p: real): (o: Outcome)
    ensures Rank(o) == Reached(p, Thresholds)
  {
    var t := Thresholds;
    assert Reached(p, t[1..][1..][1..]) == 0;
    assert Reached(p, t[1..][1..]) == if p >= 70.0 then 1 else 0;
    assert Reached(p, t[1..]) == (if p >= 50.0 then 1 else 0) + (if p >= 70.0 then 1 else 0);
    if p >= 70.0 then HighlyLikely
    else if p >= 50.0 then Likely
    else if p >= 30.0 then MayBe
    else Unlikely
  }

  lemma {:induction false} ReachedMonotone(p: real, q: real, thresholds: seq<real>)
    requires p <= q
    ensures Reached(p, thresholds) <= Reached(q, thresholds)
  {
    if thresholds != [] {
      ReachedMonotone(p, q, thresholds[1..]);
    }
  }

  /** A higher completion percentage never yields a less likely label. */
  lemma BucketMonotone(p: real, q: real)
    requires p <= q
    ensures Rank(Bucket(p)) <= Rank(Bucket(q))
  {
    ReachedMonotone(p, q, Thresholds);
  }

  /** Python's max() over the probability vector. */
  function MaxOf(xs: seq<real>): (m: real)
    requires xs != []
    ensures m in xs
    ensures forall i :: 0 <= i < |xs| ==> xs[i] <= m
  {
    if |xs| == 1 then xs[0]
    else
      var rest := MaxOf(xs[1..]);
      if xs[0] >= rest then xs[0] else rest
  }

  // ---------------------------------------------------------------------------
  // generate_factors

  /** An input echoed back as a factor: the body key, the caption put before its
      value, and whether the value is title-cased first. */
  datatype Echo = Echo(key: string, caption: string, titled: bool)

  const EchoFields: seq<Echo> := [
    Echo("service_type", "Service Type: ", false),
    Echo("ward", "Ward: ", false),
    Echo("division", "Division: ", false),
    Echo("time_of_day", "Time of Day: ", true),
    Echo("day_of_week", "Day of Week: ", true)
  ]

  function EchoText(e: Echo, value: string): string
  {
    e.caption + if e.titled then Title(value) else value
  }

  /** The echoed inputs: one entry per field whose value is non-empty, in the
      order of `fields`. */
  function Echoes(fields: seq<Echo>, input: Body): (r: seq<string>)
    ensures |r| <= |fields|
    ensures |r| == |fields| <==> forall i :: 0 <= i < |fields| ==> !Blank(input, fields[i].key)
  {
    if fields == [] then []
    else
      var last := fields[|fields| - 1];
      Echoes(fields[..|fields| - 1], input) + if Blank(input, last.key) then [] else [EchoText(last, input[last.key])]
  }

  /** The positions of the fields whose value is non-empty, in increasing order. */
  function NonBlankIndices(fields: seq<Echo>, input: Body): (ix: seq<nat>)
    ensures forall j :: 0 <= j < |ix| ==> ix[j] < |fields| && !Blank(input, fields[ix[j]].key)
    ensures forall j, j' :: 0 <= j < j' < |ix| ==> ix[j] < ix[j']
    ensures forall k :: 0 <= k < |fields| && !Blank(input, fields[k].key) ==> k in ix
  {
    if fields == [] then []
    else
      var n := |fields| - 1;
      var init := NonBlankIndices(fields[..n], input);
      assert forall k :: 0 <= k < n ==> fields[..n][k] == fields[k];
      init + if Blank(input, fields[n].key) then [] else [n]
  }

  /** Entry j of the echoes is the text of the j-th non-empty field: one entry
      per non-empty field, in field order, and nothing else. */
  lemma {:induction false} EchoesAtIndices(fields: seq<Echo>, input: Body)
    ensures var ix := NonBlankIndices(fields, input);
            var r := Echoes(fields, input);
            |r| == |ix| &&
            forall j :: 0 <= j < |r| ==> r[j] == EchoText(fields[ix[j]], input[fields[ix[j]].key])
  {
    if fields != [] {
      var n := |fields| - 1;
      EchoesAtIndices(fields[..n], input);
      assert forall k :: 0 <= k < n ==> fields[..n][k] == fields[k];
    }
  }

  /** Every non-empty field is echoed, with its caption and its value. */
  lemma EchoesMember(fields: seq<Echo>, input: Body, k: nat)
    requires k < |fields| && !Blank(input, fields[k].key)
    ensures EchoText(fields[k], input[fields[k].key]) in Echoes(fields, input)
  {
    var ix := NonBlankIndices(fields, input);
    EchoesAtIndices(fields, input);
    var j :| 0 <= j < |ix| && ix[j] == k;
    assert Echoes(fields, input)[j] == EchoText(fields[k], input[fields[k].key]);
  }

  /** The five echoes of generate_factors, as the source writes them. */
  lemma EchoFieldsSpelledOut(input: Body)
    ensures Echoes(EchoFields, input) ==
              (if Blank(input, "service_type") then [] else ["Service Type: " + input["service_type"]]) +
              (if Blank(input, "ward") then [] else ["Ward: " + input["ward"]]) +
              (if Blank(input, "division") then [] else ["Division: " + input["division"]]) +
              (if Blank(input, "time_of_day") then [] else ["Time of Day: " + Title(input["time_of_day"])]) +
              (if Blank(input, "day_of_week") then [] else ["Day of Week: " + Title(input["day_of_week"])])
  {
    var e1 := if Blank(input, "service_type") then [] else ["Service Type: " + input["service_type"]];
    var e2 := e1 + if Blank(input, "ward") then [] else ["Ward: " + input["ward"]];
    var e3 := e2 + if Blank(input, "division") then [] else ["Division: " + input["division"]];
    var e4 := e3 + if Blank(input, "time_of_day") then [] else ["Time of Day: " + Title(input["time_of_day"])];
    assert EchoFields[..1][..0] == [];
    assert Echoes(EchoFields[..1], input) == e1;
    assert EchoFields[..2][..1] == EchoFields[..1];
    assert Echoes(EchoFields[..2], input) == e2;
    assert EchoFields[..3][..2] == EchoFields[..2];
    assert Echoes(EchoFields[..3], input) == e3;
    assert EchoFields[..4][..3] == EchoFields[..3];
    assert Echoes(EchoFields[..4], input) == e4;
    assert EchoFields[..4] == EchoFields[..|EchoFields| - 1];
  }

  const HighNote := "Historical data shows high completion rate for similar requests"
  const ModerateNote := "Moderate completion likelihood based on patterns"
  const LowNote := "Lower completion rate - may need follow-up"

  /** The probability note: at most one, and none for 40..60 inclusive. */
  function ProbabilityNote(p: real): (r: seq<string>)
    ensures |r| <= 1
    ensures r == [] <==> 40.0 <= p <= 60.0
  {
    if p > 80.0 then [HighNote]
    else if p > 60.0 then [ModerateNote]
    else if p < 40.0 then [LowNote]
    else []
  }

  /** The list generate_factors builds before its `[:5]` cut. */
  function UncutFactors(input: Body, p: real): seq<string>
  {
    Echoes(EchoFields, input) + ProbabilityNote(p)
  }

  method GenerateFactors(input: Body, probability: real) returns (factors: seq<string>)
    ensures |factors| <= 5
    ensures factors == UncutFactors(input, probability)[..Min(5, |UncutFactors(input, probability)|)]
  {
    factors := [];
    if !Blank(input, "service_type") {
      factors := factors + ["Service Type: " + input["service_type"]];
    }
    assert factors == Echoes(EchoFields[..1], input);
    if !Blank(input, "ward") {
      factors := factors + ["Ward: " + input["ward"]];
    }
    assert EchoFields[..2][..1] == EchoFields[..1];
    assert factors == Echoes(EchoFields[..2], input);
    if !Blank(input, "division") {
      factors := factors + ["Division: " + input["division"]];
    }
    assert EchoFields[..3][..2] == EchoFields[..2];
    assert factors == Echoes(EchoFields[..3], input);
    if !Blank(input, "time_of_day") {
      factors := factors + ["Time of Day: " + Title(input["time_of_day"])];
    }
    assert EchoFields[..4][..3] == EchoFields[..3];
    assert factors == Echoes(EchoFields[..4], input);
    if !Blank(input, "day_of_week") {
      factors := factors + ["Day of Week: " + Title(input["day_of_week"])];
    }
    assert EchoFields[..5][..4] == EchoFields[..4];
    assert EchoFields[..5] == EchoFields;
    assert factors == Echoes(EchoFields, input);
    if probability > 80.0 {
      factors := factors + [HighNote];
    } else if probability > 60.0 {
      factors := factors + [ModerateNote];
    } else if probability < 40.0 {
      factors := factors + [LowNote];
    }
    factors := factors[..Min(5, |factors|)];
  }

  /** The cut only ever removes the probability note: every echoed input
      survives, and the note survives exactly when fewer than five inputs were
      echoed. */
  lemma {:induction false} CutKeepsEchoes(input: Body, p: real)
    ensures var all := UncutFactors(input, p);
            all[..Min(5, |all|)] ==
              Echoes(EchoFields, input) + if |Echoes(EchoFields, input)| < 5 then ProbabilityNote(p) else []
  {
    var echoes := Echoes(EchoFields, input);
    var all := UncutFactors(input, p);
    if |echoes| == 5 {
      assert all[..5] == echoes;
    }
  }

  /** With all five inputs filled in, the note is dropped. */
  lemma NoteDroppedWhenAllEchoed(input: Body, p: real)
    requires forall i :: 0 <= i < |EchoFields| ==> !Blank(input, EchoFields[i].key)
    ensures var all := UncutFactors(input, p);
            all[..Min(5, |all|)] == Echoes(EchoFields, input)
  {
    CutKeepsEchoes(input, p);
  }

  // ---------------------------------------------------------------------------
  // make_prediction and predict_completion

  datatype Result<T> = Ok(value: T) | Err(message: string)

  /** The prediction record; the percentages are kept exact (see README). */
  datatype Prediction = Prediction(outcome: Outcome, completionProbability: real, confidence: real, factors: seq<string>)

  /** What make_prediction returns for a request that passed the guards, or the
      text of the exception it raises (an IndexError when the classifier gives
      fewer than two class probabilities). */
  function Predict(model: ModelData, input: Body, month: int): Result<Prediction>
  {
    var proba := model.predictProba(FeatureRow(model.featureColumns, input, month));
    if |proba| < 2 then
      Err("index 1 is out of bounds for axis 0 with size " + NatToString(|proba|))
    else
      var completion := proba[1] * 100.0;
      var confidence := MaxOf(proba) * 100.0;
      var all := UncutFactors(input, completion);
      Ok(Prediction(Bucket(completion), completion, confidence, all[..Min(5, |all|)]))
  }

  method MakePrediction(model: ModelData, input: Body, month: int) returns (r: Result<Prediction>)
    ensures r == Predict(model, input, month)
  {
    var features := BuildFeatures(model.featureColumns, input, month);
    var proba := model.predictProba(features);
    if |proba| < 2 {
      return Err("index 1 is out of bounds for axis 0 with size " + NatToString(|proba|));
    }
    var completion := proba[1] * 100.0;
    var confidence := MaxOf(proba) * 100.0;
    var outcome: Outcome;
    if completion >= 70.0 {
      outcome := HighlyLikely;
    } else if completion >= 50.0 {
      outcome := Likely;
    } else if completion >= 30.0 {
      outcome := MayBe;
    } else {
      outcome := Unlikely;
    }
    var factors := GenerateFactors(input, completion);
    r := Ok(Prediction(outcome, completion, confidence, factors));
  }

  /** Confidence is the largest class probability, so it is never below the
      completion probability; within [0, 1] probabilities both are percentages. */
  lemma ConfidenceBounds(model: ModelData, input: Body, month: int)
    requires Predict(model, input, month).Ok?
    ensures var p := Predict(model, input, month).value;
            p.confidence >= p.completionProbability
    ensures var proba := model.predictProba(FeatureRow(model.featureColumns, input, month));
            var p := Predict(model, input, month).value;
            (forall i :: 0 <= i < |proba| ==> 0.0 <= proba[i] <= 1.0) ==>
              0.0 <= p.completionProbability <= p.confidence <= 100.0
  {
  }

  datatype PredictReply =
    | PredictRejected(code: int, message: string)
    | PredictSucceeded(prediction: Prediction)

  /** The JSON document jsonify writes for a rejected prediction request, with
      its HTTP status. */
  function RejectionEnvelope(code: int, message: string): (e: (int, Json))
    ensures e.0 == code
    ensures e.1.JObj? && e.1.fields.Keys == {"status", "message"}
    ensures e.1.fields["status"] == JStr("error") && e.1.fields["message"] == JStr(message)
  {
    (code, JObj(map["status" := JStr("error"), "message" := JStr(message)]))
  }

  /** The endpoint: the guard chain, then make_prediction, whose exceptions
      become a 500 reply. `month` is the server clock's current month. */
  method PredictCompletion(model: Option<ModelData>, body: Option<Body>, month: int) returns (reply: PredictReply)
    ensures reply.PredictSucceeded? ==> CheckRequest(model.Some?, body).None?
    ensures CheckRequest(model.Some?, body).Some? ==>
              reply == PredictRejected(CheckRequest(model.Some?, body).value.code,
                                       CheckRequest(model.Some?, body).value.message)
    ensures CheckRequest(model.Some?, body).None? ==>
              match Predict(model.value, body.value, month)
              case Ok(p) => reply == PredictSucceeded(p)
              case Err(e) => reply == PredictRejected(500, "Prediction failed: " + e)
  {
    var rejection := CheckRequest(model.Some?, body);
    if rejection.Some? {
      return PredictRejected(rejection.value.code, rejection.value.message);
    }
    var result := MakePrediction(model.value, body.value, month);
    match result
    case Ok(p) => reply := PredictSucceeded(p);
    case Err(e) => reply := PredictRejected(500, "Prediction failed: " + e);
  }
}
