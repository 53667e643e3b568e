/** The control logic of the dashboard page script: the loader of the dashboard
    statistics with its placeholder fallback, the per-region chart guards, the
    search-assist lists, and the prediction form handler. The document is a map
    from element id to an abstract element; charts are an opaque "plotted" mark. */
module Frontend {
  import opened Text
  import opened Json

  // ---------------------------------------------------------------------------
  // The page

  /** What a chart container holds: what the HTML gave it, a plot of one
      statistic group, or the "backend not available" placeholder. */
  datatype PlotState = Untouched | Plotted(group: Json) | Placeholder

  /** One element: its textContent, the textContent of the first descendant
      matching each CSS selector, its option or list-item children (the value
      each was given), its class list, a form control's value and its disabled
      flag, and what a chart container shows. */
  datatype Element = Element(
    text: string,
    selected: map<string, string>,
    items: seq<Json>,
    classes: set<string>,
    value: string,
    disabled: bool,
    plot: PlotState)

  type Elements = map<string, Element>

  /** The six fields the prediction form posts. */
  datatype FormData = FormData(
    serviceType: string, ward: string, division: string,
    postalCode: string, timeOfDay: string, dayOfWeek: string)

  /** A request the page sent, with what the page showed at that moment: whether
      the loading overlay was active, whether the predict button was disabled. */
  datatype Request =
    | GetDashboard(overlayActive: bool)
    | PostPrediction(form: FormData, buttonDisabled: bool)

  /** How a fetch ended: no response at all, or a response whose body did or did
      not parse as JSON. */
  datatype Payload = Unparsable(message: string) | Parsed(result: Json)
  datatype Fetched = NetworkError(message: string) | Response(status: int, payload: Payload)

  /** `response.ok` */
  predicate OkStatus(status: int) { 200 <= status <= 299 }

  /** The module globals and the document, as one value. `dashboardData` is None
      when it holds `undefined`. */
  datatype PageState = PageState(
    elements: Elements,
    dashboardData: Option<Json>,
    isBackendConnected: bool,
    requests: seq<Request>)

  const OverlayId := "loadingOverlay"
  const StatusId := "dataStatus"
  const LastUpdatedId := "lastUpdated"
  const ErrorModalId := "errorModal"
  const ErrorMessageId := "errorMessage"
  const ButtonId := "predictButton"
  const PlaceholderPanelId := "predictionPlaceholder"
  const ResultsPanelId := "predictionResults"
  const ProbabilityId := "probabilityPercent"
  const OutcomeId := "outcomeValue"
  const ConfidenceId := "confidenceValue"
  const FactorsId := "influencingFactors"

  const ConnectedText := "Connected to Backend"
  const UnavailableText := "Backend Not Available"
  const ValidationMessage := "Please fill in Service Type, Ward, and Division"
  const PredictingLabel := " Predicting..."
  const IdleLabel := " Predict Completion"

  /** A chart region: its container's id and the statistic group it plots. */
  datatype Region = Region(container: string, group: string)

  /** The regions renderAllCharts walks, in its order. */
  const Regions: seq<Region> := [
    Region("timeSeriesChart", "time_series"),
    Region("wardChart", "ward_distribution"),
    Region("statusChart", "status_distribution"),
    Region("serviceTypesChart", "service_types"),
    Region("divisionChart", "division_distribution"),
    Region("hourlyPatternChart", "hourly_pattern"),
    Region("featureImportanceChart", "feature_importance")
  ]

  /** The containers showChartPlaceholders walks. */
  const ChartIds: seq<string> := [
    "timeSeriesChart", "wardChart", "statusChart", "serviceTypesChart",
    "divisionChart", "hourlyPatternChart", "featureImportanceChart"
  ]

  /** A search-assist list: its id, the group that feeds it and the member of
      that group holding the labels. */
  datatype Datalist = Datalist(listId: string, group: string, labels: string)

  const Datalists: seq<Datalist> := [
    Datalist("serviceTypeList", "service_types", "types"),
    Datalist("wardList", "ward_distribution", "wards"),
    Datalist("divisionList", "division_distribution", "divisions")
  ]

  // ---------------------------------------------------------------------------
  // Thrown errors, with the text a V8-based browser gives them

  /** The TypeError of reading `prop` from undefined or null. */
  function ReadError(v: Option<Json>, prop: string): string
  {
    "Cannot read properties of " + (if v.None? then "undefined" else "null") + " (reading '" + prop + "')"
  }

  /** `new Error(message || fallback).message` */
  function ErrorText(message: Option<Json>, fallback: string): string
  {
    if Truthy(message) then ToJsString(message.value) else fallback
  }

  // ---------------------------------------------------------------------------
  // Effects on the document, as functions

  function AddClass(els: Elements, id: string, c: string): (r: Elements)
    ensures r.Keys == els.Keys
  {
    if id in els then els[id := els[id].(classes := els[id].classes + {c})] else els
  }

  function RemoveClass(els: Elements, id: string, c: string): (r: Elements)
    ensures r.Keys == els.Keys
  {
    if id in els then els[id := els[id].(classes := els[id].classes - {c})] else els
  }

  /** setElementText: a truthy selector targets the element's matching
      descendant; a missing element or descendant makes it a no-op. */
  function SetText(els: Elements, id: string, selector: Option<string>, value: string): (r: Elements)
    ensures r.Keys == els.Keys
  {
    if id !in els then els
    else if selector.Some? && selector.value != "" then
      if selector.value in els[id].selected
      then els[id := els[id].(selected := els[id].selected[selector.value := value])]
      else els
    else els[id := els[id].(text := value)]
  }

  predicate OverlayActive(els: Elements)
  {
    OverlayId in els && "active" in els[OverlayId].classes
  }

  /** showErrorModal: needs both the modal and its message element. */
  function ShowError(els: Elements, message: string): (r: Elements)
    ensures r.Keys == els.Keys
  {
    if ErrorModalId in els && ErrorMessageId in els
    then RemoveClass(SetText(els, ErrorMessageId, None, message), ErrorModalId, "hidden")
    else els
  }

  function SetButton(els: Elements, caption: string, disabled: bool): (r: Elements)
    requires ButtonId in els
    ensures r.Keys == els.Keys
  {
    els[ButtonId := els[ButtonId].(text := caption, disabled := disabled)]
  }

  /** updateDataStatus: the timestamp is written only for a truthy value, through
      the locale formatter `format` (`new Date(v).toLocaleString()`). */
  function UpdateStatus(els: Elements, status: string, lastUpdated: Option<Json>, format: Json -> string): (r: Elements)
    ensures r.Keys == els.Keys
  {
    var withStatus := SetText(els, StatusId, None, status);
    if Truthy(lastUpdated)
    then SetText(withStatus, LastUpdatedId, None, "Last updated: " + format(lastUpdated.value))
    else withStatus
  }

  /** The placeholder written into every listed container that exists, in list order. */
  function Placeholders(els: Elements, ids: seq<string>): (r: Elements)
    ensures r.Keys == els.Keys
  {
    if ids == [] then els
    else
      var prev := Placeholders(els, ids[..|ids| - 1]);
      var id := ids[|ids| - 1];
      if id in prev then prev[id := prev[id].(plot := Placeholder)] else prev
  }

  /** One render*Chart call: plot only when the container exists and the group
      is present (truthy) in the data. */
  function RenderRegion(els: Elements, data: Option<Json>, r: Region): (next: Elements)
    ensures next.Keys == els.Keys
  {
    var group := Get(data, r.group);
    if r.container in els && Truthy(group)
    then els[r.container := els[r.container].(plot := Plotted(group.value))]
    else els
  }

  function RenderRegions(els: Elements, data: Option<Json>, regions: seq<Region>): (r: Elements)
    ensures r.Keys == els.Keys
  {
    if regions == [] then els
    else RenderRegion(RenderRegions(els, data, regions[..|regions| - 1]), data, regions[|regions| - 1])
  }

  /** renderAllCharts: nothing at all when the data is falsy. */
  function RenderAll(els: Elements, data: Option<Json>): (r: Elements)
    ensures r.Keys == els.Keys
  {
    if Truthy(data) then RenderRegions(els, data, Regions) else els
  }

  /** populateDatalist: a truthy option list replaces the children; one that is
      not an array throws at forEach, after the list was emptied. */
  function FillList(els: Elements, listId: string, options: Option<Json>): (r: (Elements, Option<string>))
    ensures r.0.Keys == els.Keys
  {
    if listId in els && Truthy(options) then
      if options.value.JArr?
      then (els[listId := els[listId].(items := options.value.items)], None)
      else (els[listId := els[listId].(items := [])], Some("options.forEach is not a function"))
    else (els, None)
  }

  /** One branch of populateMLDropdowns. */
  function FillFromGroup(els: Elements, data: Option<Json>, d: Datalist): (r: (Elements, Option<string>))
    ensures r.0.Keys == els.Keys
  {
    var group := Get(data, d.group);
    if Truthy(group) then FillList(els, d.listId, Get(group, d.labels)) else (els, None)
  }

  /** The lists filled in order, stopping at the first throw. */
  function FillLists(els: Elements, data: Option<Json>, lists: seq<Datalist>): (r: (Elements, Option<string>))
    ensures r.0.Keys == els.Keys
  {
    if lists == [] then (els, None)
    else
      var (next, thrown) := FillFromGroup(els, data, lists[0]);
      if thrown.Some? then (next, thrown) else FillLists(next, data, lists[1..])
  }

  /** populateMLDropdowns */
  function Dropdowns(els: Elements, data: Option<Json>): (r: (Elements, Option<string>))
    ensures r.0.Keys == els.Keys
  {
    if Truthy(data) then FillLists(els, data, Datalists) else (els, None)
  }

  /** What the catch of loadDashboardData does. */
  function Fallback(els: Elements, format: Json -> string): (r: Elements)
    ensures r.Keys == els.Keys
  {
    UpdateStatus(Placeholders(els, ChartIds), UnavailableText, None, format)
  }

  /** The parsed envelope when the load takes its success branch: an ok status,
      a body that parses, and `status === "success"`. */
  function Accepted(reply: Fetched): (r: Option<Json>)
    ensures r.Some? ==> reply.Response? && OkStatus(reply.status) && reply.payload == Parsed(r.value)
    ensures r.Some? ==> Get(r, "status") == Some(JStr("success"))
  {
    if reply.Response? && OkStatus(reply.status) && reply.payload.Parsed? &&
       Get(Some(reply.payload.result), "status") == Some(JStr("success"))
    then Some(reply.payload.result)
    else None
  }

  /** loadDashboardData, from the page before to the page after. */
  function Load(s: PageState, reply: Fetched, format: Json -> string): PageState
  {
    var shown := AddClass(s.elements, OverlayId, "active");
    var sent := s.requests + [GetDashboard(OverlayActive(shown))];
    var after :=
      match Accepted(reply)
      case Some(result) =>
        var data := Get(Some(result), "data");
        var (filled, thrown) := Dropdowns(RenderAll(shown, data), data);
        if thrown.None?
        then PageState(UpdateStatus(filled, ConnectedText, Get(Some(result), "last_updated"), format), data, true, sent)
        else PageState(Fallback(filled, format), data, true, sent)
      case None =>
        PageState(Fallback(shown, format), s.dashboardData, s.isBackendConnected, sent);
    after.(elements := RemoveClass(after.elements, OverlayId, "active"))
  }

  /** The form as handleMLPrediction reads it: a missing control reads as "". */
  function ReadForm(els: Elements): (f: FormData)
    ensures f.serviceType == "" || ("serviceType" in els && f.serviceType == els["serviceType"].value)
    ensures f.ward == "" || ("ward" in els && f.ward == els["ward"].value)
    ensures f.division == "" || ("division" in els && f.division == els["division"].value)
    ensures f.postalCode == "" || ("predPostalCode" in els && f.postalCode == els["predPostalCode"].value)
    ensures f.timeOfDay == "" || ("predTimeOfDay" in els && f.timeOfDay == els["predTimeOfDay"].value)
    ensures f.dayOfWeek == "" || ("predDayOfWeek" in els && f.dayOfWeek == els["predDayOfWeek"].value)
    ensures "serviceType" in els ==> f.serviceType == els["serviceType"].value
    ensures "ward" in els ==> f.ward == els["ward"].value
    ensures "division" in els ==> f.division == els["division"].value
    ensures "predPostalCode" in els ==> f.postalCode == els["predPostalCode"].value
    ensures "predTimeOfDay" in els ==> f.timeOfDay == els["predTimeOfDay"].value
    ensures "predDayOfWeek" in els ==> f.dayOfWeek == els["predDayOfWeek"].value
  {
    FormData(
      if "serviceType" in els then els["serviceType"].value else "",
      if "ward" in els then els["ward"].value else "",
      if "division" in els then els["division"].value else "",
      if "predPostalCode" in els then els["predPostalCode"].value else "",
      if "predTimeOfDay" in els then els["predTimeOfDay"].value else "",
      if "predDayOfWeek" in els then els["predDayOfWeek"].value else "")
  }

  /** The client-side gate: the three required fields are non-empty. There is
      no trimming, so blanks pass. */
  predicate ValidForm(f: FormData): (ok: bool)
    ensures ok <==> "" !in [f.serviceType, f.ward, f.division]
  {
    f.serviceType != "" && f.ward != "" && f.division != ""
  }

  /** One `if (el) el.textContent = ...prediction.prop...` of
      displayPredictionResults: a present target with a nullish prediction throws. */
  function WriteResult(els: Elements, p: Option<Json>, id: string, prop: string, text: string): (r: (Elements, Option<string>))
    ensures r.0.Keys == els.Keys
  {
    if id in els && Nullish(p) then (els, Some(ReadError(p, prop)))
    else (SetText(els, id, None, text), None)
  }

  /** The factors list of displayPredictionResults: rebuilt from a truthy
      `prediction.factors`; a value that is not an array throws at forEach,
      after the list was emptied. */
  function WriteFactors(els: Elements, p: Option<Json>): (r: (Elements, Option<string>))
    ensures r.0.Keys == els.Keys
  {
    if FactorsId !in els then (els, None)
    else if Nullish(p) then (els, Some(ReadError(p, "factors")))
    else
      var factors := Get(p, "factors");
      if !Truthy(factors) then (els, None)
      else if factors.value.JArr? then (els[FactorsId := els[FactorsId].(items := factors.value.items)], None)
      else (els[FactorsId := els[FactorsId].(items := [])], Some("prediction.factors.forEach is not a function"))
  }

  /** displayPredictionResults: swap the panels, then write each present target
      in turn, stopping at the first throw. */
  function Display(els: Elements, p: Option<Json>): (r: (Elements, Option<string>))
    ensures r.0.Keys == els.Keys
  {
    var panels := RemoveClass(AddClass(els, PlaceholderPanelId, "hidden"), ResultsPanelId, "hidden");
    var probability := WriteResult(panels, p, ProbabilityId, "completion_probability", Interpolate(Get(p, "completion_probability")) + "%");
    if probability.1.Some? then probability
    else
      var outcome := WriteResult(probability.0, p, OutcomeId, "prediction", TextContentOf(Get(p, "prediction")));
      if outcome.1.Some? then outcome
      else
        var confidence := WriteResult(outcome.0, p, ConfidenceId, "confidence", Interpolate(Get(p, "confidence")) + "%");
        if confidence.1.Some? then confidence
        else WriteFactors(confidence.0, p)
  }

  /** The try block of handleMLPrediction after the request left: the panel as
      it then is, and the message of the error it threw, if any. */
  function Respond(els: Elements, reply: Fetched): (r: (Elements, Option<string>))
    ensures r.0.Keys == els.Keys
  {
    match reply
    case NetworkError(message) => (els, Some(message))
    case Response(status, payload) =>
      if !OkStatus(status) then (els, Some("HTTP error! status: " + IntToString(status)))
      else
        match payload
        case Unparsable(message) => (els, Some(message))
        case Parsed(result) =>
          if result == JNull then (els, Some(ReadError(Some(JNull), "status")))
          else if Get(Some(result), "status") == Some(JStr("success")) then Display(els, Get(Some(result), "prediction"))
          else (els, Some(ErrorText(Get(Some(result), "message"), "Prediction failed")))
  }

  /** The catch and the finally of handleMLPrediction: a thrown message goes
      to the error modal, and the button is restored either way. */
  function Settle(answered: (Elements, Option<string>)): (e: Elements)
    requires ButtonId in answered.0
    ensures e.Keys == answered.0.Keys
  {
    var shown := if answered.1.Some? then ShowError(answered.0, "Prediction failed: " + answered.1.value) else answered.0;
    SetButton(shown, IdleLabel, false)
  }

  /** handleMLPrediction, from the page before to the page after; the finally
      restores the button on every path. */
  function PagePredict(s: PageState, reply: Fetched): PageState
    requires ButtonId in s.elements
  {
    var form := ReadForm(s.elements);
    if !ValidForm(form) then
      s.(elements := SetButton(ShowError(s.elements, ValidationMessage), IdleLabel, false))
    else
      var busy := SetButton(s.elements, PredictingLabel, true);
      PageState(Settle(Respond(busy, reply)), s.dashboardData, s.isBackendConnected,
                s.requests + [PostPrediction(form, true)])
  }

  /** An incomplete form sends nothing: the page only gains the validation
      message and an idle button. */
  lemma PredictUnfoldInvalid(s: PageState, reply: Fetched)
    requires ButtonId in s.elements
    requires !ValidForm(ReadForm(s.elements))
    ensures PagePredict(s, reply) == s.(elements := SetButton(ShowError(s.elements, ValidationMessage), IdleLabel, false))
  {
  }

  /** A complete form is posted with the button disabled, and the page then
      shows what the reply leads to. */
  lemma PredictUnfoldSent(s: PageState, reply: Fetched)
    requires ButtonId in s.elements
    requires ValidForm(ReadForm(s.elements))
    ensures PagePredict(s, reply) ==
              PageState(Settle(Respond(SetButton(s.elements, PredictingLabel, true), reply)),
                        s.dashboardData, s.isBackendConnected,
                        s.requests + [PostPrediction(ReadForm(s.elements), true)])
  {
  }

  // ---------------------------------------------------------------------------
  // The page script

  class Page {
    var elements: Elements
    var dashboardData: Option<Json>
    var isBackendConnected: bool
    var requests: seq<Request>

    function State(): PageState
      reads this
    {
      PageState(elements, dashboardData, isBackendConnected, requests)
    }

    /** The script's initial globals over a given document. */
    constructor (document: Elements)
      ensures State() == PageState(document, Some(JNull), false, [])
    {
      elements := document;
      dashboardData := Some(JNull);
      isBackendConnected := false;
      requests := [];
    }

    method SetElementText(id: string, selector: Option<string>, value: string)
      modifies this
      ensures State() == old(State()).(elements := SetText(old(elements), id, selector, value))
    {
      if id in elements {
        if selector.Some? && selector.value != "" {
          if selector.value in elements[id].selected {
            var e := elements[id];
            elements := elements[id := e.(selected := e.selected[selector.value := value])];
          }
        } else {
          elements := elements[id := elements[id].(text := value)];
        }
      }
    }

    method ShowLoadingOverlay()
      modifies this
      ensures State() == old(State()).(elements := AddClass(old(elements), OverlayId, "active"))
    {
      if OverlayId in elements {
        elements := elements[OverlayId := elements[OverlayId].(classes := elements[OverlayId].classes + {"active"})];
      }
    }

    method HideLoadingOverlay()
      modifies this
      ensures State() == old(State()).(elements := RemoveClass(old(elements), OverlayId, "active"))
    {
      if OverlayId in elements {
        elements := elements[OverlayId := elements[OverlayId].(classes := elements[OverlayId].classes - {"active"})];
      }
    }

    method ShowErrorModal(message: string)
      modifies this
      ensures State() == old(State()).(elements := ShowError(old(elements), message))
    {
      if ErrorModalId in elements && ErrorMessageId in elements {
        elements := elements[ErrorMessageId := elements[ErrorMessageId].(text := message)];
        elements := elements[ErrorModalId := elements[ErrorModalId].(classes := elements[ErrorModalId].classes - {"hidden"})];
      }
    }

    method HideErrorModal()
      modifies this
      ensures State() == old(State()).(elements := AddClass(old(elements), ErrorModalId, "hidden"))
    {
      if ErrorModalId in elements {
        elements := elements[ErrorModalId := elements[ErrorModalId].(classes := elements[ErrorModalId].classes + {"hidden"})];
      }
    }

    method UpdateDataStatus(status: string, lastUpdated: Option<Json>, format: Json -> string)
      modifies this
      ensures State() == old(State()).(elements := UpdateStatus(old(elements), status, lastUpdated, format))
    {
      if StatusId in elements {
        elements := elements[StatusId := elements[StatusId].(text := status)];
      }
      if LastUpdatedId in elements && Truthy(lastUpdated) {
        elements := elements[LastUpdatedId := elements[LastUpdatedId].(text := "Last updated: " + format(lastUpdated.value))];
      }
    }

    method ShowChartPlaceholders()
      modifies this
      ensures State() == old(State()).(elements := Placeholders(old(elements), ChartIds))
    {
      for i := 0 to |ChartIds|
        invariant State() == old(State()).(elements := Placeholders(old(elements), ChartIds[..i]))
      {
        assert ChartIds[..i + 1][..i] == ChartIds[..i];
        var id := ChartIds[i];
        if id in elements {
          elements := elements[id := elements[id].(plot := Placeholder)];
        }
      }
      assert ChartIds[..|ChartIds|] == ChartIds;
    }

    /** One of the seven render*Chart functions: the container and group guard,
        then the opaque plot. */
    method RenderChart(r: Region)
      modifies this
      ensures State() == old(State()).(elements := RenderRegion(old(elements), dashboardData, r))
    {
      var group := Get(dashboardData, r.group);
      if !(r.container in elements) || !Truthy(group) {
        return;
      }
      elements := elements[r.container := elements[r.container].(plot := Plotted(group.value))];
    }

    method RenderAllCharts()
      modifies this
      ensures State() == old(State()).(elements := RenderAll(old(elements), dashboardData))
    {
      if !Truthy(dashboardData) {
        return;
      }
      for i := 0 to |Regions|
        invariant State() == old(State()).(elements := RenderRegions(old(elements), dashboardData, Regions[..i]))
      {
        assert Regions[..i + 1][..i] == Regions[..i];
        if Regions[i].container in elements {
          RenderChart(Regions[i]);
        }
      }
      assert Regions[..|Regions|] == Regions;
    }

    /** `list.innerHTML = ""` followed by one appended child per element of xs:
        the list ends up holding exactly xs. */
    method ReplaceItems(id: string, xs: seq<Json>)
      requires id in elements
      modifies this
      ensures State() == old(State()).(elements := old(elements)[id := old(elements)[id].(items := xs)])
    {
      elements := elements[id := elements[id].(items := [])];
      for i := 0 to |xs|
        invariant State() == old(State()).(elements := old(elements)[id := old(elements)[id].(items := xs[..i])])
      {
        assert xs[..i + 1] == xs[..i] + [xs[i]];
        elements := elements[id := elements[id].(items := elements[id].items + [xs[i]])];
      }
      assert xs[..|xs|] == xs;
    }

    method PopulateDatalist(listId: string, options: Option<Json>) returns (thrown: Option<string>)
      modifies this
      ensures (State(), thrown) ==
              (old(State()).(elements := FillList(old(elements), listId, options).0), FillList(old(elements), listId, options).1)
    {
      thrown := None;
      if listId in elements && Truthy(options) {
        if options.value.JArr? {
          ReplaceItems(listId, options.value.items);
        } else {
          elements := elements[listId := elements[listId].(items := [])];
          thrown := Some("options.forEach is not a function");
        }
      }
    }

    method PopulateMLDropdowns() returns (thrown: Option<string>)
      modifies this
      ensures (State(), thrown) ==
              (old(State()).(elements := Dropdowns(old(elements), dashboardData).0), Dropdowns(old(elements), dashboardData).1)
    {
      thrown := None;
      if !Truthy(dashboardData) {
        return;
      }
      ghost var e0 := elements;
      assert Datalists[1..][1..][1..] == [];
      var services := Get(dashboardData, "service_types");
      if Truthy(services) {
        thrown := PopulateDatalist("serviceTypeList", Get(services, "types"));
      }
      assert (elements, thrown) == FillFromGroup(e0, dashboardData, Datalists[0]);
      assert Dropdowns(e0, dashboardData) == FillLists(e0, dashboardData, Datalists);
      if thrown.Some? {
        assert Dropdowns(e0, dashboardData) == (elements, thrown);
        return;
      }
      ghost var e1 := elements;
      assert FillLists(e0, dashboardData, Datalists) == FillLists(e1, dashboardData, Datalists[1..]);
      var wards := Get(dashboardData, "ward_distribution");
      if Truthy(wards) {
        thrown := PopulateDatalist("wardList", Get(wards, "wards"));
      }
      assert (elements, thrown) == FillFromGroup(e1, dashboardData, Datalists[1..][0]);
      if thrown.Some? {
        assert FillLists(e1, dashboardData, Datalists[1..]) == (elements, thrown);
        return;
      }
      ghost var e2 := elements;
      assert FillLists(e1, dashboardData, Datalists[1..]) == FillLists(e2, dashboardData, Datalists[1..][1..]);
      var divisions := Get(dashboardData, "division_distribution");
      if Truthy(divisions) {
        thrown := PopulateDatalist("divisionList", Get(divisions, "divisions"));
      }
      assert (elements, thrown) == FillFromGroup(e2, dashboardData, Datalists[1..][1..][0]);
      assert FillLists(e2, dashboardData, Datalists[1..][1..]) == (elements, thrown);
    }

    method LoadDashboardData(reply: Fetched, format: Json -> string)
      modifies this
      ensures State() == Load(old(State()), reply, format)
    {
      ShowLoadingOverlay();
      requests := requests + [GetDashboard(OverlayActive(elements))];
      var failed := true;
      if reply.Response? && OkStatus(reply.status) && reply.payload.Parsed? {
        var result := reply.payload.result;
        if result != JNull && Get(Some(result), "status") == Some(JStr("success")) {
          dashboardData := Get(Some(result), "data");
          isBackendConnected := true;
          RenderAllCharts();
          var thrown := PopulateMLDropdowns();
          if thrown.None? {
            UpdateDataStatus(ConnectedText, Get(Some(result), "last_updated"), format);
            failed := false;
          }
        }
      }
      if failed {
        ShowChartPlaceholders();
        UpdateDataStatus(UnavailableText, None, format);
      }
      HideLoadingOverlay();
    }

    method DisplayPredictionResults(p: Option<Json>) returns (thrown: Option<string>)
      modifies this
      ensures State() == old(State()).(elements := Display(old(elements), p).0)
      ensures thrown == Display(old(elements), p).1
    {
      if PlaceholderPanelId in elements {
        elements := elements[PlaceholderPanelId := elements[PlaceholderPanelId].(classes := elements[PlaceholderPanelId].classes + {"hidden"})];
      }
      if ResultsPanelId in elements {
        elements := elements[ResultsPanelId := elements[ResultsPanelId].(classes := elements[ResultsPanelId].classes - {"hidden"})];
      }
      thrown := ShowResultText(ProbabilityId, p, "completion_probability", Interpolate(Get(p, "completion_probability")) + "%");
      if thrown.Some? {
        return;
      }
      thrown := ShowResultText(OutcomeId, p, "prediction", TextContentOf(Get(p, "prediction")));
      if thrown.Some? {
        return;
      }
      thrown := ShowResultText(ConfidenceId, p, "confidence", Interpolate(Get(p, "confidence")) + "%");
      if thrown.Some? {
        return;
      }
      thrown := ShowFactors(p);
    }

    /** One `if (el) el.textContent = ...` of displayPredictionResults, where
        `text` reads `prop` from the prediction. */
    method ShowResultText(id: string, p: Option<Json>, prop: string, text: string) returns (thrown: Option<string>)
      modifies this
      ensures State() == old(State()).(elements := WriteResult(old(elements), p, id, prop, text).0)
      ensures thrown == WriteResult(old(elements), p, id, prop, text).1
    {
      thrown := None;
      if id in elements {
        if Nullish(p) {
          return Some(ReadError(p, prop));
        }
        elements := elements[id := elements[id].(text := text)];
      }
    }

    /** The last step of displayPredictionResults: the factors list. */
    method ShowFactors(p: Option<Json>) returns (thrown: Option<string>)
      modifies this
      ensures State() == old(State()).(elements := WriteFactors(old(elements), p).0)
      ensures thrown == WriteFactors(old(elements), p).1
    {
      thrown := None;
      if FactorsId in elements {
        if Nullish(p) {
          return Some(ReadError(p, "factors"));
        }
        var factors := Get(p, "factors");
        if Truthy(factors) {
          if factors.value.JArr? {
            ReplaceItems(FactorsId, factors.value.items);
          } else {
            elements := elements[FactorsId := elements[FactorsId].(items := [])];
            thrown := Some("prediction.factors.forEach is not a function");
          }
        }
      }
    }

    /** The click handler of the predict button, which exists whenever the
        handler runs: setupMLPrediction only registers it on that button. */
    method HandleMLPrediction(reply: Fetched)
      requires ButtonId in elements
      modifies this
      ensures State() == PagePredict(old(State()), reply)
    {
      var form := ReadForm(elements);
      ghost var shown: Elements;
      if !ValidForm(form) {
        ShowErrorModal(ValidationMessage);
        shown := elements;
        PredictUnfoldInvalid(old(State()), reply);
      } else {
        elements := elements[ButtonId := elements[ButtonId].(text := PredictingLabel, disabled := true)];
        requests := requests + [PostPrediction(form, elements[ButtonId].disabled)];
        ghost var busy := elements;
        assert busy == SetButton(old(elements), PredictingLabel, true);
        var thrown := AwaitPrediction(reply);
        if thrown.Some? {
          ShowErrorModal("Prediction failed: " + thrown.value);
        }
        shown := elements;
        PredictUnfoldSent(old(State()), reply);
      }
      elements := elements[ButtonId := elements[ButtonId].(text := IdleLabel, disabled := false)];
    }

    /** The rest of handleMLPrediction's try block, once the request has left:
        the checks on the response and the display of a successful result. */
    method AwaitPrediction(reply: Fetched) returns (thrown: Option<string>)
      modifies this
      ensures State() == old(State()).(elements := Respond(old(elements), reply).0)
      ensures thrown == Respond(old(elements), reply).1
    {
      match reply
      case NetworkError(message) =>
        thrown := Some(message);
      case Response(status, payload) =>
        if !OkStatus(status) {
          thrown := Some("HTTP error! status: " + IntToString(status));
        } else {
          match payload
          case Unparsable(message) =>
            thrown := Some(message);
          case Parsed(result) =>
            if result == JNull {
              thrown := Some(ReadError(Some(JNull), "status"));
            } else if Get(Some(result), "status") == Some(JStr("success")) {
              thrown := DisplayPredictionResults(Get(Some(result), "prediction"));
            } else {
              thrown := Some(ErrorText(Get(Some(result), "message"), "Prediction failed"));
            }
        }
    }
  }
}
