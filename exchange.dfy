/** The two halves of the dashboard together: what the page posts is what
    the backend checks, and what the backend answers is what the page reads.
    A reply is taken to reach the page as the backend wrote it. */
module Exchange {
  import opened Text
  import opened Json
  import Backend
  import opened Frontend
  import opened PageProperties

  /** `JSON.stringify(formData)` as the backend's `request.get_json()` reads
      it back: the six members handleMLPrediction builds. */
  function BodyOf(form: FormData): Backend.Body
  {
    map["service_type" := form.serviceType, "ward" := form.ward, "division" := form.division,
        "postal_code" := form.postalCode, "time_of_day" := form.timeOfDay, "day_of_week" := form.dayOfWeek]
  }

  /** A jsonify envelope with its status, as the page's fetch receives it. */
  function Delivered(envelope: (int, Json)): Fetched
  {
    Response(envelope.0, Parsed(envelope.1))
  }

  /** The page's gate and the backend's required-field check agree: a form the
      page lets through is never missing a required field on the server, and
      a form the page stops would have been refused there. */
  lemma FormGateAgrees(form: FormData)
    ensures ValidForm(form) <==> Backend.CheckRequest(true, Some(BodyOf(form))).None?
  {
    var body := BodyOf(form);
    assert Backend.RequiredFields == ["service_type", "ward", "division"];
    if ValidForm(form) {
      forall f | f in Backend.RequiredFields
        ensures !Backend.Blank(body, f)
      {
      }
    } else {
      assert Backend.RequiredFields[0] in Backend.RequiredFields;
      assert Backend.RequiredFields[1] in Backend.RequiredFields;
      assert Backend.RequiredFields[2] in Backend.RequiredFields;
    }
  }

  /** A request the page sends can only be refused because the model is not
      loaded: never for an empty body or for missing fields. */
  lemma SentFormOnlyRefusedWithoutModel(form: FormData, modelLoaded: bool)
    requires ValidForm(form)
    ensures Backend.CheckRequest(modelLoaded, Some(BodyOf(form))) ==
              if modelLoaded then None else Some(Backend.Rejection(500, Backend.ModelMissingMessage))
  {
    FormGateAgrees(form);
  }

  /** Every refusal of the guard chain carries a 400 or a 500 status. */
  lemma RefusalStatus(modelLoaded: bool, body: Option<Backend.Body>)
    requires Backend.CheckRequest(modelLoaded, body).Some?
    ensures Backend.CheckRequest(modelLoaded, body).value.code in {400, 500}
  {
  }

  /** A refusal reaches the page as an HTTP error: the modal shows the status
      and not the backend's message, and the prediction panel is untouched. */
  lemma RefusalShownAsStatus(s: PageState, modelLoaded: bool, body: Option<Backend.Body>)
    requires ButtonId in s.elements && ValidForm(ReadForm(s.elements))
    requires Backend.CheckRequest(modelLoaded, body).Some?
    ensures var refusal := Backend.CheckRequest(modelLoaded, body).value;
            var after := PagePredict(s, Delivered(Backend.RejectionEnvelope(refusal.code, refusal.message))).elements;
            ErrorShown(s.elements, after, "Prediction failed: " + ("HTTP error! status: " + IntToString(refusal.code))) &&
            forall id :: id in s.elements && id != ButtonId && id != ErrorModalId && id != ErrorMessageId ==>
              after[id] == s.elements[id]
  {
    var refusal := Backend.CheckRequest(modelLoaded, body).value;
    RefusalStatus(modelLoaded, body);
    var reply := Delivered(Backend.RejectionEnvelope(refusal.code, refusal.message));
    assert !OkStatus(reply.status);
    PredictFailedPage(s, reply);
  }

  /** The dashboard envelope is accepted exactly when the backend has data,
      and the page then reads the backend's data and timestamp from it. */
  lemma DashboardAccepted(dashboard: Option<map<string, Json>>, now: string)
    ensures var served := Backend.GetDashboardData(dashboard, now);
            var accepted := Accepted(Delivered(Backend.DashboardEnvelope(served)));
            (accepted.Some? <==> dashboard.Some?) &&
            (dashboard.Some? ==>
               Get(accepted, "data") == Some(JObj(dashboard.value)) &&
               Get(accepted, "last_updated") == Some(served.lastUpdated))
  {
    var served := Backend.GetDashboardData(dashboard, now);
    var envelope := Backend.DashboardEnvelope(served);
    if dashboard.None? {
      assert envelope.1.fields["status"] == JStr("error");
    } else {
      assert envelope.1.fields["status"] == JStr("success");
    }
  }

  /** Loading against a backend without data leaves the page as the catch
      leaves it: placeholders, "Backend Not Available" and the old globals. */
  lemma LoadWithoutData(s: PageState, now: string, format: Json -> string)
    ensures var reply := Delivered(Backend.DashboardEnvelope(Backend.GetDashboardData(None, now)));
            var after := Load(s, reply, format);
            FailurePage(s.elements, after.elements) &&
            after.dashboardData == s.dashboardData && after.isBackendConnected == s.isBackendConnected
  {
    var reply := Delivered(Backend.DashboardEnvelope(Backend.GetDashboardData(None, now)));
    DashboardAccepted(None, now);
    LoadRejectedPage(s, reply, format);
    LoadGlobals(s, reply, format);
  }

  /** Loading against a backend with data stores the backend's data on the
      page and marks the backend connected, whatever the lists then do. */
  lemma LoadWithData(s: PageState, d: map<string, Json>, now: string, format: Json -> string)
    ensures var reply := Delivered(Backend.DashboardEnvelope(Backend.GetDashboardData(Some(d), now)));
            var after := Load(s, reply, format);
            after.dashboardData == Some(JObj(d)) && after.isBackendConnected
  {
    var reply := Delivered(Backend.DashboardEnvelope(Backend.GetDashboardData(Some(d), now)));
    DashboardAccepted(Some(d), now);
    LoadGlobals(s, reply, format);
  }
}
