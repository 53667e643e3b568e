# CityPulse Analytics: the dashboard's decision logic in Dafny

CityPulse Analytics is a Toronto 311 dashboard. A Flask backend serves precomputed
statistics and a completion prediction from a trained classifier. A single-page
script fetches the statistics, draws the charts and the search-assist lists, and
posts the prediction form. This project models the two places where the system
decides something, and proves what those decisions guarantee.

- **Backend** (`backend.dfy`, module `Backend`), from `backend/app.py`. It covers:
  - the dashboard-data endpoint;
  - the guard chain of the prediction endpoint: no model, then no body, then missing required fields;
  - the feature row `make_prediction` hands to the classifier: zero vector, one-hot columns by prefix and substring, weekday and hour lookups with their defaults;
  - the 70/50/30 label bucketing and the confidence;
  - `generate_factors` with its `[:5]` cut.

  The classifier is an uninterpreted function from the feature row to a probability vector. The column loop and the cell writes are an in-place `array` algorithm (`EncodeCategoricals`, `SetColumn`), proved against the function `FeatureRow`. The factor list is built by successive appends (`GenerateFactors`), proved against `UncutFactors`.
- **Frontend** (`frontend.dfy`, module `Frontend`), from `frontend/main.js`. The page is the class `Page`. Its fields are the document (a map from element id to an abstract element), the globals `dashboardData` and `isBackendConnected`, and a log of the requests the page sent. Each handler is a method that updates those fields, proved against a function from the page before to the page after (`Load`, `PagePredict`, `Display`, …). A fetch result is an input: a network error, or a response with a status and a body that did or did not parse. A Plotly call is an opaque "plotted" mark on the container. Thrown errors carry the message a V8-based browser gives them, because that message is what the error modal shows.
- **Page properties** (`page_properties.dfy`) state each handler's effect element by element: which elements change, to what, and which stay as they were.
- **Exchange** (`exchange.dfy`) puts the two halves together. The page's form gate agrees with the backend's required-field check. A backend refusal reaches the page as an HTTP-status error. The dashboard envelope is accepted exactly when the backend has data.
- `text.dfy` (ASCII `lower`/`title`, substring search, `join`, decimal rendering) and `json.dfy` (JSON values, JavaScript truthiness, property reads, `String(v)`) are the shared vocabulary.

Some points where the model follows the code closely:

- The page's form gate tests the three required values for emptiness only. The code does not trim: a value made only of blanks passes, and the model follows the code.
- The JSON result `null` makes `result.status` throw. The load then takes its failure path, and the prediction reports the TypeError.
- `populateDatalist` on a truthy option list that is not an array throws at `forEach`. By then the list was emptied, `dashboardData` was replaced and the charts were drawn. The catch then puts placeholders over those charts and reports "Backend Not Available", while `isBackendConnected` stays true.
- `displayPredictionResults` on a nullish prediction throws at the first of the three text elements that is present. When none of them exists, it throws at `prediction.factors` if the factors list exists, and otherwise throws nothing and only swaps the panels. The handler shows a thrown TypeError in the modal.
- `handleMLPrediction` is only attached when the predict button exists (frontend/main.js:521-524). The model's handler therefore requires the button.

## Model

| member | source | states |
|---|---|---|
| Backend.GetDashboardData | backend/app.py:45-57 | error with status 500 and the fixed message exactly when no dashboard data is loaded; otherwise the loaded data, with `last_updated` equal to `generated_at` when that key is present and to the clock's ISO time otherwise |
| Backend.DashboardEnvelope | backend/app.py:46-57 | the missing-data reply is the JSON object {status "error", message} with its 500 status; the served reply is {status "success", data, last_updated} with status 200; `status` is "success" exactly for the served reply |
| Backend.MissingFields | backend/app.py:78-79 | the missing fields are a subsequence of the required list, and a field is in it exactly when it is required and absent or empty in the body |
| Backend.CheckRequest | backend/app.py:59-88 | the request passes exactly when the model is loaded, the body is present and every required field is non-empty; no model gives 500 first; a body that `get_json()` returns as a falsy value (`None` here stands for `null`, and the empty map for `{}`) gives 400 "No data provided"; otherwise 400 names the missing fields, comma-joined in the required order |
| Backend.PredictCompletion | backend/app.py:59-101 | a refusal of the guard chain is returned as is; make_prediction runs only when the chain passes; its exception becomes 500 "Prediction failed: …" |
| Backend.RejectionEnvelope | backend/app.py:61-101 | every refusal and the caught exception are sent as the JSON object {status "error", message} with the refusal's own HTTP status |
| Backend.WeekdayCode | backend/app.py:130-141 | the Weekday cell is always in 0..6 |
| Backend.HourCode | backend/app.py:127-145 | the Hour cell is always one of 2, 9, 12, 14, 19 |
| Backend.WeekdayCodeOfNames | backend/app.py:130-141 | each weekday name, in any letter case, maps to its index counted from Monday |
| Backend.LookupsIgnoreCase | backend/app.py:140-145 | the weekday and hour lookups give the same value for a string and its lower-cased form |
| Backend.FeatureRow | backend/app.py:110-145 | one cell per feature column, each the value make_prediction leaves in that column |
| Backend.CategoricalHitMeaning | backend/app.py:118-124 | the one-hot test holds exactly when the column has the service, ward or division prefix and the matching input occurs at some position of its name |
| Backend.FeatureRowCells | backend/app.py:110-145 | a one-hot column is 1 exactly when the inputs select it and 0 otherwise; Month holds the month; Weekday lies in 0..6; Hour is a mapped hour or 12 |
| Backend.DayIgnoredWithoutWeekday | backend/app.py:139-141 | without a Weekday column, the day of the week does not change the feature row |
| Backend.TimeIgnoredWithoutHour | backend/app.py:143-145 | without an Hour column, the time of day does not change the feature row |
| Backend.EncodeCategoricals | backend/app.py:118-124 | the column loop sets each selected one-hot cell to 1 and leaves every other cell as it was |
| Backend.SetColumn | backend/app.py:136-145 | a `.loc` write changes the cells of that column label and no other |
| Backend.BuildFeatures | backend/app.py:110-145 | the frame built in place from a zero vector equals the feature row |
| Backend.Bucket | backend/app.py:156-163 | the label's rank is the number of the 30/50/70 thresholds the percentage reaches |
| Backend.BucketMonotone | backend/app.py:156-163 | a higher completion percentage never yields a less likely label |
| Backend.LabelBands | backend/app.py:156-163 | the label text is "Highly Likely to be Completed" exactly from 70, "Likely to be Completed" exactly in [50, 70), "May be Completed" exactly in [30, 50) and "Unlikely to be Completed" exactly below 30 |
| Backend.MaxOf | backend/app.py:153 | Python's max(): an element of the vector, and no element is larger |
| Backend.ConfidenceBounds | backend/app.py:152-153 | confidence is never below the completion probability; with class probabilities in [0, 1] both lie in [0, 100] |
| Backend.MakePrediction | backend/app.py:103-173 | the in-place frame, the if/elif label and the appended factors give the prediction the specification function describes, or the IndexError text for a vector shorter than two |
| Backend.Echoes | backend/app.py:178-191 | at most one entry per input field, and one for each exactly when every input is non-empty |
| Backend.EchoesAtIndices | backend/app.py:176-191 | entry j is the caption and value of the j-th non-empty field: one entry per non-empty field, in field order, and nothing else |
| Backend.EchoesMember | backend/app.py:178-191 | every non-empty input appears among the factors with its caption and its value |
| Backend.EchoFieldsSpelledOut | backend/app.py:178-191 | the echoes are "Service Type: ", "Ward: ", "Division: " with the raw value and "Time of Day: ", "Day of Week: " with the title-cased value, each present exactly when its input is non-empty, in that order |
| Backend.ProbabilityNote | backend/app.py:193-198 | at most one note, and none exactly when the probability lies in 40..60 inclusive |
| Backend.GenerateFactors | backend/app.py:175-200 | at most 5 entries, a prefix of the uncut list of echoes followed by the note |
| Backend.CutKeepsEchoes | backend/app.py:175-200 | the cut only ever removes the note: every echoed input survives, in the order service, ward, division, time, day, and the note survives exactly when fewer than five inputs were echoed |
| Backend.NoteDroppedWhenAllEchoed | backend/app.py:190-200 | with all five inputs filled in, the probability note is cut |
| Frontend.Page.constructor | frontend/main.js:34-35 | the globals start as `null` and `false`, and no request has been sent |
| Frontend.Page.SetElementText | frontend/main.js:82-92 | only the target's text, or its selector child's text, changes; a missing element or child is a no-op |
| Frontend.Page.ShowLoadingOverlay | frontend/main.js:661-664 | adds "active" to the overlay when it exists, and changes nothing else |
| Frontend.Page.HideLoadingOverlay | frontend/main.js:666-669 | removes "active" from the overlay when it exists, and changes nothing else |
| Frontend.Page.ShowErrorModal | frontend/main.js:671-679 | with both the modal and its message element present, sets the message and unhides the modal; otherwise nothing |
| Frontend.Page.HideErrorModal | frontend/main.js:681-684 | hides the modal when it exists |
| Frontend.Page.UpdateDataStatus | frontend/main.js:686-696 | sets the status text; sets the timestamp only for a truthy value |
| Frontend.Page.ShowChartPlaceholders | frontend/main.js:474-515 | the loop leaves the page as the placeholder function over the seven chart ids describes |
| Frontend.Page.RenderChart | frontend/main.js:171-471 | one render*Chart guard: plots only when the container exists and the group is truthy in the data |
| Frontend.Page.RenderAllCharts | frontend/main.js:137-167 | nothing without data; otherwise every region in order, each behind its guard |
| Frontend.Page.ReplaceItems | frontend/main.js:651-656 | clearing then appending leaves the list holding exactly the given items, in order |
| Frontend.Page.PopulateDatalist | frontend/main.js:648-658 | a truthy option list replaces the children; a non-array one throws after the clear; otherwise nothing changes |
| Frontend.Page.PopulateMLDropdowns | frontend/main.js:625-646 | the three lists in order, each behind its group guard, stopping at the first throw |
| Frontend.Page.LoadDashboardData | frontend/main.js:95-134 | the page after the load is the one the load function gives for the fetch result |
| Frontend.Page.DisplayPredictionResults | frontend/main.js:588-623 | the panels swap, the three texts and the factors are written in order, and a nullish prediction or a non-array factors member throws where the script does |
| Frontend.Page.ShowResultText | frontend/main.js:596-611 | one guarded text write; a present element with a nullish prediction throws the read TypeError |
| Frontend.Page.ShowFactors | frontend/main.js:614-622 | the factors list is replaced by the factors when they are a truthy array; a truthy non-array throws |
| Frontend.Page.HandleMLPrediction | frontend/main.js:534-586 | the page after the handler is the one the prediction function gives for the form and the fetch result |
| Frontend.Page.AwaitPrediction | frontend/main.js:560-577 | network error, non-ok status, unparsable body, null result and non-success envelope each throw their message; a success envelope is displayed |
| Frontend.ReadForm | frontend/main.js:539-546 | each of the six form values is the `value` of its control when the control exists, and "" when it does not |
| Frontend.ValidForm | frontend/main.js:549 | the form passes exactly when none of service type, ward and division is the empty string; blanks are not trimmed |
| Frontend.Accepted | frontend/main.js:100-112 | the envelope is accepted only from an ok response whose parsed body has `status` "success" |
| PageProperties.PlaceholdersEffect | frontend/main.js:474-515 | every listed container present gets the placeholder, and every other element is as it was |
| PageProperties.RenderRegionsElsewhere | frontend/main.js:156-164 | an element that is no region's container is untouched by the charts |
| PageProperties.RenderRegionsAt | frontend/main.js:156-164 | each region's container plots its group exactly when the group is present |
| PageProperties.RenderRegionsEffect | frontend/main.js:156-164 | both of the above, for all regions |
| PageProperties.RegionsCoverChartIds | frontend/main.js:146-154 | the containers the charts use are exactly the seven placeholder ids, one per region and pairwise different |
| PageProperties.RenderAllEffect | frontend/main.js:137-167 | with data, each chart container plots its group when present and is untouched when absent; no other element changes |
| PageProperties.FillListsElsewhere | frontend/main.js:625-658 | filling the lists touches no element other than the lists |
| PageProperties.FillListsThrows | frontend/main.js:625-658 | filling throws exactly when some present list has truthy labels that are not an array, and then with the forEach TypeError |
| PageProperties.FillListsAt | frontend/main.js:625-658 | without a throw, each list holds its group's labels in order, or is untouched when the group or labels are absent |
| PageProperties.DropdownsThrowKeys | frontend/main.js:648-652 | whether a list throws depends only on which elements exist |
| PageProperties.DropdownsEffect | frontend/main.js:625-646 | populateMLDropdowns throws exactly when a list is unlistable; otherwise every list holds its labels; other elements are untouched |
| PageProperties.LoadGlobals | frontend/main.js:95-134 | an accepted envelope replaces `dashboardData` and sets `isBackendConnected`, otherwise both stay; the request goes out with the overlay active; the overlay is inactive afterwards; no element appears or disappears |
| PageProperties.LoaderIdsApart | frontend/main.js:477-485 | the overlay, the status elements, the chart containers and the lists have pairwise different ids |
| PageProperties.FallbackEffect | frontend/main.js:125-130 | the catch: placeholders in every chart container present, "Backend Not Available" as the status, nothing else touched |
| PageProperties.LoadRejectedPage | frontend/main.js:100-130 | an envelope that is not accepted leads to the failure page |
| PageProperties.DrawnAndFilled | frontend/main.js:115-118 | drawing and filling change the chart containers only in what they plot and leave the timestamp alone |
| PageProperties.CaughtPage | frontend/main.js:125-133 | the catch then the finally, on any page with the same elements, gives the failure page |
| PageProperties.LoadThrownPage | frontend/main.js:108-130 | an accepted envelope whose lists throw still ends on the failure page, over the charts just drawn |
| PageProperties.LoadFailurePage | frontend/main.js:95-134 | any load that does not succeed leaves every chart container with the placeholder, the status "Backend Not Available" and the timestamp as it was |
| PageProperties.DrawnAndListed | frontend/main.js:115-118 | without a list throw, each chart shows its group and each list its labels |
| PageProperties.ConnectedFromFilled | frontend/main.js:121-133 | from the filled page, the status and the timestamp are written and the overlay hidden, giving the connected page |
| PageProperties.LoadConnectedPage | frontend/main.js:95-134 | a successful load shows "Connected to Backend", the formatted timestamp when one is truthy, every chart drawn from the new data and every list holding its labels |
| PageProperties.PanelIdsApart | frontend/main.js:590-614 | the panel, button and modal ids are pairwise different |
| PageProperties.ResultTexts | frontend/main.js:596-611 | the three text writes set their own element's text and nothing else |
| PageProperties.PanelSwap | frontend/main.js:590-594 | the placeholder panel becomes hidden, the results panel unhidden, nothing else changes |
| PageProperties.FactorsStep | frontend/main.js:614-622 | the factors step throws exactly for a present list and truthy non-array factors; a truthy array replaces the list; nothing else changes |
| PageProperties.DisplaySteps | frontend/main.js:588-623 | on a prediction object none of the three text writes throws, so the display ends with the factors step |
| PageProperties.DisplayThrows | frontend/main.js:588-623 | on a prediction object the display throws exactly when the factors are present but not an array |
| PageProperties.DisplayShows | frontend/main.js:588-623 | on a prediction object: the two percentages with "%", the outcome text, the factors in order, the panel swap, and nothing else changed |
| PageProperties.DisplayKeepsModal | frontend/main.js:588-623 | the display leaves the error modal alone |
| PageProperties.PredictGate | frontend/main.js:534-586 | a request is sent exactly when the form is complete, with the button disabled; afterwards the button reads " Predict Completion" and is enabled on every path; the globals and the set of elements stay |
| PageProperties.PredictInvalidPage | frontend/main.js:549-552 | an incomplete form shows the validation message, and no other element but the button changes |
| PageProperties.SettleEffect | frontend/main.js:578-585 | the catch and the finally change only the button and the modal; a thrown message is shown as "Prediction failed: …" |
| PageProperties.SettleModal | frontend/main.js:578-585 | a thrown message is shown in the modal; without one the modal is as it was before the request |
| PageProperties.RespondEarly | frontend/main.js:560-577 | a reply that does not reach the display throws before touching the page, with the network message, the status text, the parse message or the envelope's message |
| PageProperties.BusyElsewhere | frontend/main.js:555-557 | disabling the button touches nothing else |
| PageProperties.FailedKeepsPage | frontend/main.js:560-585 | a failed reply leaves every element but the button and the modal as it was |
| PageProperties.FailedShowsError | frontend/main.js:560-585 | a failed reply puts what it threw in the modal |
| PageProperties.PredictFailedPage | frontend/main.js:534-586 | a complete form whose request fails leaves the prediction panel untouched and shows "Prediction failed: " with the network message, the HTTP status, the parse message or the backend's message (or "Prediction failed") |
| PageProperties.DisplayedTexts | frontend/main.js:572-574 | a successful reply shows the prediction's texts, its factors and the results panel |
| PageProperties.DisplayedModal | frontend/main.js:572-585 | after a successful reply the modal is as it was, unless the factors are present but not an array |
| PageProperties.PredictDisplayedPage | frontend/main.js:534-586 | a complete form answered with a prediction shows its percentages, outcome, factors and results panel; the modal changes only for non-array factors (the placeholder panel's hiding is stated by PageProperties.DisplayShows) |
| Exchange.FormGateAgrees | frontend/main.js:539-552 | the page lets a form through exactly when the backend's required-field check would accept its body |
| Exchange.SentFormOnlyRefusedWithoutModel | backend/app.py:61-88 | a body the page sends is refused only for a missing model, never for an empty body or missing fields |
| Exchange.RefusalStatus | backend/app.py:61-85 | every refusal of the guard chain has status 400 or 500 |
| Exchange.RefusalShownAsStatus | frontend/main.js:566-580 | a backend refusal reaches the page as "Prediction failed: HTTP error! status: <code>", never with the backend's message, and the panel is untouched |
| Exchange.DashboardAccepted | frontend/main.js:100-112 | the dashboard envelope is accepted exactly when the backend has data, and the page reads the backend's data and timestamp from it |
| Exchange.LoadWithoutData | frontend/main.js:125-130 | loading from a backend without data gives the failure page and keeps the old globals |
| Exchange.LoadWithData | frontend/main.js:108-110 | loading from a backend with data stores that data and marks the backend connected |
| Text.ContainsIffOccurs | backend/app.py:119-123 | Python's `in` on strings holds exactly when the needle occurs at some offset |

## Left out

- Flask routing, `jsonify`, CORS and `request.get_json()` are I/O. A request body is a map from strings to strings, and a reply is the envelope value with its status code.
- Bodies that are not JSON objects, and body values that are not strings, are not modelled. The page only sends strings.
- A request without a JSON body or with another content type makes `request.get_json()` raise inside the `try` (backend/app.py:67-69). The generic handler then answers 500 "Prediction failed: …" (backend/app.py:95-101). That path is not modelled: the body is always the value `get_json()` returned.
- `load_data` file reading and `joblib` loading are I/O. The dashboard data and the model are parameters.
- The classifier's `predict_proba` is an uninterpreted function. `model.predict` is left out, because its result is never used.
- `datetime.now()` is a parameter: the month, and the ISO time.
- Backend.MakePrediction: the percentages are kept exact, not formatted with `:.1f`. Float rounding is not modelled.
- The success envelope of the prediction endpoint, as JSON, is not modelled, because its numbers are formatted floats. The Exchange lemmas therefore connect the refusals and the dashboard envelope, not a successful prediction.
- The categorical-values, health and root endpoints of `backend/app.py` are outside the modelled core.
- `data_pipeline/data_pipeline.py` is not part of this model. It covers CSV reading, pandas aggregation and model training.
- `str.lower()` and `str.title()` are restricted to ASCII letters. Unicode case mapping is not modelled.
- JSON numbers are integers. The page never does arithmetic on them.
- `fetch` and `response.json()` are an input value: a network error, or a status with a parsed or unparsable body.
- Plotly layouts and traces are pure rendering parameters. A render is an opaque "plotted" mark holding the group.
- The placeholder's HTML is one opaque placeholder mark.
- `Date.toLocaleString` is a parameter `format`, because its output depends on the locale.
- The DOMContentLoaded start-up, `setHardcodedKPIValues` and `setupMLPrediction` only wire handlers and write fixed KPI texts. They are not modelled, including the inert `bestTime` write.
- Console logging has no effect on the page.
- An element's text, list items and plot are independent fields. In the DOM, writing `textContent` or `innerHTML` and calling `Plotly.newPlot` each replace the element's content. No modelled flow writes two of them on one element.
- Overlapping prediction requests are event-loop concurrency. Each handler runs to completion here.
- Frontend.Page.HandleMLPrediction: requires the predict button. The script attaches the handler only when the button exists.
- The texts of thrown errors are those of V8-based browsers. Other engines word them differently.
