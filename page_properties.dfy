/** What the page script does to the document, stated element by element rather
    than as the sequence of writes the handlers perform. */
module PageProperties {
  import opened Text
  import opened Json
  import opened Frontend

  // ---------------------------------------------------------------------------
  // Chart placeholders

  /** showChartPlaceholders marks every listed container the page has, and
      leaves every other element as it was. */
  lemma {:induction false} PlaceholdersEffect(els: Elements, ids: seq<string>)
    ensures forall id :: id in els ==>
              Placeholders(els, ids)[id] == if id in ids then els[id].(plot := Placeholder) else els[id]
  {
    if ids != [] {
      var init := ids[..|ids| - 1];
      PlaceholdersEffect(els, init);
      forall id | id in els
        ensures Placeholders(els, ids)[id] == if id in ids then els[id].(plot := Placeholder) else els[id]
      {
        assert id in ids <==> id in init || id == ids[|ids| - 1];
      }
    }
  }

  // ---------------------------------------------------------------------------
  // Charts

  /** No two regions share a container. */
  predicate DistinctContainers(regions: seq<Region>)
  {
    forall i, j :: 0 <= i < j < |regions| ==> regions[i].container != regions[j].container
  }

  /** The plot one region leaves in its container. */
  function RegionShows(e: Element, data: Option<Json>, r: Region): Element
  {
    var group := Get(data, r.group);
    if Truthy(group) then e.(plot := Plotted(group.value)) else e
  }

  /** Elements that are no region's container are untouched by the charts. */
  lemma {:induction false} RenderRegionsElsewhere(els: Elements, data: Option<Json>, regions: seq<Region>, id: string)
    requires id in els
    requires forall i :: 0 <= i < |regions| ==> regions[i].container != id
    ensures RenderRegions(els, data, regions)[id] == els[id]
  {
    if regions != [] {
      var init := regions[..|regions| - 1];
      assert forall k :: 0 <= k < |init| ==> init[k] == regions[k];
      RenderRegionsElsewhere(els, data, init, id);
    }
  }

  /** Each region's container plots its group exactly when the group is
      present, whatever order the regions are drawn in. */
  lemma {:induction false} RenderRegionsAt(els: Elements, data: Option<Json>, regions: seq<Region>, i: nat)
    requires DistinctContainers(regions)
    requires i < |regions| && regions[i].container in els
    ensures RenderRegions(els, data, regions)[regions[i].container] == RegionShows(els[regions[i].container], data, regions[i])
  {
    var n := |regions| - 1;
    var init := regions[..n];
    assert forall k :: 0 <= k < |init| ==> init[k] == regions[k];
    if i < n {
      assert DistinctContainers(init);
      RenderRegionsAt(els, data, init, i);
    } else {
      RenderRegionsElsewhere(els, data, init, regions[i].container);
    }
  }

  lemma RenderRegionsEffect(els: Elements, data: Option<Json>, regions: seq<Region>)
    requires DistinctContainers(regions)
    ensures forall i :: 0 <= i < |regions| && regions[i].container in els ==>
              RenderRegions(els, data, regions)[regions[i].container] == RegionShows(els[regions[i].container], data, regions[i])
    ensures forall id :: id in els && (forall i :: 0 <= i < |regions| ==> regions[i].container != id) ==>
              RenderRegions(els, data, regions)[id] == els[id]
  {
    forall i | 0 <= i < |regions| && regions[i].container in els
      ensures RenderRegions(els, data, regions)[regions[i].container] == RegionShows(els[regions[i].container], data, regions[i])
    {
      RenderRegionsAt(els, data, regions, i);
    }
    forall id | id in els && (forall i :: 0 <= i < |regions| ==> regions[i].container != id)
      ensures RenderRegions(els, data, regions)[id] == els[id]
    {
      RenderRegionsElsewhere(els, data, regions, id);
    }
  }

  /** The containers renderAllCharts draws into are the ones
      showChartPlaceholders covers, one per region. */
  lemma RegionsCoverChartIds()
    ensures DistinctContainers(Regions)
    ensures |Regions| == |ChartIds|
    ensures forall i :: 0 <= i < |Regions| ==> Regions[i].container == ChartIds[i]
  {
  }

  /** renderAllCharts: with data present, every chart container plots its
      group when that group is present; nothing else on the page changes. */
  lemma RenderAllEffect(els: Elements, data: Option<Json>)
    ensures forall i :: 0 <= i < |Regions| && Regions[i].container in els ==>
              RenderAll(els, data)[Regions[i].container] ==
                if Truthy(data) then RegionShows(els[Regions[i].container], data, Regions[i]) else els[Regions[i].container]
    ensures forall id :: id in els && id !in ChartIds ==> RenderAll(els, data)[id] == els[id]
  {
    RegionsCoverChartIds();
    if Truthy(data) {
      RenderRegionsEffect(els, data, Regions);
      forall id | id in els && id !in ChartIds
        ensures RenderAll(els, data)[id] == els[id]
      {
        assert forall i :: 0 <= i < |Regions| ==> Regions[i].container != id by {
          forall i | 0 <= i < |Regions| ensures Regions[i].container != id {
            assert ChartIds[i] in ChartIds;
          }
        }
      }
    }
  }

  // ---------------------------------------------------------------------------
  // Search-assist lists

  /** The option list one datalist is filled from: the labels member of its
      group, or nothing when the group is absent. */
  function Labels(data: Option<Json>, d: Datalist): Option<Json>
  {
    var group := Get(data, d.group);
    if Truthy(group) then Get(group, d.labels) else None
  }

  /** The list exists and its labels are present but not an array: forEach throws. */
  predicate Unlistable(els: Elements, data: Option<Json>, d: Datalist)
  {
    d.listId in els && Truthy(Labels(data, d)) && !Labels(data, d).value.JArr?
  }

  /** What a list shows once it was filled without a throw. */
  function ListShows(e: Element, data: Option<Json>, d: Datalist): Element
  {
    var labels := Labels(data, d);
    if Truthy(labels) && labels.value.JArr? then e.(items := labels.value.items) else e
  }

  predicate DistinctLists(lists: seq<Datalist>)
  {
    forall i, j :: 0 <= i < j < |lists| ==> lists[i].listId != lists[j].listId
  }

  /** Filling the lists never touches an element that is not one of them. */
  lemma {:induction false} FillListsElsewhere(els: Elements, data: Option<Json>, lists: seq<Datalist>, id: string)
    requires id in els
    requires forall i :: 0 <= i < |lists| ==> lists[i].listId != id
    ensures FillLists(els, data, lists).0[id] == els[id]
  {
    if lists != [] {
      var step := FillFromGroup(els, data, lists[0]);
      if step.1.None? {
        assert forall k :: 0 <= k < |lists[1..]| ==> lists[1..][k] == lists[k + 1];
        FillListsElsewhere(step.0, data, lists[1..], id);
      }
    }
  }

  /** Filling the lists throws exactly when one of them is unlistable, with the
      forEach TypeError. */
  lemma {:induction false} FillListsThrows(els: Elements, data: Option<Json>, lists: seq<Datalist>)
    requires DistinctLists(lists)
    ensures FillLists(els, data, lists).1.Some? <==> exists i :: 0 <= i < |lists| && Unlistable(els, data, lists[i])
    ensures FillLists(els, data, lists).1.Some? ==> FillLists(els, data, lists).1.value == "options.forEach is not a function"
  {
    if lists != [] {
      var d := lists[0];
      var rest := lists[1..];
      var step := FillFromGroup(els, data, d);
      assert step == FillList(els, d.listId, Labels(data, d));
      if step.1.Some? {
        assert Unlistable(els, data, lists[0]);
      } else {
        assert forall k :: 0 <= k < |rest| ==> rest[k] == lists[k + 1];
        assert DistinctLists(rest);
        FillListsThrows(step.0, data, rest);
        forall k | 0 <= k < |rest|
          ensures Unlistable(step.0, data, rest[k]) <==> Unlistable(els, data, rest[k])
        {
          assert rest[k].listId != d.listId;
        }
        if exists i :: 0 <= i < |lists| && Unlistable(els, data, lists[i]) {
          var i :| 0 <= i < |lists| && Unlistable(els, data, lists[i]);
          assert Unlistable(step.0, data, rest[i - 1]);
        }
        if exists k :: 0 <= k < |rest| && Unlistable(step.0, data, rest[k]) {
          var k :| 0 <= k < |rest| && Unlistable(step.0, data, rest[k]);
          assert Unlistable(els, data, lists[k + 1]);
        }
      }
    }
  }

  /** Without a throw, every list holds its labels, in the order given. */
  lemma {:induction false} FillListsAt(els: Elements, data: Option<Json>, lists: seq<Datalist>, i: nat)
    requires DistinctLists(lists)
    requires FillLists(els, data, lists).1.None?
    requires i < |lists| && lists[i].listId in els
    ensures FillLists(els, data, lists).0[lists[i].listId] == ListShows(els[lists[i].listId], data, lists[i])
  {
    var d := lists[0];
    var rest := lists[1..];
    var step := FillFromGroup(els, data, d);
    assert step == FillList(els, d.listId, Labels(data, d));
    assert forall k :: 0 <= k < |rest| ==> rest[k] == lists[k + 1];
    if i == 0 {
      FillListsElsewhere(step.0, data, rest, d.listId);
    } else {
      assert DistinctLists(rest);
      FillListsAt(step.0, data, rest, i - 1);
      assert lists[i].listId != d.listId;
    }
  }

  /** populateMLDropdowns throws when the data is present and one of its three
      lists is unlistable. */
  predicate DropdownsThrow(els: Elements, data: Option<Json>)
  {
    Truthy(data) && exists i :: 0 <= i < |Datalists| && Unlistable(els, data, Datalists[i])
  }

  /** Whether a list throws depends on which elements exist, not on what they show. */
  lemma DropdownsThrowKeys(a: Elements, b: Elements, data: Option<Json>)
    requires a.Keys == b.Keys
    ensures DropdownsThrow(a, data) <==> DropdownsThrow(b, data)
  {
    assert forall i :: 0 <= i < |Datalists| ==> (Unlistable(a, data, Datalists[i]) <==> Unlistable(b, data, Datalists[i]));
  }

  /** populateMLDropdowns: a throw exactly when a list is unlistable; otherwise
      every list holds the labels of its group; other elements are untouched. */
  lemma DropdownsEffect(els: Elements, data: Option<Json>)
    ensures Dropdowns(els, data).1.Some? <==> DropdownsThrow(els, data)
    ensures Dropdowns(els, data).1.Some? ==> Dropdowns(els, data).1.value == "options.forEach is not a function"
    ensures Dropdowns(els, data).1.None? ==>
              forall i :: 0 <= i < |Datalists| && Datalists[i].listId in els ==>
                Dropdowns(els, data).0[Datalists[i].listId] == ListShows(els[Datalists[i].listId], data, Datalists[i])
    ensures forall id :: id in els && (forall i :: 0 <= i < |Datalists| ==> Datalists[i].listId != id) ==>
              Dropdowns(els, data).0[id] == els[id]
  {
    if Truthy(data) {
      FillListsThrows(els, data, Datalists);
      forall i | 0 <= i < |Datalists| && Datalists[i].listId in els && Dropdowns(els, data).1.None?
        ensures Dropdowns(els, data).0[Datalists[i].listId] == ListShows(els[Datalists[i].listId], data, Datalists[i])
      {
        FillListsAt(els, data, Datalists, i);
      }
      forall id | id in els && (forall i :: 0 <= i < |Datalists| ==> Datalists[i].listId != id)
        ensures Dropdowns(els, data).0[id] == els[id]
      {
        FillListsElsewhere(els, data, Datalists, id);
      }
    }
  }

  // ---------------------------------------------------------------------------
  // Loading the dashboard

  /** The load reaches "Connected to Backend": the envelope is accepted and
      the lists fill without a throw. */
  predicate LoadSucceeds(s: PageState, reply: Fetched)
  {
    Accepted(reply).Some? && !DropdownsThrow(s.elements, Get(Accepted(reply), "data"))
  }

  /** loadDashboardData: an accepted envelope replaces the data and marks the
      backend connected, anything else keeps both; the request goes out with
      the overlay active when the page has one, and the overlay is inactive
      afterwards; no element appears or disappears. */
  lemma LoadGlobals(s: PageState, reply: Fetched, format: Json -> string)
    ensures Load(s, reply, format).dashboardData ==
              if Accepted(reply).Some? then Get(Accepted(reply), "data") else s.dashboardData
    ensures Load(s, reply, format).isBackendConnected == (Accepted(reply).Some? || s.isBackendConnected)
    ensures Load(s, reply, format).requests == s.requests + [GetDashboard(OverlayId in s.elements)]
    ensures Load(s, reply, format).elements.Keys == s.elements.Keys
    ensures !OverlayActive(Load(s, reply, format).elements)
  {
  }

  /** The ids the loader writes to are pairwise different: the overlay, the two
      status elements, the chart containers and the lists. */
  lemma LoaderIdsApart()
    ensures forall k :: 0 <= k < |Datalists| ==>
              Datalists[k].listId !in ChartIds && Datalists[k].listId != LastUpdatedId &&
              Datalists[k].listId != StatusId && Datalists[k].listId != OverlayId
    ensures OverlayId !in ChartIds && StatusId !in ChartIds && LastUpdatedId !in ChartIds
    ensures OverlayId != StatusId && OverlayId != LastUpdatedId && StatusId != LastUpdatedId
  {
  }

  /** The catch of loadDashboardData: placeholders in every chart container,
      "Backend Not Available" as the status, nothing else touched. */
  lemma FallbackEffect(els: Elements, format: Json -> string)
    ensures forall id :: id in ChartIds && id in els ==> Fallback(els, format)[id] == els[id].(plot := Placeholder)
    ensures StatusId in els ==> Fallback(els, format)[StatusId] == els[StatusId].(text := UnavailableText)
    ensures forall id :: id in els && id !in ChartIds && id != StatusId ==> Fallback(els, format)[id] == els[id]
  {
    PlaceholdersEffect(els, ChartIds);
  }

  /** What the failure page looks like, against the page before the load. */
  predicate FailurePage(before: Elements, after: Elements)
  {
    (forall id :: id in ChartIds && id in before ==> id in after && after[id] == before[id].(plot := Placeholder)) &&
    (StatusId in before ==> StatusId in after && after[StatusId].text == UnavailableText) &&
    (LastUpdatedId in before ==> LastUpdatedId in after && after[LastUpdatedId] == before[LastUpdatedId])
  }

  /** The envelope is not accepted: the catch runs on the page as it was. */
  lemma LoadRejectedPage(s: PageState, reply: Fetched, format: Json -> string)
    requires Accepted(reply).None?
    ensures FailurePage(s.elements, Load(s, reply, format).elements)
  {
    var shown := AddClass(s.elements, OverlayId, "active");
    assert Load(s, reply, format).elements == RemoveClass(Fallback(shown, format), OverlayId, "active");
    CaughtPage(s.elements, shown, format);
  }

  /** Drawing the charts and filling the lists changes the chart containers
      only in what they plot, and leaves the timestamp alone. */
  lemma DrawnAndFilled(els: Elements, data: Option<Json>)
    ensures var filled := Dropdowns(RenderAll(AddClass(els, OverlayId, "active"), data), data).0;
            (forall id :: id in ChartIds && id in els ==> filled[id].(plot := Placeholder) == els[id].(plot := Placeholder)) &&
            (LastUpdatedId in els ==> filled[LastUpdatedId] == els[LastUpdatedId])
  {
    var shown := AddClass(els, OverlayId, "active");
    var drawn := RenderAll(shown, data);
    var filled := Dropdowns(drawn, data).0;
    DropdownsEffect(drawn, data);
    RenderAllEffect(shown, data);
    RegionsCoverChartIds();
    LoaderIdsApart();
    forall id | id in ChartIds && id in els
      ensures filled[id].(plot := Placeholder) == els[id].(plot := Placeholder)
    {
      var i :| 0 <= i < |ChartIds| && ChartIds[i] == id;
      assert Regions[i].container == id;
      assert filled[id] == drawn[id];
      assert shown[id] == els[id];
    }
    if LastUpdatedId in els {
      assert filled[LastUpdatedId] == drawn[LastUpdatedId] == shown[LastUpdatedId];
    }
  }

  /** The catch, run on any page, then the overlay hidden: the failure page. */
  lemma CaughtPage(els: Elements, filled: Elements, format: Json -> string)
    requires filled.Keys == els.Keys
    requires forall id :: id in ChartIds && id in els ==> filled[id].(plot := Placeholder) == els[id].(plot := Placeholder)
    requires LastUpdatedId in els ==> filled[LastUpdatedId] == els[LastUpdatedId]
    ensures FailurePage(els, RemoveClass(Fallback(filled, format), OverlayId, "active"))
  {
    LoaderIdsApart();
    FallbackEffect(filled, format);
  }

  /** The envelope is accepted but a list throws: the catch overwrites the
      charts just drawn with placeholders. */
  lemma LoadThrownPage(s: PageState, reply: Fetched, format: Json -> string)
    requires Accepted(reply).Some? && DropdownsThrow(s.elements, Get(Accepted(reply), "data"))
    ensures FailurePage(s.elements, Load(s, reply, format).elements)
  {
    var shown := AddClass(s.elements, OverlayId, "active");
    var data := Get(Accepted(reply), "data");
    var filled := Dropdowns(RenderAll(shown, data), data).0;
    DropdownsThrowKeys(RenderAll(shown, data), s.elements, data);
    DropdownsEffect(RenderAll(shown, data), data);
    assert Load(s, reply, format).elements == RemoveClass(Fallback(filled, format), OverlayId, "active");
    DrawnAndFilled(s.elements, data);
    CaughtPage(s.elements, filled, format);
  }

  /** A load that fails anywhere, at the network, the status, the parse, the
      envelope or while filling the lists, leaves every chart container
      showing the placeholder, the status reading "Backend Not Available" and
      the timestamp as it was. */
  lemma LoadFailurePage(s: PageState, reply: Fetched, format: Json -> string)
    requires !LoadSucceeds(s, reply)
    ensures FailurePage(s.elements, Load(s, reply, format).elements)
  {
    if Accepted(reply).Some? {
      LoadThrownPage(s, reply, format);
    } else {
      LoadRejectedPage(s, reply, format);
    }
  }

  /** What the connected page shows, against the page before the load: the
      status, the timestamp when one came, each chart and each list. */
  predicate ConnectedPage(before: Elements, after: Elements, data: Option<Json>, lastUpdated: Option<Json>, format: Json -> string)
  {
    (StatusId in before ==> StatusId in after && after[StatusId].text == ConnectedText) &&
    (LastUpdatedId in before ==>
       LastUpdatedId in after &&
       after[LastUpdatedId] == if Truthy(lastUpdated)
                               then before[LastUpdatedId].(text := "Last updated: " + format(lastUpdated.value))
                               else before[LastUpdatedId]) &&
    (forall i :: 0 <= i < |Regions| && Regions[i].container in before ==>
       Regions[i].container in after &&
       after[Regions[i].container] == if Truthy(data) then RegionShows(before[Regions[i].container], data, Regions[i])
                                      else before[Regions[i].container]) &&
    (forall i :: 0 <= i < |Datalists| && Datalists[i].listId in before ==>
       Datalists[i].listId in after && after[Datalists[i].listId] == ListShows(before[Datalists[i].listId], data, Datalists[i]))
  }

  /** Drawing the charts then filling the lists without a throw. */
  lemma DrawnAndListed(els: Elements, data: Option<Json>)
    requires !DropdownsThrow(els, data)
    ensures var shown := AddClass(els, OverlayId, "active");
            var filled := Dropdowns(RenderAll(shown, data), data);
            filled.1.None? &&
            (forall i :: 0 <= i < |Regions| && Regions[i].container in els ==>
               filled.0[Regions[i].container] == if Truthy(data) then RegionShows(els[Regions[i].container], data, Regions[i])
                                                 else els[Regions[i].container]) &&
            (forall i :: 0 <= i < |Datalists| && Datalists[i].listId in els ==>
               filled.0[Datalists[i].listId] == ListShows(els[Datalists[i].listId], data, Datalists[i])) &&
            (forall id ::
               id in els && id != OverlayId && id !in ChartIds && (forall i :: 0 <= i < |Datalists| ==> Datalists[i].listId != id) ==>
                 filled.0[id] == els[id])
  {
    var shown := AddClass(els, OverlayId, "active");
    var drawn := RenderAll(shown, data);
    DropdownsThrowKeys(drawn, els, data);
    DropdownsEffect(drawn, data);
    RenderAllEffect(shown, data);
    RegionsCoverChartIds();
    LoaderIdsApart();
    forall i | 0 <= i < |Regions| && Regions[i].container in els
      ensures Dropdowns(drawn, data).0[Regions[i].container] == drawn[Regions[i].container]
    {
      assert Regions[i].container == ChartIds[i];
    }
    forall i | 0 <= i < |Datalists| && Datalists[i].listId in els
      ensures drawn[Datalists[i].listId] == els[Datalists[i].listId]
    {
    }
  }

  /** The success path, from the lists filled to the overlay hidden. */
  lemma ConnectedFromFilled(els: Elements, filled: Elements, data: Option<Json>, lastUpdated: Option<Json>, format: Json -> string)
    requires filled.Keys == els.Keys
    requires forall i :: 0 <= i < |Regions| && Regions[i].container in els ==>
               filled[Regions[i].container] == if Truthy(data) then RegionShows(els[Regions[i].container], data, Regions[i])
                                               else els[Regions[i].container]
    requires forall i :: 0 <= i < |Datalists| && Datalists[i].listId in els ==>
               filled[Datalists[i].listId] == ListShows(els[Datalists[i].listId], data, Datalists[i])
    requires StatusId in els ==> filled[StatusId] == els[StatusId]
    requires LastUpdatedId in els ==> filled[LastUpdatedId] == els[LastUpdatedId]
    ensures ConnectedPage(els, RemoveClass(UpdateStatus(filled, ConnectedText, lastUpdated, format), OverlayId, "active"),
                          data, lastUpdated, format)
  {
    RegionsCoverChartIds();
    LoaderIdsApart();
    assert forall i :: 0 <= i < |Regions| ==> Regions[i].container != OverlayId && Regions[i].container != StatusId &&
                                              Regions[i].container != LastUpdatedId;
  }

  /** A load that succeeds: "Connected to Backend", the timestamp when the
      envelope carries a truthy one, every chart drawn from the new data and
      every list holding its labels. */
  lemma LoadConnectedPage(s: PageState, reply: Fetched, format: Json -> string)
    requires LoadSucceeds(s, reply)
    ensures ConnectedPage(s.elements, Load(s, reply, format).elements,
                          Get(Accepted(reply), "data"), Get(Accepted(reply), "last_updated"), format)
  {
    var data := Get(Accepted(reply), "data");
    var shown := AddClass(s.elements, OverlayId, "active");
    var filled := Dropdowns(RenderAll(shown, data), data);
    DrawnAndListed(s.elements, data);
    LoaderIdsApart();
    RegionsCoverChartIds();
    assert Load(s, reply, format).elements ==
           RemoveClass(UpdateStatus(filled.0, ConnectedText, Get(Accepted(reply), "last_updated"), format), OverlayId, "active");
    ConnectedFromFilled(s.elements, filled.0, data, Get(Accepted(reply), "last_updated"), format);
  }

  // ---------------------------------------------------------------------------
  // Displaying a prediction

  /** The prediction panel's ids, the button and the error modal's ids are
      pairwise different. */
  lemma PanelIdsApart()
    ensures PlaceholderPanelId != ResultsPanelId
    ensures forall id :: id in [PlaceholderPanelId, ResultsPanelId] ==>
              id != ProbabilityId && id != OutcomeId && id != ConfidenceId && id != FactorsId
    ensures ProbabilityId != OutcomeId && ProbabilityId != ConfidenceId && OutcomeId != ConfidenceId
    ensures forall id :: id in [ProbabilityId, OutcomeId, ConfidenceId] ==> id != FactorsId
    ensures forall id :: id in [ButtonId, ErrorModalId, ErrorMessageId] ==>
              id != PlaceholderPanelId && id != ResultsPanelId && id != ProbabilityId &&
              id != OutcomeId && id != ConfidenceId && id != FactorsId
    ensures ButtonId != ErrorModalId && ButtonId != ErrorMessageId && ErrorModalId != ErrorMessageId
  {
  }

  /** The three text writes of displayPredictionResults, for any texts. */
  lemma ResultTexts(e: Elements, probability: string, outcome: string, confidence: string)
    ensures var r := SetText(SetText(SetText(e, ProbabilityId, None, probability), OutcomeId, None, outcome),
                             ConfidenceId, None, confidence);
            (ProbabilityId in e ==> r[ProbabilityId] == e[ProbabilityId].(text := probability)) &&
            (OutcomeId in e ==> r[OutcomeId] == e[OutcomeId].(text := outcome)) &&
            (ConfidenceId in e ==> r[ConfidenceId] == e[ConfidenceId].(text := confidence)) &&
            (forall id :: id in e && id != ProbabilityId && id != OutcomeId && id != ConfidenceId ==> r[id] == e[id])
  {
    PanelIdsApart();
  }

  /** The panel swap of displayPredictionResults. */
  lemma PanelSwap(e: Elements)
    ensures var r := RemoveClass(AddClass(e, PlaceholderPanelId, "hidden"), ResultsPanelId, "hidden");
            (PlaceholderPanelId in e ==> "hidden" in r[PlaceholderPanelId].classes) &&
            (ResultsPanelId in e ==> "hidden" !in r[ResultsPanelId].classes) &&
            (forall id :: id in e && id != PlaceholderPanelId && id != ResultsPanelId ==> r[id] == e[id])
  {
    PanelIdsApart();
  }

  /** The factors step on a prediction object. */
  lemma FactorsStep(e: Elements, p: Option<Json>)
    requires !Nullish(p)
    ensures WriteFactors(e, p).1.Some? <==> FactorsId in e && Truthy(Get(p, "factors")) && !Get(p, "factors").value.JArr?
    ensures WriteFactors(e, p).1.Some? ==> WriteFactors(e, p).1.value == "prediction.factors.forEach is not a function"
    ensures FactorsId in e && Truthy(Get(p, "factors")) && Get(p, "factors").value.JArr? ==>
              WriteFactors(e, p).0[FactorsId].items == Get(p, "factors").value.items
    ensures forall id :: id in e && id != FactorsId ==> WriteFactors(e, p).0[id] == e[id]
  {
  }

  /** displayPredictionResults on a prediction object, as the writes it makes:
      with the prediction present, none of the three text writes throws. */
  lemma DisplaySteps(els: Elements, p: Option<Json>)
    requires !Nullish(p)
    ensures var panels := RemoveClass(AddClass(els, PlaceholderPanelId, "hidden"), ResultsPanelId, "hidden");
            var texts := SetText(SetText(SetText(panels,
                           ProbabilityId, None, Interpolate(Get(p, "completion_probability")) + "%"),
                           OutcomeId, None, TextContentOf(Get(p, "prediction"))),
                           ConfidenceId, None, Interpolate(Get(p, "confidence")) + "%");
            Display(els, p) == WriteFactors(texts, p)
  {
  }

  /** displayPredictionResults on a prediction object throws only when the
      factors are present but not an array. */
  lemma DisplayThrows(els: Elements, p: Option<Json>)
    requires !Nullish(p)
    ensures Display(els, p).1.Some? <==> FactorsId in els && Truthy(Get(p, "factors")) && !Get(p, "factors").value.JArr?
    ensures Display(els, p).1.Some? ==> Display(els, p).1.value == "prediction.factors.forEach is not a function"
  {
    DisplaySteps(els, p);
    var panels := RemoveClass(AddClass(els, PlaceholderPanelId, "hidden"), ResultsPanelId, "hidden");
    var texts := SetText(SetText(SetText(panels,
                   ProbabilityId, None, Interpolate(Get(p, "completion_probability")) + "%"),
                   OutcomeId, None, TextContentOf(Get(p, "prediction"))),
                   ConfidenceId, None, Interpolate(Get(p, "confidence")) + "%");
    FactorsStep(texts, p);
  }

  /** displayPredictionResults on a prediction object: the panels swap, the
      three texts show the prediction's members (the two percentages with a
      "%" suffix) and the factors list holds the factors; nothing outside the
      panel changes. */
  lemma DisplayShows(els: Elements, p: Option<Json>)
    requires !Nullish(p)
    ensures var after := Display(els, p).0;
            (ProbabilityId in els ==> after[ProbabilityId].text == Interpolate(Get(p, "completion_probability")) + "%") &&
            (OutcomeId in els ==> after[OutcomeId].text == TextContentOf(Get(p, "prediction"))) &&
            (ConfidenceId in els ==> after[ConfidenceId].text == Interpolate(Get(p, "confidence")) + "%") &&
            (FactorsId in els && Truthy(Get(p, "factors")) && Get(p, "factors").value.JArr? ==>
               after[FactorsId].items == Get(p, "factors").value.items) &&
            (ResultsPanelId in els ==> "hidden" !in after[ResultsPanelId].classes) &&
            (PlaceholderPanelId in els ==> "hidden" in after[PlaceholderPanelId].classes)
    ensures forall id ::
              id in els && id != PlaceholderPanelId && id != ResultsPanelId && id != ProbabilityId &&
              id != OutcomeId && id != ConfidenceId && id != FactorsId ==>
                Display(els, p).0[id] == els[id]
  {
    var probability := Interpolate(Get(p, "completion_probability")) + "%";
    var outcome := TextContentOf(Get(p, "prediction"));
    var confidence := Interpolate(Get(p, "confidence")) + "%";
    var panels := RemoveClass(AddClass(els, PlaceholderPanelId, "hidden"), ResultsPanelId, "hidden");
    var texts := SetText(SetText(SetText(panels, ProbabilityId, None, probability), OutcomeId, None, outcome),
                         ConfidenceId, None, confidence);
    DisplaySteps(els, p);
    PanelSwap(els);
    ResultTexts(panels, probability, outcome, confidence);
    FactorsStep(texts, p);
    PanelIdsApart();
  }

  // ---------------------------------------------------------------------------
  // The prediction handler

  /** The error modal, when the page has it, shows `text` and is not hidden. */
  predicate ErrorShown(before: Elements, after: Elements, text: string)
  {
    ErrorModalId in before && ErrorMessageId in before ==>
      ErrorModalId in after && ErrorMessageId in after &&
      after[ErrorMessageId].text == text && "hidden" !in after[ErrorModalId].classes
  }

  /** handleMLPrediction posts exactly when the form is complete, with the
      button disabled; the button reads " Predict Completion" and is enabled
      afterwards on every path; the globals and the set of elements stay. */
  lemma PredictGate(s: PageState, reply: Fetched)
    requires ButtonId in s.elements
    ensures PagePredict(s, reply).requests ==
              if ValidForm(ReadForm(s.elements)) then s.requests + [PostPrediction(ReadForm(s.elements), true)] else s.requests
    ensures PagePredict(s, reply).dashboardData == s.dashboardData
    ensures PagePredict(s, reply).isBackendConnected == s.isBackendConnected
    ensures PagePredict(s, reply).elements.Keys == s.elements.Keys
    ensures PagePredict(s, reply).elements[ButtonId].text == IdleLabel && !PagePredict(s, reply).elements[ButtonId].disabled
  {
  }

  /** An incomplete form: the validation message, and no other element but
      the button changes. */
  lemma PredictInvalidPage(s: PageState, reply: Fetched)
    requires ButtonId in s.elements && !ValidForm(ReadForm(s.elements))
    ensures ErrorShown(s.elements, PagePredict(s, reply).elements, ValidationMessage)
    ensures forall id :: id in s.elements && id != ButtonId && id != ErrorModalId && id != ErrorMessageId ==>
              PagePredict(s, reply).elements[id] == s.elements[id]
  {
    PredictUnfoldInvalid(s, reply);
    PanelIdsApart();
  }

  /** The reply carries a prediction to display. */
  predicate ReachesDisplay(reply: Fetched)
  {
    reply.Response? && OkStatus(reply.status) && reply.payload.Parsed? && reply.payload.result != JNull &&
    Get(Some(reply.payload.result), "status") == Some(JStr("success"))
  }

  /** The catch and the finally of handleMLPrediction, for any panel state
      and any thrown message: only the button and the modal change. */
  lemma SettleEffect(answered: (Elements, Option<string>))
    requires ButtonId in answered.0
    ensures answered.1.Some? ==>
              ErrorShown(answered.0, Settle(answered), "Prediction failed: " + answered.1.value)
    ensures forall id :: id in answered.0 && id != ButtonId && id != ErrorModalId && id != ErrorMessageId ==>
              Settle(answered)[id] == answered.0[id]
    ensures answered.1.None? ==>
              forall id :: id in answered.0 && id != ButtonId ==> Settle(answered)[id] == answered.0[id]
  {
    PanelIdsApart();
  }

  /** The try block on a reply that does not reach the display: it throws,
      and with what message, before touching the page. */
  lemma RespondEarly(els: Elements, reply: Fetched)
    requires !ReachesDisplay(reply)
    ensures Respond(els, reply).0 == els && Respond(els, reply).1.Some?
    ensures reply.NetworkError? ==> Respond(els, reply).1.value == reply.message
    ensures reply.Response? && !OkStatus(reply.status) ==>
              Respond(els, reply).1.value == "HTTP error! status: " + IntToString(reply.status)
    ensures reply.Response? && OkStatus(reply.status) && reply.payload.Unparsable? ==>
              Respond(els, reply).1.value == reply.payload.message
    ensures reply.Response? && OkStatus(reply.status) && reply.payload.Parsed? && reply.payload.result.JObj? ==>
              Respond(els, reply).1.value == ErrorText(Get(Some(reply.payload.result), "message"), "Prediction failed")
  {
  }

  /** Disabling the button touches nothing else. */
  lemma BusyElsewhere(before: Elements)
    requires ButtonId in before
    ensures forall id :: id in before && id != ButtonId ==>
              SetButton(before, PredictingLabel, true)[id] == before[id]
  {
  }

  /** The catch and the finally seen from the modal: a thrown message is
      shown, and without one the modal keeps what it had before the request. */
  lemma SettleModal(before: Elements, answered: (Elements, Option<string>))
    requires ButtonId in before && answered.0.Keys == before.Keys
    requires ErrorModalId in before ==> answered.0[ErrorModalId] == before[ErrorModalId]
    requires ErrorMessageId in before ==> answered.0[ErrorMessageId] == before[ErrorMessageId]
    ensures if answered.1.Some?
            then ErrorShown(before, Settle(answered), "Prediction failed: " + answered.1.value)
            else (ErrorModalId in before ==> Settle(answered)[ErrorModalId] == before[ErrorModalId]) &&
                 (ErrorMessageId in before ==> Settle(answered)[ErrorMessageId] == before[ErrorMessageId])
  {
    SettleEffect(answered);
    PanelIdsApart();
  }

  /** A reply that fails before the display leaves every element but the
      button and the modal as it was, for any page `before` the request left
      from. */
  lemma FailedKeepsPage(before: Elements, reply: Fetched, after: Elements)
    requires ButtonId in before && !ReachesDisplay(reply)
    requires after == Settle(Respond(SetButton(before, PredictingLabel, true), reply))
    ensures forall id :: id in before && id != ButtonId && id != ErrorModalId && id != ErrorMessageId ==>
              after[id] == before[id]
  {
    var busy := SetButton(before, PredictingLabel, true);
    RespondEarly(busy, reply);
    SettleEffect(Respond(busy, reply));
    BusyElsewhere(before);
  }

  /** A reply that fails before the display puts what it threw in the modal. */
  lemma FailedShowsError(before: Elements, reply: Fetched, after: Elements)
    requires ButtonId in before && !ReachesDisplay(reply)
    requires after == Settle(Respond(SetButton(before, PredictingLabel, true), reply))
    ensures ErrorShown(before, after, "Prediction failed: " + Respond(before, reply).1.value)
  {
    var busy := SetButton(before, PredictingLabel, true);
    RespondEarly(busy, reply);
    RespondEarly(before, reply);
    BusyElsewhere(before);
    PanelIdsApart();
    SettleModal(before, Respond(busy, reply));
  }

  /** A complete form whose request fails before anything is displayed: the
      prediction panel is untouched and the modal names the failure. */
  lemma PredictFailedPage(s: PageState, reply: Fetched)
    requires ButtonId in s.elements && ValidForm(ReadForm(s.elements)) && !ReachesDisplay(reply)
    ensures var after := PagePredict(s, reply).elements;
            (forall id :: id in s.elements && id != ButtonId && id != ErrorModalId && id != ErrorMessageId ==>
               after[id] == s.elements[id]) &&
            (reply.NetworkError? ==>
               ErrorShown(s.elements, after, "Prediction failed: " + reply.message)) &&
            (reply.Response? && !OkStatus(reply.status) ==>
               ErrorShown(s.elements, after, "Prediction failed: " + ("HTTP error! status: " + IntToString(reply.status)))) &&
            (reply.Response? && OkStatus(reply.status) && reply.payload.Unparsable? ==>
               ErrorShown(s.elements, after, "Prediction failed: " + reply.payload.message)) &&
            (reply.Response? && OkStatus(reply.status) && reply.payload.Parsed? && reply.payload.result.JObj? ==>
               ErrorShown(s.elements, after,
                          "Prediction failed: " + ErrorText(Get(Some(reply.payload.result), "message"), "Prediction failed")))
  {
    PredictUnfoldSent(s, reply);
    FailedKeepsPage(s.elements, reply, PagePredict(s, reply).elements);
    FailedShowsError(s.elements, reply, PagePredict(s, reply).elements);
    RespondEarly(s.elements, reply);
  }

  /** The prediction panel a successful reply leaves, for any page `before`
      the request left from. */
  lemma DisplayedTexts(before: Elements, p: Option<Json>, after: Elements)
    requires ButtonId in before && !Nullish(p)
    requires after == Settle(Display(SetButton(before, PredictingLabel, true), p))
    ensures (ProbabilityId in before ==> after[ProbabilityId].text == Interpolate(Get(p, "completion_probability")) + "%") &&
            (OutcomeId in before ==> after[OutcomeId].text == TextContentOf(Get(p, "prediction"))) &&
            (ConfidenceId in before ==> after[ConfidenceId].text == Interpolate(Get(p, "confidence")) + "%") &&
            (FactorsId in before && Truthy(Get(p, "factors")) && Get(p, "factors").value.JArr? ==>
               after[FactorsId].items == Get(p, "factors").value.items) &&
            (ResultsPanelId in before ==> "hidden" !in after[ResultsPanelId].classes)
  {
    var busy := SetButton(before, PredictingLabel, true);
    DisplayShows(busy, p);
    SettleEffect(Display(busy, p));
    PanelIdsApart();
  }

  /** displayPredictionResults leaves the error modal alone. */
  lemma DisplayKeepsModal(els: Elements, p: Option<Json>)
    requires !Nullish(p)
    ensures ErrorModalId in els ==> Display(els, p).0[ErrorModalId] == els[ErrorModalId]
    ensures ErrorMessageId in els ==> Display(els, p).0[ErrorMessageId] == els[ErrorMessageId]
  {
    var panels := RemoveClass(AddClass(els, PlaceholderPanelId, "hidden"), ResultsPanelId, "hidden");
    var texts := SetText(SetText(SetText(panels,
                   ProbabilityId, None, Interpolate(Get(p, "completion_probability")) + "%"),
                   OutcomeId, None, TextContentOf(Get(p, "prediction"))),
                   ConfidenceId, None, Interpolate(Get(p, "confidence")) + "%");
    DisplaySteps(els, p);
    PanelSwap(els);
    ResultTexts(panels, Interpolate(Get(p, "completion_probability")) + "%", TextContentOf(Get(p, "prediction")),
                Interpolate(Get(p, "confidence")) + "%");
    FactorsStep(texts, p);
    PanelIdsApart();
  }

  /** The error modal after a successful reply: only a factors member that is
      present but not an array reaches it. */
  lemma DisplayedModal(before: Elements, p: Option<Json>, after: Elements)
    requires ButtonId in before && !Nullish(p)
    requires after == Settle(Display(SetButton(before, PredictingLabel, true), p))
    ensures if FactorsId in before && Truthy(Get(p, "factors")) && !Get(p, "factors").value.JArr?
            then ErrorShown(before, after, "Prediction failed: " + "prediction.factors.forEach is not a function")
            else (ErrorModalId in before ==> after[ErrorModalId] == before[ErrorModalId]) &&
                 (ErrorMessageId in before ==> after[ErrorMessageId] == before[ErrorMessageId])
  {
    var busy := SetButton(before, PredictingLabel, true);
    BusyElsewhere(before);
    PanelIdsApart();
    DisplayKeepsModal(busy, p);
    DisplayThrows(busy, p);
    SettleModal(before, Display(busy, p));
  }

  /** A complete form answered with a prediction object: the panel shows it;
      the modal stays as it was unless the factors are present but not an
      array, in which case it reports the TypeError. */
  lemma PredictDisplayedPage(s: PageState, reply: Fetched)
    requires ButtonId in s.elements && ValidForm(ReadForm(s.elements)) && ReachesDisplay(reply)
    requires !Nullish(Get(Some(reply.payload.result), "prediction"))
    ensures var p := Get(Some(reply.payload.result), "prediction");
            var after := PagePredict(s, reply).elements;
            (ProbabilityId in s.elements ==> after[ProbabilityId].text == Interpolate(Get(p, "completion_probability")) + "%") &&
            (OutcomeId in s.elements ==> after[OutcomeId].text == TextContentOf(Get(p, "prediction"))) &&
            (ConfidenceId in s.elements ==> after[ConfidenceId].text == Interpolate(Get(p, "confidence")) + "%") &&
            (FactorsId in s.elements && Truthy(Get(p, "factors")) && Get(p, "factors").value.JArr? ==>
               after[FactorsId].items == Get(p, "factors").value.items) &&
            (ResultsPanelId in s.elements ==> "hidden" !in after[ResultsPanelId].classes)
    ensures var p := Get(Some(reply.payload.result), "prediction");
            var after := PagePredict(s, reply).elements;
            if FactorsId in s.elements && Truthy(Get(p, "factors")) && !Get(p, "factors").value.JArr?
            then ErrorShown(s.elements, after, "Prediction failed: " + "prediction.factors.forEach is not a function")
            else (ErrorModalId in s.elements ==> after[ErrorModalId] == s.elements[ErrorModalId]) &&
                 (ErrorMessageId in s.elements ==> after[ErrorMessageId] == s.elements[ErrorMessageId])
  {
    var p := Get(Some(reply.payload.result), "prediction");
    PredictUnfoldSent(s, reply);
    assert Respond(SetButton(s.elements, PredictingLabel, true), reply) == Display(SetButton(s.elements, PredictingLabel, true), p);
    DisplayedTexts(s.elements, p, PagePredict(s, reply).elements);
    DisplayedModal(s.elements, p, PagePredict(s, reply).elements);
  }
}
