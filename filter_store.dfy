/**
 * The issue filter store, in its two scope kinds: the workspace-view store
 * (`WorkspaceIssuesFilter`) and the module store (`ModuleIssuesFilter`). Each
 * keeps a map from a scope id to that scope's filters, derives the current
 * scope's filters and query parameters from it, installs fetched filters, and
 * merges updates into it key by key before persisting them.
 */
module IssueFilterStore {
  import opened JsObject
  import opened DisplayFilterRules

  /** The three sub-records of a scope's entry, as the lodash `set` paths name them. */
  datatype Part = FiltersPart | DisplayFiltersPart | DisplayPropertiesPart

  /** One scope's stored entry: the sub-records present on it (`{}` when none is). */
  type Entry = map<Part, Rec>

  /** `this.filters`: scope id to entry. */
  type FilterMap = map<string, Entry>

  /** `EIssueFilterType`, with `Unrecognized` for any other value (the `default` case). */
  datatype FilterType = Filters | DisplayFilters | DisplayProperties | Unrecognized

  datatype StoreKind = WorkspaceViews | Modules

  /** `IIssueFilters`, as the helper store normalizes it for reading. */
  datatype IssueFilters = IssueFilters(filters: Rec, displayFilters: Rec, displayProperties: Rec)

  /** A fetched `IIssueFiltersResponse`; each part may be missing. */
  datatype FiltersResponse = FiltersResponse(filters: Option<Rec>, displayFilters: Option<Rec>, displayProperties: Option<Rec>)

  /**
   * The helpers the stores inherit or import and whose code is not part of
   * this model: the three normalizers, `computedIssueFilters`,
   * `handleIssueQueryParamsByLayout(layout, "issues")` (`None` when it returns
   * a falsy value) and `computedFilteredParams`.
   */
  datatype Helpers = Helpers(
    computedFilters: Option<Rec> -> Rec,
    computedDisplayFilters: Option<Rec> -> Rec,
    computedDisplayProperties: Option<Rec> -> Rec,
    computedIssueFilters: Entry -> IssueFilters,
    paramsByLayout: Value -> Option<seq<string>>,
    computedFilteredParams: (Rec, Rec, seq<string>) -> Rec)

  /**
   * Where a scope's filters are read from and written to: the local shim for
   * the four virtual workspace views, the workspace view service
   * (`getViewDetails` / `updateView`) for saved views, and the module filter
   * service (`fetchModuleIssueFilters` / `patchModuleIssueFilters`).
   */
  datatype Service = LocalShim | ViewService | ModuleFilterService

  /** The calls the store starts on its collaborators, in the order it starts them. */
  datatype Call =
    | FetchFilterData(service: Service, workspaceSlug: string, projectId: Option<string>, scope: string)
    | FetchIssues(workspaceSlug: string, id: string)
    | Persist(service: Service, workspaceSlug: string, projectId: Option<string>, scope: string, part: Part, payload: Rec)
    | Reconcile(workspaceSlug: string, projectId: Option<string>, scope: string)

  datatype Error = MissingScope(message: string) | ServiceFailed

  /** How an async action settles: resolved, or rejected with an error. */
  datatype Outcome = Done | Threw(error: Error)

  const VirtualViews: set<string> := {"all-issues", "assigned", "created", "subscribed"}
  const StartTargetDate := "start_target_date"
  const GanttChart := Str("gantt_chart")

  /** A JavaScript truthy scope id: present and not the empty string. */
  predicate Truthy(id: Option<string>)
  {
    id.Some? && id.value != ""
  }

  /** `this.filters[id]`, with `{}` for a missing entry. */
  function EntryOr(fs: FilterMap, id: string): Entry
  {
    if id in fs then fs[id] else map[]
  }

  /** `entry[part]`; spreading a missing sub-record adds nothing, so it reads as `{}`. */
  function PartOr(e: Entry, p: Part): Rec
  {
    if p in e then e[p] else map[]
  }

  /** The sub-record an update kind merges into. */
  function PartFor(t: FilterType): Part
    requires t != Unrecognized
  {
    match t
    case Filters => FiltersPart
    case DisplayFilters => DisplayFiltersPart
    case DisplayProperties => DisplayPropertiesPart
  }

  /**
   * The silent no-op guard: `isEmpty(this.filters) || isEmpty(this.filters[key])
   * || isEmpty(update)`.
   */
  predicate Ignored(fs: FilterMap, readKey: string, update: Rec): (r: bool)
    ensures !r <==> readKey in fs && fs[readKey] != map[] && update != map[]
    ensures readKey !in fs ==> r
  {
    fs == map[] || EntryOr(fs, readKey) == map[] || update == map[]
  }

  /**
   * The map after `set(this.filters, [id, part, k], writes[k])` for every key
   * `k` of `writes`. lodash `set` creates the entry and the sub-record when
   * they are missing. Only the written keys of that one sub-record of that one
   * scope change.
   */
  function SetKeys(fs: FilterMap, id: string, part: Part, writes: Rec): (r: FilterMap)
    ensures writes == map[] ==> r == fs
    ensures writes != map[] ==> r.Keys == fs.Keys + {id}
    ensures forall other :: other in fs && other != id ==> other in r && r[other] == fs[other]
    ensures writes != map[] ==> forall k :: k in writes ==> Get(PartOr(r[id], part), k) == writes[k]
    ensures writes != map[] ==>
              forall k :: k !in writes ==> Get(PartOr(r[id], part), k) == Get(PartOr(EntryOr(fs, id), part), k)
    ensures writes != map[] ==> forall q :: q != part ==> PartOr(r[id], q) == PartOr(EntryOr(fs, id), q)
  {
    if writes == map[] then fs
    else
      var e := EntryOr(fs, id);
      fs[id := e[part := PartOr(e, part) + writes]]
  }

  /**
   * The merged sub-record and the update object that the merge produces for
   * one update kind: `{ ...stored, ...update }`, corrected by the three
   * display-filter rules for DISPLAY_FILTERS.
   */
  function Prepare(t: FilterType, stored: Rec, update: Rec): (d: Draft)
    requires t != Unrecognized
    ensures update.Keys <= d.update.Keys
    ensures stored + d.update == d.merged
    ensures t != DisplayFilters ==> d.update == update
  {
    var d0 := Draft(stored + update, update);
    if t == DisplayFilters then RulesKeepMergeBase(stored, d0); ApplyRules(d0) else d0
  }

  /**
   * When the merge base and the committed entry are the same scope (the
   * workspace-view store), committing the update object key by key leaves the
   * stored sub-record equal to the merged record sent for persistence.
   */
  lemma StoredEqualsSent(fs: FilterMap, id: string, t: FilterType, update: Rec)
    requires t != Unrecognized && update != map[]
    ensures var d := Prepare(t, PartOr(EntryOr(fs, id), PartFor(t)), update);
            PartOr(SetKeys(fs, id, PartFor(t), d.update)[id], PartFor(t)) == d.merged
  {
  }

  /**
   * On the workspace-view store, the display filters stored after a
   * DISPLAY_FILTERS update keep the rules' invariants.
   */
  lemma StoredDisplayFiltersConsistent(fs: FilterMap, id: string, update: Rec)
    requires update != map[]
    ensures var d := Prepare(DisplayFilters, PartOr(EntryOr(fs, id), DisplayFiltersPart), update);
            var stored := PartOr(SetKeys(fs, id, DisplayFiltersPart, d.update)[id], DisplayFiltersPart);
            && (Get(stored, GroupBy) == Null ==> Get(stored, SubGroupBy) == Null)
            && (IsKanban(stored) ==> Get(stored, GroupBy) != Null)
            && (IsKanban(stored) ==> Get(stored, SubGroupBy) == Null || Get(stored, SubGroupBy) != Get(stored, GroupBy))
  {
  }

  /**
   * On the module store the merge base is read under the project id while the
   * keys are committed under the module id. When the two entries differ, the
   * display filters stored for the module are not those sent for persistence:
   * a kanban module regrouped by its own sub-grouping is checked against the
   * project's list board, no rule fires, and the module ends up kanban with
   * `sub_group_by` equal to `group_by`, the state the corrections exist to
   * prevent.
   */
  lemma ModuleCommitDivergesFromSent()
    ensures var fs: FilterMap := map[
              "project-1" := map[DisplayFiltersPart := map[Layout := Str("list"), GroupBy := Str("priority"), SubGroupBy := Str("labels")]],
              "module-1" := map[DisplayFiltersPart := map[Layout := Kanban, GroupBy := Str("priority"), SubGroupBy := Str("state")]]];
            var update: Rec := map[GroupBy := Str("state")];
            var d := Prepare(DisplayFilters, PartOr(EntryOr(fs, "project-1"), DisplayFiltersPart), update);
            var stored := PartOr(SetKeys(fs, "module-1", DisplayFiltersPart, d.update)["module-1"], DisplayFiltersPart);
            && !Ignored(fs, "project-1", update)
            && d.update == update
            && stored != d.merged
            && IsKanban(stored) && Get(stored, GroupBy) == Get(stored, SubGroupBy) == Str("state")
  {
    var projectDf: Rec := map[Layout := Str("list"), GroupBy := Str("priority"), SubGroupBy := Str("labels")];
    var moduleDf: Rec := map[Layout := Kanban, GroupBy := Str("priority"), SubGroupBy := Str("state")];
    var fs: FilterMap := map["project-1" := map[DisplayFiltersPart := projectDf], "module-1" := map[DisplayFiltersPart := moduleDf]];
    var update: Rec := map[GroupBy := Str("state")];
    var d0 := Draft(projectDf + update, update);
    assert Get(d0.merged, GroupBy) == Str("state") && Get(d0.merged, Layout) == Str("list");
    assert ApplyRules(d0) == d0;
    assert PartOr(EntryOr(fs, "project-1"), DisplayFiltersPart) == projectDf;
    var stored := moduleDf + update;
    assert GroupBy in update;
    assert EntryOr(fs, "module-1") == map[DisplayFiltersPart := moduleDf];
    assert map[DisplayFiltersPart := moduleDf][DisplayFiltersPart := stored] == map[DisplayFiltersPart := stored];
    assert SetKeys(fs, "module-1", DisplayFiltersPart, update)["module-1"] == map[DisplayFiltersPart := stored];
    assert Get(stored, Layout) == Kanban && Get(d0.merged, Layout) == Str("list");
  }

  /** One more `set` of key `k` extends the written keys by `k`. */
  lemma SetKeysStep(fs: FilterMap, id: string, part: Part, done: Rec, k: string, v: Value)
    ensures var f := SetKeys(fs, id, part, done);
            var e := EntryOr(f, id);
            SetKeys(fs, id, part, done[k := v]) == f[id := e[part := PartOr(e, part)[k := v]]]
  {
    var base := PartOr(EntryOr(fs, id), part);
    var e0 := EntryOr(fs, id);
    var next := done[k := v];
    SpreadThenSet(base, done, k, v);
    var f := SetKeys(fs, id, part, done);
    var e := EntryOr(f, id);
    if done == map[] {
      assert f == fs && e == e0 && PartOr(e, part) == base;
      assert next == map[k := v];
    } else {
      assert f == fs[id := e0[part := base + done]];
      assert e == e0[part := base + done];
    }
    assert e[part := PartOr(e, part)[k := v]] == e0[part := base + next];
    assert k in next;
    assert SetKeys(fs, id, part, next) == fs[id := e0[part := base + next]];
  }

  lemma OnlyThreeParts(q: Part)
    ensures q in {FiltersPart, DisplayFiltersPart, DisplayPropertiesPart}
  {
  }

  class FilterStore {
    const kind: StoreKind
    const helpers: Helpers
    /** `this.filters` */
    var filters: FilterMap
    /** The collaborator calls started so far. */
    ghost var calls: seq<Call>

    constructor (kind: StoreKind, helpers: Helpers)
      ensures this.kind == kind && this.helpers == helpers
      ensures filters == map[] && calls == []
    {
      this.kind := kind;
      this.helpers := helpers;
      filters := map[];
      calls := [];
    }

    /**
     * The scope an update's guard and merge read from: the view id on the
     * workspace store, but the project id on the module store.
     */
    function ReadKey(projectId: string, scope: string): (k: string)
      ensures kind == WorkspaceViews ==> k == scope
      ensures kind == Modules ==> k == projectId
    {
      if kind == WorkspaceViews then scope else projectId
    }

    /** The backing service for a scope's filters (both for fetching and for persisting). */
    function ServiceFor(scope: string): (s: Service)
      ensures kind == Modules <==> s == ModuleFilterService
      ensures kind == WorkspaceViews ==> (s == LocalShim <==> scope in VirtualViews)
    {
      if kind == Modules then ModuleFilterService
      else if scope in VirtualViews then LocalShim
      else ViewService
    }

    /** The project id passed to collaborators: the workspace store passes none. */
    function ProjectArg(projectId: string): Option<string>
    {
      if kind == Modules then Some(projectId) else None
    }

    function MissingScopeMessage(): string
    {
      if kind == WorkspaceViews then "View id is required" else "Module id is required"
    }

    /** Whether persisting to the scope's service rejects; the local shim is taken never to fail. */
    function Rejected(scope: string, persistOk: bool): bool
    {
      ServiceFor(scope) != LocalShim && !persistOk
    }

    /**
     * The calls an applied update starts: an issue re-fetch for FILTERS only
     * (for the view on the workspace store, for the project on the module
     * store), then exactly one persistence call carrying the one merged
     * sub-record, then a reconciling fetch of the scope's filters when the
     * persistence rejects.
     */
    function UpdateCalls(workspaceSlug: string, projectId: string, t: FilterType, scope: string, sent: Rec, persistOk: bool)
      : (r: seq<Call>)
      requires t != Unrecognized
      ensures (exists i :: 0 <= i < |r| && r[i].FetchIssues?) <==> t == Filters
      ensures t == Filters ==>
                r[0] == FetchIssues(workspaceSlug, if kind == WorkspaceViews then scope else projectId)
      ensures exists i :: 0 <= i < |r| &&
                r[i] == Persist(ServiceFor(scope), workspaceSlug, ProjectArg(projectId), scope, PartFor(t), sent)
      ensures forall i, j :: 0 <= i < |r| && 0 <= j < |r| && r[i].Persist? && r[j].Persist? ==> i == j
      ensures (exists i :: 0 <= i < |r| && r[i].Reconcile?) <==> Rejected(scope, persistOk)
      ensures Rejected(scope, persistOk) ==> r[|r| - 1] == Reconcile(workspaceSlug, ProjectArg(projectId), scope)
      ensures |r| == (if t == Filters then 1 else 0) + 1 + (if Rejected(scope, persistOk) then 1 else 0)
    {
      var refetch := if t == Filters then [FetchIssues(workspaceSlug, if kind == WorkspaceViews then scope else projectId)] else [];
      var persist := [Persist(ServiceFor(scope), workspaceSlug, ProjectArg(projectId), scope, PartFor(t), sent)];
      var reconcile := if Rejected(scope, persistOk) then [Reconcile(workspaceSlug, ProjectArg(projectId), scope)] else [];
      var r := refetch + persist + reconcile;
      assert forall i :: 0 <= i < |r| ==> (r[i].FetchIssues? <==> i < |refetch|);
      assert forall i :: 0 <= i < |r| ==> (r[i].Persist? <==> i == |refetch|);
      assert forall i :: 0 <= i < |r| ==> (r[i].Reconcile? <==> i > |refetch|);
      assert r[|refetch|] == persist[0];
      assert t == Filters ==> r[0].FetchIssues?;
      assert Rejected(scope, persistOk) ==> r[|r| - 1].Reconcile?;
      r
    }

    /**
     * `issueFilters`: the current scope's normalized filters, undefined when
     * the route gives no scope id or the scope's entry is missing or empty.
     */
    function IssueFiltersOf(routeScope: Option<string>): (r: Option<IssueFilters>)
      reads this
      ensures r.None? <==> !Truthy(routeScope) || EntryOr(filters, routeScope.value) == map[]
      ensures r.Some? ==> r.value == helpers.computedIssueFilters(filters[routeScope.value])
    {
      if !Truthy(routeScope) then None
      else
        var e := EntryOr(filters, routeScope.value);
        if e == map[] then None else Some(helpers.computedIssueFilters(e))
    }

    /**
     * `appliedFilters`: undefined when there are no current filters or the
     * layout has no parameter set; otherwise the helper's parameters, with
     * `start_target_date` forced to true on the gantt chart.
     */
    function AppliedFilters(routeScope: Option<string>): (r: Option<Rec>)
      reads this
      ensures IssueFiltersOf(routeScope).None? ==> r.None?
      ensures IssueFiltersOf(routeScope).Some? ==>
                var uf := IssueFiltersOf(routeScope).value;
                var params := helpers.paramsByLayout(Get(uf.displayFilters, Layout));
                && (r.None? <==> params.None?)
                && (r.Some? && Get(uf.displayFilters, Layout) == GanttChart ==> Get(r.value, StartTargetDate) == Bool(true))
                && (r.Some? ==> forall k :: k != StartTargetDate ==>
                      Get(r.value, k) == Get(helpers.computedFilteredParams(uf.filters, uf.displayFilters, params.value), k))
                && (r.Some? && Get(uf.displayFilters, Layout) != GanttChart ==>
                      r.value == helpers.computedFilteredParams(uf.filters, uf.displayFilters, params.value))
    {
      match IssueFiltersOf(routeScope)
      case None => None
      case Some(uf) =>
        match helpers.paramsByLayout(Get(uf.displayFilters, Layout))
        case None => None
        case Some(params) =>
          var routeParams := helpers.computedFilteredParams(uf.filters, uf.displayFilters, params);
          if Get(uf.displayFilters, Layout) == GanttChart then Some(routeParams[StartTargetDate := Bool(true)])
          else Some(routeParams)
    }

    /** The entry `fetchFilters` installs: the three normalized sub-records. */
    function Normalized(response: FiltersResponse): (e: Entry)
      ensures e.Keys == {FiltersPart, DisplayFiltersPart, DisplayPropertiesPart}
    {
      map[FiltersPart := helpers.computedFilters(response.filters),
          DisplayFiltersPart := helpers.computedDisplayFilters(response.displayFilters),
          DisplayPropertiesPart := helpers.computedDisplayProperties(response.displayProperties)]
    }

    /**
     * `fetchFilters`: reads the scope's filters from its service (`response`
     * is what that read gave, `None` when it rejected) and, only when it
     * succeeded, installs the three normalized sub-records under the scope,
     * which the `issueFilters` read then returns.
     */
    method FetchFilters(workspaceSlug: string, projectId: string, scope: string, response: Option<FiltersResponse>)
      returns (outcome: Outcome)
      modifies this
      ensures calls == old(calls) + [FetchFilterData(ServiceFor(scope), workspaceSlug, ProjectArg(projectId), scope)]
      ensures response.None? ==> outcome == Threw(ServiceFailed) && filters == old(filters)
      ensures response.Some? ==> outcome == Done && filters == old(filters)[scope := Normalized(response.value)]
      ensures response.Some? && scope != "" ==>
                IssueFiltersOf(Some(scope)) == Some(helpers.computedIssueFilters(Normalized(response.value)))
    {
      calls := calls + [FetchFilterData(ServiceFor(scope), workspaceSlug, ProjectArg(projectId), scope)];
      if response.None? {
        outcome := Threw(ServiceFailed);
        return;
      }
      var f := helpers.computedFilters(response.value.filters);
      var df := helpers.computedDisplayFilters(response.value.displayFilters);
      var dp := helpers.computedDisplayProperties(response.value.displayProperties);
      filters := filters[scope := EntryOr(filters, scope)[FiltersPart := f]];
      filters := filters[scope := filters[scope][DisplayFiltersPart := df]];
      filters := filters[scope := filters[scope][DisplayPropertiesPart := dp]];
      forall q | q in filters[scope] ensures q in Normalized(response.value) {
        OnlyThreeParts(q);
      }
      assert filters[scope] == Normalized(response.value);
      outcome := Done;
    }

    /**
     * The `Object.keys(update).forEach(... set(this.filters, [id, part, k], ...))`
     * loop: writes every key of `writes` into one sub-record of one scope.
     */
    method WriteKeys(id: string, part: Part, writes: Rec)
      modifies this
      ensures filters == SetKeys(old(filters), id, part, writes)
      ensures calls == old(calls)
    {
      var pending := writes.Keys;
      ghost var done: Rec := map[];
      while pending != {}
        invariant pending <= writes.Keys
        invariant done == map k | k in writes && k !in pending :: writes[k]
        invariant filters == SetKeys(old(filters), id, part, done)
        invariant calls == old(calls)
        decreases pending
      {
        var k :| k in pending;
        var e := EntryOr(filters, id);
        SetKeysStep(old(filters), id, part, done, k, writes[k]);
        filters := filters[id := e[part := PartOr(e, part)[k := writes[k]]]];
        done := done[k := writes[k]];
        pending := pending - {k};
      }
      assert done == writes;
    }

    /**
     * `updateFilters`. Without a scope id it rejects with the store's
     * "... id is required" error, changing nothing and starting no reconcile
     * fetch. When the map, the read scope's entry or the update is empty, or
     * the kind is not recognized, it does nothing. Otherwise it merges the
     * update onto the read scope's sub-record (correcting display filters),
     * commits the (corrected) update's keys under the scope id, starts the
     * calls `UpdateCalls` lists, and rejects when persistence rejects.
     * `updateAfter` is the caller's update object afterwards: the display
     * filter corrections are written into it too.
     */
    method UpdateFilters(workspaceSlug: string, projectId: string, t: FilterType, update: Rec,
                         scope: Option<string>, persistOk: bool)
      returns (outcome: Outcome, updateAfter: Rec)
      modifies this
      ensures !Truthy(scope) ==>
                && outcome == Threw(MissingScope(MissingScopeMessage()))
                && filters == old(filters) && calls == old(calls) && updateAfter == update
      ensures Truthy(scope) && (Ignored(old(filters), ReadKey(projectId, scope.value), update) || t == Unrecognized) ==>
                outcome == Done && filters == old(filters) && calls == old(calls) && updateAfter == update
      ensures Truthy(scope) && !Ignored(old(filters), ReadKey(projectId, scope.value), update) && t != Unrecognized ==>
                var d := Prepare(t, PartOr(EntryOr(old(filters), ReadKey(projectId, scope.value)), PartFor(t)), update);
                && updateAfter == d.update
                && filters == SetKeys(old(filters), scope.value, PartFor(t), d.update)
                && calls == old(calls) + UpdateCalls(workspaceSlug, projectId, t, scope.value, d.merged, persistOk)
                && outcome == (if Rejected(scope.value, persistOk) then Threw(ServiceFailed) else Done)
    {
      updateAfter := update;
      if !Truthy(scope) {
        outcome := Threw(MissingScope(MissingScopeMessage()));
        return;
      }
      var id := scope.value;
      var readKey := ReadKey(projectId, id);
      if Ignored(filters, readKey, update) || t == Unrecognized {
        outcome := Done;
        return;
      }
      outcome, updateAfter := Apply(workspaceSlug, projectId, t, update, id, readKey, persistOk);
    }

    /**
     * The applied branch of `updateFilters`: merge onto the read scope's
     * sub-record, commit the update's keys under the scope id, then start the
     * re-fetch, persistence and reconciliation calls.
     */
    method Apply(workspaceSlug: string, projectId: string, t: FilterType, update: Rec,
                 id: string, readKey: string, persistOk: bool)
      returns (outcome: Outcome, updateAfter: Rec)
      requires t != Unrecognized
      modifies this
      ensures var d := Prepare(t, PartOr(EntryOr(old(filters), readKey), PartFor(t)), update);
              && updateAfter == d.update
              && filters == SetKeys(old(filters), id, PartFor(t), d.update)
              && calls == old(calls) + UpdateCalls(workspaceSlug, projectId, t, id, d.merged, persistOk)
              && outcome == (if Rejected(id, persistOk) then Threw(ServiceFailed) else Done)
    {
      var part := PartFor(t);
      ghost var before := calls;
      var d := Prepare(t, PartOr(EntryOr(filters, readKey), part), update);
      WriteKeys(id, part, d.update);
      updateAfter := d.update;
      if t == Filters {
        calls := calls + [FetchIssues(workspaceSlug, if kind == WorkspaceViews then id else projectId)];
      }
      calls := calls + [Persist(ServiceFor(id), workspaceSlug, ProjectArg(projectId), id, part, d.merged)];
      if Rejected(id, persistOk) {
        calls := calls + [Reconcile(workspaceSlug, ProjectArg(projectId), id)];
        outcome := Threw(ServiceFailed);
      } else {
        outcome := Done;
      }
      assert calls == before + UpdateCalls(workspaceSlug, projectId, t, id, d.merged, persistOk);
    }
  }

  /**
   * On the module store the no-op guard reads the project's entry: after the
   * module's filters have been fetched, an update for that module is silently
   * dropped, because the map holds no entry under the project id.
   */
  method ModuleUpdateDroppedWhileLoaded(h: Helpers) returns (outcome: Outcome, before: FilterMap, after: FilterMap)
    ensures "module-1" in before && before["module-1"] != map[]
    ensures outcome == Done && after == before
  {
    var s := new FilterStore(Modules, h);
    var fetched := s.FetchFilters("ws", "project-1", "module-1", Some(FiltersResponse(None, None, None)));
    before := s.filters;
    var updateAfter;
    outcome, updateAfter := s.UpdateFilters("ws", "project-1", Filters, map["priority" := Strs(["urgent"])], Some("module-1"), true);
    after := s.filters;
  }
}
