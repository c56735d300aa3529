# Issue filter store and swimlane counts

This project is a Dafny model of part of an issue tracker's front end.
It covers two things.

The first is the **issue filter store**. It exists twice, once per scope
kind: the workspace-view store (`WorkspaceIssuesFilter`) and the module
store (`ModuleIssuesFilter`). Each store keeps a map from a scope id to that
scope's filters. A scope's entry holds up to three sub-records: `filters`,
`displayFilters` and `displayProperties`. A store can:

- read the current scope's filters (`issueFilters`);
- derive the query parameters for the current layout (`appliedFilters`);
- fetch a scope's filters and install them normalized (`fetchFilters`);
- merge an update into a scope's filters (`updateFilters`).

An update is merged key by key and committed to the map first. After that
it is persisted, either to the local shim or to a remote service. A
display-filter update is also corrected by three ordered rules, and the
corrections are committed along with it.

The second is the **swimlane counts** of the kanban board: the count on
each group column's header and the count on each sub-group lane's header.

Both stores are modelled by one class, `IssueFilterStore.FilterStore`, whose
`kind` is either `WorkspaceViews` or `Modules`. An update uses two keys: a
read key for the no-op guard and the merge base, and a write key for the
commit. The write key is always the scope id. On the workspace store the
read key is the scope id too. On the module store the read key is the
project id, as the source does it. The model keeps this divergence and does
not repair it:

- `ModuleUpdateDroppedWhileLoaded` fetches a module's filters into a new
  module store and then updates them: the update is dropped because the
  project has no entry.
- `ModuleCommitDivergesFromSent` shows display filters being stored for the
  module that differ from those sent for persistence. The stored ones are a
  kanban board sub-grouped by its own grouping, which the correction rules
  exist to prevent.

Asynchronous calls are collapsed into inputs and a log:

- `FetchFilters` takes the service's answer as a parameter (`None` when the
  read rejects).
- `UpdateFilters` takes `persistOk`, which says whether persistence resolves.
- Every collaborator call the store starts (filter read, issue re-fetch,
  persistence, reconciling fetch) is appended to the ghost log `calls`.

Notes on the source's behaviour:

- The three display-filter rules are independent `if`s, run in order
  (web/store/issue/workspace/filter.store.ts:159-176).
- Rule 2 compares `group_by` and `sub_group_by` with `===`, so two missing
  keys count as equal and clear `sub_group_by`. Rule 3 only fires for an
  explicit `null`, so a kanban board whose `group_by` key is missing keeps
  it missing.
- The workspace store re-fetches issues for the view id. The module store
  re-fetches them for the project id.
- The module store reads its merge base under the project id, as described
  above (web/store/issue/module/filter.store.ts:119-124).

## Model

| member | source | states |
|---|---|---|
| `DisplayFilterRules.ApplyRules` | web/store/issue/workspace/filter.store.ts:159-176 | after the three rules: a null `group_by` implies a null `sub_group_by`; on kanban `group_by` is not null and `sub_group_by` is null or differs from it; kanban with a null `group_by` ends grouped by "state" and not sub-grouped; `sub_group_by` is cleared exactly when `group_by` is null or the board is kanban with `sub_group_by === group_by`, and kept otherwise; `group_by` changes only on a kanban board with a null one; when no rule fires both objects are returned unchanged; the layout and every key other than `group_by`/`sub_group_by` are unchanged in both objects; the update object only gains keys |
| `DisplayFilterRules.RulesKeepMergeBase` | web/store/issue/workspace/filter.store.ts:157-176 | every correction is written into both the merged record and the caller's update object, so the corrected update spread over the stored record is exactly the corrected merged record |
| `DisplayFilterRules.SwitchToKanbanGroupsByState` | web/store/issue/module/filter.store.ts:147-164 | a list board with a null `group_by` switched to kanban ends `{layout: kanban, group_by: "state", sub_group_by: null}`, and the committed update carries both corrections |
| `DisplayFilterRules.RegroupOntoSubGroupClearsIt` | web/store/issue/module/filter.store.ts:152-159 | a kanban board grouped by priority and sub-grouped by state, regrouped by state, has its sub-grouping cleared |
| `IssueFilterStore.SetKeys` | web/store/issue/workspace/filter.store.ts:138-142 | committing the update's keys one `set` at a time: each written key holds the written value; every other key of that sub-record, the other two sub-records and every other scope are unchanged; a missing entry is created |
| `IssueFilterStore.Prepare` | web/store/issue/workspace/filter.store.ts:127-136 | the merge is `{...stored, ...update}`; the committed update contains the caller's keys; FILTERS and DISPLAY_PROPERTIES commit the update unchanged; spreading the committed update over the stored record gives the merged record |
| `IssueFilterStore.StoredEqualsSent` | web/store/issue/workspace/filter.store.ts:157-194 | when the merge base and the commit are the same scope, the sub-record stored after the update equals the merged sub-record sent for persistence |
| `IssueFilterStore.StoredDisplayFiltersConsistent` | web/store/issue/workspace/filter.store.ts:159-186 | on the workspace store, the display filters stored after a display-filter update satisfy the rules' invariants |
| `IssueFilterStore.Ignored` | web/store/issue/workspace/filter.store.ts:125 | an update is applied exactly when the map holds a non-empty entry under the read key and the update is non-empty; a missing read entry always makes it a no-op |
| `IssueFilterStore.FilterStore.ReadKey` | web/store/issue/module/filter.store.ts:119-124 | the guard and the merge base read the view id on the workspace store but the project id on the module store, while the commit writes under the scope id on both |
| `IssueFilterStore.ModuleUpdateDroppedWhileLoaded` | web/store/issue/module/filter.store.ts:118-119 | on a module store whose module entry was just fetched, a non-empty FILTERS update for that module completes without error and leaves the map unchanged, because the guard tests the project's entry |
| `IssueFilterStore.ModuleCommitDivergesFromSent` | web/store/issue/module/filter.store.ts:121-178 | the module store merges onto the project's record but commits under the module id: regrouping a kanban module onto its sub-grouping, checked against the project's list board, fires no rule, so the module stores kanban with `sub_group_by == group_by` and differs from what is persisted |
| `IssueFilterStore.FilterStore.constructor` | web/store/issue/workspace/filter.store.ts:43-62 | a new store has an empty filter map and has started no calls |
| `IssueFilterStore.FilterStore.ServiceFor` | web/store/issue/workspace/filter.store.ts:146-153 | module scopes use the module filter service; a workspace scope goes to the local shim exactly when it is one of the four virtual views, otherwise to the view service |
| `IssueFilterStore.FilterStore.UpdateCalls` | web/store/issue/workspace/filter.store.ts:144-225 | an applied update starts an issue re-fetch exactly for FILTERS (first, for the view id); exactly one persistence call, carrying the one merged sub-record to the scope's service; and a reconciling fetch, as the last call, exactly when persistence rejects; no other call is started |
| `IssueFilterStore.FilterStore.IssueFiltersOf` | web/store/issue/workspace/filter.store.ts:64-74 | the current filters are undefined exactly when the route gives no truthy scope id or the scope's entry is missing or empty; otherwise they are the normalized entry |
| `IssueFilterStore.FilterStore.AppliedFilters` | web/store/issue/workspace/filter.store.ts:76-92 | undefined when there are no current filters, and exactly when the layout has no parameter set; on the gantt chart `start_target_date` is true; every other parameter is the helper's |
| `IssueFilterStore.FilterStore.Normalized` | web/store/issue/module/filter.store.ts:96-104 | a fetched entry holds all three sub-records |
| `IssueFilterStore.FilterStore.FetchFilters` | web/store/issue/workspace/filter.store.ts:94-113 | the read goes to the scope's service; on rejection the map is unchanged and the error propagates; on success the three normalized sub-records are installed under the scope, which `issueFilters` then returns for it |
| `IssueFilterStore.FilterStore.WriteKeys` | web/store/issue/module/filter.store.ts:132-136 | the `forEach` loop of per-key `set`s leaves the map as `SetKeys` describes, whatever order the keys come in |
| `IssueFilterStore.FilterStore.UpdateFilters` | web/store/issue/workspace/filter.store.ts:115-226 | without a truthy scope id it rejects with the store's "... id is required" error, changes nothing and starts no reconcile fetch; an empty map, read-scope entry or update, or an unrecognized kind, is a silent no-op; otherwise the map, the calls, the outcome and the caller's update object are as `Prepare`, `SetKeys` and `UpdateCalls` describe |
| `IssueFilterStore.FilterStore.Apply` | web/store/issue/module/filter.store.ts:121-200 | the applied branch: merge onto the project's sub-record, commit under the module id, re-fetch issues for the project on FILTERS only, persist one sub-record through the module service, and reconcile and reject when that rejects |
| `Swimlanes.CellCount` | web/components/issues/issue-layouts/kanban/swimlanes.tsx:108 | a column's count is its list's length, and 0 when the column or its list is missing |
| `Swimlanes.CalculateIssueCount` | web/components/issues/issue-layouts/kanban/swimlanes.tsx:103-111 | a lane's count is the sum of its columns' lengths, missing lists counting 0, and 0 when the lane is missing |
| `Swimlanes.TotalCountRemove` | web/components/issues/issue-layouts/kanban/swimlanes.tsx:107-109 | the sum over a lane's columns does not depend on the order the keys are visited in |
| `Swimlanes.TotalCountZero` | web/components/issues/issue-layouts/kanban/swimlanes.tsx:103-111 | a lane's count is 0 exactly when none of its columns holds an issue id |
| `Swimlanes.CellCountBound` | web/components/issues/issue-layouts/kanban/swimlanes.tsx:106-109 | every column's length is at most its lane's count |
| `Swimlanes.HeaderCount` | web/components/issues/issue-layouts/kanban/swimlanes.tsx:50 | on grouped ids a group header shows its column's length, or 0 when missing; on the sub-grouped ids the swimlanes pass it, it shows 0 |
| `Swimlanes.GroupColumn` | web/components/issues/issue-layouts/kanban/swimlanes.tsx:50 | one group column across the lanes: one cell per lane, each with that lane's count for the column |
| `Swimlanes.GroupColumnCountBounds` | web/components/issues/issue-layouts/kanban/swimlanes.tsx:50 | the corrected group header count is at least the column's count in every lane, and 0 exactly when no lane has an issue in that column |
| `Swimlanes.HeaderCountMissesSubGroupedIssues` | web/components/issues/issue-layouts/kanban/swimlanes.tsx:226-233 | one lane with one issue in column g1: the header as written shows 0, the corrected count 1 |
| `Swimlanes.KanBanSwimLanes` | web/components/issues/issue-layouts/kanban/swimlanes.tsx:212-259 | nothing is shown exactly when either column list is unavailable; otherwise one header count per group column, which is the corrected `GroupColumnCount` (the sum over the lanes) and not the as-written 0 listed under Findings, and lanes (one `calculateIssueCount` per sub-group column) exactly when `sub_group_by` is truthy |

## Findings

| source | as written | input that shows it | evidently intended | confidence | as-written member | corrected member |
|---|---|---|---|---|---|---|
| web/components/issues/issue-layouts/kanban/swimlanes.tsx:50 | the group header count reads `issueIds[groupId]?.length`, but `KanBanSwimLanes` passes it the same sub-grouped ids (lane id first) that `SubGroupSwimlane` reads, so the value is a lane object or undefined and the count is always 0 | ids `{lane-1: {g1: ["issue-1"]}}`, group column `g1`: header shows 0 | the column's issue ids summed over all lanes: 1 | medium, not executed | `Swimlanes.HeaderCountMissesSubGroupedIssues` | `Swimlanes.GroupColumnCountBounds` |

## Left out

- Normalizers and parameter helpers: `computedFilters`, `computedDisplayFilters`, `computedDisplayProperties`, `computedIssueFilters`, `computedFilteredParams` and `handleIssueQueryParamsByLayout` are parameters (the `Helpers` record). The helper store and `helpers/issue.helper` are not part of this model.
- Column lists: `getGroupByColumns` is not part of this model. The swimlanes take the two column lists as inputs, and `None` stands for an unavailable list.
- MobX: observability, `makeObservable` and the `runInAction` transaction are left out. Writes are plain sequential assignments.
- Services: the network services and the local shim's storage are left out. Their results are inputs, and their calls are entries in the ghost `calls` log.
- Local shim failures: the local shim is taken never to fail, because its code is not part of this model. So `persistOk` only matters on the remote path.
- Reconciling fetch: only its start is logged. Its eventual install, its own failure and its race with later updates are not modelled.
- Issue re-fetch: `fetchIssues` is not awaited. Only its start is logged.
- Strict equality: rule 2's `===` compares list values structurally. JavaScript compares arrays by reference, but `group_by` and `sub_group_by` only hold strings or null.
- Key order: `Object.keys` order is not modelled. The commit loop takes the keys in any order, and its result does not depend on that order.
- Workspace project id: the workspace store ignores `projectId` in `updateFilters`. The unified method takes a string and passes no project id to the workspace store's collaborators.
- lodash `set`: the case where a path runs through a non-object value is not modelled.
- Swimlane shapes: the ungrouped (array) shape of `issueIds` is not modelled. Neither is an `issueIds` that does not have the shape its cast assumes.
- UI: the JSX, the kanban toggle state and the other UI components are left out. These are the peek-overview properties panel, the custom dropdown menu and the calendar issue blocks, which contain no store logic.
- Routing: the route's `globalViewId` / `moduleId` is the `routeScope` input.
