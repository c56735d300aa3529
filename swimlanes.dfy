/**
 * The issue counts of the kanban swimlanes: the count on a group column's
 * header and the count on a sub-group lane's header, derived from the grouped
 * issue ids the board is given.
 */
module Swimlanes {
  import opened JsObject

  type IssueId = string

  /**
   * `TGroupedIssues`: column id to the column's issue ids. `None` is a key
   * whose value is undefined or null.
   */
  type GroupedIssues = map<string, Option<seq<IssueId>>>

  /** `TSubGroupedIssues`: sub-group id to that lane's grouped issue ids. */
  type SubGroupedIssues = map<string, GroupedIssues>

  /** The two shapes of `issueIds` the swimlane components cast it to. */
  datatype IssueIds = Grouped(groups: GroupedIssues) | SubGrouped(subGroups: SubGroupedIssues)

  /** `ids?.length || 0` */
  function LengthOr0(ids: Option<seq<IssueId>>): nat
  {
    if ids.Some? then |ids.value| else 0
  }

  /**
   * `g?.[id]?.length || 0`: the number of issue ids in one column, 0 when the
   * column is missing or holds no list.
   */
  function CellCount(g: GroupedIssues, id: string): (count: nat)
    ensures count > 0 ==> id in g && g[id].Some?
    ensures id in g && g[id].Some? ==> count == |g[id].value|
  {
    if id in g then LengthOr0(g[id]) else 0
  }

  /** Some key of a non-empty set. */
  ghost function Pick(s: set<string>): string
    requires s != {}
  {
    var x :| x in s; x
  }

  /** The number of issue ids over all columns of `g`, missing lists counting 0. */
  ghost function TotalCount(g: GroupedIssues): nat
    decreases g.Keys
  {
    if g == map[] then 0
    else
      var k := Pick(g.Keys);
      CellCount(g, k) + TotalCount(g - {k})
  }

  /** The total does not depend on which column is taken first. */
  lemma {:induction false} TotalCountRemove(g: GroupedIssues, k: string)
    requires k in g
    ensures TotalCount(g) == CellCount(g, k) + TotalCount(g - {k})
    decreases g.Keys
  {
    var j := Pick(g.Keys);
    if j != k {
      TotalCountRemove(g - {j}, k);
      TotalCountRemove(g - {k}, j);
      assert g - {j} - {k} == g - {k} - {j};
    }
  }

  /** A total is zero exactly when every column holds no issue id. */
  lemma {:induction false} TotalCountZero(g: GroupedIssues)
    ensures TotalCount(g) == 0 <==> forall k :: k in g ==> CellCount(g, k) == 0
    decreases g.Keys
  {
    if g != map[] {
      var j := Pick(g.Keys);
      TotalCountZero(g - {j});
      if TotalCount(g) == 0 {
        forall k | k in g ensures CellCount(g, k) == 0 {
          if k != j {
            assert k in g - {j};
          }
        }
      }
    }
  }

  /** Every column's count is part of the total. */
  lemma CellCountBound(g: GroupedIssues, k: string)
    ensures CellCount(g, k) <= TotalCount(g)
  {
  }

  /** The count `calculateIssueCount` gives for a sub-group lane. */
  ghost function LaneCount(issueIds: SubGroupedIssues, subGroupId: string): nat
  {
    if subGroupId in issueIds then TotalCount(issueIds[subGroupId]) else 0
  }

  /** The columns of `g` whose keys are in `keys`. */
  function Restrict(g: GroupedIssues, keys: set<string>): (r: GroupedIssues)
    ensures r.Keys == g.Keys * keys
  {
    map k | k in g && k in keys :: g[k]
  }

  /**
   * `calculateIssueCount` in `SubGroupSwimlane`: 0 when the lane is missing,
   * otherwise the sum over the lane's column keys of each column's length,
   * with a missing list adding 0.
   */
  method CalculateIssueCount(issueIds: SubGroupedIssues, columnId: string) returns (issueCount: nat)
    ensures issueCount == LaneCount(issueIds, columnId)
    ensures columnId !in issueIds ==> issueCount == 0
  {
    issueCount := 0;
    if columnId in issueIds {
      var inner := issueIds[columnId];
      var pending := inner.Keys;
      assert Restrict(inner, pending) == inner;
      while pending != {}
        invariant pending <= inner.Keys
        invariant issueCount + TotalCount(Restrict(inner, pending)) == TotalCount(inner)
        decreases pending
      {
        var k :| k in pending;
        TotalCountRemove(Restrict(inner, pending), k);
        assert Restrict(inner, pending) - {k} == Restrict(inner, pending - {k});
        issueCount := issueCount + CellCount(inner, k);
        pending := pending - {k};
      }
      assert Restrict(inner, pending) == map[];
    }
  }

  /**
   * The `count` of a group column's header in `SubGroupSwimlaneHeader`:
   * `issueIds[id]?.length || 0`, read from `issueIds` as if it were grouped.
   * On sub-grouped ids (what the swimlanes pass it), the value under a column
   * id is an object or undefined, neither of which has a length, so the
   * count is 0.
   */
  function HeaderCount(issueIds: IssueIds, columnId: string): (count: nat)
    ensures issueIds.Grouped? ==> count == CellCount(issueIds.groups, columnId)
    ensures issueIds.SubGrouped? ==> count == 0
  {
    match issueIds
    case Grouped(g) => CellCount(g, columnId)
    case SubGrouped(_) => 0
  }

  /** One group column across all sub-group lanes: lane id to that lane's cell. */
  function GroupColumn(issueIds: SubGroupedIssues, groupId: string): (c: GroupedIssues)
    ensures c.Keys == issueIds.Keys
    ensures forall sg :: sg in issueIds ==> CellCount(c, sg) == CellCount(issueIds[sg], groupId)
  {
    map sg | sg in issueIds :: if groupId in issueIds[sg] then issueIds[sg][groupId] else None
  }

  /**
   * The header count a group column evidently should show on a swimlane
   * board: the number of its issue ids summed over all sub-group lanes.
   */
  ghost function GroupColumnCount(issueIds: SubGroupedIssues, groupId: string): nat
  {
    TotalCount(GroupColumn(issueIds, groupId))
  }

  /**
   * The corrected header count is at least the column's count in every lane,
   * and zero exactly when no lane has an issue in that column.
   */
  lemma GroupColumnCountBounds(issueIds: SubGroupedIssues, groupId: string)
    ensures forall sg :: sg in issueIds ==> CellCount(issueIds[sg], groupId) <= GroupColumnCount(issueIds, groupId)
    ensures GroupColumnCount(issueIds, groupId) == 0 <==>
              forall sg :: sg in issueIds ==> CellCount(issueIds[sg], groupId) == 0
  {
    var c := GroupColumn(issueIds, groupId);
    forall sg | sg in issueIds ensures CellCount(issueIds[sg], groupId) <= GroupColumnCount(issueIds, groupId) {
      CellCountBound(c, sg);
    }
    TotalCountZero(c);
  }

  /**
   * A board with one lane holding one issue in column "g1": the header as
   * written shows 0 for that column, the corrected count shows 1.
   */
  lemma HeaderCountMissesSubGroupedIssues()
    ensures var ids: SubGroupedIssues := map["lane-1" := map["g1" := Some(["issue-1"])]];
            HeaderCount(SubGrouped(ids), "g1") == 0 && GroupColumnCount(ids, "g1") == 1
  {
    var ids: SubGroupedIssues := map["lane-1" := map["g1" := Some(["issue-1"])]];
    var c := GroupColumn(ids, "g1");
    TotalCountRemove(c, "lane-1");
    assert c - {"lane-1"} == map[];
  }

  /**
   * What `KanBanSwimLanes` shows, as counts: one header count per group
   * column, and, when `sub_group_by` is set, one count per sub-group lane.
   */
  datatype SwimlaneView = SwimlaneView(headerCounts: seq<nat>, laneCounts: Option<seq<nat>>)

  /**
   * `KanBanSwimLanes`: nothing when either column list is unavailable;
   * otherwise the group headers (with the corrected count) and, only when
   * `sub_group_by` is truthy, the sub-group lanes with `calculateIssueCount`.
   */
  ghost function KanBanSwimLanes(groupByList: Option<seq<string>>, subGroupByList: Option<seq<string>>,
                                 subGroupBy: Option<string>, issueIds: SubGroupedIssues): (r: Option<SwimlaneView>)
    ensures r.None? <==> groupByList.None? || subGroupByList.None?
    ensures r.Some? ==>
              && |r.value.headerCounts| == |groupByList.value|
              && forall i :: 0 <= i < |groupByList.value| ==>
                   r.value.headerCounts[i] == GroupColumnCount(issueIds, groupByList.value[i])
    ensures r.Some? ==> (r.value.laneCounts.Some? <==> subGroupBy.Some? && subGroupBy.value != "")
    ensures r.Some? && r.value.laneCounts.Some? ==>
              && |r.value.laneCounts.value| == |subGroupByList.value|
              && forall i :: 0 <= i < |subGroupByList.value| ==>
                   r.value.laneCounts.value[i] == LaneCount(issueIds, subGroupByList.value[i])
  {
    if groupByList.None? || subGroupByList.None? then None
    else
      var groups := groupByList.value;
      var lanes := subGroupByList.value;
      var headers := seq(|groups|, i requires 0 <= i < |groups| => GroupColumnCount(issueIds, groups[i]));
      var laneCounts :=
        if subGroupBy.Some? && subGroupBy.value != ""
        then Some(seq(|lanes|, i requires 0 <= i < |lanes| => LaneCount(issueIds, lanes[i])))
        else None;
      Some(SwimlaneView(headers, laneCounts))
  }
}
