/**
 * The three ordered correction rules that `updateFilters` runs on a
 * DISPLAY_FILTERS update. Both stores carry identical copies of them. Each
 * rule tests the merged display-filter record and, when it fires, writes the
 * same key and value into the merged record AND into the caller's update
 * object, so that the corrections are committed along with the update's own
 * keys. The three rules are independent `if`s, run in a fixed order.
 */
module DisplayFilterRules {
  import opened JsObject

  const GroupBy := "group_by"
  const SubGroupBy := "sub_group_by"
  const Layout := "layout"
  const Kanban := Str("kanban")
  /** The grouping forced onto a kanban board that has none. */
  const DefaultGroupBy := Str("state")

  /**
   * The two objects the rules correct: `merged` is the stored record spread
   * with the update (`_filters.displayFilters`), `update` is the caller's own
   * update object (`updatedDisplayFilters`).
   */
  datatype Draft = Draft(merged: Rec, update: Rec)

  /** Writes `key := v` into both objects, as every rule does. */
  function SetBoth(d: Draft, key: string, v: Value): Draft
  {
    Draft(d.merged[key := v], d.update[key := v])
  }

  predicate IsKanban(r: Rec)
  {
    Get(r, Layout) == Kanban
  }

  /** Rule 1: a null `group_by` clears `sub_group_by`. */
  function ClearSubGroupWithoutGroup(d: Draft): Draft
  {
    if Get(d.merged, GroupBy) == Null then SetBoth(d, SubGroupBy, Null) else d
  }

  /**
   * Rule 2: on kanban, a `sub_group_by` strictly equal to `group_by` is
   * cleared. Two missing keys are equal here (`undefined === undefined`).
   */
  function ClearSubGroupEqualToGroup(d: Draft): Draft
  {
    if IsKanban(d.merged) && Get(d.merged, GroupBy) == Get(d.merged, SubGroupBy)
    then SetBoth(d, SubGroupBy, Null)
    else d
  }

  /** Rule 3: on kanban, a null `group_by` becomes "state". */
  function DefaultKanbanGroup(d: Draft): Draft
  {
    if IsKanban(d.merged) && Get(d.merged, GroupBy) == Null then SetBoth(d, GroupBy, DefaultGroupBy) else d
  }

  /**
   * The three rules in their source order. Afterwards the merged record keeps
   * the display-filter invariants: no sub-grouping without a grouping, and a
   * kanban board is grouped and never sub-grouped by its own grouping. Only
   * `group_by` and `sub_group_by` are ever written, the layout is never
   * touched, and the update object only gains keys.
   */
  function ApplyRules(d: Draft): (r: Draft)
    ensures Get(r.merged, GroupBy) == Null ==> Get(r.merged, SubGroupBy) == Null
    ensures IsKanban(r.merged) ==> Get(r.merged, GroupBy) != Null
    ensures IsKanban(r.merged) ==>
              Get(r.merged, SubGroupBy) == Null || Get(r.merged, SubGroupBy) != Get(r.merged, GroupBy)
    ensures IsKanban(d.merged) && Get(d.merged, GroupBy) == Null ==>
              Get(r.merged, GroupBy) == DefaultGroupBy && Get(r.merged, SubGroupBy) == Null
    ensures Get(d.merged, GroupBy) != Null ==> Get(r.merged, GroupBy) == Get(d.merged, GroupBy)
    ensures IsKanban(r.merged) == IsKanban(d.merged)
    ensures r.merged - {GroupBy, SubGroupBy} == d.merged - {GroupBy, SubGroupBy}
    ensures r.update - {GroupBy, SubGroupBy} == d.update - {GroupBy, SubGroupBy}
    ensures d.update.Keys <= r.update.Keys <= d.update.Keys + {GroupBy, SubGroupBy}
    ensures Get(r.merged, SubGroupBy) ==
              if Get(d.merged, GroupBy) == Null || (IsKanban(d.merged) && Get(d.merged, GroupBy) == Get(d.merged, SubGroupBy))
              then Null else Get(d.merged, SubGroupBy)
    ensures Get(r.merged, GroupBy) ==
              if IsKanban(d.merged) && Get(d.merged, GroupBy) == Null then DefaultGroupBy else Get(d.merged, GroupBy)
    ensures Get(d.merged, GroupBy) != Null && !(IsKanban(d.merged) && Get(d.merged, GroupBy) == Get(d.merged, SubGroupBy)) ==>
              r == d
  {
    DefaultKanbanGroup(ClearSubGroupEqualToGroup(ClearSubGroupWithoutGroup(d)))
  }

  /**
   * Because every rule writes the same key and value into both objects, the
   * corrected update spread over the record it was merged onto gives exactly
   * the corrected merged record: committing the corrected update key by key
   * onto that record stores what is sent for persistence.
   */
  lemma RulesKeepMergeBase(base: Rec, d: Draft)
    requires base + d.update == d.merged
    ensures base + ApplyRules(d).update == ApplyRules(d).merged
  {
  }

  /**
   * The transition the rules were written for: a list board without a
   * grouping switched to kanban ends grouped by state and not sub-grouped.
   */
  lemma SwitchToKanbanGroupsByState()
    ensures var stored: Rec := map[Layout := Str("list"), GroupBy := Null];
            var update: Rec := map[Layout := Kanban];
            var r := ApplyRules(Draft(stored + update, update));
            && Get(r.merged, Layout) == Kanban
            && Get(r.merged, GroupBy) == DefaultGroupBy
            && Get(r.merged, SubGroupBy) == Null
            && r.update == map[Layout := Kanban, GroupBy := DefaultGroupBy, SubGroupBy := Null]
  {
  }

  /**
   * A kanban board grouped by priority and sub-grouped by state, regrouped by
   * state: the sub-grouping equal to the new grouping is cleared.
   */
  lemma RegroupOntoSubGroupClearsIt()
    ensures var stored: Rec := map[GroupBy := Str("priority"), SubGroupBy := Str("state"), Layout := Kanban];
            var update: Rec := map[GroupBy := Str("state")];
            var r := ApplyRules(Draft(stored + update, update));
            && Get(r.merged, GroupBy) == Str("state")
            && Get(r.merged, SubGroupBy) == Null
            && r.update == map[GroupBy := Str("state"), SubGroupBy := Null]
  {
  }
}
