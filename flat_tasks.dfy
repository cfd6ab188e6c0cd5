/** `generateFlatTaskList`: the deliverable tree flattened into export rows,
    each deliverable row followed by its subtask rows. The plan generator and
    the task consolidator carry the same loop; they differ only in the milestone
    of a subtask row (`ownMilestone`: the consolidator prefers the subtask's own
    milestone when it has one). */
module FlatTasks {
  import opened Common
  import opened PlanModel
  import opened Assignment

  /** `x || ''` for an optional string property. */
  function OrEmpty(o: Option<string>): string
  {
    if o.Some? then o.value else ""
  }

  /** The row of a deliverable: no parent, tagged as a deliverable. */
  function DeliverableToRow(d: Deliverable, team: seq<string>, roles: map<string, Role>): FlatTask
  {
    FlatTask(d.id, d.title, d.description, d.hours, d.priority, d.phase, OrEmpty(d.moduleName),
             d.milestone, DeliverableRow, "", AssignTask(d.phase, d.id, team, roles), d.isCustom)
  }

  /** The row of subtask `st` of deliverable `d`: its parent is `d`'s title. */
  function SubtaskToRow(d: Deliverable, st: Subtask, team: seq<string>, roles: map<string, Role>,
                        ownMilestone: bool): FlatTask
  {
    var moduleName := if st.moduleName.Some? && st.moduleName.value != "" then st.moduleName.value
                      else OrEmpty(d.moduleName);
    var milestone := if ownMilestone && st.milestone != "" then st.milestone else d.milestone;
    FlatTask(st.id, st.title, st.description, st.hours, st.priority, st.phase, moduleName,
             milestone, SubtaskRow, d.title, AssignTask(st.phase, st.id, team, roles), false)
  }

  function SubtaskRows(d: Deliverable, sts: seq<Subtask>, team: seq<string>, roles: map<string, Role>,
                       ownMilestone: bool): (rows: seq<FlatTask>)
    ensures |rows| == |sts|
  {
    if sts == [] then []
    else SubtaskRows(d, sts[..|sts| - 1], team, roles, ownMilestone)
         + [SubtaskToRow(d, sts[|sts| - 1], team, roles, ownMilestone)]
  }

  /** Row `j` of a subtask block is the row of subtask `j`. */
  lemma {:induction false} SubtaskRowsAt(d: Deliverable, sts: seq<Subtask>, team: seq<string>,
                                         roles: map<string, Role>, ownMilestone: bool, j: nat)
    requires j < |sts|
    ensures SubtaskRows(d, sts, team, roles, ownMilestone)[j] == SubtaskToRow(d, sts[j], team, roles, ownMilestone)
    decreases |sts|
  {
    if j < |sts| - 1 {
      SubtaskRowsAt(d, sts[..|sts| - 1], team, roles, ownMilestone, j);
    }
  }

  /** `acc` with the rows of `sts` pushed onto it one by one. */
  function PushSubtaskRows(acc: seq<FlatTask>, d: Deliverable, sts: seq<Subtask>, team: seq<string>,
                           roles: map<string, Role>, ownMilestone: bool): (r: seq<FlatTask>)
    ensures |r| == |acc| + |sts|
  {
    if sts == [] then acc
    else PushSubtaskRows(acc, d, sts[..|sts| - 1], team, roles, ownMilestone)
         + [SubtaskToRow(d, sts[|sts| - 1], team, roles, ownMilestone)]
  }

  /** The flat list, specified deliverable by deliverable: the rows so far, the
      deliverable's row, then its subtask rows. */
  function Flat(ds: seq<Deliverable>, team: seq<string>, roles: map<string, Role>, ownMilestone: bool): seq<FlatTask>
  {
    if ds == [] then []
    else
      var d := ds[|ds| - 1];
      PushSubtaskRows(Flat(ds[..|ds| - 1], team, roles, ownMilestone) + [DeliverableToRow(d, team, roles)],
                      d, d.subtasks, team, roles, ownMilestone)
  }

  /** The rows of one deliverable: its own row, then its subtask rows. */
  function Block(d: Deliverable, team: seq<string>, roles: map<string, Role>, ownMilestone: bool): seq<FlatTask>
  {
    [DeliverableToRow(d, team, roles)] + SubtaskRows(d, d.subtasks, team, roles, ownMilestone)
  }

  lemma {:induction false} PushSubtaskRowsIsAppend(acc: seq<FlatTask>, d: Deliverable, sts: seq<Subtask>,
                                                   team: seq<string>, roles: map<string, Role>, ownMilestone: bool)
    ensures PushSubtaskRows(acc, d, sts, team, roles, ownMilestone) == acc + SubtaskRows(d, sts, team, roles, ownMilestone)
    decreases |sts|
  {
    if sts != [] {
      PushSubtaskRowsIsAppend(acc, d, sts[..|sts| - 1], team, roles, ownMilestone);
    }
  }

  /** The flat list is the blocks of the deliverables, in order. */
  lemma FlatUnfold(ds: seq<Deliverable>, team: seq<string>, roles: map<string, Role>, ownMilestone: bool)
    requires ds != []
    ensures Flat(ds, team, roles, ownMilestone)
         == Flat(ds[..|ds| - 1], team, roles, ownMilestone) + Block(ds[|ds| - 1], team, roles, ownMilestone)
  {
    var d := ds[|ds| - 1];
    PushSubtaskRowsIsAppend(Flat(ds[..|ds| - 1], team, roles, ownMilestone) + [DeliverableToRow(d, team, roles)],
                            d, d.subtasks, team, roles, ownMilestone);
  }

  lemma FlatSingle(d: Deliverable, team: seq<string>, roles: map<string, Role>, ownMilestone: bool)
    ensures Flat([d], team, roles, ownMilestone) == Block(d, team, roles, ownMilestone)
  {
    assert [d][..0] == [];
    FlatUnfold([d], team, roles, ownMilestone);
  }

  method GenerateFlatTaskList(ds: seq<Deliverable>, team: seq<string>, roles: map<string, Role>,
                              ownMilestone: bool) returns (flat: seq<FlatTask>)
    ensures flat == Flat(ds, team, roles, ownMilestone)
  {
    flat := [];
    var i := 0;
    while i < |ds|
      invariant 0 <= i <= |ds|
      invariant flat == Flat(ds[..i], team, roles, ownMilestone)
    {
      var d := ds[i];
      flat := flat + [DeliverableToRow(d, team, roles)];
      ghost var before := flat;
      var j := 0;
      while j < |d.subtasks|
        invariant 0 <= j <= |d.subtasks|
        invariant flat == PushSubtaskRows(before, d, d.subtasks[..j], team, roles, ownMilestone)
      {
        assert d.subtasks[..j + 1][..j] == d.subtasks[..j];
        flat := flat + [SubtaskToRow(d, d.subtasks[j], team, roles, ownMilestone)];
        j := j + 1;
      }
      assert d.subtasks[..j] == d.subtasks;
      assert ds[..i + 1][..i] == ds[..i];
      i := i + 1;
    }
    assert ds[..i] == ds;
  }

  function RowIds(rows: seq<FlatTask>): (r: seq<int>)
    ensures |r| == |rows|
  {
    if rows == [] then [] else RowIds(rows[..|rows| - 1]) + [rows[|rows| - 1].id]
  }

  lemma {:induction false} RowIdsAt(rows: seq<FlatTask>, k: nat)
    requires k < |rows|
    ensures RowIds(rows)[k] == rows[k].id
    decreases |rows|
  {
    if k < |rows| - 1 {
      RowIdsAt(rows[..|rows| - 1], k);
    }
  }

  lemma {:induction false} RowIdsAppend(a: seq<FlatTask>, b: seq<FlatTask>)
    ensures RowIds(a + b) == RowIds(a) + RowIds(b)
    decreases |b|
  {
    if b == [] {
      assert a + b == a;
    } else {
      assert (a + b)[..|a + b| - 1] == a + b[..|b| - 1];
      RowIdsAppend(a, b[..|b| - 1]);
    }
  }

  lemma {:induction false} SubtaskRowIds(d: Deliverable, sts: seq<Subtask>, team: seq<string>,
                                         roles: map<string, Role>, ownMilestone: bool)
    ensures RowIds(SubtaskRows(d, sts, team, roles, ownMilestone)) == SubtaskIds(sts)
    decreases |sts|
  {
    if sts != [] {
      var init := sts[..|sts| - 1];
      SubtaskRowIds(d, init, team, roles, ownMilestone);
      RowIdsAppend(SubtaskRows(d, init, team, roles, ownMilestone),
                   [SubtaskToRow(d, sts[|sts| - 1], team, roles, ownMilestone)]);
      assert [SubtaskToRow(d, sts[|sts| - 1], team, roles, ownMilestone)][..0] == [];
    }
  }

  /** One row per deliverable and one per subtask. */
  lemma {:induction false} FlatLength(ds: seq<Deliverable>, team: seq<string>, roles: map<string, Role>, ownMilestone: bool)
    ensures |Flat(ds, team, roles, ownMilestone)| == |ds| + SubtaskCount(ds)
    decreases |ds|
  {
    if ds != [] {
      FlatLength(ds[..|ds| - 1], team, roles, ownMilestone);
    }
  }

  /** The rows carry the ids in generation order. */
  lemma {:induction false} FlatIds(ds: seq<Deliverable>, team: seq<string>, roles: map<string, Role>, ownMilestone: bool)
    ensures RowIds(Flat(ds, team, roles, ownMilestone)) == Ids(ds)
    decreases |ds|
  {
    if ds != [] {
      var init := ds[..|ds| - 1];
      var d := ds[|ds| - 1];
      var row := [DeliverableToRow(d, team, roles)];
      var sr := SubtaskRows(d, d.subtasks, team, roles, ownMilestone);
      FlatIds(init, team, roles, ownMilestone);
      FlatUnfold(ds, team, roles, ownMilestone);
      RowIdsAppend(Flat(init, team, roles, ownMilestone), row + sr);
      RowIdsAppend(row, sr);
      assert row[..0] == [];
      SubtaskRowIds(d, d.subtasks, team, roles, ownMilestone);
    }
  }

  /** Position of deliverable `k`'s row in the flat list. */
  function Offset(ds: seq<Deliverable>, k: nat): nat
    requires k <= |ds|
  {
    k + SubtaskCount(ds[..k])
  }

  /** Deliverable `k`'s row stands at `Offset(ds, k)`, with room after it for
      its subtask rows. */
  lemma {:induction false} FlatDeliverableRow(ds: seq<Deliverable>, team: seq<string>, roles: map<string, Role>,
                                              ownMilestone: bool, k: nat)
    requires k < |ds|
    ensures Offset(ds, k) + |ds[k].subtasks| < |Flat(ds, team, roles, ownMilestone)|
    ensures Flat(ds, team, roles, ownMilestone)[Offset(ds, k)] == DeliverableToRow(ds[k], team, roles)
    decreases |ds|
  {
    var init := ds[..|ds| - 1];
    var fi := Flat(init, team, roles, ownMilestone);
    FlatUnfold(ds, team, roles, ownMilestone);
    FlatLength(init, team, roles, ownMilestone);
    assert init[..k] == ds[..k];
    if k < |ds| - 1 {
      FlatDeliverableRow(init, team, roles, ownMilestone, k);
    } else {
      assert |fi| == Offset(ds, k);
    }
  }

  /** Subtask `j` of deliverable `k` has its row `j + 1` places after the
      deliverable's row. */
  lemma {:induction false} FlatSubtaskRow(ds: seq<Deliverable>, team: seq<string>, roles: map<string, Role>,
                                          ownMilestone: bool, k: nat, j: nat)
    requires k < |ds| && j < |ds[k].subtasks|
    ensures Offset(ds, k) + 1 + j < |Flat(ds, team, roles, ownMilestone)|
    ensures Flat(ds, team, roles, ownMilestone)[Offset(ds, k) + 1 + j]
         == SubtaskToRow(ds[k], ds[k].subtasks[j], team, roles, ownMilestone)
    decreases |ds|
  {
    var init := ds[..|ds| - 1];
    var fi := Flat(init, team, roles, ownMilestone);
    var blk := Block(ds[|ds| - 1], team, roles, ownMilestone);
    FlatUnfold(ds, team, roles, ownMilestone);
    FlatLength(init, team, roles, ownMilestone);
    assert init[..k] == ds[..k];
    if k < |ds| - 1 {
      FlatSubtaskRow(init, team, roles, ownMilestone, k, j);
    } else {
      assert |fi| == Offset(ds, k);
      assert Flat(ds, team, roles, ownMilestone)[|fi| + 1 + j] == blk[1 + j];
      SubtaskRowsAt(ds[k], ds[k].subtasks, team, roles, ownMilestone, j);
    }
  }

  /** Every subtask row's parent is the title of the deliverable row just
      before its block, and shares that deliverable's milestone in the plan
      generator's list. */
  lemma SubtaskRowLinks(ds: seq<Deliverable>, team: seq<string>, roles: map<string, Role>,
                        ownMilestone: bool, k: nat, j: nat)
    requires k < |ds| && j < |ds[k].subtasks|
    ensures Offset(ds, k) + 1 + j < |Flat(ds, team, roles, ownMilestone)|
    ensures var f := Flat(ds, team, roles, ownMilestone);
      && f[Offset(ds, k)].taskType == DeliverableRow
      && f[Offset(ds, k)].parentTask == ""
      && f[Offset(ds, k) + 1 + j].taskType == SubtaskRow
      && f[Offset(ds, k) + 1 + j].parentTask == f[Offset(ds, k)].title == ds[k].title
      && f[Offset(ds, k) + 1 + j].id == ds[k].subtasks[j].id
      && f[Offset(ds, k) + 1 + j].hours == ds[k].subtasks[j].hours
      && (!ownMilestone ==> f[Offset(ds, k) + 1 + j].milestone == ds[k].milestone)
  {
    FlatDeliverableRow(ds, team, roles, ownMilestone, k);
    FlatSubtaskRow(ds, team, roles, ownMilestone, k, j);
  }
}
