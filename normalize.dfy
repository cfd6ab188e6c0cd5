/** `normalizeSubtaskHours` of the task consolidator: a deliverable's subtask
    hours are rescaled so that they add up to the deliverable's own hours.
    Every subtask but the last is scaled by `target / currentTotal` and
    rounded; the last one takes whatever the rounded ones left of the target. */
module HourNormalization {
  import opened Common
  import opened PlanModel

  /** Each subtask's hours scaled by `target / total` and rounded, the other
      fields kept. */
  function Scaled(sts: seq<Subtask>, target: int, total: int): (r: seq<Subtask>)
    requires total != 0
    ensures |r| == |sts|
  {
    if sts == [] then []
    else
      var last := sts[|sts| - 1];
      Scaled(sts[..|sts| - 1], target, total) + [last.(hours := RoundQuotient(last.hours * target, total))]
  }

  /** The subtasks after normalisation towards `target`: unchanged when there
      are none or their hours add up to 0. */
  function Normalize(sts: seq<Subtask>, target: int): (r: seq<Subtask>)
    ensures |r| == |sts|
  {
    if sts == [] then sts
    else
      var total := SubtaskHours(sts);
      if total == 0 then sts
      else
        var front := Scaled(sts[..|sts| - 1], target, total);
        front + [sts[|sts| - 1].(hours := target - SubtaskHours(front))]
  }

  /** The deliverable with its subtask hours normalised; its own hours stay. */
  function Normalized(d: Deliverable): Deliverable
  {
    d.(subtasks := Normalize(d.subtasks, d.hours))
  }

  /** The in-place rewrite of the source: a running total of the rounded
      hours, and the remainder for the last subtask. */
  method NormalizeSubtaskHours(d: Deliverable) returns (r: Deliverable)
    ensures r == Normalized(d)
  {
    if |d.subtasks| == 0 {
      return d;
    }
    var currentTotal := SubtaskHours(d.subtasks);
    if currentTotal == 0 {
      return d;
    }
    var n := |d.subtasks|;
    var sts := d.subtasks;
    var runningTotal := 0;
    var i := 0;
    assert d.subtasks[..0] == [];
    while i < n
      invariant 0 <= i <= n && |sts| == n
      invariant i < n ==> sts == Scaled(d.subtasks[..i], d.hours, currentTotal) + d.subtasks[i..]
      invariant i < n ==> runningTotal == SubtaskHours(Scaled(d.subtasks[..i], d.hours, currentTotal))
      invariant i == n ==> sts == Normalize(d.subtasks, d.hours)
    {
      ghost var front := Scaled(d.subtasks[..i], d.hours, currentTotal);
      assert sts[i] == d.subtasks[i];
      if i == n - 1 {
        ghost var last := d.subtasks[i].(hours := d.hours - runningTotal);
        UpdateFirstOfRest(front, d.subtasks[i..], last);
        assert d.subtasks[i..][1..] == [];
        sts := sts[i := sts[i].(hours := d.hours - runningTotal)];
      } else {
        var h := RoundQuotient(sts[i].hours * d.hours, currentTotal);
        ScaledStep(d.subtasks, i, d.hours, currentTotal);
        UpdateFirstOfRest(front, d.subtasks[i..], d.subtasks[i].(hours := h));
        assert d.subtasks[i..][1..] == d.subtasks[i + 1..];
        sts := sts[i := sts[i].(hours := h)];
        runningTotal := runningTotal + h;
      }
      i := i + 1;
    }
    r := d.(subtasks := sts);
  }

  // ---------------------------------------------------------------------
  // What normalisation guarantees
  // ---------------------------------------------------------------------

  /** One more subtask scaled. */
  lemma ScaledStep(sts: seq<Subtask>, i: nat, target: int, total: int)
    requires total != 0 && i < |sts|
    ensures var x := sts[i].(hours := RoundQuotient(sts[i].hours * target, total));
            Scaled(sts[..i + 1], target, total) == Scaled(sts[..i], target, total) + [x]
            && SubtaskHours(Scaled(sts[..i + 1], target, total)) == SubtaskHours(Scaled(sts[..i], target, total)) + x.hours
  {
    assert sts[..i + 1][..i] == sts[..i];
    var f := Scaled(sts[..i], target, total);
    var x := sts[i].(hours := RoundQuotient(sts[i].hours * target, total));
    assert (f + [x])[..|f|] == f;
  }

  /** Replacing the first element after `front`. */
  lemma UpdateFirstOfRest<T>(front: seq<T>, rest: seq<T>, x: T)
    requires rest != []
    ensures (front + rest)[|front| := x] == front + [x] + rest[1..]
  {
  }

  lemma {:induction false} ScaledAt(sts: seq<Subtask>, target: int, total: int, k: nat)
    requires total != 0 && k < |sts|
    ensures Scaled(sts, target, total)[k] == sts[k].(hours := RoundQuotient(sts[k].hours * target, total))
    decreases |sts|
  {
    if k < |sts| - 1 {
      ScaledAt(sts[..|sts| - 1], target, total, k);
    }
  }

  /** Scaling by `total / total` changes nothing. */
  lemma {:induction false} ScaledByOne(sts: seq<Subtask>, total: int)
    requires total != 0
    ensures Scaled(sts, total, total) == sts
    decreases |sts|
  {
    if sts != [] {
      ScaledByOne(sts[..|sts| - 1], total);
      RoundQuotientExact(sts[|sts| - 1].hours, total);
      assert sts == sts[..|sts| - 1] + [sts[|sts| - 1]];
    }
  }

  /** With subtasks whose hours do not add up to 0, the normalised hours add
      up exactly to the target; otherwise the subtasks are left as they are. */
  lemma NormalizeSum(sts: seq<Subtask>, target: int)
    ensures SubtaskHours(sts) != 0 ==> SubtaskHours(Normalize(sts, target)) == target
    ensures sts == [] || SubtaskHours(sts) == 0 ==> Normalize(sts, target) == sts
  {
    if sts != [] && SubtaskHours(sts) != 0 {
      var front := Scaled(sts[..|sts| - 1], target, SubtaskHours(sts));
      var last := sts[|sts| - 1].(hours := target - SubtaskHours(front));
      SubtaskHoursAppend(front, [last]);
      assert [last][..0] == [];
    }
  }

  /** Normalisation touches only the hours: position by position, every other
      field, the id included, is the original subtask's. Every subtask but
      the last gets its scaled and rounded hours, the last the remainder. */
  lemma NormalizeAt(sts: seq<Subtask>, target: int, k: nat)
    requires k < |sts|
    ensures Normalize(sts, target)[k] == sts[k].(hours := Normalize(sts, target)[k].hours)
    ensures SubtaskHours(sts) != 0 && k < |sts| - 1
            ==> Normalize(sts, target)[k].hours == RoundQuotient(sts[k].hours * target, SubtaskHours(sts))
    ensures SubtaskHours(sts) != 0
            ==> Normalize(sts, target)[|sts| - 1].hours
                == target - SubtaskHours(Normalize(sts, target)[..|sts| - 1])
  {
    var total := SubtaskHours(sts);
    if total != 0 {
      var front := Scaled(sts[..|sts| - 1], target, total);
      var r := Normalize(sts, target);
      assert r[..|sts| - 1] == front;
      if k < |sts| - 1 {
        ScaledAt(sts[..|sts| - 1], target, total, k);
      }
    }
  }

  /** The ids of the subtasks are kept, in order. */
  lemma NormalizeIds(sts: seq<Subtask>, target: int)
    ensures SubtaskIds(Normalize(sts, target)) == SubtaskIds(sts)
  {
    var r := Normalize(sts, target);
    forall k | 0 <= k < |sts|
      ensures SubtaskIds(r)[k] == SubtaskIds(sts)[k]
    {
      NormalizeAt(sts, target, k);
    }
  }

  /** Normalising twice is normalising once. */
  lemma NormalizeIdempotent(sts: seq<Subtask>, target: int)
    ensures Normalize(Normalize(sts, target), target) == Normalize(sts, target)
  {
    var r := Normalize(sts, target);
    NormalizeSum(sts, target);
    if sts != [] && SubtaskHours(sts) != 0 && target != 0 {
      var front := r[..|r| - 1];
      assert front == Scaled(sts[..|sts| - 1], target, SubtaskHours(sts));
      ScaledByOne(front, target);
      assert r == front + [r[|r| - 1]];
    }
  }

  /** Nothing keeps the last subtask's remainder from going negative: four
      one-hour subtasks normalised towards two hours round to 1, 1 and 1
      (half an hour each, rounded up), and the last one is left with -1. */
  lemma NormalizeNegativeRemainder(st: Subtask)
    ensures var sts := [st.(hours := 1), st.(hours := 1), st.(hours := 1), st.(hours := 1)];
            Normalize(sts, 2)[3].hours == -1
  {
    var a := st.(hours := 1);
    var sts := [a, a, a, a];
    var one := a.(hours := RoundQuotient(2, 4));
    assert SubtaskHours(sts) == 4 by {
      SubtaskHours4(a, a, a, a);
    }
    assert RoundQuotient(2, 4) == 1;
    assert Scaled([a, a, a], 2, 4) == [one, one, one] by {
      assert [a][..0] == [];
      assert Scaled([a], 2, 4) == [one];
      assert [a, a][..1] == [a];
      assert Scaled([a, a], 2, 4) == [one, one];
      assert [a, a, a][..2] == [a, a];
    }
    assert SubtaskHours([one, one, one]) == 3 by {
      SubtaskHours3(one, one, one);
    }
    assert sts[..3] == [a, a, a];
  }
}
