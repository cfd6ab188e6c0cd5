/** The `module_hours` object of the responses: module names mapped to hours,
    kept as an association list in insertion order. A JavaScript object
    cannot hold a key twice, so every list the questionnaire builds has
    distinct keys. */
module ModuleHoursMap {
  import opened Common
  import opened PlanModel
  import PlanGenerator

  /** `module_hours[name]`; `None` when the key is missing. */
  function Lookup(es: seq<ModuleEntry>, name: string): Option<int>
  {
    if es == [] then None
    else if es[|es| - 1].name == name then Some(es[|es| - 1].hours)
    else Lookup(es[..|es| - 1], name)
  }

  /** The entries with the hours of `name` replaced. */
  function Replaced(es: seq<ModuleEntry>, name: string, hours: int): (r: seq<ModuleEntry>)
    ensures |r| == |es|
  {
    if es == [] then []
    else
      var e := es[|es| - 1];
      Replaced(es[..|es| - 1], name, hours) + [if e.name == name then ModuleEntry(name, hours) else e]
  }

  /** `{ ...es, [name]: hours }`: an existing key keeps its place, a new key
      comes last. */
  function Put(es: seq<ModuleEntry>, name: string, hours: int): seq<ModuleEntry>
  {
    if Lookup(es, name).Some? then Replaced(es, name, hours) else es + [ModuleEntry(name, hours)]
  }

  /** The object without the key `name`. */
  function Remove(es: seq<ModuleEntry>, name: string): seq<ModuleEntry>
  {
    if es == [] then []
    else
      var e := es[|es| - 1];
      Remove(es[..|es| - 1], name) + (if e.name == name then [] else [e])
  }

  /** The keys in insertion order. */
  function Keys(es: seq<ModuleEntry>): (r: seq<string>)
    ensures |r| == |es|
  {
    if es == [] then [] else Keys(es[..|es| - 1]) + [es[|es| - 1].name]
  }

  /** `selectedModules`: the keys whose hours are positive, in insertion
      order. */
  function Selected(es: seq<ModuleEntry>): seq<string>
  {
    if es == [] then []
    else Selected(es[..|es| - 1]) + (if es[|es| - 1].hours > 0 then [es[|es| - 1].name] else [])
  }

  /** `toggleModule`: a module with non-zero hours is removed, any other
      (missing or at 0) is set to 20 hours. */
  function Toggle(es: seq<ModuleEntry>, name: string): seq<ModuleEntry>
  {
    var h := Lookup(es, name);
    if h.Some? && h.value != 0 then Remove(es, name) else Put(es, name, 20)
  }

  // ---------------------------------------------------------------------
  // Lookups after an update
  // ---------------------------------------------------------------------

  /** A key is looked up exactly when it is one of the keys. */
  lemma {:induction false} LookupKeys(es: seq<ModuleEntry>, name: string)
    ensures Lookup(es, name).Some? <==> name in Keys(es)
    decreases |es|
  {
    if es != [] {
      LookupKeys(es[..|es| - 1], name);
    }
  }

  lemma {:induction false} ReplacedLookup(es: seq<ModuleEntry>, name: string, hours: int, m: string)
    ensures Lookup(Replaced(es, name, hours), m)
            == if m == name && Lookup(es, name).Some? then Some(hours) else Lookup(es, m)
    decreases |es|
  {
    if es != [] {
      ReplacedLookup(es[..|es| - 1], name, hours, m);
    }
  }

  lemma {:induction false} ReplacedKeys(es: seq<ModuleEntry>, name: string, hours: int)
    ensures Keys(Replaced(es, name, hours)) == Keys(es)
    decreases |es|
  {
    if es != [] {
      ReplacedKeys(es[..|es| - 1], name, hours);
    }
  }

  /** After `Put`, the key holds the new hours and every other key its old
      hours. */
  lemma PutLookup(es: seq<ModuleEntry>, name: string, hours: int, m: string)
    ensures Lookup(Put(es, name, hours), m) == if m == name then Some(hours) else Lookup(es, m)
  {
    if Lookup(es, name).Some? {
      ReplacedLookup(es, name, hours, m);
    } else {
      assert (es + [ModuleEntry(name, hours)])[..|es|] == es;
    }
  }

  /** `Put` keeps the key order and appends a new key. */
  lemma PutKeys(es: seq<ModuleEntry>, name: string, hours: int)
    ensures Keys(Put(es, name, hours)) == if name in Keys(es) then Keys(es) else Keys(es) + [name]
  {
    LookupKeys(es, name);
    if Lookup(es, name).Some? {
      ReplacedKeys(es, name, hours);
    } else {
      assert (es + [ModuleEntry(name, hours)])[..|es|] == es;
    }
  }

  /** After `Remove`, the key is missing and every other key keeps its
      hours. */
  lemma {:induction false} RemoveLookup(es: seq<ModuleEntry>, name: string, m: string)
    ensures Lookup(Remove(es, name), m) == if m == name then None else Lookup(es, m)
    decreases |es|
  {
    if es != [] {
      var front := es[..|es| - 1];
      var e := es[|es| - 1];
      RemoveLookup(front, name, m);
      if e.name != name {
        assert (Remove(front, name) + [e])[..|Remove(front, name)|] == Remove(front, name);
      } else {
        assert Remove(es, name) == Remove(front, name) + [] == Remove(front, name);
      }
    }
  }

  /** Removing a key that is missing changes nothing. */
  lemma {:induction false} RemoveAbsent(es: seq<ModuleEntry>, name: string)
    requires Lookup(es, name).None?
    ensures Remove(es, name) == es
    decreases |es|
  {
    if es != [] {
      RemoveAbsent(es[..|es| - 1], name);
      assert es == es[..|es| - 1] + [es[|es| - 1]];
    }
  }

  // ---------------------------------------------------------------------
  // Distinct keys are kept
  // ---------------------------------------------------------------------

  lemma {:induction false} KeysAt(es: seq<ModuleEntry>, i: nat)
    requires i < |es|
    ensures Keys(es)[i] == es[i].name
    decreases |es|
  {
    if i < |es| - 1 {
      KeysAt(es[..|es| - 1], i);
    }
  }

  /** Lists with the same key sequence have distinct keys together. */
  lemma SameKeysDistinct(a: seq<ModuleEntry>, b: seq<ModuleEntry>)
    requires Keys(a) == Keys(b) && DistinctKeys(a)
    ensures DistinctKeys(b)
  {
    forall i | 0 <= i < |b|
      ensures b[i].name == a[i].name
    {
      KeysAt(a, i);
      KeysAt(b, i);
    }
  }

  lemma PutDistinct(es: seq<ModuleEntry>, name: string, hours: int)
    requires DistinctKeys(es)
    ensures DistinctKeys(Put(es, name, hours))
  {
    LookupKeys(es, name);
    if Lookup(es, name).Some? {
      ReplacedKeys(es, name, hours);
      SameKeysDistinct(es, Replaced(es, name, hours));
    } else {
      var r := es + [ModuleEntry(name, hours)];
      forall i | 0 <= i < |es|
        ensures es[i].name != name
      {
        KeysAt(es, i);
      }
      assert forall i, j | 0 <= i < j < |r| :: r[i].name != r[j].name by {
        forall i, j | 0 <= i < j < |r|
          ensures r[i].name != r[j].name
        {
          if j < |es| {
            assert r[i] == es[i] && r[j] == es[j];
          }
        }
      }
    }
  }

  /** The names of `Remove(es, name)` are among those of `es`. */
  lemma {:induction false} RemoveSubsequence(es: seq<ModuleEntry>, name: string, k: nat)
    requires k < |Remove(es, name)|
    ensures exists i | 0 <= i < |es| :: Remove(es, name)[k] == es[i]
    decreases |es|
  {
    var front := es[..|es| - 1];
    var rf := Remove(front, name);
    if k < |rf| {
      RemoveSubsequence(front, name, k);
      var i :| 0 <= i < |front| && rf[k] == front[i];
      assert es[i] == front[i];
    } else {
      assert Remove(es, name)[k] == es[|es| - 1];
    }
  }

  lemma {:induction false} RemoveDistinct(es: seq<ModuleEntry>, name: string)
    requires DistinctKeys(es)
    ensures DistinctKeys(Remove(es, name))
    decreases |es|
  {
    if es != [] {
      var front := es[..|es| - 1];
      var e := es[|es| - 1];
      RemoveDistinct(front, name);
      if e.name != name {
        var rf := Remove(front, name);
        var r := rf + [e];
        forall k | 0 <= k < |rf|
          ensures rf[k].name != e.name
        {
          RemoveSubsequence(front, name, k);
        }
        forall i, j | 0 <= i < j < |r|
          ensures r[i].name != r[j].name
        {
          if j < |rf| {
            assert r[i] == rf[i] && r[j] == rf[j];
          }
        }
      } else {
        assert Remove(es, name) == Remove(front, name) + [];
      }
    }
  }

  /** Toggling keeps the keys distinct; it removes a module with non-zero
      hours and otherwise sets it to 20, leaving every other module as it was. */
  lemma ToggleFacts(es: seq<ModuleEntry>, name: string, m: string)
    requires DistinctKeys(es)
    ensures DistinctKeys(Toggle(es, name))
    ensures var h := Lookup(es, name);
            Lookup(Toggle(es, name), name) == if h.Some? && h.value != 0 then None else Some(20)
    ensures m != name ==> Lookup(Toggle(es, name), m) == Lookup(es, m)
  {
    var h := Lookup(es, name);
    if h.Some? && h.value != 0 {
      RemoveDistinct(es, name);
      RemoveLookup(es, name, name);
      RemoveLookup(es, name, m);
    } else {
      PutDistinct(es, name, 20);
      PutLookup(es, name, 20, name);
      PutLookup(es, name, 20, m);
    }
  }

  /** Toggling a module that is not in the map twice gives the map back. */
  lemma ToggleTwiceAbsent(es: seq<ModuleEntry>, name: string)
    requires Lookup(es, name).None?
    ensures Toggle(Toggle(es, name), name) == es
  {
    var t := es + [ModuleEntry(name, 20)];
    assert Toggle(es, name) == t;
    assert t[..|es|] == es;
    assert Lookup(t, name) == Some(20);
    RemoveAbsent(es, name);
    assert Remove(t, name) == Remove(es, name) + [];
  }

  // ---------------------------------------------------------------------
  // The selected modules
  // ---------------------------------------------------------------------

  /** With distinct keys, a module is selected exactly when its hours are
      positive. */
  lemma {:induction false} SelectedMembers(es: seq<ModuleEntry>, m: string)
    requires DistinctKeys(es)
    ensures m in Selected(es) <==> Lookup(es, m).Some? && Lookup(es, m).value > 0
    decreases |es|
  {
    if es != [] {
      var front := es[..|es| - 1];
      var e := es[|es| - 1];
      SelectedMembers(front, m);
      if e.name == m {
        LookupKeys(front, m);
        forall i | 0 <= i < |front|
          ensures Keys(front)[i] != m
        {
          KeysAt(front, i);
          assert front[i] == es[i];
        }
      }
    }
  }

  /** The selected modules are the names of the entries with positive hours,
      the ones the plan generator turns into work packages. */
  lemma {:induction false} SelectedArePositive(es: seq<ModuleEntry>)
    ensures Selected(es) == Keys(PlanGenerator.PositiveEntries(es))
    decreases |es|
  {
    if es != [] {
      var front := es[..|es| - 1];
      var e := es[|es| - 1];
      SelectedArePositive(front);
      var pf := PlanGenerator.PositiveEntries(front);
      if e.hours > 0 {
        assert (pf + [e])[..|pf|] == pf;
      } else {
        assert pf + [] == pf;
      }
    }
  }
}
