/**
 What a development cost, grouped (slipwright/costs.py): the calls of its log added up row by
 row. Costs are in micro-dollars; what a call cost at today's prices is part of the entry.
 */
module Costs {
  import opened Wrappers

  /** A call of the log: `onPlan` when a subscription paid for it, `cost` None when there is no price. */
  datatype Entry = Entry(phase: nat, state: nat, role: Option<nat>, timedOut: nat, input: nat, output: nat, onPlan: bool, cost: Option<nat>)

  /** Under which name a call is added up: its phase, or the state it was made in. */
  datatype Name = OfPhase(phase: nat) | OfState(state: nat)

  datatype Spend = Spend(calls: nat, timedOut: nat, input: nat, output: nat, onPlan: nat, unpriced: nat, cost: nat)

  const NOTHING := Spend(0, 0, 0, 0, 0, 0, 0)

  function Plus(a: Spend, b: Spend): Spend
  {
    Spend(a.calls + b.calls, a.timedOut + b.timedOut, a.input + b.input, a.output + b.output,
          a.onPlan + b.onPlan, a.unpriced + b.unpriced, a.cost + b.cost)
  }

  /** What one call adds to a row. */
  function Single(e: Entry): Spend
  {
    Spend(1, e.timedOut, e.input, e.output, if e.onPlan then 1 else 0,
          if !e.onPlan && e.cost.None? then 1 else 0, if !e.onPlan && e.cost.Some? then e.cost.value else 0)
  }

  /** All the calls together. */
  function Total(entries: seq<Entry>): Spend
  {
    if entries == [] then NOTHING else Plus(Total(entries[..|entries| - 1]), Single(entries[|entries| - 1]))
  }

  function Sum(f: Entry -> nat, entries: seq<Entry>): nat
  {
    if entries == [] then 0 else Sum(f, entries[..|entries| - 1]) + f(entries[|entries| - 1])
  }

  /** What all the calls together come to, figure by figure: what a subscription paid for has no
      cost, and what has no price is counted instead. */
  lemma {:induction false} TotalIs(entries: seq<Entry>)
    ensures var t := Total(entries);
      && t.calls == |entries| && t.timedOut == Sum((e: Entry) => e.timedOut, entries)
      && t.input == Sum((e: Entry) => e.input, entries) && t.output == Sum((e: Entry) => e.output, entries)
      && t.onPlan == Sum((e: Entry) => if e.onPlan then 1 else 0, entries)
      && t.unpriced == Sum((e: Entry) => if !e.onPlan && e.cost.None? then 1 else 0, entries)
      && t.cost == Sum((e: Entry) => if e.onPlan then 0 else OrZero(e.cost), entries)
  {
    if entries != [] {
      TotalIs(entries[..|entries| - 1]);
    }
  }

  /** The name a call goes under; None leaves it out. */
  type Naming = Entry -> Option<Name>

  /** A row of a table. */
  datatype Row = Row(name: Name, spend: Spend)

  ghost predicate Distinct(rows: seq<Row>)
  {
    forall i, j :: 0 <= i < j < |rows| ==> rows[i].name != rows[j].name
  }

  function TotalOf(rows: seq<Row>): Spend
  {
    if rows == [] then NOTHING else Plus(TotalOf(rows[..|rows| - 1]), rows[|rows| - 1].spend)
  }

  /** The calls under one name. */
  function Under(entries: seq<Entry>, naming: Naming, name: Name): seq<Entry>
  {
    if entries == [] then []
    else
      var last := entries[|entries| - 1];
      Under(entries[..|entries| - 1], naming, name) + if naming(last) == Some(name) then [last] else []
  }

  /** The calls under any name. */
  function Named(entries: seq<Entry>, naming: Naming): seq<Entry>
  {
    if entries == [] then []
    else
      var last := entries[|entries| - 1];
      Named(entries[..|entries| - 1], naming) + if naming(last).Some? then [last] else []
  }

  // -- the loop -------------------------------------------------------------------------

  /** Where the row of a name is: past the end when there is none. */
  method Find(rows: seq<Row>, name: Name) returns (i: nat)
    ensures i <= |rows|
    ensures i < |rows| ==> rows[i].name == name
    ensures i == |rows| ==> forall k :: 0 <= k < |rows| ==> rows[k].name != name
  {
    i := 0;
    while i < |rows| && rows[i].name != name
      invariant i <= |rows| && forall k :: 0 <= k < i ==> rows[k].name != name
    {
      i := i + 1;
    }
  }

  /** A row has all the calls under its name added up, and there are some. */
  ghost predicate RowRight(row: Row, entries: seq<Entry>, naming: Naming)
  {
    row.spend == Total(Under(entries, naming, row.name)) && Under(entries, naming, row.name) != []
  }

  ghost predicate HasRow(rows: seq<Row>, name: Name)
  {
    exists i :: 0 <= i < |rows| && rows[i].name == name
  }

  /** The table of some calls: one row for each name there is, with its calls added up. */
  ghost predicate Grouped(rows: seq<Row>, entries: seq<Entry>, naming: Naming)
  {
    && Distinct(rows)
    && (forall i :: 0 <= i < |rows| ==> RowRight(rows[i], entries, naming))
    && (forall k :: 0 <= k < |entries| && naming(entries[k]).Some? ==> HasRow(rows, naming(entries[k]).value))
  }

  /** `_group` and `_by_phase`. */
  method Group(entries: seq<Entry>, naming: Naming) returns (rows: seq<Row>)
    ensures Grouped(rows, entries, naming)
    ensures TotalOf(rows) == Total(Named(entries, naming))
  {
    rows := [];
    for n := 0 to |entries|
      invariant Grouped(rows, entries[..n], naming)
      invariant TotalOf(rows) == Total(Named(entries[..n], naming))
    {
      assert entries[..n + 1] == entries[..n] + [entries[n]];
      rows := AddTo(rows, entries[..n], entries[n], naming);
    }
    assert entries[..|entries|] == entries;
  }

  /** `_add`, to the row of the call's name, which is made when it is not there. */
  method AddTo(before: seq<Row>, ghost seen: seq<Entry>, e: Entry, naming: Naming) returns (rows: seq<Row>)
    requires Grouped(before, seen, naming) && TotalOf(before) == Total(Named(seen, naming))
    ensures Grouped(rows, seen + [e], naming) && TotalOf(rows) == Total(Named(seen + [e], naming))
  {
    NamedOneMore(seen, e, naming);
    var name := naming(e);
    if name.None? {
      LeftOutGrouped(before, seen, e, naming);
      return before;
    }
    var i := Find(before, name.value);
    if i < |before| {
      rows := before[i := Row(name.value, Plus(before[i].spend, Single(e)))];
      TotalChanged(before, i, Single(e));
      AddedGrouped(before, seen, e, naming, i);
    } else {
      rows := before + [Row(name.value, Single(e))];
      assert rows[..|rows| - 1] == before;
      NewGrouped(before, seen, e, naming);
    }
  }

  lemma {:induction false} TotalOneMore(s: seq<Entry>, e: Entry)
    ensures Total(s + [e]) == Plus(Total(s), Single(e))
  {
    assert (s + [e])[..|s|] == s;
  }

  lemma {:induction false} NamedOneMore(seen: seq<Entry>, e: Entry, naming: Naming)
    ensures Total(Named(seen + [e], naming)) == if naming(e).Some? then Plus(Total(Named(seen, naming)), Single(e)) else Total(Named(seen, naming))
  {
    assert (seen + [e])[..|seen|] == seen;
    assert Named(seen + [e], naming) == Named(seen, naming) + if naming(e).Some? then [e] else [];
    assert Named(seen, naming) + [] == Named(seen, naming);
    TotalOneMore(Named(seen, naming), e);
  }

  lemma {:induction false} UnderOneMore(seen: seq<Entry>, e: Entry, naming: Naming, name: Name)
    ensures Under(seen + [e], naming, name) == if naming(e) == Some(name) then Under(seen, naming, name) + [e] else Under(seen, naming, name)
    ensures naming(e) == Some(name) ==> Total(Under(seen + [e], naming, name)) == Plus(Total(Under(seen, naming, name)), Single(e))
  {
    assert (seen + [e])[..|seen|] == seen;
    TotalOneMore(Under(seen, naming, name), e);
  }

  lemma {:induction false} NotSeen(seen: seq<Entry>, naming: Naming, name: Name)
    requires forall k :: 0 <= k < |seen| ==> naming(seen[k]) != Some(name)
    ensures Under(seen, naming, name) == []
  {
    if seen != [] {
      NotSeen(seen[..|seen| - 1], naming, name);
    }
  }

  /** Rows that are not the call's stay right. */
  lemma {:induction false} OthersRight(row: Row, seen: seq<Entry>, e: Entry, naming: Naming)
    requires RowRight(row, seen, naming) && naming(e) != Some(row.name)
    ensures RowRight(row, seen + [e], naming)
  {
    UnderOneMore(seen, e, naming, row.name);
  }

  lemma {:induction false} LeftOutGrouped(rows: seq<Row>, seen: seq<Entry>, e: Entry, naming: Naming)
    requires Grouped(rows, seen, naming) && naming(e).None?
    ensures Grouped(rows, seen + [e], naming)
  {
    forall k | 0 <= k < |rows| ensures RowRight(rows[k], seen + [e], naming) {
      OthersRight(rows[k], seen, e, naming);
    }
  }

  lemma {:induction false} AddedGrouped(before: seq<Row>, seen: seq<Entry>, e: Entry, naming: Naming, i: nat)
    requires Grouped(before, seen, naming) && i < |before| && naming(e) == Some(before[i].name)
    ensures Grouped(before[i := Row(before[i].name, Plus(before[i].spend, Single(e)))], seen + [e], naming)
  {
    var rows := before[i := Row(before[i].name, Plus(before[i].spend, Single(e)))];
    forall k | 0 <= k < |rows| ensures RowRight(rows[k], seen + [e], naming) {
      if k == i {
        UnderOneMore(seen, e, naming, before[i].name);
      } else {
        OthersRight(before[k], seen, e, naming);
      }
    }
    forall k | 0 <= k < |seen + [e]| && naming((seen + [e])[k]).Some? ensures HasRow(rows, naming((seen + [e])[k]).value) {
      if k < |seen| {
        var h :| 0 <= h < |before| && before[h].name == naming(seen[k]).value;
        assert rows[h].name == before[h].name;
      } else {
        assert rows[i].name == naming(e).value;
      }
    }
  }

  lemma {:induction false} NewGrouped(before: seq<Row>, seen: seq<Entry>, e: Entry, naming: Naming)
    requires Grouped(before, seen, naming) && naming(e).Some? && forall k :: 0 <= k < |before| ==> before[k].name != naming(e).value
    ensures Grouped(before + [Row(naming(e).value, Single(e))], seen + [e], naming)
  {
    var rows := before + [Row(naming(e).value, Single(e))];
    NotSeen(seen, naming, naming(e).value);
    UnderOneMore(seen, e, naming, naming(e).value);
    forall k | 0 <= k < |before| ensures RowRight(before[k], seen + [e], naming) {
      OthersRight(before[k], seen, e, naming);
    }
    forall k | 0 <= k < |seen + [e]| && naming((seen + [e])[k]).Some? ensures HasRow(rows, naming((seen + [e])[k]).value) {
      if k < |seen| {
        var h :| 0 <= h < |before| && before[h].name == naming(seen[k]).value;
        assert rows[h].name == before[h].name;
      } else {
        assert rows[|before|].name == naming(e).value;
      }
    }
  }

  lemma {:induction false} TotalChanged(rows: seq<Row>, i: nat, more: Spend)
    requires i < |rows|
    ensures TotalOf(rows[i := Row(rows[i].name, Plus(rows[i].spend, more))]) == Plus(TotalOf(rows), more)
    decreases |rows|
  {
    var changed := rows[i := Row(rows[i].name, Plus(rows[i].spend, more))];
    if i == |rows| - 1 {
      assert changed[..i] == rows[..i];
    } else {
      TotalChanged(rows[..|rows| - 1], i, more);
      assert changed[..|rows| - 1] == rows[..|rows| - 1][i := changed[i]];
    }
  }

  // -- the tables -----------------------------------------------------------------------

  /** `_by_phase` drops nothing: a call outside a phase goes under the state it was made in. */
  function PhaseName(e: Entry): Option<Name>
  {
    Some(if 0 < e.phase then OfPhase(e.phase) else OfState(e.state))
  }

  /** `_group` by role: a call without one goes nowhere. */
  function RoleName(e: Entry): Option<Name>
  {
    if e.role.Some? then Some(OfState(e.role.value)) else None
  }

  lemma {:induction false} AllNamed(entries: seq<Entry>, naming: Naming)
    ensures Named(entries, naming) == entries <==> forall i :: 0 <= i < |entries| ==> naming(entries[i]).Some?
    ensures |Named(entries, naming)| <= |entries|
    decreases |entries|
  {
    if entries != [] {
      var rest, last := entries[..|entries| - 1], entries[|entries| - 1];
      AllNamed(rest, naming);
      assert entries == rest + [last];
      assert forall i :: 0 <= i < |entries| ==> entries[i] == if i < |rest| then rest[i] else last;
    }
  }

  /** The rows by phase add up to the job's own totals: nothing is dropped and nothing counted twice. */
  method ByPhase(entries: seq<Entry>) returns (rows: seq<Row>)
    ensures Grouped(rows, entries, PhaseName)
    ensures forall k :: 0 <= k < |entries| ==>
      HasRow(rows, if entries[k].phase == 0 then OfState(entries[k].state) else OfPhase(entries[k].phase))
    ensures TotalOf(rows) == Total(entries)
  {
    rows := Group(entries, PhaseName);
    AllNamed(entries, PhaseName);
  }

  /** The calls that have a role. */
  function WithRole(entries: seq<Entry>): seq<Entry>
  {
    if entries == [] then []
    else
      var last := entries[|entries| - 1];
      WithRole(entries[..|entries| - 1]) + if last.role.Some? then [last] else []
  }

  lemma {:induction false} NamedWithRole(entries: seq<Entry>)
    ensures Named(entries, RoleName) == WithRole(entries)
  {
    if entries != [] {
      NamedWithRole(entries[..|entries| - 1]);
    }
  }

  /** The rows by role: a call without a role is in none of them, and nothing else is missing. */
  method ByRole(entries: seq<Entry>) returns (rows: seq<Row>)
    ensures Grouped(rows, entries, RoleName)
    ensures forall k :: 0 <= k < |entries| && entries[k].role.Some? ==> HasRow(rows, OfState(entries[k].role.value))
    ensures TotalOf(rows) == Total(WithRole(entries))
  {
    rows := Group(entries, RoleName);
    NamedWithRole(entries);
  }

  /** A table of another kind counts every call exactly when every call has a name in it. */
  lemma {:induction false} CountsAllExactly(entries: seq<Entry>, naming: Naming)
    ensures Total(Named(entries, naming)).calls == |entries| <==> forall i :: 0 <= i < |entries| ==> naming(entries[i]).Some?
  {
    AllNamed(entries, naming);
    TotalIs(Named(entries, naming));
    SameLength(entries, naming);
  }

  lemma {:induction false} SameLength(entries: seq<Entry>, naming: Naming)
    ensures |Named(entries, naming)| == |entries| ==> Named(entries, naming) == entries
    decreases |entries|
  {
    if entries != [] {
      var rest, last := entries[..|entries| - 1], entries[|entries| - 1];
      AllNamed(rest, naming);
      SameLength(rest, naming);
      assert entries == rest + [last];
    }
  }

  /** `job_cost`'s own figures, each counted apart; a development from before its calls were
      logged still has the total it `stored`. */
  method JobCost(entries: seq<Entry>, stored: nat) returns (spent: nat, unpriced: nat, onPlan: nat)
    ensures var t := Total(entries);
      spent == (if entries == [] then stored else t.cost) && unpriced == t.unpriced && onPlan == t.onPlan
  {
    spent, unpriced, onPlan := 0, 0, 0;
    for n := 0 to |entries|
      invariant var t := Total(entries[..n]); spent == t.cost && unpriced == t.unpriced && onPlan == t.onPlan
    {
      assert entries[..n + 1][..n] == entries[..n];
      if entries[n].onPlan {
        onPlan := onPlan + 1;
      } else if entries[n].cost.None? {
        unpriced := unpriced + 1;
      } else {
        spent := spent + entries[n].cost.value;
      }
    }
    assert entries[..|entries|] == entries;
    if entries == [] {
      spent := stored;
    }
  }
}
