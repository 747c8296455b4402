/** The keyed list diff of the view (plugins/archive_ui/qml/Main.qml, syncListModel): rows are folded into a
    list model in place; changed roles are set one by one, new rows appended, vanished rows removed. */
module ListModelSync {
  import opened Basics

  datatype Value = Text(text: string) | Number(number: int) | Flag(flag: bool)

  type Row = map<string, Value>

  // The value that names a row; None is a row without it.
  function KeyOf(row: Row, key: string): Option<Value> {
    if key in row then Some(row[key]) else None
  }

  function KeysOf(rows: seq<Row>, key: string): set<Option<Value>> {
    set i | 0 <= i < |rows| :: KeyOf(rows[i], key)
  }

  predicate DistinctKeys(rows: seq<Row>, key: string) {
    forall i, j | 0 <= i < j < |rows| :: KeyOf(rows[i], key) != KeyOf(rows[j], key)
  }

  // ----- what the three loops compute -----

  // The last element with this key, which is the one the index of the first loop remembers.
  function LastWith(rows: seq<Row>, key: string, k: Option<Value>): (r: Option<nat>)
    ensures r.Some? ==> r.value < |rows| && KeyOf(rows[r.value], key) == k
    ensures r.None? <==> forall i | 0 <= i < |rows| :: KeyOf(rows[i], key) != k
  {
    if rows == [] then None
    else if KeyOf(rows[|rows| - 1], key) == k then Some(|rows| - 1)
    else LastWith(rows[..|rows| - 1], key, k)
  }

  function Differing(cur: Row, row: Row): set<string> {
    set role | role in row && (role !in cur || cur[role] != row[role])
  }

  // The list after the first rows are folded in; `start` is the list the index was made of.
  function Merged(start: seq<Row>, rows: seq<Row>, key: string): (r: seq<Row>)
    ensures |start| <= |r|
  {
    if rows == [] then start
    else
      var before, row := Merged(start, rows[..|rows| - 1], key), rows[|rows| - 1];
      match LastWith(start, key, KeyOf(row, key))
      case None => before + [row]
      case Some(i) => before[i := before[i] + row]
  }

  function MergeChanges(start: seq<Row>, rows: seq<Row>, key: string): nat {
    if rows == [] then 0
    else
      var before, row := Merged(start, rows[..|rows| - 1], key), rows[|rows| - 1];
      MergeChanges(start, rows[..|rows| - 1], key) +
      match LastWith(start, key, KeyOf(row, key))
      case None => 1
      case Some(i) => |Differing(before[i], row)|
  }

  function Kept(items: seq<Row>, seen: set<Option<Value>>, key: string): (r: seq<Row>)
    ensures |r| <= |items|
  {
    if items == [] then []
    else
      (if KeyOf(items[0], key) in seen then [items[0]] else []) + Kept(items[1..], seen, key)
  }

  function Synced(start: seq<Row>, rows: seq<Row>, key: string): seq<Row> {
    Kept(Merged(start, rows, key), KeysOf(rows, key), key)
  }

  // The mutations a sync performs: roles set, rows appended, rows removed.
  function Changes(start: seq<Row>, rows: seq<Row>, key: string): nat {
    MergeChanges(start, rows, key) + |Merged(start, rows, key)| - |Synced(start, rows, key)|
  }

  // ----- the program -----

  class ListModel {
    var items: seq<Row>
    var changes: nat

    constructor ()
      ensures items == [] && changes == 0
    {
      items, changes := [], 0;
    }

    method Append(row: Row)
      modifies this
      ensures items == old(items) + [row] && changes == old(changes) + 1
    {
      items := items + [row];
      changes := changes + 1;
    }

    method SetProperty(i: nat, role: string, value: Value)
      requires i < |items|
      modifies this
      ensures items == old(items)[i := old(items)[i][role := value]] && changes == old(changes) + 1
    {
      items := items[i := items[i][role := value]];
      changes := changes + 1;
    }

    method Remove(i: nat)
      requires i < |items|
      modifies this
      ensures items == old(items)[..i] + old(items)[i + 1..] && changes == old(changes) + 1
    {
      items := items[..i] + items[i + 1..];
      changes := changes + 1;
    }
  }

  method IndexByKey(model: ListModel, key: string) returns (have: map<Option<Value>, nat>)
    ensures forall k :: k in have <==> LastWith(model.items, key, k).Some?
    ensures forall k | k in have :: LastWith(model.items, key, k) == Some(have[k])
  {
    have := map[];
    for i := 0 to |model.items|
      invariant forall k :: k in have <==> LastWith(model.items[..i], key, k).Some?
      invariant forall k | k in have :: LastWith(model.items[..i], key, k) == Some(have[k])
    {
      assert model.items[..i + 1][..i] == model.items[..i];
      have := have[KeyOf(model.items[i], key) := i];
    }
    assert model.items[..|model.items|] == model.items;
  }

  // Sets the roles of one element that differ from the row.
  method UpdateRoles(model: ListModel, i: nat, row: Row)
    requires i < |model.items|
    modifies model
    ensures model.items == old(model.items)[i := old(model.items)[i] + row]
    ensures model.changes == old(model.changes) + |Differing(old(model.items)[i], row)|
  {
    hide Patch, Differing;
    var todo := row.Keys;
    ghost var start, cur, done := model.items, model.items[i], {};
    PatchNone(cur, row);
    while todo != {}
      invariant done + todo == row.Keys && done !! todo
      invariant |model.items| == |start| && model.items == start[i := Patch(cur, row, done)]
      invariant model.changes == old(model.changes) + |Differing(cur, row) * done|
      decreases |todo|
    {
      var role :| role in todo;
      PatchOneMore(cur, row, done, role);
      if role !in model.items[i] || model.items[i][role] != row[role] {
        model.SetProperty(i, role, row[role]);
      }
      todo, done := todo - {role}, done + {role};
    }
    assert done == row.Keys;
    PatchAll(cur, row);
  }

  lemma PatchNone(cur: Row, row: Row)
    ensures Patch(cur, row, {}) == cur && |Differing(cur, row) * {}| == 0
  {
  }

  lemma PatchAll(cur: Row, row: Row)
    ensures Patch(cur, row, row.Keys) == cur + row
    ensures Differing(cur, row) * row.Keys == Differing(cur, row)
  {
  }

  // `cur` with the given roles taken from the row.
  function Patch(cur: Row, row: Row, roles: set<string>): Row
    requires roles <= row.Keys
  {
    cur + map role | role in roles :: row[role]
  }

  lemma PatchOneMore(cur: Row, row: Row, roles: set<string>, role: string)
    requires roles <= row.Keys && role in row && role !in roles
    ensures var p := Patch(cur, row, roles);
            && Patch(cur, row, roles + {role}) == p[role := row[role]]
            && (role in p && p[role] == row[role] ==> Patch(cur, row, roles + {role}) == p)
            && (role in Differing(cur, row) <==> role !in p || p[role] != row[role])
            && |Differing(cur, row) * (roles + {role})| ==
               |Differing(cur, row) * roles| + if role in Differing(cur, row) then 1 else 0
  {
    var d := Differing(cur, row);
    if role in d {
      assert d * (roles + {role}) == d * roles + {role};
    } else {
      assert d * (roles + {role}) == d * roles;
    }
  }

  method RemoveUnseen(model: ListModel, seen: set<Option<Value>>, key: string)
    modifies model
    ensures model.items == Kept(old(model.items), seen, key)
    ensures model.changes == old(model.changes) + |old(model.items)| - |Kept(old(model.items), seen, key)|
  {
    ghost var all := model.items;
    for j := |model.items| downto 0
      invariant |all| >= j && model.items == all[..j] + Kept(all[j..], seen, key)
      invariant model.changes == old(model.changes) + |all| - j - |Kept(all[j..], seen, key)|
    {
      assert all[j..] == [all[j]] + all[j + 1..];
      assert all[..j + 1] == all[..j] + [all[j]];
      if KeyOf(model.items[j], key) !in seen {
        model.Remove(j);
      }
    }
    assert all[0..] == all;
  }

  method SyncListModel(model: ListModel, rows: seq<Row>, key: string)
    modifies model
    ensures model.items == Synced(old(model.items), rows, key)
    ensures model.changes == old(model.changes) + Changes(old(model.items), rows, key)
  {
    ghost var start := model.items;
    var have := IndexByKey(model, key);
    var seen: set<Option<Value>> := {};
    for r := 0 to |rows|
      invariant model.items == Merged(start, rows[..r], key)
      invariant model.changes == old(model.changes) + MergeChanges(start, rows[..r], key)
      invariant seen == KeysOf(rows[..r], key)
    {
      var row := rows[r];
      assert rows[..r + 1][..r] == rows[..r] && rows[..r + 1] == rows[..r] + [row];
      OneMoreKey(rows[..r], row, key);
      seen := seen + {KeyOf(row, key)};
      if KeyOf(row, key) !in have {
        model.Append(row);
      } else {
        UpdateRoles(model, have[KeyOf(row, key)], row);
      }
    }
    assert rows[..|rows|] == rows;
    RemoveUnseen(model, seen, key);
  }

  lemma OneMoreKey(rows: seq<Row>, row: Row, key: string)
    ensures KeysOf(rows + [row], key) == KeysOf(rows, key) + {KeyOf(row, key)}
  {
    var more := rows + [row];
    assert KeyOf(more[|rows|], key) == KeyOf(row, key);
    forall i | 0 <= i < |rows| ensures KeyOf(rows[i], key) in KeysOf(more, key) {
      assert more[i] == rows[i];
    }
  }

  // ----- what a sync means -----

  // The element as the rows leave it: with the values of the row of its key.
  function Patched(item: Row, rows: seq<Row>, key: string): Row {
    match LastWith(rows, key, KeyOf(item, key))
    case None => item
    case Some(i) => item + rows[i]
  }

  // The old elements whose key is still listed, in their old order, with the new values.
  function Survivors(start: seq<Row>, rows: seq<Row>, key: string): seq<Row> {
    if start == [] then []
    else
      (if KeyOf(start[0], key) in KeysOf(rows, key) then [Patched(start[0], rows, key)] else []) +
      Survivors(start[1..], rows, key)
  }

  // The rows with a new key, in row order.
  function NewRows(start: seq<Row>, rows: seq<Row>, key: string): seq<Row> {
    if rows == [] then []
    else
      NewRows(start, rows[..|rows| - 1], key) +
      if KeyOf(rows[|rows| - 1], key) in KeysOf(start, key) then [] else [rows[|rows| - 1]]
  }

  lemma KeyListed(rows: seq<Row>, key: string, k: Option<Value>)
    ensures k in KeysOf(rows, key) <==> LastWith(rows, key, k).Some?
  {
  }

  lemma DistinctFront(rows: seq<Row>, key: string)
    requires rows != [] && DistinctKeys(rows, key)
    ensures DistinctKeys(rows[..|rows| - 1], key)
    ensures KeyOf(rows[|rows| - 1], key) !in KeysOf(rows[..|rows| - 1], key)
  {
    var before := rows[..|rows| - 1];
    forall i, j | 0 <= i < j < |before| ensures KeyOf(before[i], key) != KeyOf(before[j], key) {
      assert KeyOf(rows[i], key) != KeyOf(rows[j], key);
    }
    forall i | 0 <= i < |before| ensures KeyOf(before[i], key) != KeyOf(rows[|rows| - 1], key) {
      assert before[i] == rows[i];
    }
  }

  // With distinct keys, every old element is patched once and the new rows follow.
  lemma {:induction false} MergedIs(start: seq<Row>, rows: seq<Row>, key: string)
    requires DistinctKeys(start, key) && DistinctKeys(rows, key)
    ensures Merged(start, rows, key) ==
            seq(|start|, i requires 0 <= i < |start| => Patched(start[i], rows, key)) + NewRows(start, rows, key)
  {
    var n := |start|;
    var patched := seq(n, i requires 0 <= i < n => Patched(start[i], rows, key));
    if rows == [] {
      assert patched == start;
    } else {
      var before, row := rows[..|rows| - 1], rows[|rows| - 1];
      DistinctFront(rows, key);
      MergedIs(start, before, key);
      var old' := seq(n, i requires 0 <= i < n => Patched(start[i], before, key));
      forall i | 0 <= i < n
        ensures patched[i] == if KeyOf(start[i], key) == KeyOf(row, key) then old'[i] + row else old'[i]
      {
        if KeyOf(start[i], key) == KeyOf(row, key) {
          KeyListed(before, key, KeyOf(row, key));
        }
      }
      KeyListed(start, key, KeyOf(row, key));
      match LastWith(start, key, KeyOf(row, key))
      case None =>
        assert patched == old';
      case Some(k) =>
        forall i | 0 <= i < n && i != k ensures KeyOf(start[i], key) != KeyOf(row, key) {
          assert KeyOf(start[k], key) == KeyOf(row, key);
        }
        assert patched == old'[k := old'[k] + row];
        assert (old' + NewRows(start, before, key))[k := old'[k] + row] == patched + NewRows(start, before, key);
    }
  }

  lemma {:induction false} KeptAppend(a: seq<Row>, b: seq<Row>, seen: set<Option<Value>>, key: string)
    ensures Kept(a + b, seen, key) == Kept(a, seen, key) + Kept(b, seen, key)
  {
    hide KeyOf;
    if a == [] {
      assert a + b == b;
    } else {
      assert (a + b)[1..] == a[1..] + b;
      KeptAppend(a[1..], b, seen, key);
      var head := if KeyOf(a[0], key) in seen then [a[0]] else [];
      assert head + (Kept(a[1..], seen, key) + Kept(b, seen, key)) == head + Kept(a[1..], seen, key) + Kept(b, seen, key);
    }
  }

  lemma PatchedKey(item: Row, rows: seq<Row>, key: string)
    ensures KeyOf(Patched(item, rows, key), key) == KeyOf(item, key)
  {
  }

  lemma {:induction false} KeptPatched(start: seq<Row>, rows: seq<Row>, key: string)
    ensures Kept(seq(|start|, i requires 0 <= i < |start| => Patched(start[i], rows, key)), KeysOf(rows, key), key) ==
            Survivors(start, rows, key)
  {
    if start != [] {
      var all := seq(|start|, i requires 0 <= i < |start| => Patched(start[i], rows, key));
      var tail := start[1..];
      assert all[1..] == seq(|tail|, i requires 0 <= i < |tail| => Patched(tail[i], rows, key));
      PatchedKey(start[0], rows, key);
      KeptPatched(tail, rows, key);
    }
  }

  lemma {:induction false} NewRowsKept(start: seq<Row>, rows: seq<Row>, seen: set<Option<Value>>, key: string)
    requires KeysOf(rows, key) <= seen
    ensures Kept(NewRows(start, rows, key), seen, key) == NewRows(start, rows, key)
  {
    if rows != [] {
      var before, row := rows[..|rows| - 1], rows[|rows| - 1];
      assert rows == before + [row];
      OneMoreKey(before, row, key);
      NewRowsKept(start, before, seen, key);
      KeptAppend(NewRows(start, before, key), [row], seen, key);
      assert Kept([row], seen, key) == [row];
      assert NewRows(start, before, key) + [] == NewRows(start, before, key);
    }
  }

  // With distinct keys in the model and in the rows, a sync leaves the surviving elements in their old
  // order with the new values, followed by the new rows in row order.
  lemma SyncedIs(start: seq<Row>, rows: seq<Row>, key: string)
    requires DistinctKeys(start, key) && DistinctKeys(rows, key)
    ensures Synced(start, rows, key) == Survivors(start, rows, key) + NewRows(start, rows, key)
  {
    MergedIs(start, rows, key);
    var patched := seq(|start|, i requires 0 <= i < |start| => Patched(start[i], rows, key));
    KeptAppend(patched, NewRows(start, rows, key), KeysOf(rows, key), key);
    KeptPatched(start, rows, key);
    NewRowsKept(start, rows, KeysOf(rows, key), key);
  }

  // ----- syncing again -----

  predicate Contains(item: Row, row: Row) {
    forall role | role in row :: role in item && item[role] == row[role]
  }

  // Some element carries the key of the row and all its values.
  predicate Holds(items: seq<Row>, row: Row, key: string) {
    exists i | 0 <= i < |items| :: KeyOf(items[i], key) == KeyOf(row, key) && Contains(items[i], row)
  }

  lemma LastOfDistinct(rows: seq<Row>, key: string, i: nat)
    requires DistinctKeys(rows, key) && i < |rows|
    ensures LastWith(rows, key, KeyOf(rows[i], key)) == Some(i)
  {
    var k := KeyOf(rows[i], key);
    assert LastWith(rows, key, k).Some?;
  }

  lemma ContainedChangesNothing(item: Row, row: Row)
    requires Contains(item, row)
    ensures item + row == item && Differing(item, row) == {}
  {
  }

  lemma {:induction false} NothingMerged(items: seq<Row>, rows: seq<Row>, key: string)
    requires DistinctKeys(items, key) && forall i | 0 <= i < |rows| :: Holds(items, rows[i], key)
    ensures Merged(items, rows, key) == items && MergeChanges(items, rows, key) == 0
  {
    hide Contains, Differing, KeyOf, DistinctKeys;
    if rows != [] {
      var before, row := rows[..|rows| - 1], rows[|rows| - 1];
      forall i | 0 <= i < |before| ensures Holds(items, before[i], key) {
        assert before[i] == rows[i];
      }
      NothingMerged(items, before, key);
      assert Holds(items, row, key);
      var i :| 0 <= i < |items| && KeyOf(items[i], key) == KeyOf(row, key) && Contains(items[i], row);
      LastOfDistinct(items, key, i);
      ContainedChangesNothing(items[i], row);
      assert items[i := items[i]] == items;
    }
  }

  lemma {:induction false} AllKept(items: seq<Row>, seen: set<Option<Value>>, key: string)
    requires forall i | 0 <= i < |items| :: KeyOf(items[i], key) in seen
    ensures Kept(items, seen, key) == items
  {
    hide KeyOf;
    if items != [] {
      AllKept(items[1..], seen, key);
    }
  }

  // What the merge has made of the model so far: old keys where they were, all keys distinct, every row held.
  predicate MergedWell(start: seq<Row>, rows: seq<Row>, m: seq<Row>, key: string) {
    && |start| <= |m| && DistinctKeys(m, key)
    && (forall i | 0 <= i < |start| :: KeyOf(m[i], key) == KeyOf(start[i], key))
    && (forall i | |start| <= i < |m| :: KeyOf(m[i], key) in KeysOf(rows, key))
    && (forall i | 0 <= i < |rows| :: Holds(m, rows[i], key))
  }

  lemma AppendHolds(items: seq<Row>, row: Row, other: Row, key: string)
    ensures Holds(items, other, key) ==> Holds(items + [row], other, key)
    ensures Holds(items + [row], row, key)
  {
    if Holds(items, other, key) {
      var i :| 0 <= i < |items| && KeyOf(items[i], key) == KeyOf(other, key) && Contains(items[i], other);
      assert (items + [row])[i] == items[i];
    }
    assert (items + [row])[|items|] == row;
  }

  lemma UpdateHolds(items: seq<Row>, i: nat, row: Row, other: Row, key: string)
    requires i < |items| && KeyOf(items[i], key) == KeyOf(row, key) != KeyOf(other, key)
    ensures Holds(items, other, key) ==> Holds(items[i := items[i] + row], other, key)
  {
    if Holds(items, other, key) {
      var j :| 0 <= j < |items| && KeyOf(items[j], key) == KeyOf(other, key) && Contains(items[j], other);
      assert items[i := items[i] + row][j] == items[j];
    }
  }

  lemma UpdateHoldsRow(items: seq<Row>, i: nat, row: Row, key: string)
    requires i < |items| && KeyOf(items[i], key) == KeyOf(row, key)
    ensures KeyOf(items[i] + row, key) == KeyOf(row, key) && Holds(items[i := items[i] + row], row, key)
  {
    assert items[i := items[i] + row][i] == items[i] + row;
  }

  lemma AppendDistinct(items: seq<Row>, row: Row, key: string)
    requires DistinctKeys(items, key) && forall i | 0 <= i < |items| :: KeyOf(items[i], key) != KeyOf(row, key)
    ensures DistinctKeys(items + [row], key)
  {
    hide KeyOf;
  }

  lemma UpdateDistinct(items: seq<Row>, i: nat, item: Row, key: string)
    requires DistinctKeys(items, key) && i < |items| && KeyOf(item, key) == KeyOf(items[i], key)
    ensures DistinctKeys(items[i := item], key)
  {
    hide KeyOf;
    var r := items[i := item];
    forall a, b | 0 <= a < b < |r| ensures KeyOf(r[a], key) != KeyOf(r[b], key) {
      assert KeyOf(items[a], key) != KeyOf(items[b], key);
    }
  }

  lemma MergeOneNew(start: seq<Row>, before: seq<Row>, m: seq<Row>, row: Row, key: string)
    requires MergedWell(start, before, m, key) && KeyOf(row, key) !in KeysOf(before, key)
    requires LastWith(start, key, KeyOf(row, key)).None?
    ensures MergedWell(start, before + [row], m + [row], key)
  {
    hide KeyOf, Holds, DistinctKeys;
    var rows := before + [row];
    OneMoreKey(before, row, key);
    forall i | 0 <= i < |m| ensures KeyOf(m[i], key) != KeyOf(row, key) {
      assert i < |start| ==> KeyOf(m[i], key) == KeyOf(start[i], key);
    }
    AppendDistinct(m, row, key);
    forall i | 0 <= i < |rows| ensures Holds(m + [row], rows[i], key) {
      AppendHolds(m, row, rows[i], key);
    }
  }

  lemma MergeOneOld(start: seq<Row>, before: seq<Row>, m: seq<Row>, row: Row, key: string, k: nat)
    requires MergedWell(start, before, m, key) && KeyOf(row, key) !in KeysOf(before, key)
    requires k < |start| && KeyOf(start[k], key) == KeyOf(row, key)
    ensures MergedWell(start, before + [row], m[k := m[k] + row], key)
  {
    hide KeyOf, Holds, DistinctKeys;
    var rows := before + [row];
    OneMoreKey(before, row, key);
    UpdateHoldsRow(m, k, row, key);
    UpdateDistinct(m, k, m[k] + row, key);
    forall i | 0 <= i < |rows| ensures Holds(m[k := m[k] + row], rows[i], key) {
      if i < |before| {
        assert rows[i] == before[i] && KeyOf(before[i], key) in KeysOf(before, key);
        UpdateHolds(m, k, row, rows[i], key);
      }
    }
  }

  lemma {:induction false} MergeIsWell(start: seq<Row>, rows: seq<Row>, key: string)
    requires DistinctKeys(start, key) && DistinctKeys(rows, key)
    ensures MergedWell(start, rows, Merged(start, rows, key), key)
  {
    hide KeyOf, Holds, MergedWell, DistinctKeys;
    if rows == [] {
      EmptyMerge(start, key);
    } else {
      var before, row := rows[..|rows| - 1], rows[|rows| - 1];
      assert rows == before + [row];
      DistinctFront(rows, key);
      MergeIsWell(start, before, key);
      match LastWith(start, key, KeyOf(row, key))
      case None => MergeOneNew(start, before, Merged(start, before, key), row, key);
      case Some(k) => MergeOneOld(start, before, Merged(start, before, key), row, key, k);
    }
  }

  lemma EmptyMerge(start: seq<Row>, key: string)
    requires DistinctKeys(start, key)
    ensures MergedWell(start, [], start, key)
  {
    hide KeyOf;
  }

  lemma {:induction false} KeptWell(items: seq<Row>, seen: set<Option<Value>>, key: string)
    ensures var r := Kept(items, seen, key);
            && (forall x :: x in r <==> x in items && KeyOf(x, key) in seen)
            && (DistinctKeys(items, key) ==> DistinctKeys(r, key))
  {
    hide KeyOf;
    if items != [] {
      var tail := items[1..];
      KeptWell(tail, seen, key);
      assert items == [items[0]] + tail;
      if DistinctKeys(items, key) {
        forall i, j | 0 <= i < j < |tail| ensures KeyOf(tail[i], key) != KeyOf(tail[j], key) {
          assert KeyOf(items[i + 1], key) != KeyOf(items[j + 1], key);
        }
        forall x | x in tail ensures KeyOf(x, key) != KeyOf(items[0], key) {
          var i :| 0 <= i < |tail| && tail[i] == x;
          assert KeyOf(items[0], key) != KeyOf(items[i + 1], key);
        }
        FrontDistinct(items[0], Kept(tail, seen, key), key);
      }
    }
  }

  lemma FrontDistinct(row: Row, items: seq<Row>, key: string)
    requires DistinctKeys(items, key) && forall x | x in items :: KeyOf(x, key) != KeyOf(row, key)
    ensures DistinctKeys([row] + items, key)
  {
    hide KeyOf;
    var r := [row] + items;
    forall a, b | 0 <= a < b < |r| ensures KeyOf(r[a], key) != KeyOf(r[b], key) {
      assert r[b] == items[b - 1];
      assert a > 0 ==> r[a] == items[a - 1];
    }
  }

  lemma HeldAfterKeeping(items: seq<Row>, seen: set<Option<Value>>, key: string, row: Row)
    requires Holds(items, row, key) && KeyOf(row, key) in seen
    ensures Holds(Kept(items, seen, key), row, key)
  {
    hide KeyOf, Contains, DistinctKeys;
    KeptWell(items, seen, key);
    var i :| 0 <= i < |items| && KeyOf(items[i], key) == KeyOf(row, key) && Contains(items[i], row);
    assert items[i] in Kept(items, seen, key);
    var j :| 0 <= j < |Kept(items, seen, key)| && Kept(items, seen, key)[j] == items[i];
  }

  // Syncing the same rows again, their keys and the model's being distinct, performs no mutation at all.
  lemma SecondSyncChangesNothing(start: seq<Row>, rows: seq<Row>, key: string)
    requires DistinctKeys(start, key) && DistinctKeys(rows, key)
    ensures var m := Synced(start, rows, key);
            Synced(m, rows, key) == m && Changes(m, rows, key) == 0 && DistinctKeys(m, key)
  {
    hide KeyOf, Holds, DistinctKeys, Merged, Kept;
    var all, seen := Merged(start, rows, key), KeysOf(rows, key);
    var m := Kept(all, seen, key);
    MergeIsWell(start, rows, key);
    KeptWell(all, seen, key);
    forall i | 0 <= i < |rows| ensures Holds(m, rows[i], key) {
      assert KeyOf(rows[i], key) in seen;
      HeldAfterKeeping(all, seen, key, rows[i]);
    }
    NothingMerged(m, rows, key);
    forall i | 0 <= i < |m| ensures KeyOf(m[i], key) in seen {
      assert m[i] in m;
    }
    AllKept(m, seen, key);
  }

  // Distinct keys are needed: two rows of one key with different values never settle.
  lemma RepeatedKeysNeverSettle(k: Value, a: Value, b: Value)
    requires a != b
    ensures var rows := [map["id" := k, "v" := a], map["id" := k, "v" := b]];
            Changes(Synced([], rows, "id"), rows, "id") > 0
  {
    var r0: Row, r1: Row := map["id" := k, "v" := a], map["id" := k, "v" := b];
    var rows := [r0, r1];
    assert rows[..1] == [r0] && [r0][..0] == [];
    assert Merged([], [r0], "id") == [r0];
    assert Merged([], rows, "id") == [r0, r1];
    assert KeyOf(rows[0], "id") in KeysOf(rows, "id") && KeyOf(rows[1], "id") in KeysOf(rows, "id");
    AllKept([r0, r1], KeysOf(rows, "id"), "id");
    var m := Synced([], rows, "id");
    assert m == [r0, r1];
    assert LastWith(m, "id", KeyOf(r0, "id")) == Some(1);
    assert MergeChanges(m, [r0], "id") == |Differing(r1, r0)|;
    assert "v" in Differing(r1, r0);
    assert MergeChanges(m, rows, "id") >= MergeChanges(m, rows[..1], "id");
  }

  // ----- every input -----

  lemma {:induction false} MergedKeys(start: seq<Row>, rows: seq<Row>, key: string)
    ensures KeysOf(Merged(start, rows, key), key) == KeysOf(start, key) + KeysOf(rows, key)
    ensures forall i | 0 <= i < |start| :: KeyOf(Merged(start, rows, key)[i], key) == KeyOf(start[i], key)
  {
    if rows != [] {
      var before, row := rows[..|rows| - 1], rows[|rows| - 1];
      assert rows == before + [row];
      MergedKeys(start, before, key);
      OneMoreKey(before, row, key);
      var m := Merged(start, before, key);
      match LastWith(start, key, KeyOf(row, key))
      case None => OneMoreKey(m, row, key);
      case Some(i) => SameKeyUpdate(m, i, m[i] + row, key);
    }
  }

  lemma SameKeyUpdate(items: seq<Row>, i: nat, item: Row, key: string)
    requires i < |items| && KeyOf(item, key) == KeyOf(items[i], key)
    ensures KeysOf(items[i := item], key) == KeysOf(items, key)
    ensures forall j | 0 <= j < |items| :: KeyOf(items[i := item][j], key) == KeyOf(items[j], key)
  {
    hide KeyOf;
    var r := items[i := item];
    forall k ensures k in KeysOf(r, key) <==> k in KeysOf(items, key) {
      if k in KeysOf(items, key) {
        var j :| 0 <= j < |items| && KeyOf(items[j], key) == k;
        assert KeyOf(r[j], key) == k;
      }
      if k in KeysOf(r, key) {
        var j :| 0 <= j < |r| && KeyOf(r[j], key) == k;
        assert KeyOf(items[j], key) == k;
      }
    }
  }

  // Whatever was in the model and in the rows, repeated keys included, the keys afterwards are those of the rows.
  lemma SyncedKeys(start: seq<Row>, rows: seq<Row>, key: string)
    ensures KeysOf(Synced(start, rows, key), key) == KeysOf(rows, key)
  {
    hide KeyOf, Merged, Kept;
    MergedKeys(start, rows, key);
    var all, seen := Merged(start, rows, key), KeysOf(rows, key);
    KeptWell(all, seen, key);
    var m := Kept(all, seen, key);
    forall k ensures k in KeysOf(m, key) <==> k in seen {
      if k in seen {
        assert k in KeysOf(all, key);
        var j :| 0 <= j < |all| && KeyOf(all[j], key) == k;
        assert all[j] in m;
        var i :| 0 <= i < |m| && m[i] == all[j];
        assert KeyOf(m[i], key) == k;
      }
      if k in KeysOf(m, key) {
        var j :| 0 <= j < |m| && KeyOf(m[j], key) == k;
        assert m[j] in m;
      }
    }
  }
}
