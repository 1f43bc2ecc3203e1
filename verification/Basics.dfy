/** Values shared by every other module: optional columns, JSON payloads and
    the selection of rows in graph order. */
module Basics {

  datatype Option<+T> = None | Some(value: T)

  type NodeId = string

  /** A JSON document, as stored in the `*_json` columns. */
  datatype Json =
    | Null
    | Bool(b: bool)
    | Num(n: int)
    | Str(s: string)
    | Arr(items: seq<Json>)
    | Obj(fields: map<string, Json>)

  /** The elements of `order` that lie in `chosen`, in that order: what a loop
      over the rows selects. */
  function Select(order: seq<NodeId>, chosen: set<NodeId>): seq<NodeId> {
    if order == [] then []
    else if order[0] in chosen then [order[0]] + Select(order[1..], chosen)
    else Select(order[1..], chosen)
  }

  lemma {:induction false} SelectSnoc(order: seq<NodeId>, last: NodeId, chosen: set<NodeId>)
    ensures Select(order + [last], chosen) ==
            Select(order, chosen) + (if last in chosen then [last] else [])
  {
    if order == [] {
      assert order + [last] == [last];
    } else {
      assert (order + [last])[1..] == order[1..] + [last];
      SelectSnoc(order[1..], last, chosen);
    }
  }

  lemma {:induction false} SelectMembers(order: seq<NodeId>, chosen: set<NodeId>)
    ensures forall x :: x in Select(order, chosen) <==> x in order && x in chosen
  {
    if order != [] {
      SelectMembers(order[1..], chosen);
      assert forall x :: x in order <==> x == order[0] || x in order[1..];
    }
  }

  lemma {:induction false} NothingSelected(order: seq<NodeId>)
    ensures Select(order, {}) == []
  {
    if order != [] {
      NothingSelected(order[1..]);
    }
  }

  lemma SplitLast(s: seq<NodeId>)
    requires s != []
    ensures s == s[..|s| - 1] + [s[|s| - 1]]
  {
  }

  lemma SplitFirst(s: seq<NodeId>)
    requires s != []
    ensures s == [s[0]] + s[1..]
  {
  }

  ghost predicate Distinct(order: seq<NodeId>) {
    forall i, j :: 0 <= i < j < |order| ==> order[i] != order[j]
  }

  /** Over distinct rows every chosen row is selected exactly once. */
  lemma {:induction false} SelectCounts(order: seq<NodeId>, chosen: set<NodeId>, x: NodeId)
    requires Distinct(order)
    ensures multiset(Select(order, chosen))[x] == if x in order && x in chosen then 1 else 0
  {
    if order != [] {
      var rest := order[1..];
      SelectCounts(rest, chosen, x);
      assert x in order <==> x == order[0] || x in rest;
      if x in rest {
        var k :| 0 <= k < |rest| && rest[k] == x;
        assert order[k + 1] == x;
      }
    }
  }

  lemma SelectedRows(order: seq<NodeId>, chosen: set<NodeId>)
    requires Distinct(order) && forall n :: n in chosen ==> n in order
    ensures forall n :: n in Select(order, chosen) <==> n in chosen
    ensures Distinct(Select(order, chosen))
  {
    SelectMembers(order, chosen);
    var rows := Select(order, chosen);
    forall i, j | 0 <= i < j < |rows|
      ensures rows[i] != rows[j]
    {
      SelectCounts(order, chosen, rows[i]);
      if rows[i] == rows[j] {
        CountsTwice(rows, i, j);
      }
    }
  }

  lemma CountsTwice(rows: seq<NodeId>, i: nat, j: nat)
    requires i < j < |rows| && rows[i] == rows[j]
    ensures multiset(rows)[rows[i]] >= 2
  {
    var head, tail := rows[..j], rows[j..];
    assert rows == head + tail;
    assert head[i] in multiset(head) && tail[0] in multiset(tail);
  }

  lemma NextRow(rows: seq<NodeId>, i: nat)
    requires Distinct(rows) && i < |rows|
    ensures rows[i] in rows && rows[i] !in rows[..i] && rows[..i + 1] == rows[..i] + [rows[i]]
  {
  }

  /** Selecting in two rounds is selecting once. */
  lemma {:induction false} SelectNested(order: seq<NodeId>, outer: set<NodeId>, inner: set<NodeId>)
    requires inner <= outer
    ensures Select(Select(order, outer), inner) == Select(order, inner)
  {
    if order != [] {
      SelectNested(order[1..], outer, inner);
    }
  }
}
