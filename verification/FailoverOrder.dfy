// The order in which providers are tried: `providers_sorted` of src/config.rs.

module FailoverOrder {

  // Position i of the configuration goes before position j.
  predicate Before(priorities: seq<nat>, i: nat, j: nat)
    requires i < |priorities| && j < |priorities|
  {
    priorities[i] < priorities[j] || (priorities[i] == priorities[j] && i < j)
  }

  // The stable sort, as the sequence of configuration positions in failover order.
  function Sorted(priorities: seq<nat>): (order: seq<nat>)
    ensures |order| == |priorities|
    ensures forall k :: 0 <= k < |order| ==> order[k] < |priorities|
  {
    if priorities == [] then []
    else
      var n := |priorities| - 1;
      Insert(priorities, Sorted(priorities[..n]), n)
  }

  // A later position goes behind every earlier one of the same priority.
  function Insert(priorities: seq<nat>, order: seq<nat>, i: nat): (r: seq<nat>)
    requires i < |priorities| && forall k :: 0 <= k < |order| ==> order[k] < |priorities|
    ensures |r| == |order| + 1
    ensures forall k :: 0 <= k < |r| ==> r[k] < |priorities|
    ensures forall j :: j in r <==> j in order || j == i
  {
    if order == [] then [i]
    else if Before(priorities, i, order[0]) then [i] + order
    else [order[0]] + Insert(priorities, order[1..], i)
  }

  // The lower number goes first, and of two that are the same the earlier position.
  predicate Ascending(priorities: seq<nat>, order: seq<nat>) {
    && (forall k :: 0 <= k < |order| ==> order[k] < |priorities|)
    && forall k, l :: 0 <= k < l < |order| ==>
         && priorities[order[k]] <= priorities[order[l]]
         && (priorities[order[k]] == priorities[order[l]] ==> order[k] < order[l])
  }

  predicate InTurn(priorities: seq<nat>, order: seq<nat>) {
    && (forall k :: 0 <= k < |order| ==> order[k] < |priorities|)
    && forall k, l :: 0 <= k < l < |order| ==> Before(priorities, order[k], order[l])
  }

  lemma {:induction false} InsertInTurn(priorities: seq<nat>, order: seq<nat>, i: nat)
    requires i < |priorities| && InTurn(priorities, order) && i !in order
    ensures InTurn(priorities, Insert(priorities, order, i))
  {
    if order != [] && !Before(priorities, i, order[0]) {
      InsertInTurn(priorities, order[1..], i);
      var r := Insert(priorities, order[1..], i);
      forall l | 0 <= l < |r|
        ensures Before(priorities, order[0], r[l])
      {
        assert r[l] in r;
        if r[l] != i {
          assert r[l] in order[1..];
        }
      }
    }
  }

  lemma {:induction false} SortedInTurn(priorities: seq<nat>)
    ensures InTurn(priorities, Sorted(priorities))
    ensures forall i :: 0 <= i < |priorities| <==> i in Sorted(priorities)
  {
    if priorities != [] {
      var n := |priorities| - 1;
      var before := Sorted(priorities[..n]);
      SortedInTurn(priorities[..n]);
      assert forall k, l :: 0 <= k < l < |before| ==>
        (Before(priorities, before[k], before[l]) <==> Before(priorities[..n], before[k], before[l]));
      InsertInTurn(priorities, before, n);
    }
  }

  // Every configured provider is there once, by priority and then by position.
  lemma SortedIsStable(priorities: seq<nat>)
    ensures Ascending(priorities, Sorted(priorities))
    ensures forall i :: 0 <= i < |priorities| <==> i in Sorted(priorities)
  {
    SortedInTurn(priorities);
    hide Sorted;
    var order := Sorted(priorities);
    assert forall k, l :: 0 <= k < l < |order| ==> Before(priorities, order[k], order[l]);
  }

  // ---- Parts of the order --------------------------------------------------------------

  // Positions of a list, in order.
  predicate IsSublist(picks: seq<nat>, n: nat) {
    && (forall i :: 0 <= i < |picks| ==> picks[i] < n)
    && (forall i, j :: 0 <= i < j < |picks| ==> picks[i] < picks[j])
  }

  function Picked<T>(all: seq<T>, picks: seq<nat>): (r: seq<T>)
    requires IsSublist(picks, |all|)
    ensures |r| == |picks| && forall k :: 0 <= k < |r| ==> r[k] == all[picks[k]]
  {
    seq(|picks|, k requires 0 <= k < |picks| => all[picks[k]])
  }
}
