/**
 The connection-endpoint-id manager: ids are drawn by a cyclic search that starts after the last id
 allocated and skips those that are live.
 */
module Cidm {

  /** (2 << 8) * sizeof(cep_id_t) - 1, with 32-bit ids. */
  const MAX_CEP_ID: nat := 2047

  /** The id that the search tries in its `k`-th round. */
  function Candidate(last: nat, k: nat): (id: nat)
    requires k >= 1
    ensures 1 <= id <= MAX_CEP_ID
  {
    (last + k - 1) % MAX_CEP_ID + 1
  }

  lemma NextCandidate(last: nat, k: nat)
    requires k >= 1
    ensures var id := Candidate(last, k); Candidate(last, k + 1) == if id == MAX_CEP_ID then 1 else id + 1
  {
  }

  lemma FirstCandidate(last: nat)
    requires last <= MAX_CEP_ID
    ensures Candidate(last, 1) == if last == MAX_CEP_ID then 1 else last + 1
  {
  }

  /** The search comes past every id. */
  lemma Reached(last: nat, id: nat) returns (k: nat)
    requires last <= MAX_CEP_ID && 1 <= id <= MAX_CEP_ID
    ensures 1 <= k <= MAX_CEP_ID && Candidate(last, k) == id
  {
    k := if id > last then id - last else id - last + MAX_CEP_ID;
    if k == 0 {
      k := MAX_CEP_ID;
    }
  }

  ghost predicate Distinct(ids: seq<nat>) {
    forall i, j :: 0 <= i < j < |ids| ==> ids[i] != ids[j]
  }

  ghost predicate InRange(ids: seq<nat>) {
    forall i :: 0 <= i < |ids| ==> 1 <= ids[i] <= MAX_CEP_ID
  }

  function Upto(n: nat): (s: set<nat>)
    ensures forall x :: x in s <==> 1 <= x <= n
  {
    if n == 0 then {} else Upto(n - 1) + {n}
  }

  lemma {:induction false} UptoSize(n: nat)
    ensures |Upto(n)| == n
  {
    if n > 0 {
      UptoSize(n - 1);
    }
  }

  function Ids(s: seq<nat>): set<nat> { set x | x in s }

  lemma {:induction false} AtMostLength(s: seq<nat>)
    ensures |Ids(s)| <= |s| && (Distinct(s) ==> |Ids(s)| == |s|)
  {
    if s != [] {
      AtMostLength(s[1..]);
      assert s == [s[0]] + s[1..];
      assert Ids(s) == {s[0]} + Ids(s[1..]);
      if Distinct(s) {
        assert Distinct(s[1..]);
        assert s[0] !in s[1..];
      }
    }
  }

  lemma {:induction false} SubsetSize(a: set<nat>, b: set<nat>)
    requires a <= b
    ensures |a| <= |b|
    decreases |a|
  {
    if x :| x in a {
      SubsetSize(a - {x}, b - {x});
    }
  }

  lemma SameSize(a: set<nat>, b: set<nat>)
    requires a <= b && |a| == |b|
    ensures a == b
  {
    if x :| x in b && x !in a {
      SubsetSize(a, b - {x});
    }
  }

  /** Every id that the search can come past is live. */
  ghost predicate Exhausted(ids: seq<nat>, last: nat) {
    forall k :: 1 <= k <= MAX_CEP_ID ==> Candidate(last, k) in ids
  }

  /** The search has an end exactly if fewer than MAX_CEP_ID ids are live. */
  lemma SearchEnds(ids: seq<nat>, last: nat)
    requires Distinct(ids) && InRange(ids) && last <= MAX_CEP_ID
    ensures !Exhausted(ids, last) <==> |ids| < MAX_CEP_ID
  {
    AtMostLength(ids);
    UptoSize(MAX_CEP_ID);
    assert Ids(ids) <= Upto(MAX_CEP_ID);
    SubsetSize(Ids(ids), Upto(MAX_CEP_ID));
    if Exhausted(ids, last) {
      forall x | x in Upto(MAX_CEP_ID) ensures x in Ids(ids) {
        var k := Reached(last, x);
      }
      SubsetSize(Upto(MAX_CEP_ID), Ids(ids));
    }
    if |ids| == MAX_CEP_ID {
      SameSize(Ids(ids), Upto(MAX_CEP_ID));
      forall k | 1 <= k <= MAX_CEP_ID ensures Candidate(last, k) in ids {
        assert Candidate(last, k) in Upto(MAX_CEP_ID);
      }
    }
  }

  /** `id` is the first free id after `last` in cyclic order. */
  ghost predicate FirstFree(ids: seq<nat>, last: nat, id: nat) {
    id !in ids && exists k :: 1 <= k <= MAX_CEP_ID && Candidate(last, k) == id && Skipped(ids, last, k)
  }

  ghost predicate Skipped(ids: seq<nat>, last: nat, k: nat) {
    forall j :: 1 <= j < k ==> Candidate(last, j) in ids
  }

  /** Going up from `last`, and from the largest id on to 1, `x` comes before `id`. */
  ghost predicate ComesBefore(last: nat, x: nat, id: nat) {
    if last < id then last < x < id else x > last || x < id
  }

  /** Every id that the search comes past on its way to `id` is live. */
  lemma NoneSkipped(ids: seq<nat>, last: nat, k: nat, x: nat)
    requires last <= MAX_CEP_ID && 1 <= k <= MAX_CEP_ID && Skipped(ids, last, k)
    requires 1 <= x <= MAX_CEP_ID && ComesBefore(last, x, Candidate(last, k))
    ensures x in ids
  {
    var id := Candidate(last, k);
    var j := if x > last then x - last else x - last + MAX_CEP_ID;
    assert Candidate(last, j) == x;
    assert id == if last + k <= MAX_CEP_ID then last + k else last + k - MAX_CEP_ID;
  }

  class CepIdManager {
    /** Newest first. */
    var allocatedIds: seq<nat>
    var lastAllocated: nat

    ghost predicate Valid()
      reads this
    {
      Distinct(allocatedIds) && InRange(allocatedIds) && lastAllocated <= MAX_CEP_ID
    }

    constructor ()
      ensures Valid() && allocatedIds == [] && lastAllocated == 0
    {
      allocatedIds, lastAllocated := [], 0;
    }

    method IsAllocated(id: nat) returns (live: bool)
      ensures live == (id in allocatedIds)
    {
      for i := 0 to |allocatedIds|
        invariant id !in allocatedIds[..i]
      {
        if allocatedIds[i] == id {
          return true;
        }
      }
      live := false;
    }

    /** The loop ends because it comes past every id once, and fewer than all are live. */
    method Allocate() returns (id: nat)
      requires Valid() && |allocatedIds| < MAX_CEP_ID
      modifies this
      ensures Valid() && FirstFree(old(allocatedIds), old(lastAllocated), id) && 1 <= id <= MAX_CEP_ID
      ensures allocatedIds == [id] + old(allocatedIds) && lastAllocated == id
      ensures forall x :: 1 <= x <= MAX_CEP_ID && x !in old(allocatedIds) ==> !ComesBefore(old(lastAllocated), x, id)
    {
      SearchEnds(allocatedIds, lastAllocated);
      FirstCandidate(lastAllocated);
      id := if lastAllocated == MAX_CEP_ID then 1 else lastAllocated + 1;
      ghost var k := 1;
      var live := IsAllocated(id);
      while live
        invariant unchanged(this)
        invariant 1 <= k <= MAX_CEP_ID && id == Candidate(lastAllocated, k) && live == (id in allocatedIds)
        invariant Skipped(allocatedIds, lastAllocated, k)
        decreases MAX_CEP_ID - k
      {
        NextCandidate(lastAllocated, k);
        assert k == MAX_CEP_ID ==> Exhausted(allocatedIds, lastAllocated);
        id := if id == MAX_CEP_ID then 1 else id + 1;
        k := k + 1;
        live := IsAllocated(id);
      }
      assert Candidate(lastAllocated, k) == id && Skipped(allocatedIds, lastAllocated, k);
      forall x | 1 <= x <= MAX_CEP_ID && ComesBefore(lastAllocated, x, id) ensures x in allocatedIds {
        NoneSkipped(allocatedIds, lastAllocated, k, x);
      }
      allocatedIds := [id] + allocatedIds;
      lastAllocated := id;
    }

    method Release(id: nat) returns (ok: bool)
      requires Valid()
      modifies this
      ensures Valid() && lastAllocated == old(lastAllocated) && ok == (id in old(allocatedIds))
      ensures id !in allocatedIds && forall x :: x != id ==> (x in allocatedIds <==> x in old(allocatedIds))
    {
      for i := 0 to |allocatedIds|
        invariant unchanged(this) && id !in allocatedIds[..i]
      {
        if allocatedIds[i] == id {
          ghost var before := allocatedIds;
          allocatedIds := allocatedIds[..i] + allocatedIds[i + 1..];
          assert before == before[..i] + [id] + before[i + 1..];
          return true;
        }
      }
      ok := false;
    }
  }
}
