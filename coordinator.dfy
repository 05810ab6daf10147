/**
 * The shared ledger through which an install task tells the configuration
 * listener that a store change was its own doing: the task adds an operation
 * after it writes, and the listener consumes the matching operation when the
 * store reports the change, so that the change is not fed back to the
 * installer.
 */
module Coordination {
  import opened Wrappers

  datatype Operation = Operation(pid: string, factoryPid: Option<string>, isDelete: bool)

  predicate Matching(op: Operation, pid: string, factoryPid: Option<string>, isDelete: bool)
  {
    op.pid == pid && op.factoryPid == factoryPid && op.isDelete == isDelete
  }

  /** The first matching operation and the ledger without it; the ledger unchanged when none matches. */
  function Take(ops: seq<Operation>, pid: string, factoryPid: Option<string>, isDelete: bool)
    : (r: (Option<Operation>, seq<Operation>))
    ensures r.0.Some? <==> exists i :: 0 <= i < |ops| && Matching(ops[i], pid, factoryPid, isDelete)
    ensures r.0.None? ==> r.1 == ops
    ensures r.0.Some? ==> Matching(r.0.value, pid, factoryPid, isDelete)
    ensures r.0.Some? ==> multiset(r.1) + multiset{r.0.value} == multiset(ops)
  {
    if ops == [] then (None, [])
    else if Matching(ops[0], pid, factoryPid, isDelete) then
      assert ops == [ops[0]] + ops[1..];
      (Some(ops[0]), ops[1..])
    else
      var (found, rest) := Take(ops[1..], pid, factoryPid, isDelete);
      assert ops == [ops[0]] + ops[1..];
      (found, [ops[0]] + rest)
  }

  /** An operation added to a ledger holding no matching one is the one the next lookup consumes. */
  lemma {:induction false} AddedOperationIsTaken(ops: seq<Operation>, op: Operation)
    requires !(exists i :: 0 <= i < |ops| && Matching(ops[i], op.pid, op.factoryPid, op.isDelete))
    ensures Take(ops + [op], op.pid, op.factoryPid, op.isDelete) == (Some(op), ops)
  {
    if ops == [] {
      assert [] + [op] == [op];
    } else {
      assert (ops + [op])[1..] == ops[1..] + [op];
      assert !Matching(ops[0], op.pid, op.factoryPid, op.isDelete);
      AddedOperationIsTaken(ops[1..], op);
      assert ops == [ops[0]] + ops[1..];
    }
  }

  /** org.apache.sling.installer.factories.configuration.impl.Coordinator (SHARED). */
  class Coordinator {
    var operations: seq<Operation>

    constructor ()
      ensures operations == []
    {
      operations := [];
    }

    method Add(op: Operation)
      modifies this
      ensures operations == old(operations) + [op]
    {
      operations := operations + [op];
    }

    /** Returns and removes the first operation matching the three keys, or null. */
    method Get(pid: string, factoryPid: Option<string>, isDelete: bool) returns (op: Option<Operation>)
      modifies this
      ensures (op, operations) == Take(old(operations), pid, factoryPid, isDelete)
    {
      var (found, rest) := Take(operations, pid, factoryPid, isDelete);
      op := found;
      operations := rest;
    }
  }
}
