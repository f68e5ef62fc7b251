/** The shared buffer of populated transactions: filled phase by phase, read, wrapped and cleared. */
module TransactionBatch {
  import opened Wrappers
  import opened Chain

  datatype Entry = Entry(call: EvmCall, comment: Option<string>)

  function CallsOf(items: seq<Entry>): (r: seq<EvmCall>)
    ensures |r| == |items| && forall i :: 0 <= i < |r| ==> r[i] == items[i].call
  {
    seq(|items|, i requires 0 <= i < |items| => items[i].call)
  }

  /** One array object; whoever read it shares it. */
  class Buffer {
    var items: seq<Entry>

    constructor ()
      ensures items == []
    {
      items := [];
    }
  }

  class Batch {
    var batch: Buffer

    constructor ()
      ensures fresh(batch) && batch.items == []
    {
      batch := new Buffer();
    }

    method AddTransaction(call: EvmCall, comment: Option<string> := None)
      modifies batch
      ensures batch.items == old(batch.items) + [Entry(call, comment)]
    {
      batch.items := batch.items + [Entry(call, comment)];
    }

    /** Hands out the array itself, not a copy. */
    method GetBatch() returns (b: Buffer)
      ensures b == batch
    {
      b := batch;
    }

    /** Installs a new array: one that was read before keeps its contents. */
    method ClearBatch()
      modifies this
      ensures fresh(batch) && batch.items == []
      ensures old(batch).items == old(batch.items)
    {
      batch := new Buffer();
    }
  }

  /** Read, wrap each transaction for `from`, and clear: what every phase of a script ends with. */
  method Flush(q: Batch, from: Address) returns (calls: seq<Call>)
    modifies q
    ensures calls == Dispatches(from, CallsOf(old(q.batch.items)))
    ensures fresh(q.batch) && q.batch.items == []
    ensures old(q.batch).items == old(q.batch.items)
  {
    var read := q.GetBatch();
    calls := Dispatches(from, CallsOf(read.items));
    q.ClearBatch();
  }

  // ---------------------------------------------------------------- any history of phases

  datatype Op = Add(call: EvmCall) | FlushAll

  /** The flushed groups and what is still buffered after a history of additions and flushes. */
  function Play(buffered: seq<EvmCall>, ops: seq<Op>): (seq<seq<EvmCall>>, seq<EvmCall>)
    decreases ops
  {
    if ops == [] then ([], buffered)
    else match ops[0]
      case Add(call) => Play(buffered + [call], ops[1..])
      case FlushAll => var (groups, rest) := Play([], ops[1..]); ([buffered] + groups, rest)
  }

  function Added(ops: seq<Op>): seq<EvmCall> {
    if ops == [] then []
    else (if ops[0].Add? then [ops[0].call] else []) + Added(ops[1..])
  }

  function Concat(groups: seq<seq<EvmCall>>): seq<EvmCall> {
    if groups == [] then [] else groups[0] + Concat(groups[1..])
  }

  /** The proposal: every flushed group, wrapped, one after the other. */
  function WrapAll(from: Address, groups: seq<seq<EvmCall>>): seq<Call> {
    if groups == [] then [] else Dispatches(from, groups[0]) + WrapAll(from, groups[1..])
  }

  /** Flushing loses, duplicates and reorders nothing: groups and rest are what was added, in order. */
  lemma {:induction false} FlushConserves(buffered: seq<EvmCall>, ops: seq<Op>)
    ensures var (groups, rest) := Play(buffered, ops);
      Concat(groups) + rest == buffered + Added(ops)
    decreases ops
  {
    if ops == [] {
    } else if ops[0].Add? {
      FlushConserves(buffered + [ops[0].call], ops[1..]);
    } else {
      FlushConserves([], ops[1..]);
      var (groups, rest) := Play([], ops[1..]);
      assert ([buffered] + groups)[1..] == groups;
    }
  }

  /** The same for the wrapped calls: each added transaction occurs once, dispatched for `from`. */
  lemma {:induction false} WrappingConserves(from: Address, groups: seq<seq<EvmCall>>)
    ensures WrapAll(from, groups) == Dispatches(from, Concat(groups))
  {
    if groups != [] {
      WrappingConserves(from, groups[1..]);
      assert Dispatches(from, groups[0] + Concat(groups[1..]))
          == Dispatches(from, groups[0]) + Dispatches(from, Concat(groups[1..]));
    }
  }
}
