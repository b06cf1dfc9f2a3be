/**
  * A chunk of bytecode: the instruction vector and the constant pool, each with
  * its own line table, and their bounds-checked getters.
  */
module Bytecode {
  import opened Wrappers
  import opened Values
  import opened LineTable

  /** The instruction set dispatched on by the virtual machine. */
  datatype Inst =
    | OpReturn
    | OpConstant(index: nat)  // index into the constant pool
    | OpNegate
    | OpAdd
    | OpSub
    | OpMul
    | OpDiv
    | OpConcat

  class Chunk {
    var ops: seq<Inst>
    var constants: seq<Value>
    const opLines: Lines
    const constantLines: Lines

    /** Each line table records exactly one line per entry of the vector it describes. */
    ghost predicate Valid()
      reads this, opLines, constantLines
    {
      && opLines != constantLines
      && opLines.Valid() && constantLines.Valid()
      && |opLines.entries| == |ops|
      && |constantLines.entries| == |constants|
    }

    constructor ()
      ensures Valid() && fresh(opLines) && fresh(constantLines)
      ensures ops == [] && constants == []
    {
      ops := [];
      constants := [];
      opLines := new Lines();
      constantLines := new Lines();
    }

    /** `get_op`: the instruction at `idx`, or None past the end. */
    function GetOp(idx: nat): (r: Option<Inst>)
      reads this
      ensures r.None? <==> idx >= |ops|
      ensures r.Some? ==> r.value == ops[idx]
    {
      if idx < |ops| then Some(ops[idx]) else None
    }

    /** `write_op`: appends `op` and records its source line. */
    method WriteOp(op: Inst, line: nat)
      requires Valid()
      modifies this, opLines
      ensures Valid()
      ensures ops == old(ops) + [op]
      ensures opLines.entries == old(opLines.entries) + [line]
      ensures constants == old(constants)
      ensures unchanged(constantLines)
    {
      ops := ops + [op];
      opLines.AddLine(line);
    }

    /** `get_constant`: a copy of the constant at `idx`, or None past the end. */
    function GetConstant(idx: nat): (r: Option<Value>)
      reads this
      ensures r.None? <==> idx >= |constants|
      ensures r.Some? ==> r.value == constants[idx]
    {
      if idx < |constants| then Some(constants[idx]) else None
    }

    /** `add_constant`: appends `value` to the pool, records its line and returns its index. */
    method AddConstant(value: Value, line: nat) returns (idx: nat)
      requires Valid()
      modifies this, constantLines
      ensures Valid()
      ensures idx == |old(constants)|
      ensures GetConstant(idx) == Some(value)
      ensures constants == old(constants) + [value]
      ensures constantLines.entries == old(constantLines.entries) + [line]
      ensures ops == old(ops)
      ensures unchanged(opLines)
    {
      constants := constants + [value];
      constantLines.AddLine(line);
      idx := |constants| - 1;
    }

    /**
      * The line column of the chunk's listing (its `Display`): one
      * `get_line(idx).unwrap()` per instruction, then one per constant.
      * Every lookup finds a line, so no unwrap can fail.
      */
    method ListingLines() returns (opLineNums: seq<nat>, constantLineNums: seq<nat>)
      requires Valid()
      ensures opLineNums == opLines.entries
      ensures constantLineNums == constantLines.entries
    {
      opLineNums := [];
      for idx := 0 to |ops|
        invariant opLineNums == opLines.entries[..idx]
      {
        var line := opLines.GetLine(idx);
        opLineNums := opLineNums + [line.value];
      }
      constantLineNums := [];
      for idx := 0 to |constants|
        invariant constantLineNums == constantLines.entries[..idx]
      {
        var line := constantLines.GetLine(idx);
        constantLineNums := constantLineNums + [line.value];
      }
    }
  }
}
