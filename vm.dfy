/**
  * The virtual machine: a fetch-decode-execute loop over the instructions of a
  * chunk, an instruction pointer `ip` and an operand stack. The semantics is
  * given first as functions on values (Transition for one instruction, Execute
  * for the loop); the VM class then runs the loop in place and is proved to
  * agree with them.
  */
module Machine {
  import opened Wrappers
  import opened Values
  import opened Errors
  import opened Bytecode
  import opened Stack

  /** The constant-pool slot `OpConstant` fetches, whatever its own operand is. */
  const ConstantSlot: nat := 10

  /** How a run ends: a value, a reported error, or a panic (integer division by zero). */
  datatype Exit = Ok(value: Value) | Err(error: Error) | Panic

  /** One instruction either lets the loop go on with a new stack, or ends it. */
  datatype StepResult = Continue(stack: seq<Value>) | Halt(exit: Exit, stack: seq<Value>)

  /** Where `run` stopped: its result, the final `ip` and the final operand stack. */
  datatype Final = Final(exit: Exit, ip: nat, stack: seq<Value>)

  datatype ArithOp = Add | Sub | Mul | Div

  function ArithInst(op: ArithOp): Inst
  {
    match op
    case Add => OpAdd
    case Sub => OpSub
    case Mul => OpMul
    case Div => OpDiv
  }

  function Abs(x: int): nat
  {
    if x < 0 then -x else x
  }

  /** Integer division rounding toward zero, as Rust's `/` does. */
  function TruncDiv(a: int, b: int): (q: int)
    requires b != 0
    ensures Abs(a - q * b) < Abs(b)
    ensures a - q * b == 0 || (a - q * b < 0 <==> a < 0)
    ensures a >= 0 && b > 0 ==> q == a / b
  {
    var q0, r0 := Abs(a) / Abs(b), Abs(a) % Abs(b);
    assert Abs(a) == q0 * Abs(b) + r0;
    if (a < 0) == (b < 0) then
      assert q0 * b == (if a < 0 then -(q0 * Abs(b)) else q0 * Abs(b));
      q0
    else
      assert -q0 * b == (if a < 0 then -(q0 * Abs(b)) else q0 * Abs(b));
      -q0
  }

  /** The result `left op right` that `bin_op!` pushes. */
  function Apply(op: ArithOp, left: int, right: int): (r: int)
    requires op.Div? ==> right != 0
    ensures op.Add? ==> r - right == left
    ensures op.Sub? ==> r + right == left
    ensures op.Mul? ==> r == left * right
    ensures op.Div? ==> Abs(left - r * right) < Abs(right) && (left - r * right == 0 || (left - r * right < 0 <==> left < 0))
  {
    match op
    case Add => left + right
    case Sub => left - right
    case Mul => left * right
    case Div => TruncDiv(left, right)
  }

  function Top(stack: seq<Value>): Value
    requires stack != []
  {
    stack[|stack| - 1]
  }

  function Rest(stack: seq<Value>): seq<Value>
    requires stack != []
  {
    stack[..|stack| - 1]
  }

  /** A push onto a stack of `capacity` slots. */
  function PushValue(stack: seq<Value>, capacity: nat, v: Value): StepResult
  {
    if |stack| < capacity then Continue(stack + [v]) else Halt(Err(StackOverflow), stack)
  }

  /** `bin_op!`: pop the right operand, check it, pop the left one, check it, push the result. */
  function Arith(op: ArithOp, capacity: nat, stack: seq<Value>): (r: StepResult)
    ensures r.Continue? ==>
      && |stack| >= 2 && Top(stack).Number? && Top(Rest(stack)).Number?
      && !(op.Div? && Top(stack).n == 0)
      && r.stack == Rest(Rest(stack)) + [Number(Apply(op, Top(Rest(stack)).n, Top(stack).n))]
    ensures r.Halt? ==> !r.exit.Ok?
    ensures r.Halt? && r.exit.Panic? ==> op.Div?
  {
    if stack == [] then Halt(Err(StackUnderflow), stack)
    else
      var right, s1 := Top(stack), Rest(stack);
      if !right.Number? then Halt(Err(ExpectedNumber(right)), s1)
      else if s1 == [] then Halt(Err(StackUnderflow), s1)
      else
        var left, s2 := Top(s1), Rest(s1);
        if !left.Number? then Halt(Err(ExpectedNumber(left)), s2)
        else if op.Div? && right.n == 0 then Halt(Panic, s2)
        else PushValue(s2, capacity, Number(Apply(op, left.n, right.n)))
  }

  /** One arm of the `match` in `run`, on the operand stack `stack`. */
  function Transition(inst: Inst, constants: seq<Value>, capacity: nat, stack: seq<Value>): (r: StepResult)
    // The stack effect: `OpReturn` always halts; an instruction that completes keeps
    // the values below its operands and changes the stack height by Delta.
    ensures inst.OpReturn? ==> r.Halt?
    ensures r.Continue? ==>
      && Pops(inst) <= |stack|
      && |r.stack| == |stack| + Delta(inst)
      && r.stack[..|stack| - Pops(inst)] == stack[..|stack| - Pops(inst)]
  {
    match inst
    case OpReturn =>
      if stack == [] then Halt(Err(StackUnderflow), stack) else Halt(Ok(Top(stack)), Rest(stack))
    case OpConstant(i) =>
      if ConstantSlot < |constants| then PushValue(stack, capacity, constants[ConstantSlot])
      else Halt(Err(InvalidConstantIndex(i)), stack)
    case OpNegate =>
      if stack == [] then Halt(Err(StackUnderflow), stack)
      else if !Top(stack).Number? then Halt(Err(ExpectedNumber(Top(stack))), Rest(stack))
      else PushValue(Rest(stack), capacity, Number(-Top(stack).n))
    case OpAdd => Arith(Add, capacity, stack)
    case OpSub => Arith(Sub, capacity, stack)
    case OpMul => Arith(Mul, capacity, stack)
    case OpDiv => Arith(Div, capacity, stack)
    case OpConcat =>
      if stack == [] then Halt(Err(StackUnderflow), stack)
      else if !Top(stack).ObjString? then Halt(Err(ExpectedString(Top(stack))), Rest(stack))
      else Continue(Rest(stack))
  }

  /** The loop of `run` from instruction `ip` on: fall off the end with Number(1), or stop where a step halts. */
  function Execute(ops: seq<Inst>, constants: seq<Value>, capacity: nat, ip: nat, stack: seq<Value>): (f: Final)
    ensures ip <= f.ip
    ensures f.ip < |ops| || f.exit == Ok(Number(1))
    decreases |ops| - ip
  {
    if ip >= |ops| then Final(Ok(Number(1)), ip, stack)
    else
      match Transition(ops[ip], constants, capacity, stack)
      case Halt(exit, s) => Final(exit, ip, s)
      case Continue(s) => Execute(ops, constants, capacity, ip + 1, s)
  }

  /** How many times the loop fetches (and tries to fetch) an instruction from `ip` on. */
  function Iterations(ops: seq<Inst>, constants: seq<Value>, capacity: nat, ip: nat, stack: seq<Value>): nat
    decreases |ops| - ip
  {
    if ip >= |ops| then 1
    else
      match Transition(ops[ip], constants, capacity, stack)
      case Halt(_, _) => 1
      case Continue(s) => 1 + Iterations(ops, constants, capacity, ip + 1, s)
  }

  /**
    * The loop only moves forward and stops at its first halting instruction:
    * it ends at or before the end of the code, no `OpReturn` is passed over,
    * and ending at the end of the code means it fell off with Number(1).
    */
  lemma {:induction false} ExecuteStopsAtFirstHalt(ops: seq<Inst>, constants: seq<Value>, capacity: nat, ip: nat, stack: seq<Value>)
    requires ip <= |ops|
    ensures var f := Execute(ops, constants, capacity, ip, stack);
      && ip <= f.ip <= |ops|
      && (f.ip == |ops| ==> f.exit == Ok(Number(1)))
      && (forall k :: ip <= k < f.ip ==> !ops[k].OpReturn?)
    decreases |ops| - ip
  {
    if ip < |ops| {
      match Transition(ops[ip], constants, capacity, stack)
      case Halt(_, _) =>
      case Continue(s) =>
        ExecuteStopsAtFirstHalt(ops, constants, capacity, ip + 1, s);
    }
  }

  /** The loop runs once per instruction it passes, plus the one where it stops: at most |ops| - ip + 1 times. */
  lemma {:induction false} IterationsBound(ops: seq<Inst>, constants: seq<Value>, capacity: nat, ip: nat, stack: seq<Value>)
    requires ip <= |ops|
    ensures Iterations(ops, constants, capacity, ip, stack) == Execute(ops, constants, capacity, ip, stack).ip - ip + 1
    ensures Iterations(ops, constants, capacity, ip, stack) <= |ops| - ip + 1
    decreases |ops| - ip
  {
    ExecuteStopsAtFirstHalt(ops, constants, capacity, ip, stack);
    if ip < |ops| {
      match Transition(ops[ip], constants, capacity, stack)
      case Halt(_, _) =>
      case Continue(s) =>
        IterationsBound(ops, constants, capacity, ip + 1, s);
    }
  }

  /** `OpReturn` ends the run with the popped top of the stack; on an empty stack the underflow is the result. */
  lemma ReturnPopsTop(constants: seq<Value>, capacity: nat, s: seq<Value>, v: Value)
    ensures Transition(OpReturn, constants, capacity, s + [v]) == Halt(Ok(v), s)
    ensures Transition(OpReturn, constants, capacity, []) == Halt(Err(StackUnderflow), [])
  {
  }

  /** `OpConstant(i)` pushes constant slot 10 for every `i`; if that slot is absent the error carries `i`. */
  lemma ConstantReadsFixedSlot(i: nat, constants: seq<Value>, capacity: nat, s: seq<Value>)
    ensures ConstantSlot < |constants| && |s| < capacity ==>
      Transition(OpConstant(i), constants, capacity, s) == Continue(s + [constants[ConstantSlot]])
    ensures ConstantSlot < |constants| && |s| >= capacity ==>
      Transition(OpConstant(i), constants, capacity, s) == Halt(Err(StackOverflow), s)
    ensures |constants| <= ConstantSlot ==>
      Transition(OpConstant(i), constants, capacity, s) == Halt(Err(InvalidConstantIndex(i)), s)
    ensures forall j: nat :: Transition(OpConstant(i), constants, capacity, s).Continue? ==>
      Transition(OpConstant(j), constants, capacity, s) == Transition(OpConstant(i), constants, capacity, s)
  {
  }

  /** The arithmetic opcodes take the right operand from the top and the left one below it, and push `left op right`. */
  lemma ArithPopsRightThenLeft(op: ArithOp, constants: seq<Value>, capacity: nat, s: seq<Value>, left: int, right: int)
    requires |s| + 2 <= capacity
    ensures op.Div? && right == 0 ==>
      Transition(ArithInst(op), constants, capacity, s + [Number(left), Number(right)]) == Halt(Panic, s)
    ensures !(op.Div? && right == 0) ==>
      Transition(ArithInst(op), constants, capacity, s + [Number(left), Number(right)])
        == Continue(s + [Number(Apply(op, left, right))])
  {
  }

  /** Each operand of an arithmetic opcode must be a number: the right one is checked before the left one is popped. */
  lemma ArithChecksOperands(op: ArithOp, constants: seq<Value>, capacity: nat, s: seq<Value>, left: Value, right: Value)
    ensures !right.Number? ==>
      Transition(ArithInst(op), constants, capacity, s + [left, right]) == Halt(Err(ExpectedNumber(right)), s + [left])
    ensures right.Number? && !left.Number? ==>
      Transition(ArithInst(op), constants, capacity, s + [left, right]) == Halt(Err(ExpectedNumber(left)), s)
    ensures right.Number? ==>
      Transition(ArithInst(op), constants, capacity, [right]) == Halt(Err(StackUnderflow), [])
    ensures Transition(ArithInst(op), constants, capacity, []) == Halt(Err(StackUnderflow), [])
  {
  }

  /** `OpNegate` replaces a number on top by its negation and rejects any other value. */
  lemma NegateTop(constants: seq<Value>, capacity: nat, s: seq<Value>, v: Value)
    requires |s| < capacity
    ensures v.Number? ==> Transition(OpNegate, constants, capacity, s + [v]) == Continue(s + [Number(-v.n)])
    ensures !v.Number? ==> Transition(OpNegate, constants, capacity, s + [v]) == Halt(Err(ExpectedNumber(v)), s)
    ensures Transition(OpNegate, constants, capacity, []) == Halt(Err(StackUnderflow), [])
  {
  }

  /** `OpConcat` pops a string and pushes nothing back; any other value is rejected. */
  lemma ConcatDropsString(constants: seq<Value>, capacity: nat, s: seq<Value>, v: Value)
    ensures v.ObjString? ==> Transition(OpConcat, constants, capacity, s + [v]) == Continue(s)
    ensures !v.ObjString? ==> Transition(OpConcat, constants, capacity, s + [v]) == Halt(Err(ExpectedString(v)), s)
    ensures Transition(OpConcat, constants, capacity, []) == Halt(Err(StackUnderflow), [])
  {
  }

  /** How many values an instruction takes off the stack. */
  function Pops(inst: Inst): nat
  {
    match inst
    case OpReturn => 1
    case OpConstant(_) => 0
    case OpNegate => 1
    case OpConcat => 1
    case _ => 2
  }

  /** How much a completed instruction changes the height of the stack. */
  function Delta(inst: Inst): int
  {
    match inst
    case OpReturn => -1
    case OpConstant(_) => 1
    case OpNegate => 0
    case _ => -1
  }

  /** A small program as written: both constants come from slot 10, whatever their operands say. */
  lemma ConstantSlotExample()
    ensures var ops := [OpConstant(0), OpConstant(1), OpAdd, OpReturn];
      && Execute(ops, seq(11, i => Number(i)), StackMax, 0, []) == Final(Ok(Number(20)), 3, [])
      && Execute(ops, [Number(2), Number(3)], StackMax, 0, []) == Final(Err(InvalidConstantIndex(0)), 0, [])
  {
  }

  /** Whether the handler's halt flag and the stack it left agree with Transition's verdict. */
  ghost predicate Agrees(t: StepResult, halt: Option<Exit>, items: seq<Value>)
  {
    && items == t.stack
    && (halt.Some? <==> t.Halt?)
    && (halt.Some? ==> halt.value == t.exit)
  }

  /** The `?` applied to a push: a failed push stops the loop with its error. */
  function Propagate(pushed: Outcome<Error>): (halt: Option<Exit>)
    ensures halt.None? <==> pushed.Pass?
    ensures pushed.Fail? ==> halt == Some(Err(pushed.error))
  {
    match pushed
    case Pass => None
    case Fail(e) => Some(Err(e))
  }

  class VM {
    const chunk: Chunk
    /** Index of the next instruction to execute. */
    var ip: nat
    const valueStack: FixedStack

    ghost predicate Valid()
      reads this, valueStack
    {
      valueStack.Valid() && valueStack.capacity == StackMax
    }

    /** `VM::new`: takes the chunk, with `ip` 0 and an empty stack. */
    constructor (chunk: Chunk)
      ensures Valid()
      ensures this.chunk == chunk && ip == 0 && valueStack.items == [] && fresh(valueStack)
    {
      this.chunk := chunk;
      ip := 0;
      valueStack := new FixedStack();
    }

    /** `get_curr_inst`: the instruction at `ip`, or None once `ip` is past the last one. */
    function GetCurrInst(): (r: Option<Inst>)
      reads this, chunk
      ensures r.Some? <==> ip < |chunk.ops|
      ensures r.Some? ==> r.value == chunk.ops[ip]
    {
      chunk.GetOp(ip)
    }

    /** The `bin_op!` macro. */
    method BinOp(op: ArithOp) returns (halt: Option<Exit>)
      requires Valid()
      modifies valueStack
      ensures Valid()
      ensures Agrees(Arith(op, StackMax, old(valueStack.items)), halt, valueStack.items)
    {
      var right := valueStack.Pop();
      if right.Failure? {
        return Some(Err(right.error));
      }
      var r := ExpectInt(right.value);
      if r.Failure? {
        return Some(Err(r.error));
      }
      var left := valueStack.Pop();
      if left.Failure? {
        return Some(Err(left.error));
      }
      var l := ExpectInt(left.value);
      if l.Failure? {
        return Some(Err(l.error));
      }
      if op.Div? && r.value == 0 {
        return Some(Panic);
      }
      var pushed := valueStack.Push(Number(Apply(op, l.value, r.value)));
      return Propagate(pushed);
    }

    /** One arm of the `match` in `run`: executes `inst`; `halt` is Some when the loop must stop with it. */
    method Dispatch(inst: Inst) returns (halt: Option<Exit>)
      requires Valid()
      modifies valueStack
      ensures Valid()
      ensures Agrees(Transition(inst, chunk.constants, StackMax, old(valueStack.items)), halt, valueStack.items)
    {
      match inst
      case OpReturn =>
        var res := valueStack.Pop();
        if res.Failure? {
          return Some(Err(res.error));
        }
        return Some(Ok(res.value));
      case OpConstant(i) =>
        var ct := chunk.GetConstant(ConstantSlot);
        if ct.None? {
          return Some(Err(InvalidConstantIndex(i)));
        }
        var pushed := valueStack.Push(ct.value);
        return Propagate(pushed);
      case OpNegate =>
        var top := valueStack.Pop();
        if top.Failure? {
          return Some(Err(top.error));
        }
        var n := ExpectInt(top.value);
        if n.Failure? {
          return Some(Err(n.error));
        }
        var pushed := valueStack.Push(Number(-n.value));
        return Propagate(pushed);
      case OpAdd =>
        halt := BinOp(Add);
      case OpSub =>
        halt := BinOp(Sub);
      case OpMul =>
        halt := BinOp(Mul);
      case OpDiv =>
        halt := BinOp(Div);
      case OpConcat =>
        var left := valueStack.Pop();
        if left.Failure? {
          return Some(Err(left.error));
        }
        var str := ExpectString(left.value);
        if str.Failure? {
          return Some(Err(str.error));
        }
        return None;
    }

    /**
      * `run`: resets `ip` and the stack, then fetches and executes instructions
      * until one halts or `ip` runs past the last one. The result, the final
      * `ip` and the final stack are those of Execute from `ip` 0 on an empty stack.
      */
    method Run() returns (r: Exit, ghost iterations: nat)
      requires Valid()
      modifies this, valueStack
      ensures Valid()
      ensures var f := Execute(chunk.ops, chunk.constants, StackMax, 0, []);
        r == f.exit && ip == f.ip && valueStack.items == f.stack
      ensures iterations == Iterations(chunk.ops, chunk.constants, StackMax, 0, [])
    {
      ip := 0;
      valueStack.Clear();
      iterations := 0;
      while true
        invariant Valid()
        invariant ip <= |chunk.ops|
        invariant Execute(chunk.ops, chunk.constants, StackMax, ip, valueStack.items)
               == Execute(chunk.ops, chunk.constants, StackMax, 0, [])
        invariant iterations + Iterations(chunk.ops, chunk.constants, StackMax, ip, valueStack.items)
               == Iterations(chunk.ops, chunk.constants, StackMax, 0, [])
        decreases |chunk.ops| - ip
      {
        iterations := iterations + 1;
        var curr := GetCurrInst();
        if curr.None? {
          return Ok(Number(1)), iterations;
        }
        var halt := Dispatch(curr.value);
        if halt.Some? {
          return halt.value, iterations;
        }
        ip := ip + 1;
      }
    }
  }

  /**
    * A chunk built through its own API and run on a fresh machine: it adds 2 and 3
    * into the pool at slots 0 and 1 and pushes both, but the fetch from slot 10 fails.
    */
  method RunExample() returns (r: Exit)
    ensures r == Err(InvalidConstantIndex(0))
  {
    var chunk := new Chunk();
    var two := chunk.AddConstant(Number(2), 1);
    var three := chunk.AddConstant(Number(3), 1);
    chunk.WriteOp(OpConstant(two), 1);
    chunk.WriteOp(OpConstant(three), 1);
    chunk.WriteOp(OpAdd, 1);
    chunk.WriteOp(OpReturn, 1);
    var vm := new VM(chunk);
    ghost var iterations;
    r, iterations := vm.Run();
  }
}
