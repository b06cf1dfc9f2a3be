# nova bytecode core in Dafny

This project models three parts of the `nova` bytecode interpreter (a Rust
codebase), each as Dafny code with proved contracts:

- **The chunk and its line table** (`src/ops.rs`). A `Chunk` holds an
  instruction vector and a constant pool. `Lines` records one source line per
  appended entry, compressed into `(line, count)` runs. `add_line` either
  extends the last run or opens a new one. `get_line` decompresses by a
  linear scan. Both are modelled as a class updated in place (`lines.dfy`,
  `chunk.dfy`). The uncompressed list of lines is kept as a ghost field. The
  proofs show the run list always decodes to it, so `get_line` returns the
  line of the i-th recorded entry. They also show the encoding is canonical
  and unique.
- **The value model** (`values.dfy`) and its rendering: decimal digits, with a
  proved round trip back to the number; `true`/`false`; raw string content.
- **The virtual machine** (`vm.dfy`, with `stack.dfy` and `errors.dfy`). `run`
  is a fetch–decode–execute loop over `ip` and an operand stack. Its
  semantics is given as pure functions: `Transition` for one arm of the
  `match`, `Execute` for the whole loop. The `VM` class runs the loop in
  place, and `VM.Run` is proved to yield exactly what `Execute` gives from
  `ip` 0 on an empty stack: the same result, the same final `ip` and the same
  final stack. Lemmas then cover the loop and every opcode: how far the loop
  runs, how often it iterates, and each opcode's effect on the stack.
- **The lookahead character iterator and token helpers** (`tokens.dfy`).
  `LookaheadChars` keeps a `peek` one step behind an inner iterator. It is a
  class with the source text, the inner iterator's position and the `peek`
  field. Its invariant ties `peek` to the source.

The VM follows `src/vm.rs` as written, as a snapshot in the middle of a
refactor:

- `OpConstant(i)` fetches constant slot 10 whatever `i` is (`src/vm.rs:73`).
  When slot 10 is missing it reports "invalid index for constant" with `i`.
- `OpConcat` pops a string and pushes nothing back.
- Falling off the end of the code yields `Number(1)`. There is no `Unit` value
  in this code.
- Integer division by zero panics in Rust. The model gives it its own outcome,
  `Exit.Panic`, apart from the reported errors.
- `Value::Number` is a `usize` in the source, yet `OpNegate` negates it. The
  model uses unbounded `int` for numbers. Division rounds toward zero, as
  Rust's `/` does.
- The instruction type in `src/ops.rs:6-9` lists only `OpReturn` and
  `OpConstant`. The model's `Inst` has all eight opcodes that `run` matches
  on.

The operand stack (`FixedStack`), `expect_int`, `expect_string` and the error
macro live in files that are not part of this model. They are modelled
abstractly here:

- The stack is a sequence with a capacity fixed at creation. Its capacity is
  taken to be 2000. A push onto a full stack fails with `StackOverflow` and
  leaves the stack as it was. A pop from an empty stack fails with
  `StackUnderflow`.
- The tag checks fail with `ExpectedNumber` or `ExpectedString`, naming the
  value they rejected.

## Model

| member | source | states |
|---|---|---|
| `Values.Display` | src/ops.rs:48-58 | a string renders as its own content, a bool as `true`/`false`, a number as a non-empty text starting with `-` exactly when it is negative |
| `Values.NatToDecimal` | src/ops.rs:51 | a natural number renders as a non-empty string of decimal digits, starting with `0` only for zero (no leading zeros) |
| `Values.IntToDecimal` | src/ops.rs:51 | defines a number's text: a minus sign exactly for negative numbers, followed by decimal digits |
| `Values.DecimalRoundTrip` | src/ops.rs:51 | reading the decimal digits of `n` back gives `n` |
| `Values.DisplayNumberRoundTrip` | src/ops.rs:51 | parsing the rendering of any number gives that number back |
| `Values.DisplayNumberInjective` | src/ops.rs:51 | two numbers with the same rendering are equal |
| `LineTable.Lines.constructor` | src/ops.rs:68-72 | a new table has no runs and no recorded entries |
| `LineTable.Lines.AddLine` | src/ops.rs:74-81 | the recorded entries gain exactly `lineNum` at the end; the runs become `Record(old runs, lineNum)` (last run's count incremented when on that line, else a new run `(lineNum, 1)`); the table stays canonical and decodes to its entries |
| `LineTable.Record` | src/ops.rs:74-81 | defines `add_line` on the run list: the result has the same or one more run, and its last run is on the recorded line |
| `LineTable.RecordExpands` | src/ops.rs:74-81 | after recording, the uncompressed table is the old one plus the new line, and the sum of run counts grows by exactly one |
| `LineTable.RecordKeepsEarlierRuns` | src/ops.rs:74-81 | recording either appends `(line, 1)` to the unchanged table, or keeps the length and only increments the count of a last run already on that line; every earlier run is unchanged, and the table stays canonical (every count at least 1, no two adjacent runs on the same line) |
| `LineTable.ExpandLength` | src/ops.rs:85-97 | the number of entries that the runs decode to equals the sum of their counts |
| `LineTable.CanonicalUnique` | src/ops.rs:74-81 | two canonical run lists with the same uncompressed contents are equal, so the encoding `add_line` builds is unique |
| `LineTable.Lines.GetLine` | src/ops.rs:85-97 | returns `Some` of the line of entry `idx` of the uncompressed table when `idx` is below its length, and `None` otherwise (on an empty table as well) |
| `LineTable.ExampleTable` | src/ops.rs:160-170 | adding 12, 12, 14, 14, 14, 15 records exactly those entries in order |
| `LineTable.LinesExample` | src/ops.rs:158-177 | an empty table gives `None` at 0; after 12,12,14,14,14,15 lookups 0, 2, 4, 5 and 6 give 12, 14, 14, 15 and `None` |
| `Bytecode.Chunk.constructor` | src/ops.rs:109-113 | a new chunk has no ops, no constants and two fresh, distinct, empty line tables |
| `Bytecode.Chunk.GetOp` | src/ops.rs:117-119 | `None` exactly when `idx` is at least the number of ops, otherwise the op at `idx` |
| `Bytecode.Chunk.WriteOp` | src/ops.rs:121-124 | appends the op at the end, records its line in the op line table, leaves constants and their line table unchanged, and keeps each line table covering exactly its vector |
| `Bytecode.Chunk.GetConstant` | src/ops.rs:126-128 | `None` exactly when `idx` is at least the pool size, otherwise the constant at `idx` |
| `Bytecode.Chunk.AddConstant` | src/ops.rs:130-137 | returns the previous pool length; `GetConstant` at it yields the added value; earlier constants, ops and op lines are unchanged |
| `Bytecode.Chunk.ListingLines` | src/ops.rs:140-156 | the listing's `get_line(idx).unwrap()` succeeds for every op and every constant and yields the line each was recorded on |
| `Errors.ExpectInt` | src/vm.rs:48-49 | succeeds exactly on a number, with its value; otherwise fails naming the value |
| `Errors.ExpectString` | src/vm.rs:92-93 | succeeds exactly on a string, with its content; otherwise fails naming the value |
| `Stack.FixedStack.constructor` | src/vm.rs:24 | a new stack is empty and has the fixed capacity |
| `Stack.FixedStack.Push` | src/vm.rs:50 | succeeds exactly when the stack is below capacity and then appends the value; otherwise fails with `StackOverflow` and leaves the stack unchanged |
| `Stack.FixedStack.Pop` | src/vm.rs:66 | on a non-empty stack returns the top and removes it; on an empty one fails with `StackUnderflow` and changes nothing |
| `Stack.FixedStack.Clear` | src/vm.rs:41 | empties the stack, keeping its capacity |
| `Machine.TruncDiv` | src/vm.rs:89 | the quotient rounds toward zero: the remainder is smaller than the divisor in magnitude and has the sign of the dividend; it is ordinary division on non-negative operands |
| `Machine.Apply` | src/vm.rs:86-89 | defines `left op right`: subtracting `right` from the sum or adding it to the difference gives back `left`, the product is `left * right`, and the quotient leaves a remainder smaller than the divisor in magnitude with the dividend's sign (rounding toward zero) |
| `Machine.Arith` | src/vm.rs:44-53 | defines `bin_op!` on a stack: it completes only when the two top values are numbers (and not a division by zero), replacing them by `left op right` with the left operand the lower one; a halt is never a successful result, and a panic only comes from division |
| `Machine.Transition` | src/vm.rs:63-101 | defines one arm of the `match`: `OpReturn` always halts, and an instruction that completes keeps the values below its operands and changes the stack height by +1 (constant), 0 (negate) or -1 (binary arithmetic, concat) |
| `Machine.Execute` | src/vm.rs:55-106 | defines the loop from `ip` on: it never moves `ip` backwards, and it either stops on an existing instruction or falls off the end with `Number(1)` |
| `Machine.Propagate` | src/vm.rs:79 | a failed push stops the loop with the push's error; a successful one lets it continue |
| `Machine.ExecuteStopsAtFirstHalt` | src/vm.rs:55-106 | the loop ends at an `ip` between its start and the end of the code; reaching the end means the result is `Number(1)`; no `OpReturn` is passed over |
| `Machine.IterationsBound` | src/vm.rs:55-106 | the loop (counted by `Iterations`, which `VM.Run`'s iteration counter equals) iterates once per instruction it passes plus once where it stops, so at most `\|ops\| + 1` times from `ip` 0 |
| `Machine.ReturnPopsTop` | src/vm.rs:65-68 | `OpReturn` halts with the top of the stack, popped; on an empty stack it halts with `StackUnderflow` |
| `Machine.ConstantReadsFixedSlot` | src/vm.rs:70-80 | `OpConstant(i)` pushes constant slot 10 for every `i`, fails with `StackOverflow` on a full stack, and fails with an invalid-constant-index error carrying `i` when the pool has no slot 10; the outcome never depends on `i` when it succeeds |
| `Machine.ArithPopsRightThenLeft` | src/vm.rs:86-89 | on a stack ending `left, right` (both numbers) the arithmetic opcodes replace the two by `left op right`; division by zero panics instead |
| `Machine.ArithChecksOperands` | src/vm.rs:44-53 | a non-number on top fails before the left operand is popped; a non-number left operand fails after both pops; fewer than two values fail with `StackUnderflow` |
| `Machine.NegateTop` | src/vm.rs:81-85 | `OpNegate` replaces a number on top by its negation, rejects any other value after popping it, and fails on an empty stack |
| `Machine.ConcatDropsString` | src/vm.rs:90-101 | `OpConcat` pops a string and pushes nothing back (the stack shrinks by one), rejects any other value, and fails on an empty stack |
| `Machine.ConstantSlotExample` | src/vm.rs:73 | `[OpConstant(0), OpConstant(1), OpAdd, OpReturn]` returns 20 when slot 10 holds 10, and fails with invalid index 0 on a two-constant pool |
| `Machine.VM.constructor` | src/vm.rs:20-26 | a new machine holds the chunk, with `ip` 0 and a fresh empty stack |
| `Machine.VM.GetCurrInst` | src/vm.rs:29-33 | the instruction at `ip`, or `None` exactly when `ip` is past the last instruction |
| `Machine.VM.BinOp` | src/vm.rs:44-53 | the `bin_op!` macro run on the stack does exactly what `Arith` prescribes: same outcome, same stack afterwards |
| `Machine.VM.Dispatch` | src/vm.rs:63-101 | executing one instruction in place agrees with `Transition`: it halts exactly when `Transition` halts, with the same result, and leaves the same stack |
| `Machine.VM.Run` | src/vm.rs:38-107 | `run` resets `ip` to 0 and empties the stack, then returns what `Execute` from `ip` 0 on an empty stack returns, and leaves the same final `ip` and stack; its ghost count of loop iterations equals `Iterations` from `ip` 0 |
| `Machine.RunExample` | src/vm.rs:70-80 | a chunk with constants 2 and 3 whose code pushes both, adds and returns fails with invalid constant index 0 |
| `Tokens.ErrorToken` | src/scanner/tokens.rs:89-95 | the error token has type `TokenError`, empty content and the given line, and `IsErr` holds of it |
| `Tokens.IsErr` | src/scanner/tokens.rs:97-102 | true exactly when the token's type is `TokenError` |
| `Tokens.LookaheadChars.constructor` | src/scanner/tokens.rs:118-123 | `peek` is the first character of the source, or `None` if it is empty |
| `Tokens.LookaheadChars.Peek` | src/scanner/tokens.rs:125-127 | the character at the current position, or `None` at the end, without consuming it |
| `Tokens.LookaheadChars.PeekNext` | src/scanner/tokens.rs:129-131 | the character after the current position, or `None`, without consuming it |
| `Tokens.LookaheadChars.Next` | src/scanner/tokens.rs:136-140 | returns the current character and advances the position by one, staying at the end once the input is used up |
| `Tokens.CollectChars` | src/scanner/tokens.rs:134-141 | calling `next` until it yields `None` produces exactly the source's characters in order, and a further call still yields `None` |
| `Tokens.LookaheadExample` | src/scanner/tokens.rs:144-165 | on "23", `(peek, peek_next)` is `('2','3')`, then `('3', None)` after one `next`, then `(None, None)` after two and after four |

## Left out

- `src/lib.rs` is not part of this model. It holds the interactive REPL (terminal I/O through `rustyline`) and the logger set-up. Its tests target a different interface (`VM::new()` without a chunk, `run(chunk, bool)`, `write_constant`).
- Global variables, the string interner, the `set-global`/`get-global` opcodes and string concatenation by `OpAdd` do not appear in `src/vm.rs` as written, so they are not modelled.
- Rust lifetimes and borrowing (`Value<'obj>` holding `&String`, the `'c` lifetime of `VM`). Strings are owned `string` values here.
- The string assembly of `Chunk`'s `Display`, the `Debug`-derived rendering of `Inst` and `TokenType`, `Token`'s `Display` and `debug_print`. These are formatting only. The line lookups that `Chunk`'s `Display` performs are kept, in `Bytecode.Chunk.ListingLines`.
- Machine-width integers. Numbers, lines and run counts are unbounded: `usize` overflow in `add_line`, `get_line` and `bin_op!` is not modelled, and neither is the panic on `usize` subtraction underflow. Division by zero, the one panic the model keeps, is `Exit.Panic`.
- The internals of `FixedStack`, `expect_int`, `expect_string` and the `errc_i!` macro, and the text of their error messages. They live in files that are not part of this model. Their behaviour is modelled from how `run` uses them (with `?`), and the stack capacity of 2000 is an assumption.
- `Value::num`, which only wraps `Number`; the commented-out `Obj` enum; the value built by `left.push_str("hi")` in `OpConcat`, which is never used; `TokenType::is_single`, which always returns true.
- `Tokens.LookaheadChars.PeekNext`: `peek_next` takes `&mut self` because `Peekable` buffers the character it looks at. That buffering cannot be observed, so it is modelled as a function that reads the state and changes nothing.
