# A verified model of the `interpret` loop of a small Brainfuck interpreter

`brainfuck.cc` interprets a Brainfuck program held in a NUL-terminated
character buffer. It keeps a global tape of 30000 `int8_t` cells and a
`uint16_t` tape pointer `tp`. The instruction pointer walks the buffer, and a
stack `starts` holds the offsets of the loops that were entered. Each
character is dispatched in one iteration of a `while (*p != '\0')` loop.

This project models that loop as a pure machine:

- `Machine` (`machine.dfy`) has the state record and the one-iteration
  function `Step`. The state holds the tape, `tp`, `ip`, the loop stack, the
  remaining input and the output produced so far. `Step` returns `Running`,
  `Halted`, `Error(OutOfBounds | EmptyLoopStack | BadLoopStart)` or
  `Undefined`. The module also has the skip-scan `SkipScan`, a fuel-bounded
  `Run`, and `Interpret`, which runs from a fresh state.
- `Instructions` (`instructions.dfy`) states what each character changes and
  what it leaves alone. It also proves the small round trips: `><`, `<>`,
  `+-` and `-+`.
- `LoopStack` (`loop_stack.dfy`) holds the stack invariant and its
  preservation. It proves that the "invalid initial ']'" exit is unreachable.
- `Runs` (`runs.dfy`) proves that runs compose and that extra fuel does not
  change a finished run. It also covers I/O monotonicity and straight-line
  runs of `+`, `-`, `>` and `<` (256 `+` restore a cell).
- `Programs` (`programs.dfy`) traces whole small programs from a fresh state.

The program is the text `main` builds, without the terminator. The buffer is
that text followed by one NUL. `Fetch` reads the buffer at an offset and
returns `None` past the terminator. That is a read outside the buffer, which
is undefined in the source.

The model follows what the code does. This differs from textbook Brainfuck,
and from a design that counts nesting in the skip and tests the cell at `]`,
in four places:

- The skip of a `[` on a zero cell keeps no nesting depth. It stops at the
  first `]` (or NUL) and resumes just after it (brainfuck.cc:66, :96). So
  `+[[-]]` ends in the empty-stack error.
- `[` on a nonzero cell pushes the offset of the `[` itself, not of the
  character after it (brainfuck.cc:64).
- `]` never tests the cell. It always pops the top and jumps to that `[`
  without the usual increment, so the `[` test runs again (brainfuck.cc:85-90).
- Unknown characters print a diagnostic and are otherwise skipped
  (brainfuck.cc:93-96). Reaching the terminator with loops still open is not
  an error.

More details from the code:

- The pointer is unsigned. `>` and `<` wrap modulo 65536 and are never
  checked.
- `+` and `-` are guarded by `tp >= MEMORY_SIZE`.
- `.`, `,` and `[` read or write `memory[tp]` unguarded. With `tp >= 30000`
  they are `Undefined`.
- The bad-start check `top < 0 || top > OFFSET(p) - 1` compares as unsigned.
  At offset 0 the right-hand side wraps, so only a negative top fails there.
- A NUL inside the text halts the run when it is executed. But the skip-scan
  stops on it and the `++p` steps over it, so execution then continues after
  it.

Input and output are abstract sequences of cell values. `.` appends the
current cell to the output. `,` moves the head of the input into the current
cell. Reading with no input left is `Undefined`.

## Model

| member | source | states |
|---|---|---|
| Machine.SkipScan | brainfuck.cc:66 | the skip stops at the first offset at or after the start that holds `]` or NUL (the terminator included), with no `]` or NUL before it; `[` in between are not counted |
| Instructions.MoveRight | brainfuck.cc:41-43 | `>` changes only `tp` and `ip`; `tp` goes up by one, 65535 wraps to 0, no bounds check |
| Instructions.MoveLeft | brainfuck.cc:44-46 | `<` changes only `tp` and `ip`; `tp` goes down by one, 0 wraps to 65535, no bounds check |
| Instructions.MoveRoundTrip | brainfuck.cc:41-46 | `><` and `<>` return to the same state, apart from `ip` advancing by two, even across the wrap |
| Instructions.Increment | brainfuck.cc:47-50 | `+` fails with OutOfBounds exactly when `tp >= 30000`; otherwise only the current cell changes, by +1, 127 wrapping to -128 |
| Instructions.Decrement | brainfuck.cc:51-54 | `-` fails with OutOfBounds exactly when `tp >= 30000`; otherwise only the current cell changes, by -1, -128 wrapping to 127 |
| Instructions.AddRoundTrip | brainfuck.cc:47-54 | `+-` and `-+` on a tape cell return to the same state, apart from `ip` advancing by two |
| Instructions.Output | brainfuck.cc:55-57 | `.` appends the current cell to the output and changes nothing else; beyond the tape it is undefined |
| Instructions.Input | brainfuck.cc:58-60 | `,` moves the head of the input into the current cell and changes nothing else; with no input, or beyond the tape, it is undefined |
| Instructions.OpenEnter | brainfuck.cc:61-64 | `[` on a nonzero cell pushes the offset of the `[` itself and advances by one |
| Instructions.OpenSkip | brainfuck.cc:61-67 | `[` on a zero cell pushes nothing, changes nothing but `ip`, and resumes just after the first later `]` or NUL, with no nesting count |
| Instructions.EmptyLoopSkip | brainfuck.cc:61-68 | `[]` on a zero cell steps over both characters and changes nothing else |
| Instructions.SkipOffEnd | brainfuck.cc:61-68 | a skip with no later `]` or NUL lands one past the terminator (the `++p` of line 96), and the next step is undefined |
| Instructions.OpenUnguarded | brainfuck.cc:61-63 | `[` beyond the tape reads unguarded memory: undefined |
| Instructions.CloseEmpty | brainfuck.cc:69-76 | `]` with an empty stack fails with EmptyLoopStack, whatever the tape holds |
| Instructions.CloseIgnoresTape | brainfuck.cc:69-91 | `]` neither reads nor writes the tape or `tp`: swapping them changes its outcome only by the same swap |
| Instructions.HaltAtNul | brainfuck.cc:36 | a NUL at `ip` halts with the state unchanged, even with loops still on the stack |
| Instructions.SkipOther | brainfuck.cc:93-96 | any character other than the eight instructions and NUL only advances `ip` by one |
| Instructions.PastTerminator | brainfuck.cc:36 | an `ip` past the terminator reads outside the buffer: undefined |
| LoopStack.InitInv | brainfuck.cc:35 | the fresh, empty stack satisfies the stack invariant |
| LoopStack.PushInv | brainfuck.cc:63-64 | pushing the offset of the `[` at `ip` keeps the stack strictly increasing and every entry a `[` before the new `ip` |
| LoopStack.PopInv | brainfuck.cc:85-88 | popping the top keeps the invariant with the popped offset as the new bound, and the top is non-negative |
| LoopStack.StackUntouched | brainfuck.cc:41-60 | every character other than `[` and `]` leaves the stack alone and, if it does not halt or fail, advances `ip` by one; its only possible fault is OutOfBounds |
| LoopStack.StepInv | brainfuck.cc:39-96 | one step preserves the invariant (entries strictly increasing, each before `ip`, each the offset of a `[`) and never fails with BadLoopStart |
| LoopStack.RunInv | brainfuck.cc:36-97 | any number of steps preserve the invariant and never fail with BadLoopStart |
| LoopStack.BadLoopStartUnreachable | brainfuck.cc:77-84 | no run of any program from a fresh state reaches the "invalid initial ']'" exit |
| LoopStack.CloseReturnsToOpen | brainfuck.cc:85-90 | under the invariant, `]` with a non-empty stack pops the top and sets `ip` to it; that offset holds a `[`, and the tape, `tp` and I/O are unchanged |
| Runs.RunAdd | brainfuck.cc:36-97 | `m + n` iterations of the loop are `m` iterations followed by `n` more |
| Runs.RunSettled | brainfuck.cc:36-97 | a run that halted, failed or went undefined within `n` steps ends the same way with any larger step budget |
| Runs.HaltedAtNul | brainfuck.cc:36 | a halted run stopped at a NUL of the buffer |
| Runs.StepIo | brainfuck.cc:55-60 | one step only appends to the output and only consumes input from the front; halting changes nothing |
| Runs.RunIo | brainfuck.cc:55-60 | every run only appends to the output and only consumes input from the front |
| Runs.RepeatAdd | brainfuck.cc:47-54 | `n` consecutive `+` (or `-`) on a tape cell add (or subtract) `n` modulo 256, in two's complement, to that cell and change nothing else |
| Runs.FullTurn | brainfuck.cc:47-54 | 256 consecutive `+` (or `-`) restore the cell: the state is unchanged apart from `ip` |
| Runs.WholeTurns | brainfuck.cc:47-54 | any multiple of 256 consecutive `+` (or `-`) on a tape cell leaves the state unchanged apart from `ip` |
| Runs.RepeatRight | brainfuck.cc:41-43 | `n` consecutive `>` move `tp` up by `n` modulo 65536, unchecked, and change nothing else |
| Runs.RepeatLeft | brainfuck.cc:44-46 | `n` consecutive `<` move `tp` down by `n` modulo 65536, unchecked, and change nothing else |
| Programs.LoneClose | brainfuck.cc:69-76 | the program `]` fails with EmptyLoopStack for every input and every budget of at least one step |
| Programs.EmptyLoop | brainfuck.cc:61-68 | the program `[]` on a fresh tape halts with nothing changed |
| Programs.CountDown | brainfuck.cc:61-90 | the program `+[-]` runs its body once and halts with the tape zero again and an empty stack |
| Programs.NestedLoopFails | brainfuck.cc:61-90 | the program `+[[-]]` ends in EmptyLoopStack, because the skip ignores nesting and `]` always pops |
| Programs.UnclosedLoop | brainfuck.cc:36 | the program `+[` halts at the terminator with its `[` still on the stack; that is not an error |
| Programs.SkipPastTerminator | brainfuck.cc:61-68 | the program `[` on a fresh tape skips onto the terminator, steps past it and is undefined |
| Programs.Echo | brainfuck.cc:55-60 | the program `,.` copies the first input value to the output and leaves the rest of the input |
| Programs.ReadPastInput | brainfuck.cc:58-60 | `,` with no input left is undefined |
| Programs.MovesThenPlusRun | brainfuck.cc:41-50 | `k` copies of `>` and then `+` leave `tp` at `k` modulo 65536; on a tape cell the `+` sets it to 1 and the run halts, past the tape it fails with OutOfBounds |
| Programs.PointerWrapsAround | brainfuck.cc:41-43 | 65536 `>` bring `tp` back to cell 0, where `+` succeeds |
| Programs.PlusOnLastCell | brainfuck.cc:47-50 | 29999 `>` and then `+` succeed: the run halts with cell 29999 at 1 |
| Programs.PlusPastLastCell | brainfuck.cc:23-30 | 30000 `>` and then `+` fail with OutOfBounds |

## Left out

- `main`, which reads the program from standard input up to the first newline, and `usage` (brainfuck.cc:8-13, :103-118). This is I/O glue. The model takes the program text as a `seq<char>`, and the buffer is that text followed by one NUL.
- The trace and diagnostic output on `std::cout` and `std::cerr` (brainfuck.cc:38, :73-74, :80-82, :86, :89, :94). Only the kind of fault is modelled. The trace text is not part of the modelled output.
- The stream formatting of `.` and `,` (`operator<<` and `operator>>` on `int8_t`). `.` appends the cell value to an abstract output sequence. `,` takes the head of an abstract input sequence; the whitespace skipping and character decoding of `operator>>` are taken to have happened already. The source does not handle end of input, so `,` with no input left is `Undefined`.
- The unguarded reads and writes of `memory[tp]` by `.`, `,` and `[` when `tp >= 30000`. These are memory-unsafe in the source. They map to `Undefined`, and no bounds check is invented.
- The process-global `_state`, `exit(1)` and pointer arithmetic. They are replaced by an explicit state value, the `Error` outcome and integer offsets.
- Run: the step budget `fuel` stands in for unbounded execution. A program that does not stop shows as `Running` once the budget is spent.
- Determinism needs no lemma: `Step` and `Run` are functions.
- The "Hello World" end-to-end program is not traced. Its run is far longer than the short step-by-step traces in `Programs`.
