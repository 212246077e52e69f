/**
 The interpreter of brainfuck.cc as a pure small-step machine.

 The C++ `interpret` walks a NUL-terminated character buffer with a raw
 pointer, mutating a process-global tape and pointer and calling `exit(1)`
 on a fatal error. Here the buffer is the program text followed by one
 terminating NUL, the instruction pointer is an integer offset into it, the
 global `_state` and the `starts` stack are fields of an explicit `State`,
 and every outcome of one iteration of the dispatch loop is a value of
 `Outcome`.
 */
module Machine {

  /** Number of cells on the tape (`MEMORY_SIZE`). */
  const MemorySize: nat := 30000

  /** Number of values of a `uint16_t`, the type of the tape pointer. */
  const PointerRange: nat := 65536

  /** A tape cell: an `int8_t`. */
  type Int8 = x: int | -128 <= x < 128

  /** The tape pointer: a `uint16_t`. */
  type Uint16 = x: int | 0 <= x < PointerRange

  /** The all-zero tape the zero-initialised global `_state` starts with. */
  function ZeroTape(): (t: seq<Int8>)
    ensures |t| == MemorySize
    ensures forall i :: 0 <= i < |t| ==> t[i] == 0
  {
    seq(MemorySize, i => 0)
  }

  /** The fixed-size tape `memory[MEMORY_SIZE]`. */
  type Tape = t: seq<Int8> | |t| == MemorySize witness ZeroTape()

  /** `x + 1` on an `int8_t`, stored back with two's-complement wrap. */
  function Inc8(x: Int8): Int8
  {
    if x == 127 then -128 else x + 1
  }

  /** `x - 1` on an `int8_t`, stored back with two's-complement wrap. */
  function Dec8(x: Int8): Int8
  {
    if x == -128 then 127 else x - 1
  }

  /** `++x` on a `uint16_t`. */
  function Inc16(x: Uint16): Uint16
  {
    if x == PointerRange - 1 then 0 else x + 1
  }

  /** `--x` on a `uint16_t`. */
  function Dec16(x: Uint16): Uint16
  {
    if x == 0 then PointerRange - 1 else x - 1
  }

  /** Two's-complement narrowing of an `int` back to an `int8_t`. */
  function Wrap8(x: int): Int8
  {
    (x + 128) % 256 - 128
  }

  /** `Wrap8` is the identity on cells. */
  lemma Wrap8Id(x: Int8)
    ensures Wrap8(x) == x
  {
  }

  /** Narrowing after each addition is narrowing once at the end. */
  lemma Wrap8Add(x: int, d: int)
    ensures Wrap8(Wrap8(x) + d) == Wrap8(x + d)
  {
  }

  /** The cell steps are additions of one modulo 256. */
  lemma CellStepsWrap(x: Int8)
    ensures Inc8(x) == Wrap8(x as int + 1)
    ensures Dec8(x) == Wrap8(x as int - 1)
  {
  }

  /** The pointer steps are additions of one modulo 65536. */
  lemma PointerStepsWrap(x: Uint16)
    ensures Inc16(x) == (x + 1) % PointerRange
    ensures Dec16(x) == (x - 1) % PointerRange
  {
  }

  /** Reducing the pointer after each move is reducing once at the end. */
  lemma WrapPointerAdd(x: int, d: int)
    ensures ((x % PointerRange) + d) % PointerRange == (x + d) % PointerRange
  {
  }

  /** The terminator `main` appends to the program text. */
  const Nul: char := '\0'

  datatype Option<T> = None | Some(value: T)

  /** The character of the buffer `prog + [Nul]` at offset `i`, or `None`
      when `i` lies beyond the terminator (a read outside the buffer). */
  function Fetch(prog: seq<char>, i: nat): Option<char>
  {
    if i < |prog| then Some(prog[i])
    else if i == |prog| then Some(Nul)
    else None
  }

  /** The characters that stop the skip-scan of a `[` on a zero cell. */
  predicate StopsScan(c: char)
  {
    c == ']' || c == Nul
  }

  /** The skip-scan of a `[` on a zero cell: the first offset at or after
      `k` holding `]` or a NUL, the terminator included. No nesting depth is
      kept: the first `]` ends the scan whatever `[` lie before it. */
  function SkipScan(prog: seq<char>, k: nat): (r: nat)
    requires k <= |prog|
    ensures k <= r <= |prog|
    ensures Fetch(prog, r).Some? && StopsScan(Fetch(prog, r).value)
    ensures forall j :: k <= j < r ==> !StopsScan(prog[j])
    decreases |prog| - k
  {
    if k == |prog| || StopsScan(prog[k]) then k else SkipScan(prog, k + 1)
  }

  /** Everything one run of `interpret` reads and writes.
      `starts` is the loop-start stack with its top as the last element;
      its entries are `ptrdiff_t` values, hence `int`. */
  datatype State = State(
    tape: Tape,
    tp: Uint16,
    ip: nat,
    starts: seq<int>,
    input: seq<Int8>,
    output: seq<Int8>)

  /** The state `interpret` starts from: zero tape, pointer 0, offset 0,
      empty stack, the given input and no output. */
  function Init(input: seq<Int8>): State
  {
    State(ZeroTape(), 0, 0, [], input, [])
  }

  /** The fatal conditions that make the source print a diagnostic and
      `exit(1)`. */
  datatype Fault =
    | OutOfBounds     // `GUARD`: `+` or `-` with tp >= MEMORY_SIZE
    | EmptyLoopStack  // `]` with an empty `starts`
    | BadLoopStart    // `]` whose stacked offset is negative or not before it

  /** The result of one iteration of the dispatch loop (or of several). */
  datatype Outcome =
    | Running(next: State)   // keep going from `next`
    | Halted(final: State)   // the loop condition met a NUL
    | Error(fault: Fault)    // `exit(1)`
    | Undefined              // the source has undefined behaviour here

  /** True for the eight instruction characters. */
  predicate IsInstruction(c: char)
  {
    c == '>' || c == '<' || c == '+' || c == '-' ||
    c == '.' || c == ',' || c == '[' || c == ']'
  }

  /** One iteration of the `while (*p != '\0')` loop of `interpret`. */
  function Step(prog: seq<char>, s: State): Outcome
  {
    match Fetch(prog, s.ip)
    case None => Undefined
    case Some(c) =>
      if c == Nul then Halted(s)
      else if c == '>' then
        Running(s.(tp := Inc16(s.tp), ip := s.ip + 1))
      else if c == '<' then
        Running(s.(tp := Dec16(s.tp), ip := s.ip + 1))
      else if c == '+' then
        if s.tp >= MemorySize then Error(OutOfBounds)
        else Running(s.(tape := s.tape[s.tp := Inc8(s.tape[s.tp])], ip := s.ip + 1))
      else if c == '-' then
        if s.tp >= MemorySize then Error(OutOfBounds)
        else Running(s.(tape := s.tape[s.tp := Dec8(s.tape[s.tp])], ip := s.ip + 1))
      else if c == '.' then
        // unguarded read of memory[tp]
        if s.tp >= MemorySize then Undefined
        else Running(s.(output := s.output + [s.tape[s.tp]], ip := s.ip + 1))
      else if c == ',' then
        // unguarded write of memory[tp]; end of input is not handled
        if s.tp >= MemorySize || |s.input| == 0 then Undefined
        else Running(s.(tape := s.tape[s.tp := s.input[0]], input := s.input[1..], ip := s.ip + 1))
      else if c == '[' then
        // unguarded read of memory[tp]
        if s.tp >= MemorySize then Undefined
        else if s.tape[s.tp] != 0 then
          Running(s.(starts := s.starts + [s.ip], ip := s.ip + 1))
        else
          Running(s.(ip := SkipScan(prog, s.ip) + 1))
      else if c == ']' then
        if |s.starts| == 0 then Error(EmptyLoopStack)
        else
          var top := s.starts[|s.starts| - 1];
          // `top > OFFSET(p) - 1` is an unsigned comparison: at offset 0 the
          // right-hand side wraps to the largest value and never fails
          if top < 0 || (s.ip > 0 && top > s.ip - 1) then Error(BadLoopStart)
          else Running(s.(starts := s.starts[..|s.starts| - 1], ip := top))
      else
        // unknown character: a diagnostic on stderr, then the usual `++p`
        Running(s.(ip := s.ip + 1))
  }

  /** At most `fuel` steps from `s`; `Running` means the fuel ran out. */
  function Run(prog: seq<char>, s: State, fuel: nat): Outcome
    decreases fuel
  {
    if fuel == 0 then Running(s)
    else match Step(prog, s)
      case Running(t) => Run(prog, t, fuel - 1)
      case r => r
  }

  /** `interpret(prog)` on a fresh global state, bounded by `fuel` steps. */
  function Interpret(prog: seq<char>, input: seq<Int8>, fuel: nat): Outcome
  {
    Run(prog, Init(input), fuel)
  }
}
