/**
 What each character does in one step of `interpret`, stated as what changes
 and what stays the same, together with the small round trips between
 instructions that undo each other.
 */
module Instructions {
  import opened Machine

  /** `>` only moves `tp` up by one, wrapping at 65536; no bounds check. */
  lemma MoveRight(prog: seq<char>, s: State)
    requires Fetch(prog, s.ip) == Some('>')
    ensures Step(prog, s).Running?
    ensures Step(prog, s).next == s.(tp := Step(prog, s).next.tp, ip := s.ip + 1)
    ensures Step(prog, s).next.tp == if s.tp == PointerRange - 1 then 0 else s.tp + 1
  {
  }

  /** `<` only moves `tp` down by one, wrapping at 0; no bounds check. */
  lemma MoveLeft(prog: seq<char>, s: State)
    requires Fetch(prog, s.ip) == Some('<')
    ensures Step(prog, s).Running?
    ensures Step(prog, s).next == s.(tp := Step(prog, s).next.tp, ip := s.ip + 1)
    ensures Step(prog, s).next.tp == if s.tp == 0 then PointerRange - 1 else s.tp - 1
  {
  }

  /** `><` and `<>` leave the pointer where it was, even across the wrap. */
  lemma MoveRoundTrip(prog: seq<char>, s: State)
    requires || (Fetch(prog, s.ip) == Some('>') && Fetch(prog, s.ip + 1) == Some('<'))
             || (Fetch(prog, s.ip) == Some('<') && Fetch(prog, s.ip + 1) == Some('>'))
    ensures Run(prog, s, 2) == Running(s.(ip := s.ip + 2))
  {
    var t := Step(prog, s).next;
    assert t == s.(tp := t.tp, ip := s.ip + 1);
    assert Step(prog, t) == Running(s.(ip := s.ip + 2));
    assert Run(prog, s, 2) == Run(prog, t, 1);
  }

  /** `+` fails with `OutOfBounds` at or beyond the tape's end; otherwise it
      only changes the current cell, by one, wrapping from 127 to -128. */
  lemma Increment(prog: seq<char>, s: State)
    requires Fetch(prog, s.ip) == Some('+')
    ensures s.tp >= MemorySize <==> Step(prog, s) == Error(OutOfBounds)
    ensures s.tp < MemorySize ==>
      && Step(prog, s).Running?
      && Step(prog, s).next == s.(tape := Step(prog, s).next.tape, ip := s.ip + 1)
      && (forall j :: 0 <= j < MemorySize && j != s.tp ==> Step(prog, s).next.tape[j] == s.tape[j])
      && Step(prog, s).next.tape[s.tp] == if s.tape[s.tp] == 127 then -128 else s.tape[s.tp] + 1
  {
  }

  /** `-` fails with `OutOfBounds` at or beyond the tape's end; otherwise it
      only changes the current cell, by minus one, wrapping from -128 to 127. */
  lemma Decrement(prog: seq<char>, s: State)
    requires Fetch(prog, s.ip) == Some('-')
    ensures s.tp >= MemorySize <==> Step(prog, s) == Error(OutOfBounds)
    ensures s.tp < MemorySize ==>
      && Step(prog, s).Running?
      && Step(prog, s).next == s.(tape := Step(prog, s).next.tape, ip := s.ip + 1)
      && (forall j :: 0 <= j < MemorySize && j != s.tp ==> Step(prog, s).next.tape[j] == s.tape[j])
      && Step(prog, s).next.tape[s.tp] == if s.tape[s.tp] == -128 then 127 else s.tape[s.tp] - 1
  {
  }

  /** `+-` and `-+` on a cell of the tape leave the state as it was. */
  lemma AddRoundTrip(prog: seq<char>, s: State)
    requires s.tp < MemorySize
    requires || (Fetch(prog, s.ip) == Some('+') && Fetch(prog, s.ip + 1) == Some('-'))
             || (Fetch(prog, s.ip) == Some('-') && Fetch(prog, s.ip + 1) == Some('+'))
    ensures Run(prog, s, 2) == Running(s.(ip := s.ip + 2))
  {
    var t := Step(prog, s).next;
    assert t == s.(tape := t.tape, ip := s.ip + 1);
    assert t.tape[s.tp := s.tape[s.tp]] == s.tape;
    assert Step(prog, t) == Running(s.(ip := s.ip + 2));
    assert Run(prog, s, 2) == Run(prog, t, 1);
  }

  /** `.` appends the current cell to the output and changes nothing else;
      beyond the tape's end the read is undefined. */
  lemma Output(prog: seq<char>, s: State)
    requires Fetch(prog, s.ip) == Some('.')
    ensures s.tp >= MemorySize <==> Step(prog, s) == Undefined
    ensures s.tp < MemorySize ==>
      Step(prog, s) == Running(s.(output := s.output + [s.tape[s.tp]], ip := s.ip + 1))
  {
  }

  /** `,` moves the head of the input into the current cell and changes
      nothing else; with no input left, or beyond the tape's end, it is
      undefined. */
  lemma Input(prog: seq<char>, s: State)
    requires Fetch(prog, s.ip) == Some(',')
    ensures s.tp >= MemorySize || s.input == [] <==> Step(prog, s) == Undefined
    ensures s.tp < MemorySize && s.input != [] ==>
      && Step(prog, s).Running?
      && Step(prog, s).next == s.(tape := s.tape[s.tp := s.input[0]], input := s.input[1..], ip := s.ip + 1)
      && [Step(prog, s).next.tape[s.tp]] + Step(prog, s).next.input == s.input
  {
  }

  /** `[` on a nonzero cell pushes its own offset and moves on by one. */
  lemma OpenEnter(prog: seq<char>, s: State)
    requires Fetch(prog, s.ip) == Some('[')
    requires s.tp < MemorySize && s.tape[s.tp] != 0
    ensures Step(prog, s) == Running(s.(starts := s.starts + [s.ip], ip := s.ip + 1))
    ensures prog[Step(prog, s).next.starts[|s.starts|]] == '['
  {
  }

  /** `[` on a zero cell pushes nothing and resumes just after the first
      later `]` (or NUL): no nesting depth is counted, so `[` characters in
      between do not delay the stop. */
  lemma OpenSkip(prog: seq<char>, s: State)
    requires Fetch(prog, s.ip) == Some('[')
    requires s.tp < MemorySize && s.tape[s.tp] == 0
    ensures Step(prog, s).Running?
    ensures Step(prog, s).next == s.(ip := Step(prog, s).next.ip)
    ensures s.ip + 1 < Step(prog, s).next.ip
    ensures StopsScan(Fetch(prog, Step(prog, s).next.ip - 1).value)
    ensures forall j :: s.ip < j < Step(prog, s).next.ip - 1 ==> prog[j] != ']' && prog[j] != Nul
  {
  }

  /** `[` on a zero cell directly followed by `]` just steps over both. */
  lemma EmptyLoopSkip(prog: seq<char>, s: State)
    requires Fetch(prog, s.ip) == Some('[') && Fetch(prog, s.ip + 1) == Some(']')
    requires s.tp < MemorySize && s.tape[s.tp] == 0
    ensures Step(prog, s) == Running(s.(ip := s.ip + 2))
  {
    assert SkipScan(prog, s.ip + 1) == s.ip + 1;
  }

  /** `[` on a zero cell with no later `]` or NUL scans to the terminator,
      and the `++p` after it leaves the buffer: the next step is undefined. */
  lemma SkipOffEnd(prog: seq<char>, s: State)
    requires Fetch(prog, s.ip) == Some('[')
    requires s.tp < MemorySize && s.tape[s.tp] == 0
    requires forall j :: s.ip < j < |prog| ==> prog[j] != ']' && prog[j] != Nul
    ensures Step(prog, s) == Running(s.(ip := |prog| + 1))
    ensures Run(prog, s, 2) == Undefined
  {
    var k := SkipScan(prog, s.ip);
    assert k == |prog|;
    assert Run(prog, s, 2) == Run(prog, s.(ip := |prog| + 1), 1);
  }

  /** `[` reads the current cell without a guard: beyond the tape's end it
      is undefined. */
  lemma OpenUnguarded(prog: seq<char>, s: State)
    requires Fetch(prog, s.ip) == Some('[') && s.tp >= MemorySize
    ensures Step(prog, s) == Undefined
  {
  }

  /** `]` with an empty stack fails, whatever the cell holds. */
  lemma CloseEmpty(prog: seq<char>, s: State)
    requires Fetch(prog, s.ip) == Some(']') && s.starts == []
    ensures Step(prog, s) == Error(EmptyLoopStack)
  {
  }

  /** `]` never reads or writes the tape or the pointer: replacing both
      changes its outcome only by the same replacement. */
  lemma CloseIgnoresTape(prog: seq<char>, s: State, tape: Tape, tp: Uint16)
    requires Fetch(prog, s.ip) == Some(']')
    ensures Step(prog, s).Running? <==> Step(prog, s.(tape := tape, tp := tp)).Running?
    ensures Step(prog, s).Error? ==> Step(prog, s.(tape := tape, tp := tp)) == Step(prog, s)
    ensures Step(prog, s).Running? ==>
      && Step(prog, s).next.tape == s.tape && Step(prog, s).next.tp == s.tp
      && Step(prog, s.(tape := tape, tp := tp)).next == Step(prog, s).next.(tape := tape, tp := tp)
  {
  }

  /** A NUL ends the run with the state as it is; a non-empty loop stack at
      that point is not an error. */
  lemma HaltAtNul(prog: seq<char>, s: State)
    requires Fetch(prog, s.ip) == Some(Nul)
    ensures Step(prog, s) == Halted(s)
  {
  }

  /** Any character outside the eight instructions (and not NUL) only
      advances `ip` by one. */
  lemma SkipOther(prog: seq<char>, s: State, c: char)
    requires Fetch(prog, s.ip) == Some(c) && !IsInstruction(c) && c != Nul
    ensures Step(prog, s) == Running(s.(ip := s.ip + 1))
  {
  }

  /** An offset past the terminator reads outside the buffer. */
  lemma PastTerminator(prog: seq<char>, s: State)
    requires s.ip > |prog|
    ensures Step(prog, s) == Undefined
  {
  }
}
