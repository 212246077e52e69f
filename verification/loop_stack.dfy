/**
 The invariant of the loop-start stack `starts`.

 Every entry was pushed by a `[` taken on a nonzero cell, at that `[`'s own
 offset, and a `]` pops the top and jumps back to it. So the entries are
 strictly increasing from bottom to top, each lies before the instruction
 pointer, and each is the offset of a `[` of the program. One step keeps
 this, the initial state has it, and under it the "invalid initial ']'"
 exit can never be taken.
 */
module LoopStack {
  import opened Machine

  /** Strictly increasing from bottom (index 0) to top. */
  predicate Increasing(xs: seq<int>)
  {
    forall i, j :: 0 <= i < j < |xs| ==> xs[i] < xs[j]
  }

  /** Every entry is the offset of a `[` of `prog` lying before `ip`. */
  predicate EntriesOpenBefore(prog: seq<char>, xs: seq<int>, ip: nat)
  {
    forall i :: 0 <= i < |xs| ==> 0 <= xs[i] < ip && xs[i] < |prog| && prog[xs[i]] == '['
  }

  predicate StackInv(prog: seq<char>, s: State)
  {
    Increasing(s.starts) && EntriesOpenBefore(prog, s.starts, s.ip)
  }

  /** The empty stack of a fresh run satisfies the invariant. */
  lemma InitInv(prog: seq<char>, input: seq<Int8>)
    ensures StackInv(prog, Init(input))
  {
  }

  /** Pushing the offset of the `[` at `ip` keeps the invariant, now bounded
      by the next offset. */
  lemma PushInv(prog: seq<char>, xs: seq<int>, ip: nat)
    requires Increasing(xs) && EntriesOpenBefore(prog, xs, ip)
    requires ip < |prog| && prog[ip] == '['
    ensures Increasing(xs + [ip]) && EntriesOpenBefore(prog, xs + [ip], ip + 1)
  {
    var ys := xs + [ip];
    forall i, j | 0 <= i < j < |ys|
      ensures ys[i] < ys[j]
    {
      if j < |xs| {
        assert ys[i] == xs[i] && ys[j] == xs[j];
      } else {
        assert ys[i] == xs[i] < ip == ys[j];
      }
    }
  }

  /** Popping the top keeps the invariant, now bounded by the popped offset. */
  lemma PopInv(prog: seq<char>, xs: seq<int>, ip: nat)
    requires Increasing(xs) && EntriesOpenBefore(prog, xs, ip)
    requires |xs| > 0
    ensures xs[|xs| - 1] >= 0
    ensures Increasing(xs[..|xs| - 1])
    ensures EntriesOpenBefore(prog, xs[..|xs| - 1], xs[|xs| - 1])
  {
    var ys := xs[..|xs| - 1];
    forall i | 0 <= i < |ys|
      ensures 0 <= ys[i] < xs[|xs| - 1] && ys[i] < |prog| && prog[ys[i]] == '['
    {
      assert ys[i] == xs[i];
    }
  }

  /** One step keeps the invariant and never ends in `BadLoopStart`. */
  lemma StepInv(prog: seq<char>, s: State)
    requires StackInv(prog, s)
    ensures Step(prog, s) != Error(BadLoopStart)
    ensures Step(prog, s).Running? ==> StackInv(prog, Step(prog, s).next)
    ensures Step(prog, s).Halted? ==> StackInv(prog, Step(prog, s).final)
  {
    match Fetch(prog, s.ip)
    case None =>
    case Some(c) =>
      if c == '[' {
        if s.tp < MemorySize && s.tape[s.tp] != 0 {
          PushInv(prog, s.starts, s.ip);
          assert Step(prog, s) == Running(s.(starts := s.starts + [s.ip], ip := s.ip + 1));
        } else if s.tp < MemorySize {
          var k := SkipScan(prog, s.ip);
          assert Step(prog, s) == Running(s.(ip := k + 1));
        }
      } else if c == ']' {
        if |s.starts| > 0 {
          PopInv(prog, s.starts, s.ip);
          var top := s.starts[|s.starts| - 1];
          assert Step(prog, s) == Running(s.(starts := s.starts[..|s.starts| - 1], ip := top));
        }
      } else {
        StackUntouched(prog, s, c);
      }
  }

  /** Every character but `[` and `]` leaves the stack alone and, unless it
      halts or fails, moves on by one. */
  lemma StackUntouched(prog: seq<char>, s: State, c: char)
    requires Fetch(prog, s.ip) == Some(c) && c != '[' && c != ']'
    ensures Step(prog, s).Running? ==>
      Step(prog, s).next.starts == s.starts && Step(prog, s).next.ip == s.ip + 1
    ensures Step(prog, s).Halted? ==> Step(prog, s).final == s
    ensures !Step(prog, s).Error? || Step(prog, s).fault == OutOfBounds
  {
  }

  /** Any number of steps keeps the invariant and never ends in
      `BadLoopStart`. */
  lemma {:induction false} RunInv(prog: seq<char>, s: State, fuel: nat)
    requires StackInv(prog, s)
    ensures Run(prog, s, fuel) != Error(BadLoopStart)
    ensures Run(prog, s, fuel).Running? ==> StackInv(prog, Run(prog, s, fuel).next)
    ensures Run(prog, s, fuel).Halted? ==> StackInv(prog, Run(prog, s, fuel).final)
    decreases fuel
  {
    if fuel > 0 {
      StepInv(prog, s);
      match Step(prog, s)
      case Running(t) => RunInv(prog, t, fuel - 1);
      case _ =>
    }
  }

  /** The "invalid initial ']'" exit of `interpret` is unreachable: no run
      of any program from a fresh state ends with `BadLoopStart`. */
  lemma BadLoopStartUnreachable(prog: seq<char>, input: seq<Int8>, fuel: nat)
    ensures Interpret(prog, input, fuel) != Error(BadLoopStart)
    ensures Interpret(prog, input, fuel).Running? ==>
              StackInv(prog, Interpret(prog, input, fuel).next)
  {
    InitInv(prog, input);
    RunInv(prog, Init(input), fuel);
  }

  /** Under the invariant, a `]` with a non-empty stack pops the top and
      jumps to it without the usual increment, landing on a `[` that is then
      evaluated again; the tape, pointer and I/O are left alone. */
  lemma CloseReturnsToOpen(prog: seq<char>, s: State)
    requires StackInv(prog, s)
    requires Fetch(prog, s.ip) == Some(']') && |s.starts| > 0
    ensures Step(prog, s).Running?
    ensures Step(prog, s).next.ip == s.starts[|s.starts| - 1]
    ensures Step(prog, s).next.starts == s.starts[..|s.starts| - 1]
    ensures Fetch(prog, Step(prog, s).next.ip) == Some('[')
    ensures Step(prog, s).next.tape == s.tape && Step(prog, s).next.tp == s.tp
    ensures Step(prog, s).next.input == s.input && Step(prog, s).next.output == s.output
  {
  }
}
