/**
 Whole runs of small programs from a fresh state, showing how the loop
 machinery of `interpret` actually behaves: `]` always pops and jumps back,
 and the skip of a `[` on a zero cell stops at the first `]`.
 */
module Programs {
  import opened Machine
  import opened Runs

  /** `]` alone fails on the empty stack, with any input and any budget. */
  lemma LoneClose(input: seq<Int8>, fuel: nat)
    requires fuel >= 1
    ensures Interpret("]", input, fuel) == Error(EmptyLoopStack)
  {
    assert Run("]", Init(input), 1) == Error(EmptyLoopStack);
    RunSettled("]", Init(input), 1, fuel);
  }

  /** `[]` on the zero cell of a fresh tape is a no-op that halts cleanly. */
  lemma EmptyLoop(input: seq<Int8>, fuel: nat)
    requires fuel >= 2
    ensures Interpret("[]", input, fuel) == Halted(Init(input).(ip := 2))
  {
    var p := "[]";
    var z := Init(input);
    assert SkipScan(p, 0) == 1 by {
      assert SkipScan(p, 1) == 1;
    }
    assert Step(p, z) == Running(z.(ip := 2));
    assert Run(p, z.(ip := 2), 1) == Halted(z.(ip := 2));
    assert Run(p, z, 2) == Halted(z.(ip := 2));
    RunSettled(p, z, 2, fuel);
  }

  /** `+[-]` runs its body once: `[` pushes its own offset 1, `-` zeroes the
      cell, `]` pops and jumps back to the `[`, which now skips to just after
      the `]`; the run halts with the tape zero again and the stack empty. */
  lemma CountDown(input: seq<Int8>, fuel: nat)
    requires fuel >= 6
    ensures Interpret("+[-]", input, fuel) == Halted(Init(input).(ip := 4))
  {
    var p := "+[-]";
    var z := Init(input);
    var s1 := z.(tape := z.tape[0 := 1], ip := 1);
    var s2 := s1.(starts := [1], ip := 2);
    var s3 := s2.(tape := z.tape, ip := 3);
    var s4 := s3.(starts := [], ip := 1);
    var s5 := s4.(ip := 4);
    assert s1.tape[0 := 0] == z.tape;
    assert SkipScan(p, 1) == 3 by {
      assert SkipScan(p, 3) == 3;
      assert SkipScan(p, 2) == 3;
    }
    assert Step(p, z) == Running(s1);
    assert Step(p, s1) == Running(s2);
    assert Step(p, s2) == Running(s3);
    assert Step(p, s3) == Running(s4);
    assert Step(p, s4) == Running(s5);
    assert Step(p, s5) == Halted(s5);
    assert Run(p, s4, 2) == Halted(s5);
    assert Run(p, s2, 4) == Halted(s5);
    assert Run(p, z, 6) == Halted(s5);
    RunSettled(p, z, 6, fuel);
  }

  /** `+[[-]]` ends on the empty-stack error: once the inner loop exits, its
      skip stops at the inner `]`, the outer `]` pops the outer `[`, whose
      skip again stops at the inner `]`, and the outer `]` is then met with
      nothing left on the stack. */
  lemma NestedLoopFails(input: seq<Int8>, fuel: nat)
    requires fuel >= 9
    ensures Interpret("+[[-]]", input, fuel) == Error(EmptyLoopStack)
  {
    var p := "+[[-]]";
    var z := Init(input);
    var s1 := z.(tape := z.tape[0 := 1], ip := 1);
    var s2 := s1.(starts := [1], ip := 2);
    var s3 := s2.(starts := [1, 2], ip := 3);
    var s4 := s3.(tape := z.tape, ip := 4);
    var s5 := s4.(starts := [1], ip := 2);
    var s6 := s5.(ip := 5);
    var s7 := s6.(starts := [], ip := 1);
    var s8 := s7.(ip := 5);
    assert s1.tape[0 := 0] == z.tape;
    assert SkipScan(p, 4) == 4;
    assert SkipScan(p, 2) == 4 by {
      assert SkipScan(p, 3) == 4;
    }
    assert SkipScan(p, 1) == 4;
    assert Step(p, z) == Running(s1);
    assert Step(p, s1) == Running(s2);
    assert Step(p, s2) == Running(s3);
    assert Step(p, s3) == Running(s4);
    assert Step(p, s4) == Running(s5);
    assert Step(p, s5) == Running(s6);
    assert Step(p, s6) == Running(s7);
    assert Step(p, s7) == Running(s8);
    assert Step(p, s8) == Error(EmptyLoopStack);
    assert Run(p, s6, 3) == Error(EmptyLoopStack);
    assert Run(p, s3, 6) == Error(EmptyLoopStack);
    assert Run(p, z, 9) == Error(EmptyLoopStack);
    RunSettled(p, z, 9, fuel);
  }

  /** `+[` halts at the terminator with the `[` still on the stack: an
      unclosed loop is not an error. */
  lemma UnclosedLoop(input: seq<Int8>, fuel: nat)
    requires fuel >= 3
    ensures Interpret("+[", input, fuel).Halted?
    ensures Interpret("+[", input, fuel).final.starts == [1]
    ensures Interpret("+[", input, fuel).final.tape[0] == 1
  {
    var p := "+[";
    var z := Init(input);
    var s1 := z.(tape := z.tape[0 := 1], ip := 1);
    var s2 := s1.(starts := [1], ip := 2);
    assert Step(p, z) == Running(s1);
    assert Step(p, s1) == Running(s2);
    assert Run(p, z, 3) == Halted(s2);
    RunSettled(p, z, 3, fuel);
  }

  /** `[` alone on a fresh tape skips to the terminator and then reads past
      the end of the buffer. */
  lemma SkipPastTerminator(input: seq<Int8>, fuel: nat)
    requires fuel >= 2
    ensures Interpret("[", input, fuel) == Undefined
  {
    var z := Init(input);
    assert SkipScan("[", 0) == 1 by {
      assert SkipScan("[", 1) == 1;
    }
    assert Step("[", z) == Running(z.(ip := 2));
    assert Run("[", z, 2) == Undefined;
    RunSettled("[", z, 2, fuel);
  }

  /** `,.` echoes the first input value to the output. */
  lemma Echo(c: Int8, rest: seq<Int8>, fuel: nat)
    requires fuel >= 3
    ensures Interpret(",.", [c] + rest, fuel).Halted?
    ensures Interpret(",.", [c] + rest, fuel).final.output == [c]
    ensures Interpret(",.", [c] + rest, fuel).final.input == rest
  {
    var p := ",.";
    var z := Init([c] + rest);
    var s1 := z.(tape := z.tape[0 := c], input := rest, ip := 1);
    var s2 := s1.(output := [c], ip := 2);
    assert Step(p, z) == Running(s1);
    assert Step(p, s1) == Running(s2);
    assert Run(p, z, 3) == Halted(s2);
    RunSettled(p, z, 3, fuel);
  }

  /** `,` at the end of the input is undefined. */
  lemma ReadPastInput(fuel: nat)
    requires fuel >= 1
    ensures Interpret(",", [], fuel) == Undefined
  {
    assert Run(",", Init([]), 1) == Undefined;
    RunSettled(",", Init([]), 1, fuel);
  }

  /** `n` copies of `>` followed by one `+`. */
  function MovesThenPlus(n: nat): (p: seq<char>)
    ensures |p| == n + 1 && p[n] == '+'
    ensures forall j :: 0 <= j < n ==> p[j] == '>'
  {
    seq(n, _ => '>') + ['+']
  }

  /** `k` copies of `>` and then `+`: the pointer ends at `k` modulo 65536,
      unchecked; if that is a cell of the tape the `+` sets it to 1 and the
      run halts, otherwise the `+` fails with `OutOfBounds`. */
  lemma MovesThenPlusRun(input: seq<Int8>, k: nat, fuel: nat)
    requires fuel >= k + 2
    ensures k % PointerRange < MemorySize ==>
      && Interpret(MovesThenPlus(k), input, fuel).Halted?
      && Interpret(MovesThenPlus(k), input, fuel).final.tp == k % PointerRange
      && Interpret(MovesThenPlus(k), input, fuel).final.tape[k % PointerRange] == 1
    ensures k % PointerRange >= MemorySize ==>
      Interpret(MovesThenPlus(k), input, fuel) == Error(OutOfBounds)
  {
    var p := MovesThenPlus(k);
    var z := Init(input);
    RepeatRight(p, z, k);
    var t := z.(tp := k % PointerRange, ip := k);
    assert Run(p, z, k) == Running(t);
    if t.tp < MemorySize {
      FinalPlus(p, t);
      RunAdd(p, z, k, 2);
      RunSettled(p, z, k + 2, fuel);
      var u := t.(tape := t.tape[t.tp := Inc8(0)], ip := k + 1);
      assert Interpret(p, input, fuel) == Halted(u);
    } else {
      assert Step(p, t) == Error(OutOfBounds);
      RunAdd(p, z, k, 1);
      RunSettled(p, z, k + 1, fuel);
    }
  }

  /** A `+` on a tape cell as the last character: the run halts right
      after it, with the cell incremented. */
  lemma FinalPlus(prog: seq<char>, s: State)
    requires s.tp < MemorySize && s.ip + 1 == |prog| && prog[s.ip] == '+'
    ensures Run(prog, s, 2) == Halted(s.(tape := s.tape[s.tp := Inc8(s.tape[s.tp])], ip := s.ip + 1))
  {
    var u := s.(tape := s.tape[s.tp := Inc8(s.tape[s.tp])], ip := s.ip + 1);
    assert Step(prog, s) == Running(u);
  }

  /** `+` on the last cell of the tape succeeds. */
  lemma PlusOnLastCell(input: seq<Int8>, fuel: nat)
    requires fuel >= MemorySize + 1
    ensures Interpret(MovesThenPlus(MemorySize - 1), input, fuel).Halted?
    ensures Interpret(MovesThenPlus(MemorySize - 1), input, fuel).final.tape[MemorySize - 1] == 1
  {
    MovesThenPlusRun(input, MemorySize - 1, fuel);
  }

  /** Moving to the cell just past the tape and issuing `+` fails with
      `OutOfBounds`. */
  lemma PlusPastLastCell(input: seq<Int8>, fuel: nat)
    requires fuel >= MemorySize + 2
    ensures Interpret(MovesThenPlus(MemorySize), input, fuel) == Error(OutOfBounds)
  {
    MovesThenPlusRun(input, MemorySize, fuel);
  }

  /** After 65536 moves the pointer is back at cell 0, so `+` succeeds. */
  lemma PointerWrapsAround(input: seq<Int8>, fuel: nat)
    requires fuel >= PointerRange + 2
    ensures Interpret(MovesThenPlus(PointerRange), input, fuel).Halted?
    ensures Interpret(MovesThenPlus(PointerRange), input, fuel).final.tape[0] == 1
  {
    MovesThenPlusRun(input, PointerRange, fuel);
  }
}
