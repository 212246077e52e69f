/**
 Laws of the fuel-bounded `Run`: runs compose, extra fuel does not change a
 finished run, a halted run stopped at a NUL, output is only appended to and
 input only consumed from the front, and straight-line stretches of `+`,
 `-`, `>` and `<` act by modular addition.
 */
module Runs {
  import opened Machine

  /** Resume a run that was cut short by running out of fuel. */
  function Continue(prog: seq<char>, o: Outcome, fuel: nat): Outcome
  {
    match o
    case Running(t) => Run(prog, t, fuel)
    case _ => o
  }

  /** `m + n` steps are `m` steps followed by `n` more. */
  lemma {:induction false} RunAdd(prog: seq<char>, s: State, m: nat, n: nat)
    ensures Run(prog, s, m + n) == Continue(prog, Run(prog, s, m), n)
    decreases m
  {
    if m > 0 {
      match Step(prog, s)
      case Running(t) =>
        assert Run(prog, s, m + n) == Run(prog, t, (m - 1) + n);
        RunAdd(prog, t, m - 1, n);
      case _ =>
    }
  }

  /** A run that ended (halt, error or undefined) within `n` steps ends the
      same way with any larger budget: the fuel only bounds the run. */
  lemma RunSettled(prog: seq<char>, s: State, n: nat, m: nat)
    requires !Run(prog, s, n).Running? && n <= m
    ensures Run(prog, s, m) == Run(prog, s, n)
  {
    RunAdd(prog, s, n, m - n);
  }

  /** A halted run stopped at a NUL of the buffer. */
  lemma {:induction false} HaltedAtNul(prog: seq<char>, s: State, fuel: nat)
    requires Run(prog, s, fuel).Halted?
    ensures Fetch(prog, Run(prog, s, fuel).final.ip) == Some(Nul)
    decreases fuel
  {
    match Step(prog, s)
    case Running(t) => HaltedAtNul(prog, t, fuel - 1);
    case _ =>
  }

  /** `t` was reached from `s` by only appending output and only consuming
      input from the front. */
  predicate IoProgress(s: State, t: State)
  {
    && s.output <= t.output
    && |t.input| <= |s.input|
    && t.input == s.input[|s.input| - |t.input|..]
  }

  lemma IoProgressTrans(s: State, t: State, u: State)
    requires IoProgress(s, t) && IoProgress(t, u)
    ensures IoProgress(s, u)
  {
    assert s.input[|s.input| - |u.input|..] == t.input[|t.input| - |u.input|..];
  }

  /** One step only appends to the output and consumes input from the front. */
  lemma StepIo(prog: seq<char>, s: State)
    ensures Step(prog, s).Running? ==> IoProgress(s, Step(prog, s).next)
    ensures Step(prog, s).Halted? ==> Step(prog, s).final == s
  {
    match Fetch(prog, s.ip)
    case None =>
    case Some(c) =>
      if c == '.' {
        if s.tp < MemorySize {
          var t := s.(output := s.output + [s.tape[s.tp]], ip := s.ip + 1);
          assert Step(prog, s) == Running(t);
          assert s.input[|s.input| - |t.input|..] == s.input;
        }
      } else if c == ',' {
        if s.tp < MemorySize && |s.input| > 0 {
          var t := s.(tape := s.tape[s.tp := s.input[0]], input := s.input[1..], ip := s.ip + 1);
          assert Step(prog, s) == Running(t);
        }
      } else {
        SameIo(prog, s, c);
      }
  }

  /** Every character but `.` and `,` leaves the input and output alone. */
  lemma SameIo(prog: seq<char>, s: State, c: char)
    requires Fetch(prog, s.ip) == Some(c) && c != '.' && c != ','
    ensures Step(prog, s).Running? ==>
      Step(prog, s).next.output == s.output && Step(prog, s).next.input == s.input
  {
    if c == '[' && s.tp < MemorySize && s.tape[s.tp] == 0 {
      assert Step(prog, s) == Running(s.(ip := SkipScan(prog, s.ip) + 1));
    }
  }

  /** So does every run. */
  lemma {:induction false} RunIo(prog: seq<char>, s: State, fuel: nat)
    ensures Run(prog, s, fuel).Running? ==> IoProgress(s, Run(prog, s, fuel).next)
    ensures Run(prog, s, fuel).Halted? ==> IoProgress(s, Run(prog, s, fuel).final)
    decreases fuel
  {
    if fuel > 0 {
      StepIo(prog, s);
      match Step(prog, s)
      case Running(t) =>
        RunIo(prog, t, fuel - 1);
        var o := Run(prog, t, fuel - 1);
        if o.Running? {
          IoProgressTrans(s, t, o.next);
        } else if o.Halted? {
          IoProgressTrans(s, t, o.final);
        }
      case _ =>
    }
  }

  /** The offset a stretch of `+` (positive) or `-` (negative) adds. */
  function Delta(op: char, n: nat): int
  {
    if op == '+' then n else -(n as int)
  }

  /** One `+` (or `-`) on a cell of the tape, as an addition modulo 256. */
  lemma StepAdd(prog: seq<char>, s: State, op: char)
    requires op == '+' || op == '-'
    requires s.tp < MemorySize && Fetch(prog, s.ip) == Some(op)
    ensures Step(prog, s) ==
            Running(s.(tape := s.tape[s.tp := Wrap8(s.tape[s.tp] + Delta(op, 1))], ip := s.ip + 1))
  {
    CellStepsWrap(s.tape[s.tp]);
  }

  /** `n` consecutive `+` (or `-`) on a cell of the tape add (or subtract)
      `n` modulo 256 to that cell and change nothing else. */
  lemma {:induction false} RepeatAdd(prog: seq<char>, s: State, op: char, n: nat)
    requires op == '+' || op == '-'
    requires s.tp < MemorySize && s.ip + n <= |prog|
    requires forall j :: s.ip <= j < s.ip + n ==> prog[j] == op
    ensures Run(prog, s, n) ==
            Running(s.(tape := s.tape[s.tp := Wrap8(s.tape[s.tp] + Delta(op, n))], ip := s.ip + n))
    decreases n
  {
    if n == 0 {
      Wrap8Id(s.tape[s.tp]);
      assert s.tape[s.tp := s.tape[s.tp]] == s.tape;
    } else {
      var c := s.tape[s.tp];
      var t := s.(tape := s.tape[s.tp := Wrap8(c + Delta(op, 1))], ip := s.ip + 1);
      assert prog[s.ip] == op;
      StepAdd(prog, s, op);
      RepeatAdd(prog, t, op, n - 1);
      Wrap8Add(c + Delta(op, 1), Delta(op, n - 1));
      assert t.tape[s.tp := Wrap8(t.tape[s.tp] + Delta(op, n - 1))]
          == s.tape[s.tp := Wrap8(c + Delta(op, n))];
    }
  }

  /** A whole number of turns of 256 leaves a cell as it was. */
  lemma WholeTurnsCell(c: Int8, op: char, n: nat)
    requires n % 256 == 0
    ensures Wrap8(c + Delta(op, n)) == c
  {
  }

  /** 256 consecutive `+` (or `-`) restore the cell: the whole state is as
      before except that `ip` moved past them. */
  lemma FullTurn(prog: seq<char>, s: State, op: char)
    requires op == '+' || op == '-'
    requires s.tp < MemorySize && s.ip + 256 <= |prog|
    requires forall j :: s.ip <= j < s.ip + 256 ==> prog[j] == op
    ensures Run(prog, s, 256) == Running(s.(ip := s.ip + 256))
  {
    WholeTurns(prog, s, op, 256);
  }

  /** Any whole number of turns of `+` (or `-`) restores the cell. */
  lemma WholeTurns(prog: seq<char>, s: State, op: char, n: nat)
    requires op == '+' || op == '-'
    requires n % 256 == 0
    requires s.tp < MemorySize && s.ip + n <= |prog|
    requires forall j :: s.ip <= j < s.ip + n ==> prog[j] == op
    ensures Run(prog, s, n) == Running(s.(ip := s.ip + n))
  {
    RepeatAdd(prog, s, op, n);
    var c := s.tape[s.tp];
    WholeTurnsCell(c, op, n);
    assert s.tape[s.tp := c] == s.tape;
  }

  /** `n` consecutive `>` move the pointer up by `n` modulo 65536,
      unchecked, and change nothing else. */
  lemma {:induction false} RepeatRight(prog: seq<char>, s: State, n: nat)
    requires s.ip + n <= |prog|
    requires forall j :: s.ip <= j < s.ip + n ==> prog[j] == '>'
    ensures Run(prog, s, n) == Running(s.(tp := (s.tp + n) % PointerRange, ip := s.ip + n))
    decreases n
  {
    if n > 0 {
      var t := s.(tp := (s.tp + 1) % PointerRange, ip := s.ip + 1);
      PointerStepsWrap(s.tp);
      assert Step(prog, s) == Running(t);
      assert Run(prog, s, n) == Run(prog, t, n - 1);
      RepeatRight(prog, t, n - 1);
      WrapPointerAdd(s.tp + 1, n - 1);
    }
  }

  /** `n` consecutive `<` move the pointer down by `n` modulo 65536,
      unchecked, and change nothing else. */
  lemma {:induction false} RepeatLeft(prog: seq<char>, s: State, n: nat)
    requires s.ip + n <= |prog|
    requires forall j :: s.ip <= j < s.ip + n ==> prog[j] == '<'
    ensures Run(prog, s, n) == Running(s.(tp := (s.tp - n) % PointerRange, ip := s.ip + n))
    decreases n
  {
    if n > 0 {
      var t := s.(tp := (s.tp - 1) % PointerRange, ip := s.ip + 1);
      PointerStepsWrap(s.tp);
      assert Step(prog, s) == Running(t);
      assert Run(prog, s, n) == Run(prog, t, n - 1);
      RepeatLeft(prog, t, n - 1);
      WrapPointerAdd(s.tp - 1, -(n - 1));
    }
  }
}
