/**
  The virtual machine: a closed fetch-dispatch loop over a fixed instruction
  list, with four 32-bit registers, a memory vector that doubles as the
  push/pop stack, a return-address stack, an instruction pointer and a label
  table.

  `Transition` is the reference definition of one turn of the run loop and
  `RunFor` of a bounded number of turns; the class `VM` holds the state in
  fields and its methods are proved to follow those functions.
 */
module Vm {
  import opened Wrappers

  const WordCount: int := 0x1_0000_0000

  /** An unsigned 32-bit word. The machine does no arithmetic on words. */
  type U32 = x: int | 0 <= x < 0x1_0000_0000

  type Address = U32

  datatype Register = A | B | C | D

  datatype Instruction =
    | Noop
    | Ret
    | Move(to: Register, value: U32)
    | Jump(address: Address)
    | Call(name: string)
    | JEQ(x: U32, y: U32, target: Address)
    | JGT(x: U32, y: U32, target: Address)
    | JGE(x: U32, y: U32, target: Address)
    | LA(register: Register, name: string)
    | LW(register: Register, address: Address)
    | SW(register: Register, address: Address)
    | Push(value: U32)
    | Pop(register: Register)

  /** The part of the machine that changes while it runs. */
  datatype State = State(ip: U32, a: U32, b: U32, c: U32, d: U32, memory: seq<U32>, ret: seq<U32>)

  /** Registers zeroed, memory and return stack empty, at the first instruction. */
  const Initial: State := State(0, 0, 0, 0, 0, [], [])

  datatype Fault = MissingLabel | AddressOutOfRange | StackUnderflow

  /** After a turn: still running, halted cleanly, or stopped by a fault. */
  datatype Outcome = Running(state: State) | Halted(state: State) | Faulted(fault: Fault)

  /** The register file: each register name selects its own word of the state. */
  function Get(s: State, r: Register): (v: U32)
    ensures r == A ==> v == s.a
    ensures r == B ==> v == s.b
    ensures r == C ==> v == s.c
    ensures r == D ==> v == s.d
  {
    match r
    case A => s.a
    case B => s.b
    case C => s.c
    case D => s.d
  }

  /** Writes one register; the other three and the rest of the state stay. */
  function Set(s: State, r: Register, v: U32): (t: State)
    ensures Get(t, r) == v
    ensures forall q :: q != r ==> Get(t, q) == Get(s, q)
    ensures t.ip == s.ip && t.memory == s.memory && t.ret == s.ret
  {
    match r
    case A => s.(a := v)
    case B => s.(b := v)
    case C => s.(c := v)
    case D => s.(d := v)
  }

  /**
    The fetch: nothing once the pointer reaches the instruction count (which
    the source compares after truncating it to 32 bits), else the instruction
    under the pointer.
   */
  function Fetch(prog: seq<Instruction>, s: State): (r: Option<Instruction>)
    ensures r.None? <==> s.ip >= |prog| % WordCount
    ensures r.Some? ==> s.ip < |prog| && s.ip + 1 < WordCount && r.value == prog[s.ip]
  {
    if s.ip >= |prog| % WordCount then None else Some(prog[s.ip])
  }

  /** The effect of one instruction on a state whose pointer has already moved on. */
  function Execute(labels: map<string, Address>, instr: Instruction, s: State): (r: Outcome)
    ensures r.Halted? <==> instr == Ret && s.ret == []
    ensures r.Halted? ==> r.state == s
    ensures r.Faulted? <==>
      ((instr.Call? || instr.LA?) && instr.name !in labels) ||
      ((instr.LW? || instr.SW?) && instr.address >= |s.memory|) ||
      (instr.Pop? && s.memory == [])
    ensures r.Faulted? ==> r.fault == (if instr.Pop? then StackUnderflow
                                       else if instr.LW? || instr.SW? then AddressOutOfRange
                                       else MissingLabel)
    // Only the control instructions move the pointer, only `Call` and `Ret`
    // touch the return stack, and only `SW`, `Push` and `Pop` touch memory.
    ensures r.Running? && !(instr.Ret? || instr.Jump? || instr.Call? || instr.JEQ? || instr.JGT? || instr.JGE?) ==>
      r.state.ip == s.ip
    ensures r.Running? && !(instr.Ret? || instr.Call?) ==> r.state.ret == s.ret
    ensures r.Running? && !(instr.SW? || instr.Push? || instr.Pop?) ==> r.state.memory == s.memory
  {
    match instr
    case Noop => Running(s)
    case Ret =>
      if s.ret == [] then Halted(s)
      else Running(s.(ip := s.ret[|s.ret| - 1], ret := s.ret[..|s.ret| - 1]))
    case Move(r, v) => Running(Set(s, r, v))
    case Jump(address) => Running(s.(ip := address))
    case Call(name) =>
      if name in labels then Running(s.(ret := s.ret + [s.ip], ip := labels[name]))
      else Faulted(MissingLabel)
    case JEQ(x, y, target) => Running(if x == y then s.(ip := target) else s)
    case JGT(x, y, target) => Running(if x > y then s.(ip := target) else s)
    case JGE(x, y, target) => Running(if x >= y then s.(ip := target) else s)
    case LA(r, name) =>
      if name in labels then Running(Set(s, r, labels[name])) else Faulted(MissingLabel)
    case LW(r, address) =>
      if address < |s.memory| then Running(Set(s, r, s.memory[address]))
      else Faulted(AddressOutOfRange)
    case SW(r, address) =>
      if address < |s.memory| then Running(s.(memory := s.memory[address := Get(s, r)]))
      else Faulted(AddressOutOfRange)
    case Push(v) => Running(s.(memory := s.memory + [v]))
    case Pop(r) =>
      if s.memory == [] then Faulted(StackUnderflow)
      else Running(Set(s.(memory := s.memory[..|s.memory| - 1]), r, s.memory[|s.memory| - 1]))
  }

  /** One turn of the run loop: fetch, advance the pointer, dispatch. */
  function Transition(prog: seq<Instruction>, labels: map<string, Address>, s: State): (r: Outcome)
    ensures Fetch(prog, s).None? ==> r == Halted(s)
    ensures !r.Halted? ==> s.ip < |prog|
    ensures r.Halted? ==> r.state == s || r.state == s.(ip := s.ip + 1)
    ensures r.Halted? ==> r.state.ip >= |prog| % WordCount || r.state.ret == []
  {
    match Fetch(prog, s)
    case None => Halted(s)
    case Some(instr) => Execute(labels, instr, s.(ip := s.ip + 1))
  }

  /** At most `fuel` turns of the run loop; `Running` when the fuel ran out first. */
  function RunFor(prog: seq<Instruction>, labels: map<string, Address>, s: State, fuel: nat): (r: Outcome)
    ensures fuel == 0 ==> r == Running(s)
    ensures r.Halted? ==> r.state.ip >= |prog| % WordCount || r.state.ret == []
    decreases fuel
  {
    if fuel == 0 then Running(s)
    else
      match Transition(prog, labels, s)
      case Running(t) => RunFor(prog, labels, t, fuel - 1)
      case other => other
  }

  // ---------------------------------------------------------------------
  // Properties of one turn
  // ---------------------------------------------------------------------

  /**
    A turn halts exactly when the pointer has run past the instructions, or on
    `Ret` with an empty return stack.
   */
  lemma HaltsExactly(prog: seq<Instruction>, labels: map<string, Address>, s: State)
    ensures Transition(prog, labels, s).Halted? <==>
            s.ip >= |prog| % WordCount || (s.ip < |prog| && prog[s.ip] == Ret && s.ret == [])
  {
  }

  /**
    A turn faults exactly on a missing label for `Call` or `LA`, an address
    outside memory for `LW` or `SW`, and `Pop` on empty memory.
   */
  lemma FaultsExactly(prog: seq<Instruction>, labels: map<string, Address>, s: State)
    requires Fetch(prog, s).Some?
    ensures var instr := prog[s.ip];
      Transition(prog, labels, s).Faulted? <==>
        ((instr.Call? || instr.LA?) && instr.name !in labels) ||
        ((instr.LW? || instr.SW?) && instr.address >= |s.memory|) ||
        (instr.Pop? && s.memory == [])
    ensures Transition(prog, labels, s).Faulted? ==>
      Transition(prog, labels, s).fault ==
        (match prog[s.ip] case Call(_) => MissingLabel case LA(_, _) => MissingLabel
         case Pop(_) => StackUnderflow case _ => AddressOutOfRange)
  {
  }

  /** `Ret` with a non-empty stack pops its top into the pointer. */
  lemma RetPops(prog: seq<Instruction>, labels: map<string, Address>, s: State)
    requires Fetch(prog, s) == Some(Ret) && s.ret != []
    ensures Transition(prog, labels, s) ==
      Running(s.(ip := s.ret[|s.ret| - 1], ret := s.ret[..|s.ret| - 1]))
  {
  }

  /**
    `Call(name)` pushes the address after itself and jumps to the label; a
    later `Ret` that finds the same return stack resumes after the `Call`.
   */
  lemma CallThenRetResumes(prog: seq<Instruction>, labels: map<string, Address>, s: State, t: State)
    requires Fetch(prog, s).Some? && prog[s.ip].Call? && prog[s.ip].name in labels
    requires Fetch(prog, t) == Some(Ret) && t.ret == s.ret + [s.ip + 1]
    ensures Transition(prog, labels, s) ==
      Running(s.(ip := labels[prog[s.ip].name], ret := s.ret + [s.ip + 1]))
    ensures Transition(prog, labels, t) == Running(t.(ip := s.ip + 1, ret := s.ret))
  {
    assert (s.ret + [s.ip + 1])[..|s.ret|] == s.ret;
  }

  /**
    `Move`, `LA`, `LW` and `Pop` write only the named register; the other three
    registers keep their values.
   */
  lemma WritesOnlyNamedRegister(prog: seq<Instruction>, labels: map<string, Address>, s: State, q: Register)
    requires Fetch(prog, s).Some?
    requires var instr := prog[s.ip];
      (instr.Move? && q != instr.to) || ((instr.LA? || instr.LW? || instr.Pop?) && q != instr.register)
    requires Transition(prog, labels, s).Running?
    ensures Get(Transition(prog, labels, s).state, q) == Get(s, q)
    ensures Transition(prog, labels, s).state.ip == s.ip + 1
    ensures Transition(prog, labels, s).state.ret == s.ret
  {
  }

  /** `SW(r, addr)` changes only `memory[addr]`, and not the memory's length. */
  lemma StoreWordFrame(prog: seq<Instruction>, labels: map<string, Address>, s: State)
    requires Fetch(prog, s).Some? && prog[s.ip].SW? && prog[s.ip].address < |s.memory|
    ensures var t := Transition(prog, labels, s).state;
      Transition(prog, labels, s).Running? &&
      |t.memory| == |s.memory| &&
      t.memory[prog[s.ip].address] == Get(s, prog[s.ip].register) &&
      (forall k :: 0 <= k < |s.memory| && k != prog[s.ip].address ==> t.memory[k] == s.memory[k]) &&
      (forall q :: Get(t, q) == Get(s, q)) && t.ret == s.ret && t.ip == s.ip + 1
  {
  }

  /**
    The conditional jumps take the target exactly when the comparison holds
    and otherwise fall through to the next instruction.
   */
  lemma ConditionalJumps(prog: seq<Instruction>, labels: map<string, Address>, s: State)
    requires Fetch(prog, s).Some?
    requires prog[s.ip].JEQ? || prog[s.ip].JGT? || prog[s.ip].JGE?
    ensures var instr := prog[s.ip];
      var taken := if instr.JEQ? then instr.x == instr.y
                   else if instr.JGT? then instr.x > instr.y
                   else instr.x >= instr.y;
      Transition(prog, labels, s) == Running(s.(ip := if taken then instr.target else s.ip + 1))
  {
  }

  /** A `Push` followed by a `Pop` hands the pushed word to the register and restores memory. */
  lemma PushThenPop(prog: seq<Instruction>, labels: map<string, Address>, s: State, v: U32, r: Register)
    requires s.ip + 1 < |prog| % WordCount
    requires prog[s.ip] == Push(v) && prog[s.ip + 1] == Pop(r)
    ensures RunFor(prog, labels, s, 2) == Running(Set(s.(ip := s.ip + 2), r, v))
  {
    var s1 := s.(ip := s.ip + 1, memory := s.memory + [v]);
    assert Transition(prog, labels, s) == Running(s1);
    assert s1.memory[..|s1.memory| - 1] == s.memory;
  }

  // ---------------------------------------------------------------------
  // Properties of whole runs
  // ---------------------------------------------------------------------

  /** Running for `f1 + f2` turns is running for `f1` and then for `f2` more. */
  lemma {:induction false} RunForAdditive(prog: seq<Instruction>, labels: map<string, Address>, s: State, f1: nat, f2: nat)
    ensures RunFor(prog, labels, s, f1 + f2) ==
      match RunFor(prog, labels, s, f1)
      case Running(t) => RunFor(prog, labels, t, f2)
      case other => other
    decreases f1
  {
    if f1 > 0 {
      match Transition(prog, labels, s)
      case Running(t) =>
        RunForAdditive(prog, labels, t, f1 - 1, f2);
      case _ =>
    }
  }

  /** Once a run has halted or faulted, more fuel changes nothing. */
  lemma StoppedIsFinal(prog: seq<Instruction>, labels: map<string, Address>, s: State, f: nat, more: nat)
    requires !RunFor(prog, labels, s, f).Running?
    ensures RunFor(prog, labels, s, f + more) == RunFor(prog, labels, s, f)
  {
    RunForAdditive(prog, labels, s, f, more);
  }

  /** `Jump` can loop forever: `[Jump(0)]` never stops, whatever the fuel. */
  lemma {:induction false} JumpLoopsForever(labels: map<string, Address>, s: State, fuel: nat)
    requires s.ip == 0
    ensures RunFor([Jump(0)], labels, s, fuel) == Running(s)
    decreases fuel
  {
    if fuel > 0 {
      assert Transition([Jump(0)], labels, s) == Running(s);
      JumpLoopsForever(labels, s, fuel - 1);
    }
  }

  /** `Push(5), Push(3), Pop(A), Pop(B)` ends with A = 3, B = 5 and memory empty. */
  lemma PushPopExample(labels: map<string, Address>)
    ensures RunFor([Push(5), Push(3), Pop(A), Pop(B)], labels, Initial, 5) ==
      Halted(State(4, 3, 5, 0, 0, [], []))
  {
    var prog := [Push(5), Push(3), Pop(A), Pop(B)];
    var s1 := State(1, 0, 0, 0, 0, [5], []);
    var s2 := State(2, 0, 0, 0, 0, [5, 3], []);
    var s3 := State(3, 3, 0, 0, 0, [5], []);
    var s4 := State(4, 3, 5, 0, 0, [], []);
    assert Transition(prog, labels, Initial) == Running(s1);
    assert Transition(prog, labels, s1) == Running(s2);
    assert [5, 3][..1] == [5];
    assert Transition(prog, labels, s2) == Running(s3);
    assert Transition(prog, labels, s3) == Running(s4);
    assert Transition(prog, labels, s4) == Halted(s4);
  }

  /** A `Call` to a label that is not in the table stops the run with a fault. */
  lemma MissingCallFaults(labels: map<string, Address>, name: string)
    requires name !in labels
    ensures RunFor([Call(name)], labels, Initial, 1) == Faulted(MissingLabel)
  {
  }

  /** `Ret` on an empty return stack halts cleanly. */
  lemma RetOnEmptyHalts(labels: map<string, Address>)
    ensures RunFor([Ret, Noop], labels, Initial, 1) == Halted(Initial.(ip := 1))
  {
  }

  // ---------------------------------------------------------------------
  // The machine object
  // ---------------------------------------------------------------------

  class VM {
    const instructions: seq<Instruction>
    const labels: map<string, Address>
    var memory: seq<U32>
    var ret: seq<U32>
    var ip: U32
    var a: U32
    var b: U32
    var c: U32
    var d: U32

    /** The fields that change while the machine runs, as one value. */
    function Snapshot(): State
      reads this
    {
      State(ip, a, b, c, d, memory, ret)
    }

    /** A machine loaded with a program and its label table, in the initial state. */
    constructor (instructions: seq<Instruction>, labels: map<string, Address>)
      ensures this.instructions == instructions && this.labels == labels
      ensures Snapshot() == Initial
    {
      this.instructions := instructions;
      this.labels := labels;
      memory := [];
      ret := [];
      ip := 0;
      a, b, c, d := 0, 0, 0, 0;
    }

    /** Returns the instruction under the pointer and advances the pointer, if any is left. */
    method NextInstruction() returns (instr: Option<Instruction>)
      modifies this`ip
      ensures instr == Fetch(instructions, old(Snapshot()))
      ensures ip == if instr.Some? then old(ip) + 1 else old(ip)
    {
      if ip >= |instructions| % WordCount {
        return None;
      }
      instr := Some(instructions[ip]);
      ip := ip + 1;
    }

    /** Reading a register field is reading that register of the snapshot. */
    function Read(r: Register): (v: U32)
      reads this
      ensures v == Get(Snapshot(), r)
    {
      match r
      case A => a
      case B => b
      case C => c
      case D => d
    }

    method Write(r: Register, v: U32)
      modifies this
      ensures Snapshot() == Set(old(Snapshot()), r, v)
    {
      match r {
        case A => a := v;
        case B => b := v;
        case C => c := v;
        case D => d := v;
      }
    }

    /** One turn of the run loop, exactly as `Transition` describes it. */
    method Step() returns (outcome: Outcome)
      modifies this
      ensures outcome == Transition(instructions, labels, old(Snapshot()))
      ensures !outcome.Faulted? ==> Snapshot() == outcome.state
    {
      var next := NextInstruction();
      if next.None? {
        return Halted(Snapshot());
      }
      match next.value {
        case Noop =>
        case Ret =>
          if ret == [] {
            return Halted(Snapshot());
          }
          ip := ret[|ret| - 1];
          ret := ret[..|ret| - 1];
        case Move(to, value) => Write(to, value);
        case Jump(address) => ip := address;
        case Call(name) =>
          ret := ret + [ip];
          if name !in labels {
            return Faulted(MissingLabel);
          }
          ip := labels[name];
        case JEQ(x, y, target) => if x == y { ip := target; }
        case JGT(x, y, target) => if x > y { ip := target; }
        case JGE(x, y, target) => if x >= y { ip := target; }
        case LA(register, name) =>
          if name !in labels {
            return Faulted(MissingLabel);
          }
          Write(register, labels[name]);
        case LW(register, address) =>
          if address >= |memory| {
            return Faulted(AddressOutOfRange);
          }
          Write(register, memory[address]);
        case SW(register, address) =>
          if address >= |memory| {
            return Faulted(AddressOutOfRange);
          }
          memory := memory[address := Read(register)];
        case Push(value) => memory := memory + [value];
        case Pop(register) =>
          if memory == [] {
            return Faulted(StackUnderflow);
          }
          var top := memory[|memory| - 1];
          memory := memory[..|memory| - 1];
          Write(register, top);
      }
      return Running(Snapshot());
    }

    /** At most `fuel` turns of the run loop, exactly as `RunFor` describes them. */
    method Run(fuel: nat) returns (outcome: Outcome)
      modifies this
      ensures outcome == RunFor(instructions, labels, old(Snapshot()), fuel)
      ensures !outcome.Faulted? ==> Snapshot() == outcome.state
    {
      var left := fuel;
      outcome := Running(Snapshot());
      while left > 0
        invariant outcome == Running(Snapshot())
        invariant RunFor(instructions, labels, old(Snapshot()), fuel) ==
                  RunFor(instructions, labels, Snapshot(), left)
      {
        var o := Step();
        if !o.Running? {
          return o;
        }
        outcome := o;
        left := left - 1;
      }
    }
  }
}
