/** The bus as the CPU sees it: a deterministic memory, the signal lines, the cycle counter and the log of accesses. */
module Bus {
  import opened Bits

  /** The host memory the CPU is bound to, as the three things a bus access does: the byte a read returns,
      the memory a write leaves, and the calls the access makes to the host's unmapped-access hook. */
  datatype Memory<!M> = Memory(
    read: (M, word) -> byte,
    write: (M, word, byte) -> M,
    observe: (M, word, bool, byte) -> seq<HookCall>)

  function Peek<M>(io: Memory<M>, m: M, a: word): byte { io.read(m, a) }

  function Poke<M>(io: Memory<M>, m: M, a: word, v: byte): M { io.write(m, a, v) }

  function Seen<M>(io: Memory<M>, m: M, a: word, write: bool, v: byte): seq<HookCall> { io.observe(m, a, write, v) }

  datatype HookCall = HookCall(addr: word, write: bool, value: byte)

  datatype Kind = BusRead | BusWrite

  datatype BusEvent = BusEvent(cycle: u64, addr: word, value: byte, kind: Kind)

  /** A host call that moves a signal line; the host may make such calls during any bus cycle. */
  datatype Signal = RaiseNmi | DropNmi | SetIrq(level: bool) | RaiseReset | SetReady(level: bool)

  /** The signals the host delivers during the bus cycle that starts at a given cycle count. */
  type Env = u64 -> seq<Signal>

  const QUIET: Env := _ => []

  /** The pending lines, with a count of NMI edges seen, edges that arrived while one was already
      pending, and NMIs taken. The three counts influence nothing. */
  datatype Lines = Lines(irq: bool, nmi: bool, nmiPrev: bool, reset: bool, rdy: bool,
                         edges: nat, coalesced: nat, taken: nat)

  const POWER_ON := Lines(false, false, false, true, true, 0, 0, 0)

  function Signalled(l: Lines, sig: Signal): Lines {
    match sig
    case RaiseNmi =>
      if l.nmiPrev then l
      else l.(nmi := true, nmiPrev := true, edges := l.edges + 1, coalesced := l.coalesced + if l.nmi then 1 else 0)
    case DropNmi => l.(nmiPrev := false)
    case SetIrq(level) => l.(irq := level)
    case RaiseReset => l.(reset := true)
    case SetReady(level) => l.(rdy := level)
  }

  function Delivered(l: Lines, sigs: seq<Signal>): Lines
    decreases |sigs|
  {
    if sigs == [] then l else Signalled(Delivered(l, sigs[..|sigs| - 1]), sigs[|sigs| - 1])
  }

  /** The cycle counter is a 64-bit unsigned integer. */
  const WRAP: nat := 0x1_0000_0000_0000_0000

  type u64 = n: nat | n < WRAP

  function Tick(cycles: u64): u64 { if cycles + 1 == WRAP then 0 else cycles + 1 }

  datatype Bus<M> = Bus(mem: M, lines: Lines, cycles: u64, log: seq<BusEvent>,
                        hooks: seq<HookCall>, traps: seq<(word, byte)>)

  /** What one step of an instruction does to the bus: a read cycle, a write cycle, taking the NMI latch,
      finishing a RESET, or a call to the illegal-opcode hook. */
  datatype Act = R(addr: word) | W(addr: word, value: byte) | TakeNmi | EndReset | Trap(pc: word, opcode: byte)

  function Do<M>(io: Memory<M>, env: Env, b: Bus<M>, act: Act): Bus<M> {
    match act
    case R(addr) =>
      var v := Peek(io, b.mem, addr);
      b.(lines := Delivered(b.lines, env(b.cycles)),
         cycles := Tick(b.cycles),
         log := b.log + [BusEvent(Tick(b.cycles), addr, v, BusRead)],
         hooks := b.hooks + Seen(io, b.mem, addr, false, v))
    case W(addr, v) =>
      b.(mem := Poke(io, b.mem, addr, v),
         lines := Delivered(b.lines, env(b.cycles)),
         cycles := Tick(b.cycles),
         log := b.log + [BusEvent(Tick(b.cycles), addr, v, BusWrite)],
         hooks := b.hooks + Seen(io, b.mem, addr, true, v))
    case TakeNmi => b.(lines := b.lines.(nmi := false, taken := b.lines.taken + 1))
    case EndReset => b.(lines := b.lines.(reset := false))
    case Trap(pc, opcode) => b.(traps := b.traps + [(pc, opcode)])
  }

  /** A list of acts, in order. */
  function Drive<M>(io: Memory<M>, env: Env, b: Bus<M>, acts: seq<Act>): Bus<M>
    decreases |acts|
  {
    if acts == [] then b else Drive(io, env, Do(io, env, b, acts[0]), acts[1..])
  }

  /** The memory a list of acts leaves behind. */
  function Stored<M>(io: Memory<M>, m: M, acts: seq<Act>): M
    decreases |acts|
  {
    if acts == [] then m
    else Stored(io, if acts[0].W? then Poke(io, m, acts[0].addr, acts[0].value) else m, acts[1..])
  }

  /** The number of bus cycles in a list of acts. */
  function Cost(acts: seq<Act>): nat
    decreases |acts|
  {
    if acts == [] then 0 else (if acts[0].R? || acts[0].W? then 1 else 0) + Cost(acts[1..])
  }

  lemma {:induction false} DriveAppend<M>(io: Memory<M>, env: Env, b: Bus<M>, first: seq<Act>, second: seq<Act>)
    ensures Drive(io, env, b, first + second) == Drive(io, env, Drive(io, env, b, first), second)
    decreases |first|
  {
    if first == [] {
      assert first + second == second;
    } else {
      assert (first + second)[1..] == first[1..] + second;
      DriveAppend(io, env, Do(io, env, b, first[0]), first[1..], second);
    }
  }

  lemma {:induction false} CostAppend(first: seq<Act>, second: seq<Act>)
    ensures Cost(first + second) == Cost(first) + Cost(second)
    decreases |first|
  {
    if first == [] {
      assert first + second == second;
    } else {
      assert (first + second)[1..] == first[1..] + second;
      CostAppend(first[1..], second);
    }
  }

  predicate OnlyReads(acts: seq<Act>) { forall k :: 0 <= k < |acts| ==> acts[k].R? }

  /** Reads, dummy or not, leave the memory as it was. */
  lemma {:induction false} ReadsOnly<M>(io: Memory<M>, env: Env, b: Bus<M>, acts: seq<Act>)
    requires OnlyReads(acts)
    ensures Drive(io, env, b, acts).mem == b.mem
    decreases |acts|
  {
    if acts != [] { ReadsOnly(io, env, Do(io, env, b, acts[0]), acts[1..]); }
  }

  lemma {:induction false} Drive1<M>(io: Memory<M>, env: Env, b: Bus<M>, x: Act)
    ensures Drive(io, env, b, [x]) == Do(io, env, b, x)
  {
    assert [x][1..] == [];
    assert Drive(io, env, Do(io, env, b, x), []) == Do(io, env, b, x);
  }

  lemma {:induction false} DriveSnoc<M>(io: Memory<M>, env: Env, b: Bus<M>, acts: seq<Act>, x: Act)
    ensures Drive(io, env, b, acts + [x]) == Do(io, env, Drive(io, env, b, acts), x)
  {
    DriveAppend(io, env, b, acts, [x]);
    Drive1(io, env, Drive(io, env, b, acts), x);
  }

  // A few acts in a row, spelled out.

  lemma {:induction false} Drive2<M>(io: Memory<M>, env: Env, b: Bus<M>, v: Act, w: Act)
    ensures Drive(io, env, b, [v, w]) == Do(io, env, Do(io, env, b, v), w)
  {
    Drive1(io, env, b, v);
    assert [v] + [w] == [v, w];
    DriveSnoc(io, env, b, [v], w);
  }

  lemma {:induction false} Drive3<M>(io: Memory<M>, env: Env, b: Bus<M>, v: Act, w: Act, x: Act)
    ensures Drive(io, env, b, [v, w, x]) == Do(io, env, Do(io, env, Do(io, env, b, v), w), x)
  {
    Drive2(io, env, b, v, w);
    assert [v, w] + [x] == [v, w, x];
    DriveSnoc(io, env, b, [v, w], x);
  }

  lemma {:induction false} Drive4<M>(io: Memory<M>, env: Env, b: Bus<M>, v: Act, w: Act, x: Act, y: Act)
    ensures Drive(io, env, b, [v, w, x, y]) == Do(io, env, Do(io, env, Do(io, env, Do(io, env, b, v), w), x), y)
  {
    Drive3(io, env, b, v, w, x);
    assert [v, w, x] + [y] == [v, w, x, y];
    DriveSnoc(io, env, b, [v, w, x], y);
  }
}
