/** The signal lines by the history of the host's calls alone, inside bus cycles and between steps. */
module SignalLines {
  import opened Bits
  import opened Bus
  import opened Isa
  import opened NmiProtocol
  import opened Runs
  import opened Timing
  import BusLog

  // What a history of calls says.

  /** The NMI line is high after a raise that no drop has followed. */
  predicate NmiHigh(start: bool, calls: seq<Signal>)
    decreases |calls|
  {
    if calls == [] then start
    else
      match calls[|calls| - 1]
      case RaiseNmi => true
      case DropNmi => false
      case _ => NmiHigh(start, calls[..|calls| - 1])
  }

  /** A rising edge is a raise of a line that is low. */
  function Rises(start: bool, calls: seq<Signal>): nat
    decreases |calls|
  {
    if calls == [] then 0
    else
      var before := calls[..|calls| - 1];
      Rises(start, before) + if calls[|calls| - 1] == RaiseNmi && !NmiHigh(start, before) then 1 else 0
  }

  /** IRQ and RDY are levels: the last call counts. */
  predicate IrqHigh(start: bool, calls: seq<Signal>)
    decreases |calls|
  {
    if calls == [] then start
    else
      match calls[|calls| - 1]
      case SetIrq(level) => level
      case _ => IrqHigh(start, calls[..|calls| - 1])
  }

  predicate Ready(start: bool, calls: seq<Signal>)
    decreases |calls|
  {
    if calls == [] then start
    else
      match calls[|calls| - 1]
      case SetReady(level) => level
      case _ => Ready(start, calls[..|calls| - 1])
  }

  lemma {:induction false} OneSignal(l: Lines, sig: Signal)
    ensures var l' := Signalled(l, sig);
            && l'.nmiPrev == (sig.RaiseNmi? || (l.nmiPrev && !sig.DropNmi?))
            && l'.edges == l.edges + (if sig.RaiseNmi? && !l.nmiPrev then 1 else 0)
            && l'.irq == (if sig.SetIrq? then sig.level else l.irq)
            && l'.rdy == (if sig.SetReady? then sig.level else l.rdy)
            && (l'.nmi <==> l.nmi || (sig.RaiseNmi? && !l.nmiPrev))
            && (l'.reset <==> l.reset || sig.RaiseReset?)
            && l'.taken == l.taken
  {
  }

  /** The lines after a history of calls that nobody served: levels by the last call, an NMI pending when it was before
      or an edge came, a RESET pending when it was before or was raised; and each edge is counted once. */
  lemma {:induction false} DeliveredByHistory(l: Lines, calls: seq<Signal>)
    ensures var l' := Delivered(l, calls);
            && l'.nmiPrev == NmiHigh(l.nmiPrev, calls)
            && l'.edges == l.edges + Rises(l.nmiPrev, calls)
            && l'.irq == IrqHigh(l.irq, calls) && l'.rdy == Ready(l.rdy, calls)
            && (l'.nmi <==> l.nmi || Rises(l.nmiPrev, calls) > 0)
            && (l'.reset <==> l.reset || RaiseReset in calls)
            && l'.taken == l.taken
    decreases |calls|
  {
    hide Signalled;
    if calls != [] {
      var before, last := calls[..|calls| - 1], calls[|calls| - 1];
      DeliveredByHistory(l, before);
      OneSignal(Delivered(l, before), last);
      assert calls == before + [last];
    }
  }

  // The history of a run.

  /** The host's calls during `n` bus cycles from a count on. */
  function Heard(env: Env, c: u64, n: nat): seq<Signal>
    decreases n
  {
    if n == 0 then [] else env(c) + Heard(env, if c == 0xFFFF_FFFF_FFFF_FFFF then 0 else c + 1, n - 1)
  }

  /** All the host's calls in a run, in order: those inside the bus cycles each step logged, and those between. */
  function HostCalls<M>(io: Memory<M>, env: Env, s: Core<M>, moves: seq<Move>): seq<Signal>
    decreases |moves|
  {
    if moves == [] then []
    else
      var before := moves[..|moves| - 1];
      var t := After(io, env, s, before);
      HostCalls(io, env, s, before)
      + match moves[|moves| - 1]
        case Host(sig) => [sig]
        case Advance => Heard(env, t.bus.cycles, StepCost(io, t))
  }

  lemma {:induction false} HighAppend(start: bool, first: seq<Signal>, second: seq<Signal>)
    ensures NmiHigh(start, first + second) == NmiHigh(NmiHigh(start, first), second)
    ensures Rises(start, first + second) == Rises(start, first) + Rises(NmiHigh(start, first), second)
    decreases |second|
  {
    if second == [] {
      assert first + second == first;
    } else {
      var before := second[..|second| - 1];
      assert (first + second)[..|first + second| - 1] == first + before;
      HighAppend(start, first, before);
    }
  }

  /** The line and the edge count over a list of acts: served or not, edges come from the host's calls only. */
  lemma {:induction false} DriveEdges<M>(io: Memory<M>, env: Env, b: Bus<M>, acts: seq<Act>)
    ensures var l, l' := b.lines, Drive(io, env, b, acts).lines;
            var calls := Heard(env, b.cycles, Cost(acts));
            l'.nmiPrev == NmiHigh(l.nmiPrev, calls) && l'.edges == l.edges + Rises(l.nmiPrev, calls)
    decreases |acts|
  {
    hide NmiHigh, Rises, Delivered;
    if acts == [] {
      NoCalls(b.lines.nmiPrev);
    } else {
      var b1 := Do(io, env, b, acts[0]);
      DriveEdges(io, env, b1, acts[1..]);
      if acts[0].R? || acts[0].W? {
        DeliveredByHistory(b.lines, env(b.cycles));
        HighAppend(b.lines.nmiPrev, env(b.cycles), Heard(env, b1.cycles, Cost(acts[1..])));
      }
    }
  }

  lemma {:induction false} NoCalls(start: bool)
    ensures NmiHigh(start, []) == start && Rises(start, []) == 0
  {
  }

  lemma {:induction false} OneCall(start: bool, sig: Signal)
    ensures NmiHigh(start, [sig]) == (sig == RaiseNmi || (start && sig != DropNmi))
    ensures Rises(start, [sig]) == if sig == RaiseNmi && !start then 1 else 0
  {
    assert [sig][..0] == [];
  }

  /** The edges a run counts are the rising edges of its history, in whatever cycle they came. */
  lemma {:induction false} RunEdges<M>(io: Memory<M>, env: Env, s: Core<M>, moves: seq<Move>)
    ensures var k, l := s.bus.lines, After(io, env, s, moves).bus.lines;
            var calls := HostCalls(io, env, s, moves);
            l.nmiPrev == NmiHigh(k.nmiPrev, calls) && l.edges == k.edges + Rises(k.nmiPrev, calls)
    decreases |moves|
  {
    hide Isa.Step, NmiHigh, Rises, StepCost, BusLog.StepActs, Heard;
    if moves == [] {
      NoCalls(s.bus.lines.nmiPrev);
    } else {
      var before := moves[..|moves| - 1];
      var t := After(io, env, s, before);
      var calls := HostCalls(io, env, s, before);
      RunEdges(io, env, s, before);
      match moves[|moves| - 1]
      case Host(sig) =>
        OneCall(t.bus.lines.nmiPrev, sig);
        HighAppend(s.bus.lines.nmiPrev, calls, [sig]);
      case Advance =>
        StepCalls(io, env, t);
        HighAppend(s.bus.lines.nmiPrev, calls, Heard(env, t.bus.cycles, StepCost(io, t)));
    }
  }

  lemma {:induction false} StepCalls<M>(io: Memory<M>, env: Env, s: Core<M>)
    ensures var l, l' := s.bus.lines, Step(io, env, s).bus.lines;
            var calls := Heard(env, s.bus.cycles, StepCost(io, s));
            l'.nmiPrev == NmiHigh(l.nmiPrev, calls) && l'.edges == l.edges + Rises(l.nmiPrev, calls)
  {
    hide Isa.Step, NmiHigh, Rises, StepCost, BusLog.StepActs, Heard, Drive;
    var acts := BusLog.StepActs(io, env, s);
    BusLog.StepIsDriven(io, env, s);
    DriveEdges(io, env, s.bus, acts);
    DriveCost(io, env, s.bus, acts);
    StepTiming(io, env, s);
  }

  /** Edge conservation, with the edges counted from the host's calls: of the rising edges in a run, and the NMI pending
      at its start, each was served by a step, or came while one was pending, or is pending at its end. */
  lemma {:induction false} EdgesAreServed<M>(io: Memory<M>, env: Env, s: Core<M>, moves: seq<Move>)
    ensures var k, l := s.bus.lines, After(io, env, s, moves).bus.lines;
            Rises(k.nmiPrev, HostCalls(io, env, s, moves)) + Pending(k)
            == Services(io, env, s, moves) + (l.coalesced - k.coalesced) + Pending(l)
  {
    hide After, Services, HostCalls, Rises, NmiHigh;
    EdgeConservation(io, env, s, moves);
    RunEdges(io, env, s, moves);
  }

  /** Call by call: what each of the five does to each line, and when an edge counts as absorbed. */
  lemma {:induction false} CallByCall(l: Lines)
    ensures Signalled(l, RaiseNmi) ==
      if l.nmiPrev then l
      else if l.nmi then l.(nmiPrev := true, edges := l.edges + 1, coalesced := l.coalesced + 1)
      else l.(nmi := true, nmiPrev := true, edges := l.edges + 1)
    ensures Signalled(l, DropNmi) == l.(nmiPrev := false)
    ensures Signalled(l, SetIrq(true)) == l.(irq := true) && Signalled(l, SetIrq(false)) == l.(irq := false)
    ensures Signalled(l, SetReady(true)) == l.(rdy := true) && Signalled(l, SetReady(false)) == l.(rdy := false)
    ensures Signalled(l, RaiseReset) == l.(reset := true)
  {
  }

  /** Dropping the line re-arms the edge: the next raise is latched, whatever came before. Holding it does not. */
  lemma {:induction false} DropReArms(l: Lines)
    ensures var l' := Delivered(l, [DropNmi, RaiseNmi]);
            l'.nmi && l'.nmiPrev && l'.edges == l.edges + 1
    ensures var l' := Delivered(l, [DropNmi, RaiseNmi, RaiseNmi]);
            l'.nmi && l'.edges == l.edges + 1
    ensures var l' := Delivered(l, [DropNmi, RaiseNmi, DropNmi, RaiseNmi]);
            l'.nmi && l'.edges == l.edges + 2
  {
    var one := Signalled(Signalled(l, DropNmi), RaiseNmi);
    TwoCalls(l, DropNmi, RaiseNmi);
    assert [DropNmi, RaiseNmi, RaiseNmi][..2] == [DropNmi, RaiseNmi];
    assert [DropNmi, RaiseNmi, DropNmi, RaiseNmi][..3] == [DropNmi, RaiseNmi, DropNmi];
    assert [DropNmi, RaiseNmi, DropNmi][..2] == [DropNmi, RaiseNmi];
    assert Delivered(l, [DropNmi, RaiseNmi, DropNmi]) == Signalled(one, DropNmi);
  }

  lemma {:induction false} TwoCalls(l: Lines, sig: Signal, next: Signal)
    ensures Delivered(l, [sig, next]) == Signalled(Signalled(l, sig), next)
  {
    assert [sig, next][..1] == [sig] && [sig][..0] == [];
    assert Delivered(l, [sig]) == Signalled(Delivered(l, []), sig);
  }

  /** A processor as `New` makes it: RESET pending, RDY high, and nothing else. */
  lemma {:induction false} FreshLines<M>(m: M)
    ensures var s := Fresh(m);
            && s.bus.lines.reset && s.bus.lines.rdy
            && !s.bus.lines.irq && !s.bus.lines.nmi && !s.bus.lines.nmiPrev
            && s.bus.lines.edges == s.bus.lines.coalesced == s.bus.lines.taken == 0
            && s.r.a == s.r.x == s.r.y == s.r.sp == s.r.pc == 0 && s.bus.cycles == 0 && s.bus.mem == m
            && !s.r.p.n && !s.r.p.v && !s.r.p.u && !s.r.p.b && !s.r.p.d && !s.r.p.i && !s.r.p.z && !s.r.p.c
  {
  }
}
