/** The VAX processor that the executive sees: IPL, the interrupts pending,
    access modes and contexts, over every PAL call, fault and tick.
    An operation is a function from one state to the next, or to none where the
    PAL stops serving; Pal.Machine does the same in place. */
module Processor {
  import opened Frames
  import opened Numbers

  const SCB_OPCDEC := 0x10
  const SCB_CHMK := 0x40
  const SCB_SOFTINT := 0x80
  const SCB_TIMER := 0xc0
  const SCB_CONSRCV := 0xf8
  const SCB_PORT := 0x100
  const SCB_DISK := 0x104
  const IPL_ASTDEL := 2
  const IPL_CONSOLE := 20
  const IPL_PORT := 21
  const IPL_HWCLK := 24
  const HWPCB_ASTEN := 32

  /** A context that is not the current one waits in its SWPCTX. */
  datatype Waiting = Waiting(mode: int, prv: int, r: Regs)

  /** pending holds the IPLs at which a request waits; port and disk say which of
      the two that share IPL_PORT do.  Contexts go by their HWPCB's address. */
  datatype State = State(c: Cpu, r: Regs, pending: set<int>, port: bool, disk: bool, rxcs: bool, idle: bool,
                         others: map<int, Waiting>)

  // ---------------------------------------------------------------------
  // Delivery
  // ---------------------------------------------------------------------

  // Some mode that the code now running may not keep waiting has an AST.
  predicate AstWaits(c: Cpu) {
    c.hwpcb + HWPCB_ASTEN in c.mem && AstUpTo(c.mem[c.hwpcb + HWPCB_ASTEN], c.mode)
  }

  predicate AstUpTo(q: int, mode: int) {
    exists m | 0 <= m <= mode :: AstFor(q, m)
  }

  predicate AstFor(q: int, m: nat) {
    Bit(q, m) && Bit(q, 8 + m)
  }

  /** The low n bits of a and b, anded. */
  function And(a: int, b: int, n: nat): nat
    decreases n
  {
    if n == 0 then 0 else a % 2 * (b % 2) + 2 * And(a / 2, b / 2, n - 1)
  }

  lemma {:induction false} AndBit(a: int, b: int, n: nat, k: nat)
    ensures Bit(And(a, b, n), k) <==> k < n && Bit(a, k) && Bit(b, k)
    decreases n
  {
    if n > 0 {
      var c := a % 2 * (b % 2);
      DivModUnique(And(a, b, n), And(a / 2, b / 2, n - 1), c, 2);
      if k > 0 {
        AndBit(a / 2, b / 2, n - 1, k - 1);
        BitBelow(a, k);
        BitBelow(b, k);
        BitBelow(And(a, b, n), k);
      }
    }
  }

  lemma {:induction false} SomeBit(x: nat)
    requires x != 0
    ensures exists k: nat :: Bit(x, k)
  {
    if x % 2 == 1 {
      assert Bit(x, 0);
    } else {
      SomeBit(x / 2);
      var k: nat :| Bit(x / 2, k);
      BitBelow(x, k + 1);
    }
  }

  lemma {:induction false} MaskBit(n: nat, k: nat)
    ensures Bit(Pow2(n) - 1, k) <==> k < n
  {
    if n > 0 {
      DivModUnique(Pow2(n) - 1, Pow2(n - 1) - 1, 1, 2);
      if k > 0 {
        BitBelow(Pow2(n) - 1, k);
        MaskBit(n - 1, k - 1);
      }
    }
  }

  lemma ByteUp(q: int, k: nat)
    ensures Bit(q / 0x100, k) == Bit(q, k + 8)
  {
    hide Bit;
    BitUp(q, 8, k);
    assert Pow2(8) == 0x100;
  }

  /** The HWPCB's two bytes anded, up to the mode's bit: not 0 just when some mode's AST
      is both pending and enabled. */
  lemma AstMask(q: int, mode: nat)
    requires mode < 4
    ensures And(And(q, q / 0x100, 64), Pow2(mode + 1) - 1, 64) != 0 <==> AstUpTo(q, mode)
  {
    hide Bit, And, Pow2;
    var both, mask := And(q, q / 0x100, 64), Pow2(mode + 1) - 1;
    var x := And(both, mask, 64);
    if x != 0 {
      SomeBit(x);
      var k: nat :| Bit(x, k);
      AndBit(both, mask, 64, k);
      AndBit(q, q / 0x100, 64, k);
      MaskBit(mode + 1, k);
      ByteUp(q, k);
      assert AstFor(q, k);
    }
    if AstUpTo(q, mode) {
      var m :| 0 <= m <= mode && AstFor(q, m);
      AndBit(both, mask, 64, m);
      AndBit(q, q / 0x100, 64, m);
      MaskBit(mode + 1, m);
      ByteUp(q, m);
      NoBit(m);
    }
  }

  lemma NoBit(k: nat)
    ensures !Bit(0, k)
  {
    DivModUnique(0, 0, 0, Pow2(k));
  }

  function Astchk(s: State): State {
    if s.c.ipl < IPL_ASTDEL && AstWaits(s.c) then s.(pending := s.pending + {IPL_ASTDEL}) else s
  }

  // The highest level pending above ipl, from level down.
  function Highest(pending: set<int>, level: int, ipl: int): Option<int>
    decreases level - ipl
  {
    if level <= ipl then None
    else if level in pending then Some(level)
    else Highest(pending, level - 1, ipl)
  }

  function OffOf(level: int, port: bool): int {
    if level == IPL_HWCLK then SCB_TIMER
    else if level == IPL_CONSOLE then SCB_CONSRCV
    else if level == IPL_PORT then if port then SCB_PORT else SCB_DISK
    else SCB_SOFTINT + 4 * level
  }

  // The requests left once the one at level is taken: of the two at IPL_PORT,
  // the port's goes first and the disks' waits for IPL to drop.
  function Left(s: State, level: int): State {
    if level != IPL_PORT then s.(pending := s.pending - {level})
    else
      var port := false;
      var disk := s.port && s.disk;
      s.(pending := if port || disk then s.pending else s.pending - {level}, port := port, disk := disk)
  }

  /** deliver: at the handler of the highest request above the IPL, or as it was. */
  function Deliver(s: State): Option<State>
    requires |s.r.x| == 31
  {
    var q := Astchk(s);
    var level := Highest(q.pending, 31, q.c.ipl);
    if level.None? then Some(q)
    else
      var v := Vectored(q.c, q.r, OffOf(level.value, q.port), level.value, 0, 0, []);
      if v.None? then None else Some(Left(q, level.value).(c := v.value.0, r := v.value.1))
  }

  function Deliverable(s: State): bool {
    Highest(s.pending, 31, s.c.ipl).Some?
  }

  /** ret: the context has its answer, v0, and may be interrupted before it sees it. */
  function Ret(s: State, v0: int): Option<State>
    requires |s.r.x| == 31
  {
    Deliver(PastCall(s, v0))
  }

  function PastCall(s: State, v0: int): State
    requires |s.r.x| == 31
  {
    s.(r := s.r.(pc := s.r.pc + 4, x := s.r.x[0 := v0]))
  }

  /** exception: an outer mode's goes to its handler in kernel mode; kernel
      mode's own stops the executive. */
  function Exception(s: State, off: int, pc: int, params: seq<int>): Option<State>
    requires |s.r.x| == 31
  {
    if s.c.mode == 0 then None
    else
      var v := Vectored(s.c, s.r.(pc := pc), off, s.c.ipl, 0, s.c.mode, params);
      if v.None? then None else Some(s.(c := v.value.0, r := v.value.1))
  }

  /** chmx: no step outward is made this way. */
  function Chmx(s: State, x: int, code: int): Option<State>
    requires |s.r.x| == 31
  {
    var v := ChmxTo(s, x, code);
    if v.None? then Exception(s, SCB_OPCDEC, s.r.pc, []) else Some(s.(c := v.value.0, r := v.value.1))
  }

  function ChmxTo(s: State, x: int, code: int): Option<(Cpu, Regs)>
    requires |s.r.x| == 31
  {
    var to := if x < s.c.mode then x else s.c.mode;
    Vectored(s.c, s.r.(pc := s.r.pc + 4), SCB_CHMK + 4 * x, s.c.ipl, to, s.c.mode, [code])
  }

  function DoRei(s: State): Option<State>
    requires |s.r.x| == 31
  {
    var v := Reid(s.c, s.r);
    if v.None? then Exception(s, SCB_OPCDEC, s.r.pc, [])
    else
      assert |v.value.1.x| == 31;
      Deliver(s.(c := v.value.0, r := v.value.1))
  }

  // The current context waits, and the one of hwpcb is current, with the
  // memory it sees.
  function Switched(s: State, hwpcb: int, to: Waiting, view: map<int, int>): State {
    s.(others := (s.others - {hwpcb})[s.c.hwpcb := Waiting(s.c.mode, s.c.prv, s.r)],
       c := s.c.(mem := view, hwpcb := hwpcb, mode := to.mode, prv := to.prv), r := to.r)
  }

  function Blank(ksp: int): Regs {
    Regs(0, 0, seq(31, i => 0)[18 := ksp], 0)
  }

  /** swpctx: the state in which the context of hwpcb goes on, or none where
      there is no such context.  It can tell which one ran before it. */
  function Swpctx(s: State, hwpcb: int, view: map<int, int>): Option<State>
    requires |s.r.x| == 31 && forall h <- s.others :: |s.others[h].r.x| == 31
  {
    if hwpcb == 0 then None // nothing is mapped there
    else if hwpcb == s.c.hwpcb then Ret(s, hwpcb)
    else if hwpcb in s.others then Ret(Switched(s, hwpcb, s.others[hwpcb], view), s.c.hwpcb)
    else if hwpcb !in s.c.mem then None
    else
      Started(Switched(s, hwpcb, Waiting(0, 0, Blank(s.c.mem[hwpcb])), view), s.c.hwpcb)
  }

  // A context's first REI.
  function Started(t: State, from: int): Option<State>
    requires |t.r.x| == 31
  {
    var v := Reid(t.c, t.r);
    if v.None? then None
    else
      assert |v.value.1.x| == 31;
      Deliver(t.(c := v.value.0, r := v.value.1.(x := v.value.1.x[0 := from])))
  }

  // ---------------------------------------------------------------------
  // Calls, faults and ticks
  // ---------------------------------------------------------------------

  datatype Call =
    | SwpctxCall(hwpcb: int, view: map<int, int>)
    | MtprIpl(v: int)
    | MtprSirr(v: int)
    | MtprScbb(v: int)
    | MtprRxcs(on: bool, ready: bool)
    | Wtint
    | Delctx(hwpcb: int)
    | Device(v0: int, done: bool) // a disk call, and whether it ended a request
    | Privileged(v0: int) // any other privileged call, which returns v0
    | Halt
    | ChmxCall(x: int, code: int)
    | ReiCall
    | Unprivileged(v0: int, v1: int) // a probe or a queue call, and R1 after it
    | Reserved(off: int, params: seq<int>) // a call that is an exception

  // The calls from 0x00 to 0x7F.
  predicate IsPrivileged(call: Call) {
    !(call.ChmxCall? || call.ReiCall? || call.Unprivileged? || call.Reserved?)
  }

  predicate WellFormed(call: Call) {
    && (call.ChmxCall? ==> 0 <= call.x < 4)
    && (call.Reserved? ==> |call.params| <= 2)
  }

  function AsksDisk(s: State): State {
    s.(pending := s.pending + {IPL_PORT}, disk := true)
  }

  function Serve(s: State, call: Call): Option<State>
    requires |s.r.x| == 31 && forall h <- s.others :: |s.others[h].r.x| == 31
  {
    if IsPrivileged(call) && s.c.mode != 0 then Exception(s, SCB_OPCDEC, s.r.pc, [])
    else
      match call
      case SwpctxCall(hwpcb, view) => Swpctx(s, hwpcb, view)
      case MtprIpl(v) => Ret(s.(c := s.c.(ipl := v % 32)), s.c.ipl)
      case MtprSirr(v) => Ret(if v % 16 != 0 then s.(pending := s.pending + {v % 16}) else s, v)
      case MtprScbb(v) => Ret(s.(c := s.c.(scbb := v % 0x1_0000_0000)), v)
      case MtprRxcs(on, ready) =>
        Ret(s.(rxcs := on, pending := if on && ready then s.pending + {IPL_CONSOLE} else s.pending), s.r.x[0])
      case Wtint => if Deliverable(Astchk(s)) then Ret(s, 0) else Some(s.(idle := true))
      case Delctx(hwpcb) =>
        if hwpcb != 0 && hwpcb == s.c.hwpcb then Exception(s, SCB_OPCDEC, s.r.pc, [])
        else Ret(s.(others := s.others - {hwpcb}), hwpcb)
      case Device(v0, done) => Ret(if done then AsksDisk(s) else s, v0)
      case Privileged(v0) => Ret(s, v0)
      case Halt => None
      case ChmxCall(x, code) => Chmx(s, x, code)
      case ReiCall => DoRei(s)
      case Unprivileged(v0, v1) => Ret(s.(r := s.r.(x := s.r.x[1 := v1])), v0)
      case Reserved(off, params) => Exception(s, off, s.r.pc, params)
  }

  // The requests there are after a notification with these badges.
  function Requests(s: State, port: bool, disk: bool, clock: bool, input: bool): State {
    var a := if port then s.(pending := s.pending + {IPL_PORT}, port := true) else s;
    var b := if disk then AsksDisk(a) else a;
    var c := if clock then b.(pending := b.pending + {IPL_HWCLK}) else b;
    if c.rxcs && input then c.(pending := c.pending + {IPL_CONSOLE}) else c
  }

  // What is requested is delivered now, to the running context or to one that
  // waits in WTINT, or waits for IPL to drop.
  function Settled(t: State): Option<State>
    requires |t.r.x| == 31
  {
    if !Deliverable(Astchk(t)) then Some(Astchk(t))
    else if t.idle then Ret(t.(idle := false), 0)
    else Deliver(t)
  }

  function Tick(s: State, port: bool, disk: bool, clock: bool, input: bool): Option<State>
    requires |s.r.x| == 31
  {
    Settled(Requests(s, port, disk, clock, input))
  }

  /** What reaches the PAL, and the executive's own code in between, which may
      change the registers and memory as it likes. */
  datatype Event =
    | Calls(call: Call)
    | Faults(off: int, params: seq<int>)
    | Ticks(port: bool, disk: bool, clock: bool, input: bool)
    | Runs(mem: map<int, int>, r: Regs)

  predicate Can(s: State, e: Event) {
    && (s.idle ==> e.Ticks?)
    && (e.Calls? ==> WellFormed(e.call)) && (e.Faults? ==> |e.params| <= 2) && (e.Runs? ==> |e.r.x| == 31)
  }

  function Next(s: State, e: Event): Option<State>
    requires |s.r.x| == 31 && forall h <- s.others :: |s.others[h].r.x| == 31
  {
    match e
    case Calls(call) => Serve(s, call)
    case Faults(off, params) => Exception(s, off, s.r.pc, params)
    case Ticks(port, disk, clock, input) => Tick(s, port, disk, clock, input)
    case Runs(mem, r) => Some(s.(c := s.c.(mem := mem), r := r))
  }

  // ---------------------------------------------------------------------
  // What holds in every state
  // ---------------------------------------------------------------------

  // Nothing pending is above the IPL.
  predicate Quiet(s: State) {
    forall level <- s.pending :: level <= s.c.ipl
  }

  predicate Consistent(s: State) {
    && Legal(s.c, s.r)
    && (IPL_PORT in s.pending <==> s.port || s.disk)
    && (forall level <- s.pending :: 0 < level < 32)
    && s.c.hwpcb !in s.others
    && (forall h <- s.others :: s.others[h].mode == 0 && 0 <= s.others[h].prv < 4 && |s.others[h].r.x| == 31)
    && (s.idle ==> s.c.mode == 0)
  }

  /** A state the executive runs in, or waits in WTINT. */
  predicate Resumed(s: State) {
    Consistent(s) && Quiet(s)
  }

  lemma {:induction false} HighestIs(pending: set<int>, level: int, ipl: int)
    ensures match Highest(pending, level, ipl)
      case Some(l) => l in pending && ipl < l <= level && forall p <- pending :: p <= l || p > level
      case None => forall p <- pending :: p <= ipl || p > level
    decreases level - ipl
  {
    if level > ipl && level !in pending {
      HighestIs(pending, level - 1, ipl);
    }
  }

  // ---------------------------------------------------------------------
  // What every step keeps
  // ---------------------------------------------------------------------

  // The current context's REI, before any interrupt.
  function Popped(t: State): Option<State>
    requires |t.r.x| == 31
  {
    var v := Reid(t.c, t.r);
    if v.None? then None else Some(t.(c := v.value.0, r := v.value.1))
  }

  // Where the context that goes on after SWPCTX is before any interrupt.
  function Onto(s: State, hwpcb: int, view: map<int, int>): State
    requires |s.r.x| == 31 && forall h <- s.others :: |s.others[h].r.x| == 31
  {
    if hwpcb == s.c.hwpcb then PastCall(s, hwpcb)
    else if hwpcb in s.others then PastCall(Switched(s, hwpcb, s.others[hwpcb], view), s.c.hwpcb)
    else if hwpcb !in s.c.mem then s
    else
      var t := Popped(Switched(s, hwpcb, Waiting(0, 0, Blank(s.c.mem[hwpcb])), view));
      if t.None? then s
      else
        assert |t.value.r.x| == 31;
        t.value.(r := t.value.r.(x := t.value.r.x[0 := s.c.hwpcb]))
  }

  /** What the event itself makes of the state: where it goes on if nothing is to be
      delivered, and what a handler interrupts otherwise. */
  function Before(s: State, e: Event): State
    requires |s.r.x| == 31 && forall h <- s.others :: |s.others[h].r.x| == 31
  {
    match e
    case Ticks(port, disk, clock, input) =>
      var t := Requests(s, port, disk, clock, input);
      if t.idle then PastCall(t.(idle := false), 0) else t
    case Calls(call) =>
      if IsPrivileged(call) && s.c.mode != 0 then s
      else (
        match call
        case SwpctxCall(hwpcb, view) => Onto(s, hwpcb, view)
        case MtprIpl(v) => PastCall(s.(c := s.c.(ipl := v % 32)), s.c.ipl)
        case MtprSirr(v) => PastCall(if v % 16 != 0 then s.(pending := s.pending + {v % 16}) else s, v)
        case MtprScbb(v) => PastCall(s.(c := s.c.(scbb := v % 0x1_0000_0000)), v)
        case MtprRxcs(on, ready) =>
          PastCall(s.(rxcs := on, pending := if on && ready then s.pending + {IPL_CONSOLE} else s.pending), s.r.x[0])
        case Wtint => PastCall(s, 0)
        case Delctx(hwpcb) => if hwpcb != 0 && hwpcb == s.c.hwpcb then s
          else PastCall(s.(others := s.others - {hwpcb}), hwpcb)
        case Device(v0, done) => PastCall(if done then AsksDisk(s) else s, v0)
        case Privileged(v0) => PastCall(s, v0)
        case ChmxCall(x, code) => if ChmxTo(s, x, code).None? then s else s.(r := s.r.(pc := s.r.pc + 4))
        case ReiCall => if Popped(s).None? then s else Popped(s).value
        case Unprivileged(v0, v1) => PastCall(s.(r := s.r.(x := s.r.x[1 := v1])), v0)
        case _ => s)
    case _ => s
  }

  /** The state is one vector() makes of u, for that vector. */
  ghost predicate ByVector(u: State, t: State, off: int) {
    |u.r.x| == 31 && exists i: int, to: int, prv: int, ps: seq<int> ::
      Vectored(u.c, u.r, off, i, to, prv, ps) == Some((t.c, t.r))
  }

  /** The interrupt at level, let through by the IPL of u, has been taken in kernel mode. */
  ghost predicate Taken(u: State, t: State, level: int, off: int) {
    |u.r.x| == 31 && u.c.ipl < level && Vectored(u.c, u.r, off, level, 0, 0, []) == Some((t.c, t.r))
  }

  /** An interrupt requested is pending still, or has just been taken from u. */
  ghost predicate Kept(s: State, u: State, t: State) {
    && (forall level <- s.pending | level != IPL_PORT :: level in t.pending || Taken(u, t, level, OffOf(level, false)))
    && (s.port ==> t.port || Taken(u, t, IPL_PORT, SCB_PORT))
    && (s.disk ==> t.disk || Taken(u, t, IPL_PORT, SCB_DISK))
  }

  /** The mode number drops only at an SCB handler. */
  ghost predicate DropsByVector(s: State, u: State, t: State) {
    t.c.mode < s.c.mode ==> exists off :: ByVector(u, t, off)
  }

  // Once the highest is taken, nothing is left above the IPL.
  lemma LeftIs(s: State, level: int)
    requires IPL_PORT in s.pending <==> s.port || s.disk
    requires level in s.pending && forall p <- s.pending :: p <= level
    ensures var t := Left(s, level);
      && (IPL_PORT in t.pending <==> t.port || t.disk)
      && (forall p <- t.pending :: p in s.pending && p <= level)
      && (forall p <- s.pending :: p in t.pending || p == level)
      && (s.port ==> t.port || level == IPL_PORT)
      && (s.disk ==> t.disk || (level == IPL_PORT && !s.port))
      && t.others == s.others && t.idle == s.idle
  {
  }

  lemma Asts(s: State)
    requires Consistent(s)
    ensures Consistent(Astchk(s)) && s.pending <= Astchk(s).pending
    ensures var q := Astchk(s); q.c == s.c && q.r == s.r && q.port == s.port && q.disk == s.disk
    ensures Highest(Astchk(s).pending, 31, s.c.ipl).None? ==> Astchk(s) == s
  {
    HighestIs(Astchk(s).pending, 31, s.c.ipl);
  }

  /** deliver takes the highest interrupt that IPL lets through, if there is
      one, and leaves none above the IPL. */
  lemma Delivers(s: State)
    requires Consistent(s) && Deliver(s).Some?
    ensures Fine(s, s, Deliver(s).value)
  {
    hide AstWaits, Vectored, Left, Highest, Astchk;
    Asts(s);
    var q := Astchk(s);
    HighestIs(q.pending, 31, q.c.ipl);
    var level := Highest(q.pending, 31, q.c.ipl);
    if level.Some? {
      var t := Deliver(s).value;
      LeftIs(q, level.value);
      assert Taken(s, t, level.value, OffOf(level.value, q.port));
      assert ByVector(s, t, OffOf(level.value, q.port));
    }
  }

  // What was requested before is kept if what is requested now is.
  lemma FineFrom(s: State, u: State, t: State)
    requires s.pending <= u.pending && (s.port ==> u.port) && (s.disk ==> u.disk) && Fine(u, u, t)
    requires t.c.mode < s.c.mode ==> t.c.mode < u.c.mode
    ensures Fine(s, u, t)
  {
    hide Taken, ByVector;
  }

  /** A step is to a state to resume in, has lost no request, and drops the mode
      number only at a handler. */
  ghost predicate Fine(s: State, u: State, t: State) {
    Resumed(t) && Kept(s, u, t) && DropsByVector(s, u, t)
  }

  lemma Rets(s: State, u: State, v0: int)
    requires Consistent(u) && u.c.mode == s.c.mode && Ret(u, v0).Some?
    requires s.pending <= u.pending && (s.port ==> u.port) && (s.disk ==> u.disk)
    ensures Fine(s, PastCall(u, v0), Ret(u, v0).value)
  {
    hide Deliver, Fine;
    Delivers(PastCall(u, v0));
    FineFrom(s, PastCall(u, v0), Ret(u, v0).value);
  }

  lemma Exceptions(s: State, off: int, params: seq<int>)
    requires Resumed(s) && !s.idle && Exception(s, off, s.r.pc, params).Some?
    ensures Fine(s, s, Exception(s, off, s.r.pc, params).value)
  {
    hide Vectored;
    assert s.r.(pc := s.r.pc) == s.r;
    assert ByVector(s, Exception(s, off, s.r.pc, params).value, off);
  }

  lemma Chmxs(s: State, x: int, code: int)
    requires Resumed(s) && !s.idle && 0 <= x < 4 && Chmx(s, x, code).Some?
    ensures Fine(s, if ChmxTo(s, x, code).None? then s else s.(r := s.r.(pc := s.r.pc + 4)), Chmx(s, x, code).value)
  {
    hide Vectored, Exception;
    if ChmxTo(s, x, code).None? {
      Exceptions(s, SCB_OPCDEC, []);
    } else {
      assert ByVector(s.(r := s.r.(pc := s.r.pc + 4)), Chmx(s, x, code).value, SCB_CHMK + 4 * x);
    }
  }

  lemma DoReis(s: State)
    requires Resumed(s) && !s.idle && DoRei(s).Some?
    ensures Fine(s, if Popped(s).None? then s else Popped(s).value, DoRei(s).value)
  {
    hide Reid, Exception, Deliver, Fine;
    if Popped(s).None? {
      Exceptions(s, SCB_OPCDEC, []);
    } else {
      ReidLegal(s.c, s.r);
      Delivers(Popped(s).value);
      FineFrom(s, Popped(s).value, DoRei(s).value);
    }
  }

  lemma Swpctxs(s: State, hwpcb: int, view: map<int, int>)
    requires Resumed(s) && !s.idle && s.c.mode == 0 && Swpctx(s, hwpcb, view).Some?
    ensures Fine(s, Onto(s, hwpcb, view), Swpctx(s, hwpcb, view).value)
  {
    hide Reid, Deliver, Fine, Ret, Started, PastCall, Popped;
    if hwpcb == s.c.hwpcb {
      Rets(s, s, hwpcb);
    } else if hwpcb in s.others {
      Rets(s, Switched(s, hwpcb, s.others[hwpcb], view), s.c.hwpcb);
    } else {
      Starts(s, Switched(s, hwpcb, Waiting(0, 0, Blank(s.c.mem[hwpcb])), view), s.c.hwpcb);
    }
  }

  lemma Starts(s: State, t: State, from: int)
    requires s.c.mode == 0 && Consistent(t) && !t.idle && t.pending == s.pending && t.port == s.port && t.disk == s.disk
    requires Started(t, from).Some?
    ensures Popped(t).Some? && |Popped(t).value.r.x| == 31
    ensures var u := Popped(t).value; Fine(s, u.(r := u.r.(x := u.r.x[0 := from])), Started(t, from).value)
  {
    hide Reid, Deliver, Fine;
    ReidLegal(t.c, t.r);
    var u := Popped(t).value;
    var w := u.(r := u.r.(x := u.r.x[0 := from]));
    Delivers(w);
    FineFrom(s, w, Started(t, from).value);
  }

  lemma Serves(s: State, call: Call)
    requires Resumed(s) && !s.idle && WellFormed(call) && Serve(s, call).Some?
    ensures Fine(s, Before(s, Calls(call)), Serve(s, call).value)
  {
    hide Fine, Deliver, Ret, Exception, Chmx, ChmxTo, DoRei, Popped, Onto, Swpctx, AstWaits, PastCall;
    if IsPrivileged(call) && s.c.mode != 0 {
      Exceptions(s, SCB_OPCDEC, []);
    } else {
      match call {
        case SwpctxCall(hwpcb, view) => Swpctxs(s, hwpcb, view);
        case MtprIpl(v) => Rets(s, s.(c := s.c.(ipl := v % 32)), s.c.ipl);
        case MtprSirr(v) => Rets(s, if v % 16 != 0 then s.(pending := s.pending + {v % 16}) else s, v);
        case MtprScbb(v) => Rets(s, s.(c := s.c.(scbb := v % 0x1_0000_0000)), v);
        case MtprRxcs(on, ready) =>
          Rets(s, s.(rxcs := on, pending := if on && ready then s.pending + {IPL_CONSOLE} else s.pending), s.r.x[0]);
        case Wtint =>
          if Deliverable(Astchk(s)) { Rets(s, s, 0); } else { Itself(s, PastCall(s, 0), s.(idle := true)); }
        case Delctx(h) =>
          if h != 0 && h == s.c.hwpcb { Exceptions(s, SCB_OPCDEC, []); } else {
            Rets(s, s.(others := s.others - {h}), h);
          }
        case Device(v0, done) => Rets(s, if done then AsksDisk(s) else s, v0);
        case Privileged(v0) => Rets(s, s, v0);
        case ChmxCall(x, code) => Chmxs(s, x, code);
        case ReiCall => DoReis(s);
        case Unprivileged(v0, v1) => Rets(s, s.(r := s.r.(x := s.r.x[1 := v1])), v0);
        case Reserved(off, params) => Exceptions(s, off, params);
      }
    }
  }

  lemma Itself(s: State, u: State, t: State)
    requires Resumed(t) && t.pending == s.pending && t.port == s.port && t.disk == s.disk && t.c.mode == s.c.mode
    ensures Fine(s, u, t)
  {
  }

  lemma Requested(s: State, port: bool, disk: bool, clock: bool, input: bool)
    requires Consistent(s)
    ensures var t := Requests(s, port, disk, clock, input);
      Consistent(t) && s.pending <= t.pending && (s.port ==> t.port) && (s.disk ==> t.disk) && t.c == s.c && t.r == s.r
  {
  }

  lemma TicksFine(s: State, port: bool, disk: bool, clock: bool, input: bool)
    requires Resumed(s) && Tick(s, port, disk, clock, input).Some?
    ensures Fine(s, Before(s, Ticks(port, disk, clock, input)), Tick(s, port, disk, clock, input).value)
  {
    hide Deliver, Fine, Ret, AstWaits, Requests, PastCall;
    Requested(s, port, disk, clock, input);
    var t := Requests(s, port, disk, clock, input);
    Asts(t);
    if !Deliverable(Astchk(t)) {
      HighestIs(Astchk(t).pending, 31, t.c.ipl);
      More(s, Before(s, Ticks(port, disk, clock, input)), t);
    } else if t.idle {
      Rets(s, t.(idle := false), 0);
    } else {
      Delivers(t);
      FineFrom(s, t, Tick(s, port, disk, clock, input).value);
    }
  }

  lemma More(s: State, u: State, t: State)
    requires Resumed(t) && s.pending <= t.pending && (s.port ==> t.port) && (s.disk ==> t.disk) && t.c.mode == s.c.mode
    ensures Fine(s, u, t)
  {
  }

  /** Interrupt safety, a step at a time: the executive is resumed with nothing
      pending above its IPL, what was requested is pending still or its handler has
      interrupted what the event made, and the mode number drops only at an SCB
      handler. */
  lemma Safe(s: State, e: Event)
    requires Resumed(s) && Can(s, e) && Next(s, e).Some?
    ensures Fine(s, Before(s, e), Next(s, e).value)
  {
    hide Fine, Serve, Tick, Exception, Before;
    match e {
      case Calls(call) => Serves(s, call);
      case Faults(off, params) =>
        Exceptions(s, off, params);
        assert Before(s, e) == s by { NoCall(s, e); }
      case Ticks(port, disk, clock, input) => TicksFine(s, port, disk, clock, input);
      case Runs(mem, r) => Itself(s, Before(s, e), Next(s, e).value);
    }
  }

  lemma NoCall(s: State, e: Event)
    requires e.Faults? && |s.r.x| == 31 && forall h <- s.others :: |s.others[h].r.x| == 31
    ensures Before(s, e) == s
  {
  }

  /** A run of the PAL: states and the events between them. */
  ghost predicate Trace(ss: seq<State>, es: seq<Event>) {
    && |ss| == |es| + 1 && Resumed(ss[0])
    && forall i | 0 <= i < |es| :: Steps(ss[i], es[i], ss[i + 1])
  }

  ghost predicate Steps(s: State, e: Event, t: State) {
    |s.r.x| == 31 && (forall h <- s.others :: |s.others[h].r.x| == 31) && Can(s, e) && Next(s, e) == Some(t)
  }

  /** In every state of every run nothing pending is above the IPL, the IPL 21
      bit is set exactly when a device asks, outer modes run at IPL 0, the
      previous mode is no inner than the current one and the contexts that
      wait are in kernel mode. */
  lemma {:induction false} AlwaysResumed(ss: seq<State>, es: seq<Event>, i: nat)
    requires Trace(ss, es) && i < |ss|
    ensures Resumed(ss[i])
  {
    hide Next, Before, Resumed, Kept, DropsByVector, Can;
    if i > 0 {
      AlwaysResumed(ss, es, i - 1);
      assert Steps(ss[i - 1], es[i - 1], ss[i]);
      Safe(ss[i - 1], es[i - 1]);
    }
  }

  /** The h-th step of the run took the interrupt, from what its event made. */
  ghost predicate TakenIn(ss: seq<State>, es: seq<Event>, h: nat, level: int, off: int)
    requires Trace(ss, es) && 0 < h < |ss|
  {
    assert Steps(ss[h - 1], es[h - 1], ss[h]);
    Taken(Before(ss[h - 1], es[h - 1]), ss[h], level, off)
  }

  /** An interrupt pending in a run stays so up to the step that enters its
      handler. */
  lemma {:induction false} PendingUntilTaken(ss: seq<State>, es: seq<Event>, i: nat, j: nat, level: int)
    requires Trace(ss, es) && i <= j < |ss| && level in ss[i].pending && level != IPL_PORT
    requires forall h | i < h <= j :: !TakenIn(ss, es, h, level, OffOf(level, false))
    ensures level in ss[j].pending
  {
    hide Next, Before, Resumed, DropsByVector, Can, Taken;
    if i < j {
      PendingUntilTaken(ss, es, i, j - 1, level);
      assert !TakenIn(ss, es, j, level, OffOf(level, false));
      AlwaysResumed(ss, es, j - 1);
      assert Steps(ss[j - 1], es[j - 1], ss[j]);
      Safe(ss[j - 1], es[j - 1]);
    }
  }

  /** The port's and the disks' requests, which share a level, each stay until
      their own vector is taken. */
  lemma {:induction false} DevicePendingUntilTaken(ss: seq<State>, es: seq<Event>, i: nat, j: nat)
    requires Trace(ss, es) && i <= j < |ss|
    ensures ss[i].port && (forall h | i < h <= j :: !TakenIn(ss, es, h, IPL_PORT, SCB_PORT)) ==> ss[j].port
    ensures ss[i].disk && (forall h | i < h <= j :: !TakenIn(ss, es, h, IPL_PORT, SCB_DISK)) ==> ss[j].disk
  {
    hide Next, Before, Resumed, DropsByVector, Can, Taken;
    if i < j {
      DevicePendingUntilTaken(ss, es, i, j - 1);
      var port, disk := TakenIn(ss, es, j, IPL_PORT, SCB_PORT), TakenIn(ss, es, j, IPL_PORT, SCB_DISK);
      AlwaysResumed(ss, es, j - 1);
      assert Steps(ss[j - 1], es[j - 1], ss[j]);
      Safe(ss[j - 1], es[j - 1]);
    }
  }

  // ---------------------------------------------------------------------
  // What requests an interrupt, and which handler has it
  // ---------------------------------------------------------------------

  /** The vector of each level: the timer's, the console's, the port's or the disks', and the
      software levels'. */
  lemma Vectors(port: bool)
    ensures OffOf(24, port) == 0xc0 && OffOf(20, port) == 0xf8 && OffOf(21, port) == if port then 0x100 else 0x104
    ensures forall level | 1 <= level < 16 :: OffOf(level, port) == 0x80 + 4 * level
  {
  }

  // What is delivered of the requests there are: the highest, if the IPL lets it through.
  lemma DeliversHighest(s: State, level: int)
    requires Consistent(s) && Deliver(s).Some? && s.c.ipl < level && level in Astchk(s).pending
    requires forall p <- Astchk(s).pending :: p <= level
    ensures var t := Deliver(s).value; Taken(s, t, level, OffOf(level, s.port))
    ensures var t := Deliver(s).value;
      && t.pending == (if level == 21 && s.port && s.disk then Astchk(s).pending else Astchk(s).pending - {level})
      && (t.port <==> s.port && level != 21) && (t.disk <==> s.disk && (level != 21 || s.port))
  {
    hide AstWaits, Vectored, Highest;
    Asts(s);
    var q := Astchk(s);
    HighestIs(q.pending, 31, q.c.ipl);
  }

  /** An AST waiting for this mode, or one further in, is delivered below IPL 2, at
      the vector of software level 2, when nothing is pending above it. */
  lemma AstTaken(s: State)
    requires Consistent(s) && Deliver(s).Some? && s.c.ipl < 2 && (forall p <- s.pending :: p <= 2)
    requires s.c.hwpcb + 32 in s.c.mem && AstUpTo(s.c.mem[s.c.hwpcb + 32], s.c.mode)
    ensures Taken(s, Deliver(s).value, 2, 0x88)
  {
    hide Vectored, Deliver;
    Asts(s);
    DeliversHighest(s, 2);
  }

  /** A tick's badges each request their interrupt: it is pending afterwards, or its handler
      has just been entered. */
  ghost predicate TickAsks(s: State, port: bool, disk: bool, clock: bool, input: bool, t: State)
    requires Consistent(s)
  {
    var u := Before(s, Ticks(port, disk, clock, input));
    && (clock ==> 24 in t.pending || Taken(u, t, 24, 0xc0))
    && (s.rxcs && input ==> 20 in t.pending || Taken(u, t, 20, 0xf8))
    && (port ==> (t.port && 21 in t.pending) || Taken(u, t, 21, 0x100))
    && (disk ==> (t.disk && 21 in t.pending) || Taken(u, t, 21, 0x104))
  }

  lemma Ticked(s: State, port: bool, disk: bool, clock: bool, input: bool)
    requires Resumed(s) && Tick(s, port, disk, clock, input).Some?
    ensures TickAsks(s, port, disk, clock, input, Tick(s, port, disk, clock, input).value)
  {
    hide Deliver, AstWaits, PastCall, Taken, Astchk;
    Requested(s, port, disk, clock, input);
    var t, u := Requests(s, port, disk, clock, input), Before(s, Ticks(port, disk, clock, input));
    Asts(t);
    if !Deliverable(Astchk(t)) {
      HighestIs(Astchk(t).pending, 31, t.c.ipl);
    } else {
      PastConsistent(t.(idle := false), 0);
      Delivers(u);
    }
  }

  lemma PastConsistent(s: State, v0: int)
    requires Consistent(s)
    ensures var u := PastCall(s, v0);
      Consistent(u) && u.pending == s.pending && u.port == s.port && u.disk == s.disk && u.c == s.c
      && u.others == s.others
  {
  }

  // Delivery asks for nothing but ASTs.
  lemma DeliverOnly(u: State)
    requires Consistent(u) && Deliver(u).Some?
    ensures var t := Deliver(u).value; t.pending <= Astchk(u).pending && (t.port ==> u.port) && (t.disk ==> u.disk)
  {
    hide AstWaits, Vectored, Astchk;
    Asts(u);
    HighestIs(Astchk(u).pending, 31, u.c.ipl);
  }

  // What a tick may have asked for.
  predicate Due(s: State, port: bool, disk: bool, clock: bool, input: bool, p: int) {
    (p == 24 && clock) || (p == 20 && s.rxcs && input) || (p == 21 && (port || disk))
  }

  lemma RequestsOnly(s: State, port: bool, disk: bool, clock: bool, input: bool)
    ensures var r := Requests(s, port, disk, clock, input);
      && (r.port <==> s.port || port) && (r.disk <==> s.disk || disk)
      && forall p :: p in r.pending <==> p in s.pending || Due(s, port, disk, clock, input, p)
  {
  }

  lemma AstOnly(s: State)
    ensures Astchk(s).pending == s.pending + if s.c.ipl < 2 && AstWaits(s.c) then {2} else {}
    ensures var q := Astchk(s); q == s.(pending := q.pending)
  {
    hide AstWaits;
  }

  /** And nothing else does, but an AST that waits. */
  predicate TickAsksOnly(s: State, port: bool, disk: bool, clock: bool, input: bool, t: State) {
    && (t.port ==> s.port || port) && (t.disk ==> s.disk || disk)
    && forall p <- t.pending | p !in s.pending ::
         Due(s, port, disk, clock, input, p) || (p == 2 && s.c.ipl < 2 && AstWaits(s.c))
  }

  lemma TickOnly(s: State, port: bool, disk: bool, clock: bool, input: bool)
    requires Resumed(s) && Tick(s, port, disk, clock, input).Some?
    ensures TickAsksOnly(s, port, disk, clock, input, Tick(s, port, disk, clock, input).value)
  {
    hide AstWaits, PastCall, Deliver, Requests, Astchk, Due, Highest;
    Requested(s, port, disk, clock, input);
    RequestsOnly(s, port, disk, clock, input);
    var r := Requests(s, port, disk, clock, input);
    AstOnly(r);
    if Deliverable(Astchk(r)) {
      PastConsistent(r.(idle := false), 0);
      var u := if r.idle then PastCall(r.(idle := false), 0) else r;
      AstOnly(u);
      DeliverOnly(u);
    }
  }

  /** The handler is entered at once where the IPL is below and nothing higher is asked for. */
  ghost predicate TickTakes(s: State, port: bool, disk: bool, clock: bool, input: bool, t: State)
    requires Consistent(s)
  {
    var u := Before(s, Ticks(port, disk, clock, input));
    && (clock && s.c.ipl < 24 ==> Taken(u, t, 24, 0xc0))
    && (port && s.c.ipl < 21 && !clock ==> Taken(u, t, 21, 0x100))
    && (disk && s.c.ipl < 21 && !clock && !port ==> Taken(u, t, 21, 0x104))
    && (s.rxcs && input && s.c.ipl < 20 && !clock && !port && !disk ==> Taken(u, t, 20, 0xf8))
  }

  lemma TickEnters(s: State, port: bool, disk: bool, clock: bool, input: bool)
    requires Resumed(s) && Tick(s, port, disk, clock, input).Some?
    ensures TickTakes(s, port, disk, clock, input, Tick(s, port, disk, clock, input).value)
  {
    hide AstWaits, PastCall, Deliver, Requests, Astchk, Taken, OffOf;
    Requested(s, port, disk, clock, input);
    RequestsOnly(s, port, disk, clock, input);
    var r, u := Requests(s, port, disk, clock, input), Before(s, Ticks(port, disk, clock, input));
    PastConsistent(r.(idle := false), 0);
    var level := if clock then 24 else if port || disk then 21 else 20;
    if (clock || port || disk || (s.rxcs && input)) && s.c.ipl < level {
      assert Due(s, port, disk, clock, input, level);
      AstOnly(r);
      AstOnly(u);
      Asts(r);
      HighestIs(Astchk(r).pending, 31, r.c.ipl);
      assert level in Astchk(r).pending;
      Vectors(u.port);
      DeliversHighest(u, level);
    }
  }

  // ---------------------------------------------------------------------
  // What a call answers
  // ---------------------------------------------------------------------

  // The state just past a call, with its answer in R0.
  function Past(s: State, v0: int, ipl: int, scbb: int): (Cpu, Regs)
    requires |s.r.x| == 31
  {
    (s.c.(ipl := ipl, scbb := scbb), s.r.(pc := s.r.pc + 4, x := s.r.x[0 := v0]))
  }

  // The interrupt has been taken there.
  ghost predicate Enters(now: (Cpu, Regs), t: State, level: int, off: int) {
    |now.1.x| == 31 && now.0.ipl < level && Vectored(now.0, now.1, off, level, 0, 0, []) == Some((t.c, t.r))
  }

  /** The state is that, or an interrupt of it has just been taken. */
  ghost predicate At(now: (Cpu, Regs), t: State) {
    (t.c, t.r) == now || exists level, off :: Enters(now, t, level, off)
  }

  // It is pending still or has been taken there.
  ghost predicate Asks(now: (Cpu, Regs), t: State, level: int, off: int) {
    level in t.pending || Enters(now, t, level, off)
  }

  lemma RetAt(s: State, v0: int)
    requires Consistent(s) && Ret(s, v0).Some?
    ensures var t, now := Ret(s, v0).value, Past(s, v0, s.c.ipl, s.c.scbb);
      && At(now, t) && t.others == s.others && t.rxcs == s.rxcs
      && (forall level <- s.pending | level != 21 :: Asks(now, t, level, OffOf(level, false)))
      && (s.disk ==> t.disk || Enters(now, t, 21, 0x104))
  {
    hide Vectored, AstWaits, Astchk, Highest, OffOf;
    var u := PastCall(s, v0);
    Asts(u);
    AstOnly(u);
    HighestIs(Astchk(u).pending, 31, u.c.ipl);
    Delivers(u);
    var level := Highest(Astchk(u).pending, 31, u.c.ipl);
    if level.Some? {
      assert Enters(Past(s, v0, s.c.ipl, s.c.scbb), Ret(s, v0).value, level.value, OffOf(level.value, u.port));
    }
  }

  /** Each call: what it answers in R0, what else it changes, and that the context is then
      just past it or interrupted there. */
  lemma CallAnswers(s: State, call: Call)
    requires Resumed(s) && !s.idle && WellFormed(call) && Serve(s, call).Some? && (IsPrivileged(call) ==> s.c.mode == 0)
    ensures var t, ipl, scbb := Serve(s, call).value, s.c.ipl, s.c.scbb;
      match call
      case MtprIpl(v) => At(Past(s, ipl, v % 32, scbb), t)
      case MtprScbb(v) => At(Past(s, v, ipl, v % 0x1_0000_0000), t)
      case MtprSirr(v) =>
        && At(Past(s, v, ipl, scbb), t)
        && (v % 16 != 0 ==> Asks(Past(s, v, ipl, scbb), t, v % 16, 0x80 + 4 * (v % 16)))
      case MtprRxcs(on, ready) =>
        && At(Past(s, s.r.x[0], ipl, scbb), t) && t.rxcs == on
        && (on && ready ==> Asks(Past(s, s.r.x[0], ipl, scbb), t, 20, 0xf8))
      case Delctx(h) => h == 0 || h != s.c.hwpcb ==> At(Past(s, h, ipl, scbb), t) && t.others == s.others - {h}
      case Device(v0, done) =>
        At(Past(s, v0, ipl, scbb), t) && (done ==> t.disk || Enters(Past(s, v0, ipl, scbb), t, 21, 0x104))
      case Privileged(v0) => At(Past(s, v0, ipl, scbb), t)
      case Unprivileged(v0, v1) => At(Past(s.(r := s.r.(x := s.r.x[1 := v1])), v0, ipl, scbb), t)
      case SwpctxCall(h, view) =>
        && (h == s.c.hwpcb && h != 0 ==> At(Past(s, h, ipl, scbb), t))
        && (h != s.c.hwpcb && h in s.others ==>
              At(Past(Switched(s, h, s.others[h], view), s.c.hwpcb, ipl, scbb), t))
      case Wtint => t == s.(idle := true) || At(Past(s, 0, ipl, scbb), t)
      case ChmxCall(x, code) =>
        var to := if x < s.c.mode then x else s.c.mode;
        || Vectored(s.c, s.r.(pc := s.r.pc + 4), 0x40 + 4 * x, ipl, to, s.c.mode, [code]) == Some((t.c, t.r))
        || Vectored(s.c, s.r, 0x10, ipl, 0, s.c.mode, []) == Some((t.c, t.r))
      case Reserved(off, params) => Vectored(s.c, s.r, off, ipl, 0, s.c.mode, params) == Some((t.c, t.r))
      case _ => true
  {
    hide Ret, Vectored, AstWaits, At, Past, Deliver, DoRei, PastCall, Started, Enters;
    match call {
      case MtprIpl(v) => RetFrom(s, s.(c := s.c.(ipl := v % 32)), s.c.ipl);
      case MtprScbb(v) => RetFrom(s, s.(c := s.c.(scbb := v % 0x1_0000_0000)), v);
      case MtprSirr(v) =>
        Vectors(false);
        RetFrom(s, if v % 16 != 0 then s.(pending := s.pending + {v % 16}) else s, v);
      case MtprRxcs(on, ready) =>
        Vectors(false);
        RetFrom(s, s.(rxcs := on, pending := if on && ready then s.pending + {IPL_CONSOLE} else s.pending), s.r.x[0]);
      case Delctx(h) => if h == 0 || h != s.c.hwpcb { RetFrom(s, s.(others := s.others - {h}), h); }
      case Device(v0, done) => RetFrom(s, if done then AsksDisk(s) else s, v0);
      case Privileged(v0) => RetAt(s, v0);
      case Unprivileged(v0, v1) => RetAt(s.(r := s.r.(x := s.r.x[1 := v1])), v0);
      case SwpctxCall(h, view) =>
        if h == s.c.hwpcb { RetAt(s, h); }
          else if h in s.others { RetAt(Switched(s, h, s.others[h], view), s.c.hwpcb); }
      case Wtint => if Deliverable(Astchk(s)) { RetAt(s, 0); }
      case _ =>
    }
  }

  /** A privileged call in an outer mode is the reserved instruction, in kernel mode and at
      the call itself. */
  lemma CallRefused(s: State, call: Call)
    requires Resumed(s) && IsPrivileged(call) && s.c.mode != 0 && Serve(s, call).Some?
    ensures var t := Serve(s, call).value; Vectored(s.c, s.r, 0x10, s.c.ipl, 0, s.c.mode, []) == Some((t.c, t.r))
  {
    hide Vectored;
    assert s.r.(pc := s.r.pc) == s.r;
  }

  // The call changes s first, but not its registers.
  lemma RetFrom(s: State, u: State, v0: int)
    requires Consistent(u) && u.r == s.r && u.c == s.c.(ipl := u.c.ipl, scbb := u.c.scbb) && Ret(u, v0).Some?
    ensures var t, now := Ret(u, v0).value, Past(s, v0, u.c.ipl, u.c.scbb);
      && At(now, t) && t.others == u.others && t.rxcs == u.rxcs
      && (forall level <- u.pending | level != 21 :: Asks(now, t, level, OffOf(level, false)))
      && (u.disk ==> t.disk || Enters(now, t, 21, 0x104))
  {
    hide Ret, At, Enters, Asks;
    RetAt(u, v0);
  }
}
