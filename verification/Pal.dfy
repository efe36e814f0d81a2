/** The PAL's processor operations done in place, as the PAL does them on its
    globals and the current thread's registers; each is proved to do what its
    function in Frames or Processor says. */
module Pal {
  import opened Frames
  import opened Processor
  import opened Numbers

  lemma PokeMore(mem: map<int, int>, at: int, q: seq<int>, i: int)
    requires 0 <= i < |q|
    ensures Poke(mem, at, q[..i + 1]) == Poke(mem, at, q[..i])[Slot(at, i) := q[i]]
  {
    assert q[..i + 1][..i] == q[..i];
  }

  class Machine {
    var cpu: Cpu
    var regs: Regs
    var pending: set<int>
    var port: bool
    var disk: bool
    var rxcs: bool
    var idle: bool
    var others: map<int, Waiting>

    ghost function S(): State
      reads this
    {
      State(cpu, regs, pending, port, disk, rxcs, idle, others)
    }

    /** At boot a VAX is at IPL 31, in kernel mode, with nothing pending. */
    constructor (mem: map<int, int>, hwpcb: int, r: Regs)
      requires |r.x| == 31
      ensures Resumed(S()) && cpu == Cpu(mem, 0, hwpcb, 0, 0, 31) && regs == r
    {
      cpu, regs := Cpu(mem, 0, hwpcb, 0, 0, 31), r;
      pending, port, disk, rxcs, idle, others := {}, false, false, false, false, map[];
    }

    // Whether the n quadwords from at are all mapped.
    method AllMapped(at: int, n: nat) returns (ok: bool)
      ensures ok <==> Mapped(cpu.mem, at, n)
    {
      for i := 0 to n
        invariant Mapped(cpu.mem, at, i)
      {
        if Slot(at, i) !in cpu.mem {
          ok := false;
          return;
        }
      }
      ok := true;
    }

    method Write(at: int, q: seq<int>)
      modifies this`cpu
      ensures cpu == old(cpu).(mem := Poke(old(cpu).mem, at, q))
    {
      ghost var c := cpu;
      assert q[..0] == [];
      for i := 0 to |q|
        invariant cpu == c.(mem := Poke(c.mem, at, q[..i]))
      {
        PokeMore(c.mem, at, q, i);
        cpu := cpu.(mem := cpu.mem[Slot(at, i) := q[i]]);
      }
      assert q[..|q|] == q;
    }

    /** vector: pushes the frame and enters the handler, or changes nothing. */
    method Vector(r: Regs, off: int, newIpl: int, to: int, prv: int, params: seq<int>) returns (ok: bool, r': Regs)
      requires |r.x| == 31
      modifies this`cpu
      ensures match Vectored(old(cpu), r, off, newIpl, to, prv, params)
        case None => !ok && cpu == old(cpu) && r' == r
        case Some(v) => ok && cpu == v.0 && r' == v.1
    {
      hide Psl, Poke, Handler, Mapped;
      ok, r' := false, r;
      var handler := Handler(cpu, off);
      if handler == 0 {
        return;
      }
      var frame := [r.pc, Psl(cpu.mode, cpu.prv, cpu.ipl, r.spsr)];
      for i := 0 to 31
        invariant frame == [r.pc, Psl(cpu.mode, cpu.prv, cpu.ipl, r.spsr)] + r.x[..i]
      {
        frame := frame + [r.x[i]];
      }
      frame := frame + [r.sp];
      assert r.x[..31] == r.x;
      assert frame == FrameOf(cpu, r);
      var below := if r.x[18] < r.sp then r.x[18] else r.sp;
      var sp := below;
      if to < cpu.mode {
        if SpSlot(cpu, to) !in cpu.mem || cpu.mem[SpSlot(cpu, to)] == 0 || SpSlot(cpu, cpu.mode) !in cpu.mem {
          return;
        }
        sp := cpu.mem[SpSlot(cpu, to)];
      }
      var at := Top(sp, |params|);
      var room := AllMapped(at, |params|);
      if room {
        room := AllMapped(at + ParamBytes(|params|), FRAME);
      }
      if !room {
        return;
      }
      var outer := cpu.mode;
      Write(at, params);
      Write(at + ParamBytes(|params|), frame);
      if to < outer {
        cpu := cpu.(mem := cpu.mem[SpSlot(cpu, outer) := below]);
      }
      cpu := cpu.(mode := to, prv := prv, ipl := newIpl);
      r' := r.(pc := handler, sp := at, x := r.x[18 := at]);
      ok := true;
    }

    /** rei: pops the frame at the VAX SP, or changes nothing. */
    method Rei(r: Regs) returns (ok: bool, r': Regs)
      requires |r.x| == 31
      modifies this`cpu
      ensures match Reid(old(cpu), r)
        case None => !ok && cpu == old(cpu) && r' == r
        case Some(v) => ok && cpu == v.0 && r' == v.1
    {
      hide Loadable, ModeOf, PrvOf, IplOf, SpsrOf;
      ok, r' := false, r;
      var at := r.x[18];
      var f: seq<int> := [];
      for i := 0 to FRAME
        invariant Mapped(cpu.mem, at, i) && f == Peek(cpu.mem, at, i)
      {
        if Slot(at, i) !in cpu.mem {
          return;
        }
        f := f + [cpu.mem[Slot(at, i)]];
      }
      var m := ModeOf(f[1]);
      if !Loadable(f[1], cpu.mode) {
        return;
      }
      if m != cpu.mode {
        if SpSlot(cpu, cpu.mode) !in cpu.mem {
          return;
        }
        cpu := cpu.(mem := cpu.mem[SpSlot(cpu, cpu.mode) := at + FRAME_BYTES]);
      }
      cpu := cpu.(mode := m, prv := PrvOf(f[1]), ipl := IplOf(f[1]));
      r' := Regs(f[0], SpsrOf(f[1]), f[2..33], f[33]);
      ok := true;
    }

    /** astchk: the AST interrupt is requested just where some mode's AST is pending and
        enabled that IPL and the mode let through. */
    method Astcheck()
      requires 0 <= cpu.mode < 4
      modifies this`pending
      ensures S() == Astchk(old(S()))
    {
      hide AstUpTo, And;
      var at := cpu.hwpcb + HWPCB_ASTEN;
      var ast := if at in cpu.mem then cpu.mem[at] else 0;
      var let := And(And(ast, ast / 0x100, 64), Pow2(cpu.mode + 1) - 1, 64);
      AstMask(ast, cpu.mode);
      if at !in cpu.mem { NoAst(cpu.mode); }
      if cpu.ipl < IPL_ASTDEL && let != 0 {
        pending := pending + {IPL_ASTDEL};
      }
    }

    // Takes the request at level: its bit, and for the two at IPL_PORT the
    // port's first.
    method Claim(level: int) returns (off: int)
      requires level in pending && (level == IPL_PORT ==> port || disk)
      modifies this`pending, this`port, this`disk
      ensures off == OffOf(level, old(port)) && S() == Left(old(S()), level)
    {
      pending := pending - {level};
      off := if level == IPL_HWCLK then SCB_TIMER
      else if level == IPL_CONSOLE then SCB_CONSRCV
      else if level == IPL_PORT then (if port then SCB_PORT else SCB_DISK)
      else SCB_SOFTINT + 4 * level;
      if level == IPL_PORT {
        if port {
          port := false;
        } else {
          disk := false;
        }
        if port || disk {
          pending := pending + {level};
          assert pending == old(pending);
        }
      }
    }

    /** deliver, on the registers r. */
    method DeliverTo(r: Regs) returns (ok: bool, r': Regs)
      requires |r.x| == 31 && 0 <= cpu.ipl && 0 <= cpu.mode < 4 && (IPL_PORT in pending <==> port || disk)
      modifies this`cpu, this`pending, this`port, this`disk
      ensures match Deliver(old(S()).(r := r))
        case None => !ok
        case Some(t) => ok && S() == t.(r := regs) && r' == t.r
    {
      hide AstWaits, Vectored, Astchk, OffOf, Left;
      ghost var s := S().(r := r);
      r', ok := r, true;
      AstRegs(S(), r);
      Astcheck();
      ghost var q, taken := S(), false;
      var level := 31;
      while level > cpu.ipl
        invariant ok && 0 <= cpu.ipl
        invariant !taken ==> S() == q && r' == r
        invariant !taken ==> Highest(q.pending, 31, q.c.ipl) == Highest(q.pending, level, q.c.ipl)
        invariant taken ==> level <= cpu.ipl && Deliver(s).Some?
        invariant taken ==> S() == Deliver(s).value.(r := regs) && r' == Deliver(s).value.r
        decreases level
      {
        if level in pending {
          var off := Claim(level);
          LeftKeeps(q, level, r);
          ok, r' := Vector(r, off, level, 0, 0, []);
          if !ok {
            return;
          }
          taken := true;
        }
        level := level - 1;
      }
    }

    // Whether an interrupt is pending that IPL lets through.
    method IsDeliverable() returns (yes: bool)
      requires 0 <= cpu.mode < 4
      modifies this`pending
      ensures S() == Astchk(old(S())) && yes == Deliverable(S())
    {
      hide AstWaits;
      Astcheck();
      HighestIs(pending, 31, cpu.ipl);
      yes := Highest(pending, 31, cpu.ipl).Some?;
    }

    /** ret: by the reply alone where no interrupt is deliverable, and through
        the registers where one is; either way the same. */
    method Return(v0: int) returns (ok: bool)
      requires Consistent(S())
      modifies this`cpu, this`regs, this`pending, this`port, this`disk
      ensures match Ret(old(S()), v0)
        case None => !ok
        case Some(t) => ok && S() == t
    {
      hide AstWaits, Vectored, Astchk, OffOf, Left, Highest;
      ghost var s := S();
      var after := regs.(pc := regs.pc + 4, x := regs.x[0 := v0]);
      Asts(s);
      AstRegs(s, after);
      AstTwice(s.(r := after));
      var yes := IsDeliverable();
      if yes {
        var r: Regs;
        ok, r := DeliverTo(after);
        if !ok {
          return;
        }
        regs := r;
      } else {
        regs := after;
      }
      ok := true;
    }

    /** exception: pc is where REI will go on. */
    method Except(off: int, pc: int, params: seq<int>) returns (ok: bool)
      requires |regs.x| == 31
      modifies this`cpu, this`regs
      ensures match Exception(old(S()), off, pc, params)
        case None => !ok && S() == old(S())
        case Some(t) => ok && S() == t
    {
      hide Vectored;
      if cpu.mode == 0 {
        ok := false;
        return;
      }
      var r: Regs;
      ok, r := Vector(regs.(pc := pc), off, cpu.ipl, 0, cpu.mode, params);
      if ok {
        regs := r;
      }
    }

    method ChangeMode(x: int, code: int) returns (ok: bool)
      requires |regs.x| == 31
      modifies this`cpu, this`regs
      ensures match Chmx(old(S()), x, code)
        case None => !ok
        case Some(t) => ok && S() == t
    {
      hide Vectored, Exception;
      var to := if x < cpu.mode then x else cpu.mode;
      var r: Regs;
      ok, r := Vector(regs.(pc := regs.pc + 4), SCB_CHMK + 4 * x, cpu.ipl, to, cpu.mode, [code]);
      if ok {
        regs := r;
      } else {
        ok := Except(SCB_OPCDEC, regs.pc, []);
      }
    }

    method ReturnFromInterrupt() returns (ok: bool)
      requires Consistent(S())
      modifies this`cpu, this`regs, this`pending, this`port, this`disk
      ensures match DoRei(old(S()))
        case None => !ok
        case Some(t) => ok && S() == t
    {
      hide Reid, Exception, Deliver;
      ghost var s := S();
      var r: Regs;
      ok, r := Rei(regs);
      if !ok {
        ok := Except(SCB_OPCDEC, regs.pc, []);
        return;
      }
      ReidLegal(s.c, s.r);
      ok, r := DeliverTo(r);
      if ok {
        regs := r;
      }
    }

    /** tick: requests what the badge says, and delivers what IPL lets through,
        to a running context or to one that waits in WTINT. */
    method TickOf(fromPort: bool, fromDisk: bool, clock: bool, input: bool) returns (ok: bool)
      requires Consistent(S())
      modifies this`cpu, this`regs, this`pending, this`port, this`disk, this`idle
      ensures match Tick(old(S()), fromPort, fromDisk, clock, input)
        case None => !ok
        case Some(t) => ok && S() == t
      ensures ok && old(Resumed(S())) ==>
        && TickAsks(old(S()), fromPort, fromDisk, clock, input, S())
        && TickTakes(old(S()), fromPort, fromDisk, clock, input, S())
        && TickAsksOnly(old(S()), fromPort, fromDisk, clock, input, S())
    {
      hide AstWaits, Deliver, Ret, TickAsks, TickTakes, TickAsksOnly, Settled;
      if fromPort {
        pending, port := pending + {IPL_PORT}, true;
      }
      if fromDisk {
        pending, disk := pending + {IPL_PORT}, true;
      }
      if clock {
        pending := pending + {IPL_HWCLK};
      }
      if rxcs && input {
        pending := pending + {IPL_CONSOLE};
      }
      ghost var t := S();
      assert t == Requests(old(S()), fromPort, fromDisk, clock, input);
      ok := Settle();
      if ok && old(Resumed(S())) {
        Ticked(old(S()), fromPort, fromDisk, clock, input);
        TickEnters(old(S()), fromPort, fromDisk, clock, input);
        TickOnly(old(S()), fromPort, fromDisk, clock, input);
      }
    }

    // The rest of tick: what is requested is delivered now or waits.
    method Settle() returns (ok: bool)
      requires Consistent(S())
      modifies this`cpu, this`regs, this`pending, this`port, this`disk, this`idle
      ensures match Settled(old(S()))
        case None => !ok
        case Some(t) => ok && S() == t
    {
      hide AstWaits, Vectored, Astchk, OffOf, Left, Highest;
      ghost var t := S();
      Asts(t);
      AstTwice(t);
      var yes := IsDeliverable();
      ok := true;
      if yes {
        AstIdle(t);
        if idle {
          idle := false;
          ok := Return(0);
        } else {
          var r: Regs;
          ok, r := DeliverTo(regs);
          if ok {
            regs := r;
          }
        }
      }
    }

    // Another context becomes current.
    method Switch(hwpcb: int, to: Waiting, view: map<int, int>)
      modifies this`cpu, this`regs, this`others
      ensures S() == Switched(old(S()), hwpcb, to, view)
    {
      others := (others - {hwpcb})[cpu.hwpcb := Waiting(cpu.mode, cpu.prv, regs)];
      cpu := cpu.(mem := view, hwpcb := hwpcb, mode := to.mode, prv := to.prv);
      regs := to.r;
    }

    /** swpctx; view is memory as the context it goes to sees it. */
    method SwapContext(hwpcb: int, view: map<int, int>) returns (ok: bool)
      requires Consistent(S()) && cpu.mode == 0 && !idle
      modifies this`cpu, this`regs, this`pending, this`port, this`disk, this`others
      ensures match Swpctx(old(S()), hwpcb, view)
        case None => !ok
        case Some(t) => ok && S() == t
    {
      hide Reid, Ret, Deliver;
      var from := cpu.hwpcb;
      if hwpcb == 0 {
        ok := false;
      } else if hwpcb == from {
        ok := Return(hwpcb);
      } else if hwpcb in others {
        Switch(hwpcb, others[hwpcb], view);
        ok := Return(from);
      } else if hwpcb !in cpu.mem {
        ok := false;
      } else {
        Switch(hwpcb, Waiting(0, 0, Blank(cpu.mem[hwpcb])), view);
        ok := Start(from);
      }
    }

    // A context's first steps: it knows which one ran before it.
    method Start(from: int) returns (ok: bool)
      requires Consistent(S())
      modifies this`cpu, this`regs, this`pending, this`port, this`disk
      ensures match Started(old(S()), from)
        case None => !ok
        case Some(t) => ok && S() == t
    {
      hide Reid, Deliver;
      ghost var s := S();
      var r: Regs;
      ok, r := Rei(regs);
      if !ok {
        return;
      }
      ReidLegal(s.c, s.r);
      ok, r := DeliverTo(r.(x := r.x[0 := from]));
      if ok {
        regs := r;
      }
    }
  }

  lemma NoAst(mode: int)
    ensures !AstUpTo(0, mode)
  {
    hide Bit;
    forall m: nat
      ensures !AstFor(0, m)
    {
      NoBit(m);
    }
  }

  lemma AstIdle(t: State)
    requires |t.r.x| == 31
    ensures Astchk(t).idle == t.idle && Ret(Astchk(t).(idle := false), 0) == Ret(t.(idle := false), 0)
  {
    hide AstWaits, Deliver;
    var w := t.(idle := false);
    assert Astchk(w) == Astchk(t).(idle := false);
    var after := w.r.(pc := w.r.pc + 4, x := w.r.x[0 := 0]);
    AstRegs(w, after);
    AstTwice(w.(r := after));
  }

  lemma AstTwice(s: State)
    requires |s.r.x| == 31
    ensures Deliver(Astchk(s)) == Deliver(s)
  {
  }

  lemma LeftKeeps(q: State, level: int, r: Regs)
    ensures var t := Left(q, level);
      && t.c == q.c && t.r == q.r && t.rxcs == q.rxcs && t.idle == q.idle && t.others == q.others
      && Left(q.(r := r), level) == t.(r := r)
  {
  }

  lemma AstRegs(s: State, r: Regs)
    ensures Astchk(s.(r := r)) == Astchk(s).(r := r)
    ensures var q := Astchk(s);
      && q.c == s.c && q.r == s.r && q.port == s.port && q.disk == s.disk
      && (IPL_PORT in q.pending <==> IPL_PORT in s.pending)
  {
  }
}
