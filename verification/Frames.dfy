/** The PAL's stack frames, which REI undoes.  Memory is the quadwords the current context maps, by address. */
module Frames {
  import opened Numbers

  const FRAME := 34 // quadwords: PC, PSL, x0-x30, sp
  const FRAME_BYTES := 272

  /** A thread's registers.  spsr holds NZCV in bits 31:28. */
  datatype Regs = Regs(pc: int, spsr: int, x: seq<int>, sp: int)

  /** What vector() and rei() read and change besides the registers. */
  datatype Cpu = Cpu(mem: map<int, int>, scbb: int, hwpcb: int, mode: int, prv: int, ipl: int)

  // ---------------------------------------------------------------------
  // The PSL
  // ---------------------------------------------------------------------

  // A PSL that says which modes these are, the IPL and what the last comparison found.
  function Psl(mode: int, prv: int, ipl: int, spsr: int): int {
    mode * 0x100_0000 + prv * 0x40_0000 + ipl * 0x1_0000
    + spsr / 0x8000_0000 % 2 * 8 + spsr / 0x4000_0000 % 2 * 4 + spsr / 0x1000_0000 % 2 * 2 + spsr / 0x2000_0000 % 2
  }

  function ModeOf(psl: int): int { psl / 0x100_0000 % 4 }

  function PrvOf(psl: int): int { psl / 0x40_0000 % 4 }

  function IplOf(psl: int): int { psl / 0x1_0000 % 32 }

  function SpsrOf(psl: int): int {
    psl / 8 % 2 * 0x8000_0000 + psl / 4 % 2 * 0x4000_0000 + psl % 2 * 0x2000_0000 + psl / 2 % 2 * 0x1000_0000
  }

  // The condition codes alone.
  function Codes(spsr: int): int {
    spsr / 0x8000_0000 % 2 * 0x8000_0000 + spsr / 0x4000_0000 % 2 * 0x4000_0000
    + spsr / 0x2000_0000 % 2 * 0x2000_0000 + spsr / 0x1000_0000 % 2 * 0x1000_0000
  }

  lemma LowBits(low: int, n: int, z: int, v: int, c: int, high: int)
    requires 0 <= n < 2 && 0 <= z < 2 && 0 <= v < 2 && 0 <= c < 2 && low == 8 * n + 4 * z + 2 * v + c
    ensures var p := high * 16 + low;
      p / 8 % 2 == n && p / 4 % 2 == z && p / 2 % 2 == v && p % 2 == c
  {
    var p := high * 16 + low;
    DivModUnique(p, 2 * high + n, 4 * z + 2 * v + c, 8);
    DivModUnique(2 * high + n, high, n, 2);
    DivModUnique(p, 4 * high + 2 * n + z, 2 * v + c, 4);
    DivModUnique(4 * high + 2 * n + z, 2 * high + n, z, 2);
    DivModUnique(p, 8 * high + 4 * n + 2 * z + v, c, 2);
    DivModUnique(8 * high + 4 * n + 2 * z + v, 4 * high + 2 * n + z, v, 2);
  }

  lemma HighFields(mode: int, prv: int, ipl: int, low: int)
    requires 0 <= mode < 4 && 0 <= prv < 4 && 0 <= ipl < 32 && 0 <= low < 16
    ensures var p := mode * 0x100_0000 + prv * 0x40_0000 + ipl * 0x1_0000 + low;
      ModeOf(p) == mode && PrvOf(p) == prv && IplOf(p) == ipl
  {
    var p := mode * 0x100_0000 + prv * 0x40_0000 + ipl * 0x1_0000 + low;
    DivModUnique(p, mode, prv * 0x40_0000 + ipl * 0x1_0000 + low, 0x100_0000);
    DivModUnique(p, mode * 4 + prv, ipl * 0x1_0000 + low, 0x40_0000);
    DivModUnique(mode * 4 + prv, mode, prv, 4);
    DivModUnique(p, mode * 0x100 + prv * 0x40 + ipl, low, 0x1_0000);
    DivModUnique(mode * 0x100 + prv * 0x40 + ipl, mode * 8 + prv * 2, ipl, 32);
  }

  /** REI reads back from a PSL what was packed in it. */
  lemma PslRoundTrip(mode: int, prv: int, ipl: int, spsr: int)
    requires 0 <= mode < 4 && 0 <= prv < 4 && 0 <= ipl < 32
    ensures var p := Psl(mode, prv, ipl, spsr);
      ModeOf(p) == mode && PrvOf(p) == prv && IplOf(p) == ipl && SpsrOf(p) == Codes(spsr)
  {
    var n, z, v, c := spsr / 0x8000_0000 % 2, spsr / 0x4000_0000 % 2, spsr / 0x1000_0000 % 2, spsr / 0x2000_0000 % 2;
    var low := 8 * n + 4 * z + 2 * v + c;
    HighFields(mode, prv, ipl, low);
    LowBits(low, n, z, v, c, mode * 0x10_0000 + prv * 0x4_0000 + ipl * 0x1000);
  }

  /** Where a PSL has it all: the modes in bits 25:24 and 23:22, the IPL in 20:16, and N, Z, V
      and C, which spsr has in bits 31, 30, 28 and 29, in 3 to 0. */
  lemma PslIs(mode: int, prv: int, ipl: int, spsr: int)
    requires 0 <= mode < 4 && 0 <= prv < 4 && 0 <= ipl < 32
    ensures var p, bit := Psl(mode, prv, ipl, spsr), (k: nat) => spsr / Pow2(k) % 2;
      && p / 0x100_0000 == mode && p / 0x40_0000 % 4 == prv && p / 0x1_0000 % 64 == ipl
      && p % 0x1_0000 == 8 * bit(31) + 4 * bit(30) + 2 * bit(28) + bit(29)
  {
    var n, z, v, c := spsr / 0x8000_0000 % 2, spsr / 0x4000_0000 % 2, spsr / 0x1000_0000 % 2, spsr / 0x2000_0000 % 2;
    var low := 8 * n + 4 * z + 2 * v + c;
    var p := Psl(mode, prv, ipl, spsr);
    HighFields(mode, prv, ipl, low);
    DivModUnique(p, mode, prv * 0x40_0000 + ipl * 0x1_0000 + low, 0x100_0000);
    DivModUnique(p, mode * 0x100 + prv * 0x40 + ipl, low, 0x1_0000);
    DivModUnique(mode * 0x100 + prv * 0x40 + ipl, mode * 4 + prv, ipl, 64);
    BigPowers();
  }

  lemma BigPowers()
    ensures Pow2(28) == 0x1000_0000 && Pow2(29) == 0x2000_0000 && Pow2(30) == 0x4000_0000 && Pow2(31) == 0x8000_0000
  {
    assert Pow2(8) == 0x100;
    assert Pow2(16) == 0x1_0000;
    assert Pow2(24) == 0x100_0000;
  }

  // ---------------------------------------------------------------------
  // Memory
  // ---------------------------------------------------------------------

  /** The address of the i-th quadword from at. */
  function Slot(at: int, i: int): int { at + 8 * i }

  predicate Mapped(mem: map<int, int>, at: int, n: nat) {
    forall i | 0 <= i < n :: Slot(at, i) in mem
  }

  ghost predicate Holds(mem: map<int, int>, at: int, q: seq<int>) {
    forall i | 0 <= i < |q| :: Slot(at, i) in mem && mem[Slot(at, i)] == q[i]
  }

  /** Memory with q written from at up. */
  function Poke(mem: map<int, int>, at: int, q: seq<int>): map<int, int> {
    if q == [] then mem else Poke(mem, at, q[..|q| - 1])[Slot(at, |q| - 1) := q[|q| - 1]]
  }

  function Peek(mem: map<int, int>, at: int, n: nat): seq<int>
    requires Mapped(mem, at, n)
  {
    seq(n, i requires 0 <= i < n => mem[Slot(at, i)])
  }

  lemma {:induction false} PokeHolds(mem: map<int, int>, at: int, q: seq<int>)
    ensures Holds(Poke(mem, at, q), at, q)
  {
    if q != [] {
      var p := q[..|q| - 1];
      PokeHolds(mem, at, p);
      forall i | 0 <= i < |q|
        ensures Slot(at, i) in Poke(mem, at, q) && Poke(mem, at, q)[Slot(at, i)] == q[i]
      {
        if i < |p| { assert p[i] == q[i]; }
      }
    }
  }

  lemma {:induction false} PokeKeeps(mem: map<int, int>, at: int, q: seq<int>)
    requires Mapped(mem, at, |q|)
    ensures Poke(mem, at, q).Keys == mem.Keys
    ensures forall a <- mem | a < at || a >= Slot(at, |q|) :: Poke(mem, at, q)[a] == mem[a]
  {
    if q != [] {
      assert Slot(at, |q| - 1) in mem;
      PokeKeeps(mem, at, q[..|q| - 1]);
    }
  }

  lemma PeekHolds(mem: map<int, int>, at: int, q: seq<int>)
    requires Holds(mem, at, q)
    ensures Mapped(mem, at, |q|) && Peek(mem, at, |q|) == q
  {
  }

  // What is held stays held where memory stays as it was.
  lemma HoldsStill(mem: map<int, int>, mem': map<int, int>, at: int, q: seq<int>)
    requires Holds(mem, at, q)
    requires forall a <- mem | at <= a < Slot(at, |q|) :: a in mem' && mem'[a] == mem[a]
    ensures Holds(mem', at, q)
  {
    forall i | 0 <= i < |q|
      ensures Slot(at, i) in mem' && mem'[Slot(at, i)] == q[i]
    {
      assert Slot(at, i) in mem;
    }
  }

  // ---------------------------------------------------------------------
  // vector
  // ---------------------------------------------------------------------

  /** The longword the SCB has at off; 0 without an SCB. */
  function Handler(c: Cpu, off: int): int {
    var a := c.scbb + off;
    if c.scbb == 0 || a - a % 8 !in c.mem then 0 else c.mem[a - a % 8] / Pow2(8 * (a % 8)) % 0x1_0000_0000
  }

  function FrameOf(c: Cpu, r: Regs): (f: seq<int>)
    requires |r.x| == 31
    ensures |f| == FRAME
  {
    [r.pc, Psl(c.mode, c.prv, c.ipl, r.spsr)] + r.x + [r.sp]
  }

  // Below both stacks: the VAX SP, x18, and sp.
  function Below(r: Regs): int
    requires |r.x| == 31
  {
    if r.x[18] < r.sp then r.x[18] else r.sp
  }

  /** Where mode m's stack pointer is kept: KSP, ESP, SSP, USP. */
  function SpSlot(c: Cpu, m: int): int { c.hwpcb + 8 * m }

  // Where the stack an interrupt goes on starts, or none.
  function BaseOf(c: Cpu, r: Regs, to: int): Option<int>
    requires |r.x| == 31
  {
    if to >= c.mode then Some(Below(r))
    else if SpSlot(c, to) in c.mem && c.mem[SpSlot(c, to)] != 0 && SpSlot(c, c.mode) in c.mem then
      Some(c.mem[SpSlot(c, to)])
    else None
  }

  function ParamBytes(n: nat): int { (8 * n + 15) / 16 * 16 }

  // Where the parameters go, and the frame above them.
  function Top(base: int, n: nat): int { base - base % 16 - FRAME_BYTES - ParamBytes(n) }

  datatype Option<T> = None | Some(value: T)

  /** The state a handler is entered in; None where it cannot be. */
  function Vectored(c: Cpu, r: Regs, off: int, newIpl: int, to: int, prv: int,
                    params: seq<int>): (v: Option<(Cpu, Regs)>)
    requires |r.x| == 31
    ensures v.Some? ==>
      v.value.0 == c.(mem := v.value.0.mem, mode := to, prv := prv, ipl := newIpl) && |v.value.1.x| == 31
  {
    var base := BaseOf(c, r, to);
    if Handler(c, off) == 0 || base.None? then None
    else
      var at := Top(base.value, |params|);
      var frame := at + ParamBytes(|params|);
      if !Mapped(c.mem, at, |params|) || !Mapped(c.mem, frame, FRAME) then None
      else
        var pushed := Poke(Poke(c.mem, at, params), frame, FrameOf(c, r));
        var mem := if to < c.mode then pushed[SpSlot(c, c.mode) := Below(r)] else pushed;
        Some((c.(mem := mem, mode := to, prv := prv, ipl := newIpl),
              r.(pc := Handler(c, off), sp := at, x := r.x[18 := at])))
  }

  /** The longword at the vector's place in the SCB, whichever half of a quadword it is. */
  lemma HandlerIs(c: Cpu, off: int)
    requires c.scbb != 0 && c.scbb % 8 == 0 && off % 4 == 0
    ensures c.scbb + off - off % 8 in c.mem ==>
      Handler(c, off) == if off % 8 == 0 then c.mem[c.scbb + off] % 0x1_0000_0000
                         else c.mem[c.scbb + off - 4] / 0x1_0000_0000 % 0x1_0000_0000
    ensures c.scbb + off - off % 8 !in c.mem ==> Handler(c, off) == 0
  {
    var a := c.scbb + off;
    ModAddMultiple(off, c.scbb / 8, 8);
    assert Pow2(0) == 1;
    HalfWord();
  }

  lemma HalfWord()
    ensures Pow2(32) == 0x1_0000_0000
  {
    BigPowers();
  }

  // The quadword there, unless that is where the stack pointer goes.
  ghost predicate Word(mem: map<int, int>, a: int, x: int, kept: Option<int>) {
    a in mem && (Some(a) == kept || mem[a] == x)
  }

  /** The frame, quadword by quadword, above the parameters, on the stack there is or an
      inner mode's own from a multiple of 16 down; the handler starts at its vector with both
      its stack pointers at the parameters, and the stack pointer of a mode left is kept. */
  lemma FrameIs(c: Cpu, r: Regs, off: int, newIpl: int, to: int, prv: int, params: seq<int>)
    requires |r.x| == 31 && Vectored(c, r, off, newIpl, to, prv, params).Some?
    ensures to < c.mode ==> c.hwpcb + 8 * to in c.mem && c.mem[c.hwpcb + 8 * to] != 0
    ensures var v := Vectored(c, r, off, newIpl, to, prv, params).value;
      var below := if r.x[18] < r.sp then r.x[18] else r.sp;
      var base := if to < c.mode then c.mem[c.hwpcb + 8 * to] else below;
      var kept := if to < c.mode then Some(c.hwpcb + 8 * c.mode) else None;
      var at := v.1.sp + 8 * |params| + if |params| % 2 == 1 then 8 else 0;
      && v.1.pc == Handler(c, off) != 0 && v.1.x == r.x[18 := v.1.sp] && v.1.spsr == r.spsr
      && at == base - base % 16 - 272
      && Word(v.0.mem, at, r.pc, kept) && Word(v.0.mem, at + 8, Psl(c.mode, c.prv, c.ipl, r.spsr), kept)
      && (forall i | 0 <= i < 31 :: Word(v.0.mem, at + 16 + 8 * i, r.x[i], kept))
      && Word(v.0.mem, at + 264, r.sp, kept)
      && (forall i | 0 <= i < |params| :: Word(v.0.mem, v.1.sp + 8 * i, params[i], kept))
      && (kept.Some? ==> kept.value in v.0.mem && v.0.mem[kept.value] == below)
  {
    hide Psl, Handler, Poke, Holds, Word, Mapped, ParamBytes;
    var top, f := Top(BaseOf(c, r, to).value, |params|), FrameOf(c, r);
    var at := top + ParamBytes(|params|);
    var m := Poke(Poke(c.mem, top, params), at, f);
    var now := Vectored(c, r, off, newIpl, to, prv, params).value.0.mem;
    var kept := if to < c.mode then Some(c.hwpcb + 8 * c.mode) else None;
    ParamBytesAre(|params|);
    TwoPokes(c.mem, top, params, at, f);
    WordsHeld(m, now, at, f, kept, Below(r));
    WordsHeld(m, now, top, params, kept, Below(r));
    FrameWords(c, r, now, at, kept);
  }

  lemma ParamBytesAre(n: nat)
    ensures ParamBytes(n) == 8 * n + if n % 2 == 1 then 8 else 0
  {
  }

  // Two stretches of memory written, the second above the first.
  lemma TwoPokes(mem: map<int, int>, top: int, q: seq<int>, at: int, f: seq<int>)
    requires Mapped(mem, top, |q|) && Mapped(mem, at, |f|) && top + 8 * |q| <= at
    ensures var m := Poke(Poke(mem, top, q), at, f); Holds(m, top, q) && Holds(m, at, f)
  {
    hide Poke, Holds, Mapped;
    var m1 := Poke(mem, top, q);
    PokeHolds(mem, top, q);
    PokeHolds(m1, at, f);
    PokeKeeps(mem, top, q);
    SlotsStay(mem, m1, at, |f|);
    PokeKeeps(m1, at, f);
    HoldsStill(m1, Poke(m1, at, f), top, q);
  }

  lemma FrameWords(c: Cpu, r: Regs, mem: map<int, int>, at: int, kept: Option<int>)
    requires |r.x| == 31 && forall i | 0 <= i < FRAME :: Word(mem, at + 8 * i, FrameOf(c, r)[i], kept)
    ensures Word(mem, at, r.pc, kept) && Word(mem, at + 8, Psl(c.mode, c.prv, c.ipl, r.spsr), kept)
    ensures Word(mem, at + 264, r.sp, kept) && forall i | 0 <= i < 31 :: Word(mem, at + 16 + 8 * i, r.x[i], kept)
  {
    hide Word, Psl;
    var f := FrameOf(c, r);
    assert Word(mem, at + 8 * 0, f[0], kept) && Word(mem, at + 8 * 1, f[1], kept)
      && Word(mem, at + 8 * 33, f[33], kept);
    forall i | 0 <= i < 31
      ensures Word(mem, at + 16 + 8 * i, r.x[i], kept)
    {
      assert Word(mem, at + 8 * (2 + i), f[2 + i], kept);
    }
  }

  lemma SlotsStay(mem: map<int, int>, mem': map<int, int>, at: int, n: nat)
    requires mem'.Keys == mem.Keys && Mapped(mem, at, n)
    ensures Mapped(mem', at, n)
  {
  }

  lemma WordsHeld(mem: map<int, int>, now: map<int, int>, at: int, q: seq<int>, kept: Option<int>, x: int)
    requires Holds(mem, at, q) && now == if kept.Some? then mem[kept.value := x] else mem
    ensures forall i | 0 <= i < |q| :: Word(now, at + 8 * i, q[i], kept)
  {
    forall i | 0 <= i < |q|
      ensures Word(now, at + 8 * i, q[i], kept)
    {
      assert Slot(at, i) in mem;
    }
  }

  // ---------------------------------------------------------------------
  // rei
  // ---------------------------------------------------------------------

  /** A PSL for code that has no more rights than the code that loads it. */
  predicate Loadable(psl: int, mode: int) {
    ModeOf(psl) >= mode && PrvOf(psl) >= ModeOf(psl) && (ModeOf(psl) != 0 ==> IplOf(psl) == 0)
  }

  /** The state a frame restores; None where there is no frame or no right to it. */
  function Reid(c: Cpu, r: Regs): Option<(Cpu, Regs)>
    requires |r.x| == 31
  {
    var at := r.x[18];
    if !Mapped(c.mem, at, FRAME) then None
    else
      var f := Peek(c.mem, at, FRAME);
      var m := ModeOf(f[1]);
      if !Loadable(f[1], c.mode) || (m != c.mode && SpSlot(c, c.mode) !in c.mem) then None
      else
        var mem := if m != c.mode then c.mem[SpSlot(c, c.mode) := at + FRAME_BYTES] else c.mem;
        Some((c.(mem := mem, mode := m, prv := PrvOf(f[1]), ipl := IplOf(f[1])),
              Regs(f[0], SpsrOf(f[1]), f[2..33], f[33])))
  }

  /** Everything the code interrupted can see of itself is back. */
  predicate Restored(c: Cpu, r: Regs, c': Cpu, r': Regs) {
    && r'.pc == r.pc && r'.x == r.x && r'.sp == r.sp && r'.spsr == Codes(r.spsr)
    && c'.mode == c.mode && c'.prv == c.prv && c'.ipl == c.ipl
  }

  // A processor state the PAL can be in.
  predicate Legal(c: Cpu, r: Regs) {
    0 <= c.mode <= c.prv < 4 && 0 <= c.ipl < 32 && (c.mode != 0 ==> c.ipl == 0) && |r.x| == 31
  }

  /** REI from a frame that holds what vector() pushed restores it all. */
  lemma ReiRestores(c0: Cpu, r0: Regs, c: Cpu, r: Regs)
    requires Legal(c0, r0) && |r.x| == 31 && c.mode <= c0.mode
    requires Holds(c.mem, r.x[18], FrameOf(c0, r0)) && SpSlot(c, c.mode) in c.mem
    ensures Reid(c, r).Some? && Restored(c0, r0, Reid(c, r).value.0, Reid(c, r).value.1)
  {
    PeekHolds(c.mem, r.x[18], FrameOf(c0, r0));
    PslRoundTrip(c0.mode, c0.prv, c0.ipl, r0.spsr);
    assert FrameOf(c0, r0)[2..33] == r0.x;
  }

  lemma ReidLegal(c: Cpu, r: Regs)
    requires |r.x| == 31 && 0 <= c.mode && Reid(c, r).Some?
    ensures var v := Reid(c, r).value;
      Legal(v.0, v.1) && v.0.mode >= c.mode && v.0.hwpcb == c.hwpcb
  {
    var f := Peek(c.mem, r.x[18], FRAME);
    assert |f[2..33]| == 31;
  }
}
