/** Any nesting of interrupts, exceptions and CHMx, in any modes, with handlers
    that run in between: the matching REIs undo them in order.  A handler is
    taken to keep the discipline stack code keeps: it leaves the live frames as
    they are and its stack pointers at or below them, and the REI frames it
    builds itself it builds below them too. */
module Nesting {
  import opened Frames

  /** Where the four modes' stacks are. */
  datatype Stacks = Stacks(lo: seq<int>, hi: seq<int>)

  /** A frame pushed and not yet popped: on whose stack, where, and what was
      interrupted. */
  datatype Live = Live(stack: int, at: int, c: Cpu, r: Regs)

  datatype State = State(c: Cpu, r: Regs, live: seq<Live>)

  // ---------------------------------------------------------------------
  // Well-formed states
  // ---------------------------------------------------------------------

  predicate InStack(k: Stacks, m: int, sp: int)
    requires |k.lo| == |k.hi| == 4 && 0 <= m < 4
  {
    k.lo[m] <= sp <= k.hi[m]
  }

  // The stacks are apart, each over a guard that is not mapped, and the
  // HWPCB is on none of them.
  ghost predicate Laid(k: Stacks, c: Cpu) {
    && |k.lo| == |k.hi| == 4
    && (forall m | 0 <= m < 4 ::
          k.lo[m] % 16 == 0 && k.lo[m] <= k.hi[m] && k.lo[m] - 8 !in c.mem && k.lo[m] - 16 !in c.mem)
    && (forall m, n | 0 <= m < n < 4 :: k.hi[m] <= k.lo[n] || k.hi[n] <= k.lo[m])
    && (forall m | 0 <= m < 4 :: SpSlot(c, m) in c.mem)
    && (forall m, n | 0 <= m < 4 && 0 <= n < 4 :: SpSlot(c, m) < k.lo[n] || SpSlot(c, m) >= k.hi[n])
  }

  // Mode m's stack pointer: in the registers, or in the HWPCB.
  function SpOf(c: Cpu, r: Regs, m: int): int
    requires |r.x| == 31 && (m != c.mode ==> SpSlot(c, m) in c.mem)
  {
    if m == c.mode then Below(r) else c.mem[SpSlot(c, m)]
  }

  ghost predicate Pointers(k: Stacks, c: Cpu, r: Regs)
    requires Legal(c, r) && Laid(k, c)
  {
    && InStack(k, c.mode, Below(r))
    && forall m | 0 <= m < 4 && m != c.mode :: SpOf(c, r, m) == 0 || InStack(k, m, SpOf(c, r, m))
  }

  // A live frame is intact, on its stack, and the stack pointer is not past it.
  ghost predicate Intact(k: Stacks, c: Cpu, r: Regs, l: Live)
    requires Legal(c, r) && Laid(k, c)
  {
    && Legal(l.c, l.r) && 0 <= l.stack <= l.c.mode && InStack(k, l.c.mode, Below(l.r))
    && Holds(c.mem, l.at, FrameOf(l.c, l.r))
    && k.lo[l.stack] <= l.at && l.at + FRAME_BYTES <= k.hi[l.stack]
    && SpOf(c, r, l.stack) <= l.at
  }

  // A newer frame lies below an older one on the same stack, and so did what
  // it interrupted.
  ghost predicate Under(newer: Live, older: Live) {
    && |newer.r.x| == 31
    && (newer.stack == older.stack ==> newer.at + FRAME_BYTES <= older.at)
    && (newer.c.mode == older.stack ==> Below(newer.r) <= older.at)
  }

  ghost predicate Ok(k: Stacks, s: State) {
    && Legal(s.c, s.r) && Laid(k, s.c) && Pointers(k, s.c, s.r)
    && (forall i | 0 <= i < |s.live| :: Intact(k, s.c, s.r, s.live[i]))
    && (forall i, j | 0 <= i < j < |s.live| :: Under(s.live[j], s.live[i]))
  }

  // ---------------------------------------------------------------------
  // Steps
  // ---------------------------------------------------------------------

  datatype Event =
    | Vector(off: int, newIpl: int, to: int, prv: int, params: seq<int>)
    | Rei
    | Run // the code of the current mode, up to its next PAL call, fault or interrupt

  // What the PAL asks of vector(): never to go outward, a state that REI could load
  // from the frame, and no more parameters than there is room for.
  predicate Asked(c: Cpu, e: Event)
    requires e.Vector?
  {
    0 <= e.to <= c.mode && e.to <= e.prv < 4 && 0 <= e.newIpl < 32 && (e.to != 0 ==> e.newIpl == 0) && |e.params| <= 2
  }

  // REI at the newest frame.
  predicate Matches(s: State)
    requires |s.r.x| == 31
  {
    s.live != [] && s.live[|s.live| - 1].stack == s.c.mode && s.live[|s.live| - 1].at == s.r.x[18]
  }

  // REI at a frame the running code built: below the live ones, on its own
  // stack, for code whose stack pointer is not past those of its stack.
  ghost predicate Built(k: Stacks, s: State, c': Cpu, r': Regs)
    requires |s.r.x| == 31 && |k.lo| == |k.hi| == 4 && 0 <= s.c.mode < 4
  {
    && 0 <= c'.mode < 4 && |r'.x| == 31 && InStack(k, c'.mode, Below(r'))
    && k.lo[s.c.mode] <= s.r.x[18] && s.r.x[18] + FRAME_BYTES <= k.hi[s.c.mode]
    && (forall i | 0 <= i < |s.live| :: s.live[i].stack == s.c.mode ==> s.r.x[18] + FRAME_BYTES <= s.live[i].at)
    && (forall i | 0 <= i < |s.live| :: s.live[i].stack == c'.mode ==> Below(r') <= s.live[i].at)
  }

  function FrameAt(c: Cpu, r: Regs, to: int, n: nat): int
    requires |r.x| == 31
  {
    var base := BaseOf(c, r, to);
    (if base.None? then 0 else Top(base.value, n)) + ParamBytes(n)
  }

  ghost predicate Next(k: Stacks, s: State, e: Event, s': State) {
    && Legal(s.c, s.r) && |k.lo| == |k.hi| == 4
    && match e
    case Vector(off, newIpl, to, prv, params) =>
      && Asked(s.c, e)
      && (match Vectored(s.c, s.r, off, newIpl, to, prv, params)
          case None => s' == s
          case Some(v) => s' == State(v.0, v.1, s.live + [Live(to, FrameAt(s.c, s.r, to, |params|), s.c, s.r)]))
    case Rei =>
      (match Reid(s.c, s.r)
       case None => s' == s
       case Some(v) =>
         if Matches(s) then s' == State(v.0, v.1, s.live[..|s.live| - 1])
         else Built(k, s, v.0, v.1) && s' == State(v.0, v.1, s.live))
    case Run => s'.live == s.live && s'.c.mode == s.c.mode && s'.c.prv == s.c.prv && Ok(k, s')
  }

  // ---------------------------------------------------------------------
  // A frame pushed
  // ---------------------------------------------------------------------

  // A push that would end below a stack has a quadword in the guard.
  lemma Crossing(lo: int, base: int, n: nat) returns (i: int, inFrame: bool)
    requires lo % 16 == 0 && lo <= base && n <= 2 && Top(base, n) < lo
    ensures inFrame ==> 0 <= i < FRAME && Slot(Top(base, n) + ParamBytes(n), i) == lo - 16
    ensures !inFrame ==> i == 0 && n > 0 && Slot(Top(base, n), 0) == lo - 16
  {
    var at, p := Top(base, n), ParamBytes(n);
    assert p == if n == 0 then 0 else 16;
    var q, l := base / 16, lo / 16;
    assert base - base % 16 == 16 * q && lo == 16 * l && q >= l;
    assert at == 16 * (q - 17) - p;
    inFrame := lo - 16 >= at + p;
    i := if inFrame then 2 * (l - 1 - q + 17) else 0;
  }

  // So a push that succeeds stays inside the stack.
  lemma InsideStack(mem: map<int, int>, lo: int, base: int, n: nat)
    requires lo % 16 == 0 && lo <= base && n <= 2 && lo - 16 !in mem
    requires Mapped(mem, Top(base, n), n) && Mapped(mem, Top(base, n) + ParamBytes(n), FRAME)
    ensures lo <= Top(base, n) && Top(base, n) + ParamBytes(n) + FRAME_BYTES <= base
  {
    if Top(base, n) < lo {
      var i, inFrame := Crossing(lo, base, n);
    }
  }

  /** What a push does: the handler has its own stack pointer, its parameters there
      and all of the interrupted state above them; and it changes the stack it is on,
      between the new top and the base, and the stack pointer of the mode it leaves. */
  lemma Pushes(k: Stacks, s: State, e: Event)
    requires Ok(k, s) && e.Vector? && Asked(s.c, e)
    requires Vectored(s.c, s.r, e.off, e.newIpl, e.to, e.prv, e.params).Some?
    ensures var v := Vectored(s.c, s.r, e.off, e.newIpl, e.to, e.prv, e.params).value;
      var base := BaseOf(s.c, s.r, e.to);
      var at := FrameAt(s.c, s.r, e.to, |e.params|);
      && base.Some? && base.value == SpOf(s.c, s.r, e.to) && InStack(k, e.to, base.value)
      && k.lo[e.to] <= Below(v.1) <= at && at + FRAME_BYTES <= base.value
      && v.0.mem.Keys == s.c.mem.Keys && Holds(v.0.mem, at, FrameOf(s.c, s.r))
      && v.1 == s.r.(pc := Handler(s.c, e.off), sp := v.1.sp, x := s.r.x[18 := v.1.sp])
      && Holds(v.0.mem, v.1.sp, e.params)
      && (forall a <- s.c.mem | (a < k.lo[e.to] || a >= base.value) && a != SpSlot(s.c, s.c.mode) ::
            v.0.mem[a] == s.c.mem[a])
      && v.0.mem[SpSlot(s.c, s.c.mode)] == (if e.to < s.c.mode then Below(s.r) else s.c.mem[SpSlot(s.c, s.c.mode)])
  {
    hide Psl, Handler, Poke, Holds;
    var base := BaseOf(s.c, s.r, e.to).value;
    var n := |e.params|;
    var top, at := Top(base, n), FrameAt(s.c, s.r, e.to, n);
    var lo := k.lo[e.to];
    assert base == SpOf(s.c, s.r, e.to) && InStack(k, e.to, base);
    InsideStack(s.c.mem, lo, base, n);
    var m1 := Poke(s.c.mem, top, e.params);
    var m2 := Poke(m1, at, FrameOf(s.c, s.r));
    PokeKeeps(s.c.mem, top, e.params);
    PokeHolds(s.c.mem, top, e.params);
    SameKeys(s.c.mem, m1, at, FRAME);
    PokeKeeps(m1, at, FrameOf(s.c, s.r));
    PokeHolds(m1, at, FrameOf(s.c, s.r));
    var sp := SpSlot(s.c, s.c.mode);
    var v := Vectored(s.c, s.r, e.off, e.newIpl, e.to, e.prv, e.params).value;
    assert sp < lo || sp >= k.hi[e.to];
    StillHolds(m2, v.0.mem, at, FrameOf(s.c, s.r), sp, Below(s.r));
    assert 0 <= 8 * n <= ParamBytes(n);
    HoldsStill(m1, m2, top, e.params);
    StillHolds(m2, v.0.mem, top, e.params, sp, Below(s.r));
    assert v.1.x[18] == top == v.1.sp;
  }

  lemma SameKeys(mem: map<int, int>, mem': map<int, int>, at: int, n: nat)
    requires mem'.Keys == mem.Keys && Mapped(mem, at, n)
    ensures Mapped(mem', at, n)
  {
    assert forall a :: a in mem' <==> a in mem;
  }

  lemma StillHolds(mem: map<int, int>, mem': map<int, int>, at: int, q: seq<int>, sp: int, v: int)
    requires Holds(mem, at, q) && (sp < at || sp >= Slot(at, |q|))
    requires mem' == mem || mem' == mem[sp := v]
    ensures Holds(mem', at, q)
  {
    HoldsStill(mem, mem', at, q);
  }

  // An older frame after a push: it is above the base, or on another stack.
  lemma PushKeeps(k: Stacks, s: State, e: Event, l: Live)
    requires Ok(k, s) && e.Vector? && Asked(s.c, e) && Intact(k, s.c, s.r, l)
    requires Vectored(s.c, s.r, e.off, e.newIpl, e.to, e.prv, e.params).Some?
    ensures var v := Vectored(s.c, s.r, e.off, e.newIpl, e.to, e.prv, e.params).value;
      Legal(v.0, v.1) && Laid(k, v.0) && Intact(k, v.0, v.1, l)
    ensures Under(Live(e.to, FrameAt(s.c, s.r, e.to, |e.params|), s.c, s.r), l)
  {
    hide Vectored, Holds, FrameAt, BaseOf, FrameOf;
    Pushes(k, s, e);
    var v := Vectored(s.c, s.r, e.off, e.newIpl, e.to, e.prv, e.params).value;
    var base := BaseOf(s.c, s.r, e.to).value;
    PushedLaid(k, s, e);
    assert l.stack != e.to ==> k.hi[l.stack] <= k.lo[e.to] || k.hi[e.to] <= k.lo[l.stack];
    HoldsStill(s.c.mem, v.0.mem, l.at, FrameOf(l.c, l.r));
  }

  lemma PushedLaid(k: Stacks, s: State, e: Event)
    requires Ok(k, s) && e.Vector? && Asked(s.c, e)
    requires Vectored(s.c, s.r, e.off, e.newIpl, e.to, e.prv, e.params).Some?
    ensures var v := Vectored(s.c, s.r, e.off, e.newIpl, e.to, e.prv, e.params).value;
      Legal(v.0, v.1) && Laid(k, v.0) && Pointers(k, v.0, v.1)
  {
    hide Vectored, Holds, FrameAt, BaseOf, FrameOf;
    Pushes(k, s, e);
    var v := Vectored(s.c, s.r, e.off, e.newIpl, e.to, e.prv, e.params).value;
    assert forall a :: a in v.0.mem <==> a in s.c.mem;
    assert forall m :: SpSlot(v.0, m) == SpSlot(s.c, m);
    assert Laid(k, v.0);
    forall m | 0 <= m < 4 && m != e.to
      ensures SpOf(v.0, v.1, m) == 0 || InStack(k, m, SpOf(v.0, v.1, m))
    {
      assert SpSlot(s.c, m) in s.c.mem;
      assert SpSlot(s.c, m) == SpSlot(s.c, s.c.mode) <==> m == s.c.mode;
      if m != s.c.mode { assert SpOf(s.c, s.r, m) == SpOf(v.0, v.1, m); }
    }
  }

  /** A frame pushed keeps the state well-formed, so it is below every live
      frame of its stack and spoils none. */
  lemma VectorOk(k: Stacks, s: State, e: Event, s': State)
    requires Ok(k, s) && e.Vector? && Next(k, s, e, s')
    ensures Ok(k, s')
  {
    hide Vectored, Holds, FrameAt, BaseOf, FrameOf, Under, Intact, Laid, Pointers;
    var v := Vectored(s.c, s.r, e.off, e.newIpl, e.to, e.prv, e.params);
    if v.Some? {
      PushedLaid(k, s, e);
      NewIntact(k, s, e);
      var pushed := Live(e.to, FrameAt(s.c, s.r, e.to, |e.params|), s.c, s.r);
      forall i | 0 <= i < |s.live|
        ensures Intact(k, s'.c, s'.r, s.live[i]) && Under(pushed, s.live[i])
      {
        PushKeeps(k, s, e, s.live[i]);
      }
      assert forall i | 0 <= i < |s.live| :: s'.live[i] == s.live[i];
    }
  }

  lemma NewIntact(k: Stacks, s: State, e: Event)
    requires Ok(k, s) && e.Vector? && Asked(s.c, e)
    requires Vectored(s.c, s.r, e.off, e.newIpl, e.to, e.prv, e.params).Some?
    ensures var v := Vectored(s.c, s.r, e.off, e.newIpl, e.to, e.prv, e.params).value;
      && Legal(v.0, v.1) && Laid(k, v.0)
      && Intact(k, v.0, v.1, Live(e.to, FrameAt(s.c, s.r, e.to, |e.params|), s.c, s.r))
  {
    hide Vectored, Holds, FrameAt, BaseOf, FrameOf;
    Pushes(k, s, e);
    PushedLaid(k, s, e);
  }

  // ---------------------------------------------------------------------
  // A frame popped
  // ---------------------------------------------------------------------

  // What REI changes: where it leaves a mode, that mode's stack pointer.
  lemma Pops(c: Cpu, r: Regs)
    requires |r.x| == 31 && Reid(c, r).Some? && 0 <= c.mode < 4 && SpSlot(c, c.mode) in c.mem
    ensures var v := Reid(c, r).value;
      && Legal(v.0, v.1) && v.0.mode >= c.mode && v.0.hwpcb == c.hwpcb && v.0.mem.Keys == c.mem.Keys
      && (forall a <- c.mem | a != SpSlot(c, c.mode) :: v.0.mem[a] == c.mem[a])
      && (v.0.mode != c.mode ==> v.0.mem[SpSlot(c, c.mode)] == r.x[18] + FRAME_BYTES)
      && (v.0.mode == c.mode ==> v.0.mem == c.mem)
  {
    var f := Peek(c.mem, r.x[18], FRAME);
    assert |f[2..33]| == 31;
  }

  // The stack REI leaves has its pointer past the frame, and the one it goes
  // to is the new registers'.
  ghost predicate Lands(k: Stacks, s: State, c': Cpu, r': Regs)
    requires Ok(k, s) && Legal(c', r')
  {
    InStack(k, c'.mode, Below(r')) && InStack(k, s.c.mode, s.r.x[18] + FRAME_BYTES)
  }

  lemma PoppedLaid(k: Stacks, s: State)
    requires Ok(k, s) && Reid(s.c, s.r).Some? && Legal(Reid(s.c, s.r).value.0, Reid(s.c, s.r).value.1)
    requires Lands(k, s, Reid(s.c, s.r).value.0, Reid(s.c, s.r).value.1)
    ensures var v := Reid(s.c, s.r).value; Laid(k, v.0) && Pointers(k, v.0, v.1)
  {
    hide Reid, Intact, Under;
    Pops(s.c, s.r);
    var v := Reid(s.c, s.r).value;
    assert forall a :: a in v.0.mem <==> a in s.c.mem;
    assert forall m :: SpSlot(v.0, m) == SpSlot(s.c, m);
    assert Laid(k, v.0);
    forall m | 0 <= m < 4 && m != v.0.mode
      ensures SpOf(v.0, v.1, m) == 0 || InStack(k, m, SpOf(v.0, v.1, m))
    {
      assert SpSlot(s.c, m) in s.c.mem;
      if m != s.c.mode { assert SpOf(s.c, s.r, m) == SpOf(v.0, v.1, m); }
    }
  }

  // A frame that stays live after REI.
  lemma PopKeeps(k: Stacks, s: State, l: Live)
    requires Ok(k, s) && Intact(k, s.c, s.r, l)
    requires Reid(s.c, s.r).Some? && Legal(Reid(s.c, s.r).value.0, Reid(s.c, s.r).value.1)
    requires Lands(k, s, Reid(s.c, s.r).value.0, Reid(s.c, s.r).value.1)
    requires l.stack == s.c.mode ==> s.r.x[18] + FRAME_BYTES <= l.at
    requires l.stack == Reid(s.c, s.r).value.0.mode ==> Below(Reid(s.c, s.r).value.1) <= l.at
    ensures var v := Reid(s.c, s.r).value; Laid(k, v.0) && Intact(k, v.0, v.1, l)
  {
    hide Reid, Holds, FrameOf, Under;
    Pops(s.c, s.r);
    PoppedLaid(k, s);
    var v := Reid(s.c, s.r).value;
    HoldsStill(s.c.mem, v.0.mem, l.at, FrameOf(l.c, l.r));
  }

  // REI at the newest live frame.
  lemma MatchedLands(k: Stacks, s: State)
    requires Ok(k, s) && Matches(s)
    ensures var l := s.live[|s.live| - 1];
      && Legal(l.c, l.r)
      && Reid(s.c, s.r).Some? && Restored(l.c, l.r, Reid(s.c, s.r).value.0, Reid(s.c, s.r).value.1)
      && Legal(Reid(s.c, s.r).value.0, Reid(s.c, s.r).value.1)
      && Lands(k, s, Reid(s.c, s.r).value.0, Reid(s.c, s.r).value.1)
      && Below(Reid(s.c, s.r).value.1) == Below(l.r)
  {
    hide Reid, FrameOf, Under, Holds;
    var l := s.live[|s.live| - 1];
    assert Intact(k, s.c, s.r, l);
    ReiRestores(l.c, l.r, s.c, s.r);
    Pops(s.c, s.r);
  }

  lemma ReiOk(k: Stacks, s: State, s': State)
    requires Ok(k, s) && Next(k, s, Rei, s')
    ensures Ok(k, s')
  {
    hide Reid, Intact, Holds, FrameOf, Laid, Pointers, Lands;
    if Reid(s.c, s.r).Some? {
      var v := Reid(s.c, s.r).value;
      ModeSlot(k, s);
      Pops(s.c, s.r);
      LandsEither(k, s);
      PoppedLaid(k, s);
      var left := if Matches(s) then s.live[..|s.live| - 1] else s.live;
      forall i | 0 <= i < |left|
        ensures Intact(k, v.0, v.1, left[i])
      {
        assert left[i] == s.live[i];
        assert Matches(s) ==> Under(s.live[|s.live| - 1], s.live[i]);
        if Matches(s) { MatchedLands(k, s); }
        PopKeeps(k, s, s.live[i]);
      }
      assert forall i | 0 <= i < |left| :: left[i] == s.live[i];
      forall i, j | 0 <= i < j < |left|
        ensures Under(left[j], left[i])
      {
        assert Under(s.live[j], s.live[i]);
      }
    }
  }

  lemma ModeSlot(k: Stacks, s: State)
    requires Ok(k, s)
    ensures SpSlot(s.c, s.c.mode) in s.c.mem
  {
  }

  lemma LandsEither(k: Stacks, s: State)
    requires Ok(k, s) && Reid(s.c, s.r).Some? && Legal(Reid(s.c, s.r).value.0, Reid(s.c, s.r).value.1)
    requires Matches(s) || Built(k, s, Reid(s.c, s.r).value.0, Reid(s.c, s.r).value.1)
    ensures Lands(k, s, Reid(s.c, s.r).value.0, Reid(s.c, s.r).value.1)
  {
    hide Reid, Intact, Holds, FrameOf;
    if Matches(s) { MatchedLands(k, s); }
  }

  /** Every step keeps the state well-formed. */
  lemma NextOk(k: Stacks, s: State, e: Event, s': State)
    requires Ok(k, s) && Next(k, s, e, s')
    ensures Ok(k, s')
  {
    hide Ok, Vectored, Reid, Matches;
    match e {
      case Vector(_, _, _, _, _) => VectorOk(k, s, e, s');
      case Rei => ReiOk(k, s, s');
      case Run =>
    }
  }

  // ---------------------------------------------------------------------
  // Runs
  // ---------------------------------------------------------------------

  ghost predicate Trace(k: Stacks, ss: seq<State>, es: seq<Event>) {
    && |ss| == |es| + 1 && Ok(k, ss[0])
    && (forall i | 0 <= i < |es| :: Next(k, ss[i], es[i], ss[i + 1]))
  }

  lemma {:induction false} TraceOk(k: Stacks, ss: seq<State>, es: seq<Event>, i: nat)
    requires Trace(k, ss, es) && i < |ss|
    ensures Ok(k, ss[i])
  {
    hide Next, Ok;
    if i > 0 {
      TraceOk(k, ss, es, i - 1);
      NextOk(k, ss[i - 1], es[i - 1], ss[i]);
    }
  }

  // A step pushes a frame, pops the newest or leaves them.
  lemma LiveSteps(k: Stacks, s: State, e: Event, s': State)
    requires Next(k, s, e, s')
    ensures
      || s'.live == s.live
      || (|s'.live| == |s.live| + 1 && s'.live[..|s.live|] == s.live && s'.live[|s.live|].c == s.c
          && s'.live[|s.live|].r == s.r)
      || (e.Rei? && s.live != [] && s'.live == s.live[..|s.live| - 1] && Matches(s)
          && Reid(s.c, s.r) == Some((s'.c, s'.r)))
  {
    hide Ok, Vectored, Reid;
    assert |s'.live| > |s.live| ==> s'.live[..|s.live|] == s.live;
  }

  // While a run pops none of the first n frames, they stay.
  lemma {:induction false} Kept(k: Stacks, ss: seq<State>, es: seq<Event>, n: nat, i: nat)
    requires Trace(k, ss, es) && 1 <= i < |ss| && forall j | 1 <= j <= i :: |ss[j].live| >= n
    ensures ss[i].live[..n] == ss[1].live[..n]
  {
    hide Next, Ok;
    if i > 1 {
      Kept(k, ss, es, n, i - 1);
      LiveSteps(k, ss[i - 1], es[i - 1], ss[i]);
      var a, b := ss[i - 1].live, ss[i].live;
      if |b| > |a| {
        assert b[..n] == b[..|a|][..n];
      } else if |b| < |a| {
        assert b[..n] == a[..|b|][..n] == a[..n];
      }
    }
  }

  /** An interrupt, exception or CHMx, whatever nests inside it, and the REI
      that pops its frame: the code interrupted sees all of itself as it was,
      and the frames live before are live still. */
  lemma Nested(k: Stacks, ss: seq<State>, es: seq<Event>)
    requires Trace(k, ss, es) && |ss| >= 3 && |ss[1].live| == |ss[0].live| + 1
    requires forall i | 1 <= i < |es| :: |ss[i].live| > |ss[0].live|
    requires |ss[|es|].live| == |ss[0].live|
    ensures ss[|es|].live == ss[0].live
    ensures Restored(ss[0].c, ss[0].r, ss[|es|].c, ss[|es|].r)
  {
    hide Next, Ok, Reid, Restored, Lands;
    var n, z := |ss[0].live|, |es|;
    LiveSteps(k, ss[0], es[0], ss[1]);
    Kept(k, ss, es, n + 1, z - 1);
    LiveSteps(k, ss[z - 1], es[z - 1], ss[z]);
    var last := ss[z - 1];
    assert |last.live| == n + 1 && last.live[n] == last.live[..n + 1][n] == ss[1].live[..n + 1][n];
    TraceOk(k, ss, es, z - 1);
    MatchedLands(k, last);
    assert ss[z].live == last.live[..n + 1][..n] == ss[1].live[..n + 1][..n] == ss[1].live[..n];
  }
}
