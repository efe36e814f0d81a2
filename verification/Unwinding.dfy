/** The processor's runs and the frames on a context's stacks: every event is steps of
    Nesting in the context it happens to, and a context that waits while others run is
    to its own frames as if it had not.  So an REI in any run, however many interrupts,
    exceptions and switches of context came between, restores what its frame was of. */
module Unwinding {
  import opened Frames
  import P = Processor
  import N = Nesting

  /** The frames live on the stacks of the context that is current. */
  function With(s: P.State, live: seq<N.Live>): N.State { N.State(s.c, s.r, live) }

  predicate Shaped(s: P.State) { |s.r.x| == 31 && forall h <- s.others :: |s.others[h].r.x| == 31 }

  // ---------------------------------------------------------------------
  // One event
  // ---------------------------------------------------------------------

  // The event has another context go on.
  predicate Leaves(s: P.State, e: P.Event) {
    e.Calls? && e.call.SwpctxCall? && s.c.mode == 0 && e.call.hwpcb != s.c.hwpcb
  }

  // What the event makes of the state but for its stacks.
  predicate SameStacks(s: P.State, u: P.State) {
    && u.c == s.c.(ipl := u.c.ipl, scbb := u.c.scbb) && |u.r.x| == |s.r.x| == 31
    && u.r.x[18] == s.r.x[18] && u.r.sp == s.r.sp
  }

  predicate Pops(s: P.State, e: P.Event)
    requires |s.r.x| == 31
  {
    e.Calls? && e.call.ReiCall? && Reid(s.c, s.r).Some?
  }

  // Past a call that the context gets v0 from.
  lemma PastSame(s: P.State, u: P.State, v0: int)
    requires SameStacks(s, u) && Legal(u.c, u.r)
    ensures SameStacks(s, P.PastCall(u, v0)) && Legal(P.PastCall(u, v0).c, P.PastCall(u, v0).r)
  {
  }

  lemma BeforeCall(s: P.State, call: P.Call)
    requires P.Resumed(s) && P.WellFormed(call) && !Leaves(s, P.Calls(call)) && !Pops(s, P.Calls(call))
    ensures var u := P.Before(s, P.Calls(call)); SameStacks(s, u) && Legal(u.c, u.r)
  {
    hide P.PastCall, P.ChmxTo, Reid, P.Quiet;
    if P.IsPrivileged(call) && s.c.mode != 0 {
    } else {
      match call {
        case SwpctxCall(h, _) => PastSame(s, s, h);
        case MtprIpl(v) => PastSame(s, s.(c := s.c.(ipl := v % 32)), s.c.ipl);
        case MtprSirr(v) => PastSame(s, if v % 16 != 0 then s.(pending := s.pending + {v % 16}) else s, v);
        case MtprScbb(v) => PastSame(s, s.(c := s.c.(scbb := v % 0x1_0000_0000)), v);
        case MtprRxcs(on, ready) =>
          PastSame(s, s.(rxcs := on, pending := if on && ready then s.pending + {P.IPL_CONSOLE} else s.pending),
                   s.r.x[0]);
        case Wtint => PastSame(s, s, 0);
        case Delctx(h) => PastSame(s, s.(others := s.others - {h}), h);
        case Device(v0, done) => PastSame(s, if done then P.AsksDisk(s) else s, v0);
        case Privileged(v0) => PastSame(s, s, v0);
        case Unprivileged(v0, v1) => PastSame(s, s.(r := s.r.(x := s.r.x[1 := v1])), v0);
        case _ =>
      }
    }
  }

  lemma BeforeIs(s: P.State, e: P.Event)
    requires P.Resumed(s) && P.Can(s, e) && !Leaves(s, e) && !Pops(s, e)
    ensures var u := P.Before(s, e); SameStacks(s, u) && Legal(u.c, u.r)
  {
    hide P.PastCall, P.ChmxTo, Reid, P.Requests, P.Quiet;
    match e {
      case Calls(call) => BeforeCall(s, call);
      case Ticks(port, disk, clock, input) =>
        P.Requested(s, port, disk, clock, input);
        PastSame(s, P.Requests(s, port, disk, clock, input).(idle := false), 0);
      case _ =>
    }
  }

  /** vector() as the PAL calls it. */
  ghost predicate Interrupts(u: P.State, t: P.State) {
    |u.r.x| == 31 && exists e: N.Event :: e.Vector? && N.Asked(u.c, e) && Entered(u.c, u.r, e) == Some((t.c, t.r))
  }

  function Entered(c: Cpu, r: Regs, e: N.Event): Option<(Cpu, Regs)>
    requires |r.x| == 31 && e.Vector?
  {
    Vectored(c, r, e.off, e.newIpl, e.to, e.prv, e.params)
  }

  // The state goes on as it is, or is interrupted.
  ghost predicate Delivered(u: P.State, t: P.State) {
    t.others == u.others && (Interrupts(u, t) || (t.c == u.c && t.r == u.r))
  }

  predicate Unmoved(s: P.State, t: P.State) { t.c == s.c && t.r == s.r && t.others == s.others }

  ghost predicate Follows(s: P.State, u: P.State, t: P.State) { Delivered(u, t) || Unmoved(s, t) }

  lemma DeliverFollows(u: P.State)
    requires P.Consistent(u) && P.Deliver(u).Some?
    ensures Delivered(u, P.Deliver(u).value)
  {
    hide Vectored, P.AstWaits, P.Highest, P.Left, P.Astchk, P.OffOf;
    P.Asts(u);
    AstOthers(u);
    var q := P.Astchk(u);
    P.HighestIs(q.pending, 31, q.c.ipl);
    var level := P.Highest(q.pending, 31, q.c.ipl);
    if level.Some? {
      var e := N.Vector(P.OffOf(level.value, q.port), level.value, 0, 0, []);
      var t := P.Deliver(u).value;
      LeftSame(q, level.value);
      assert N.Asked(u.c, e) && Entered(u.c, u.r, e) == Some((t.c, t.r));
    }
  }

  lemma AstOthers(s: P.State)
    ensures P.Astchk(s).others == s.others
  {
  }

  lemma LeftSame(s: P.State, level: int)
    ensures P.Left(s, level).c == s.c && P.Left(s, level).r == s.r && P.Left(s, level).others == s.others
  {
  }

  lemma ExceptionFollows(s: P.State, off: int, params: seq<int>)
    requires Legal(s.c, s.r) && |params| <= 2 && P.Exception(s, off, s.r.pc, params).Some?
    ensures var t := P.Exception(s, off, s.r.pc, params).value; Interrupts(s, t) && t.others == s.others
  {
    hide Vectored;
    assert s.r.(pc := s.r.pc) == s.r;
    var e, t := N.Vector(off, s.c.ipl, 0, s.c.mode, params), P.Exception(s, off, s.r.pc, params).value;
    assert N.Asked(s.c, e) && Entered(s.c, s.r, e) == Some((t.c, t.r));
  }

  lemma ChmxFollows(s: P.State, x: int, code: int)
    requires Legal(s.c, s.r) && 0 <= x < 4 && P.Chmx(s, x, code).Some?
    ensures var u := if P.ChmxTo(s, x, code).None? then s else s.(r := s.r.(pc := s.r.pc + 4));
      Interrupts(u, P.Chmx(s, x, code).value) && P.Chmx(s, x, code).value.others == u.others
  {
    hide Vectored, P.Exception;
    if P.ChmxTo(s, x, code).None? {
      ExceptionFollows(s, P.SCB_OPCDEC, []);
    } else {
      var u, t := s.(r := s.r.(pc := s.r.pc + 4)), P.Chmx(s, x, code).value;
      var e := N.Vector(P.SCB_CHMK + 4 * x, s.c.ipl, if x < s.c.mode then x else s.c.mode, s.c.mode, [code]);
      assert N.Asked(u.c, e) && Entered(u.c, u.r, e) == Some((t.c, t.r));
    }
  }

  lemma RetFollows(u: P.State, v0: int)
    requires P.Consistent(u) && P.Ret(u, v0).Some?
    ensures Delivered(P.PastCall(u, v0), P.Ret(u, v0).value)
  {
    hide P.Deliver, Delivered;
    DeliverFollows(P.PastCall(u, v0));
  }

  lemma ReiFollows(s: P.State)
    requires P.Resumed(s) && !s.idle && P.DoRei(s).Some?
    ensures Follows(s, P.Before(s, P.Calls(P.ReiCall)), P.DoRei(s).value)
  {
    hide Reid, P.Exception, P.Deliver;
    if Reid(s.c, s.r).None? {
      ExceptionFollows(s, P.SCB_OPCDEC, []);
    } else {
      ReidLegal(s.c, s.r);
      DeliverFollows(P.Popped(s).value);
    }
  }

  lemma CallFollows(s: P.State, call: P.Call)
    requires P.Resumed(s) && !s.idle && P.WellFormed(call) && P.Serve(s, call).Some? && !Leaves(s, P.Calls(call))
    ensures Follows(s, P.Before(s, P.Calls(call)), P.Serve(s, call).value)
  {
    hide Delivered, Interrupts, P.Deliver, P.Ret, P.Exception, P.Chmx, P.ChmxTo, P.DoRei, P.Popped, P.Onto, P.AstWaits,
         P.PastCall, P.Quiet;
    if P.IsPrivileged(call) && s.c.mode != 0 {
      ExceptionFollows(s, P.SCB_OPCDEC, []);
      VectorFollows(s, s, P.Serve(s, call).value);
    } else {
      match call {
        case SwpctxCall(h, view) =>
          RetFollows(s, h);
          OntoItself(s, view);
        case MtprIpl(v) => RetFollows(s.(c := s.c.(ipl := v % 32)), s.c.ipl);
        case MtprSirr(v) => RetFollows(if v % 16 != 0 then s.(pending := s.pending + {v % 16}) else s, v);
        case MtprScbb(v) => RetFollows(s.(c := s.c.(scbb := v % 0x1_0000_0000)), v);
        case MtprRxcs(on, ready) =>
          RetFollows(s.(rxcs := on, pending := if on && ready then s.pending + {P.IPL_CONSOLE} else s.pending),
                     s.r.x[0]);
        case Wtint =>
          if P.Deliverable(P.Astchk(s)) {
            RetFollows(s, 0);
          } else {
            StaysFollows(s, P.PastCall(s, 0), s.(idle := true));
          }
        case Delctx(h) =>
          if h != 0 && h == s.c.hwpcb {
            ExceptionFollows(s, P.SCB_OPCDEC, []);
            VectorFollows(s, s, P.Serve(s, call).value);
          } else {
            RetFollows(s.(others := s.others - {h}), h);
          }
        case Device(v0, done) => RetFollows(if done then P.AsksDisk(s) else s, v0);
        case Privileged(v0) => RetFollows(s, v0);
        case ChmxCall(x, code) =>
          ChmxFollows(s, x, code);
          VectorFollows(s, P.Before(s, P.Calls(call)), P.Serve(s, call).value);
        case ReiCall => ReiFollows(s);
        case Unprivileged(v0, v1) => RetFollows(s.(r := s.r.(x := s.r.x[1 := v1])), v0);
        case Reserved(off, params) =>
          ExceptionFollows(s, off, params);
          VectorFollows(s, s, P.Serve(s, call).value);
      }
    }
  }

  lemma VectorFollows(s: P.State, u: P.State, t: P.State)
    requires Interrupts(u, t) && t.others == u.others
    ensures Follows(s, u, t)
  {
  }

  lemma StaysFollows(s: P.State, u: P.State, t: P.State)
    requires Unmoved(s, t)
    ensures Follows(s, u, t)
  {
  }

  lemma OntoItself(s: P.State, view: map<int, int>)
    requires |s.r.x| == 31 && forall h <- s.others :: |s.others[h].r.x| == 31
    ensures P.Onto(s, s.c.hwpcb, view) == P.PastCall(s, s.c.hwpcb)
  {
  }

  /** What an event leads to, in its context: the state it makes, or that of before, or
      the handler of an interrupt or exception of it. */
  lemma EventFollows(s: P.State, e: P.Event)
    requires P.Resumed(s) && P.Can(s, e) && P.Next(s, e).Some? && !Leaves(s, e) && !e.Runs?
    ensures Follows(s, P.Before(s, e), P.Next(s, e).value)
  {
    hide Delivered, Interrupts, P.Deliver, P.Ret, P.Exception, P.Serve, P.AstWaits, P.PastCall, P.Quiet, P.Requests;
    match e {
      case Calls(call) => CallFollows(s, call);
      case Faults(off, params) =>
        ExceptionFollows(s, off, params);
        P.NoCall(s, e);
        VectorFollows(s, s, P.Next(s, e).value);
      case Ticks(port, disk, clock, input) =>
        P.Requested(s, port, disk, clock, input);
        var t := P.Requests(s, port, disk, clock, input);
        P.Asts(t);
        AstOthers(t);
        RequestsOthers(s, port, disk, clock, input);
        if !P.Deliverable(P.Astchk(t)) {
          StaysFollows(s, P.Before(s, e), P.Next(s, e).value);
        } else if t.idle {
          RetFollows(t.(idle := false), 0);
        } else {
          DeliverFollows(t);
        }
    }
  }

  // ---------------------------------------------------------------------
  // Steps of Nesting
  // ---------------------------------------------------------------------

  ghost predicate Step(k: N.Stacks, a: N.State, b: N.State) { exists e :: N.Next(k, a, e, b) }

  // What stacks are in memory for: the frames, the guards below them and the HWPCB's
  // stack pointers.
  ghost predicate OnStacks(k: N.Stacks, c: Cpu, a: int)
    requires |k.lo| == |k.hi| == 4
  {
    exists m | 0 <= m < 4 :: k.lo[m] - 16 <= a < k.hi[m] || a == SpSlot(c, m)
  }

  // The context has the stacks it had.
  ghost predicate SeesSame(k: N.Stacks, c: Cpu, view: map<int, int>)
    requires |k.lo| == |k.hi| == 4
  {
    forall a | OnStacks(k, c, a) :: (a in view <==> a in c.mem) && (a in view ==> view[a] == c.mem[a])
  }

  // Whose stacks are the same is as well-formed.
  lemma OkSame(k: N.Stacks, s: N.State, s': N.State)
    requires N.Ok(k, s) && SeesSame(k, s.c, s'.c.mem) && Legal(s'.c, s'.r) && s'.live == s.live
    requires s'.c.hwpcb == s.c.hwpcb && s'.c.mode == s.c.mode && s'.r.x[18] == s.r.x[18] && s'.r.sp == s.r.sp
    ensures N.Ok(k, s')
  {
    hide Holds, FrameOf, N.Under, SeesSame, OnStacks;
    SlotsSame(k, s, s');
    forall i | 0 <= i < |s.live|
      ensures N.Intact(k, s'.c, s'.r, s.live[i])
    {
      assert N.Intact(k, s.c, s.r, s.live[i]);
      FrameSame(k, s, s', s.live[i]);
    }
    PointersSame(k, s, s');
  }

  lemma PointersSame(k: N.Stacks, s: N.State, s': N.State)
    requires N.Laid(k, s.c) && N.Laid(k, s'.c) && Legal(s.c, s.r) && N.Pointers(k, s.c, s.r) && Legal(s'.c, s'.r)
    requires s'.c.hwpcb == s.c.hwpcb && s'.c.mode == s.c.mode && s'.r.x[18] == s.r.x[18] && s'.r.sp == s.r.sp
    requires forall m | 0 <= m < 4 ::
      SpSlot(s.c, m) in s.c.mem && SpSlot(s.c, m) in s'.c.mem && s'.c.mem[SpSlot(s.c, m)] == s.c.mem[SpSlot(s.c, m)]
    ensures N.Pointers(k, s'.c, s'.r)
  {
    forall m | 0 <= m < 4 && m != s'.c.mode
      ensures N.SpOf(s'.c, s'.r, m) == 0 || N.InStack(k, m, N.SpOf(s'.c, s'.r, m))
    {
      assert SpSlot(s'.c, m) == SpSlot(s.c, m);
      assert N.SpOf(s'.c, s'.r, m) == N.SpOf(s.c, s.r, m);
    }
  }

  lemma SlotsSame(k: N.Stacks, s: N.State, s': N.State)
    requires N.Ok(k, s) && SeesSame(k, s.c, s'.c.mem) && s'.c.hwpcb == s.c.hwpcb
    ensures N.Laid(k, s.c) && N.Laid(k, s'.c)
    ensures forall m | 0 <= m < 4 ::
      SpSlot(s.c, m) in s.c.mem && SpSlot(s.c, m) in s'.c.mem && s'.c.mem[SpSlot(s.c, m)] == s.c.mem[SpSlot(s.c, m)]
  {
    hide N.Pointers, N.Intact, N.Under;
    forall m | 0 <= m < 4
      ensures k.lo[m] - 8 !in s'.c.mem && k.lo[m] - 16 !in s'.c.mem && SpSlot(s.c, m) in s'.c.mem
      ensures s'.c.mem[SpSlot(s.c, m)] == s.c.mem[SpSlot(s.c, m)]
    {
      assert OnStacks(k, s.c, SpSlot(s.c, m));
      assert k.lo[m] - 8 !in s.c.mem && k.lo[m] - 16 !in s.c.mem;
      assert OnStacks(k, s.c, k.lo[m] - 8) && OnStacks(k, s.c, k.lo[m] - 16);
    }
    assert forall m :: SpSlot(s'.c, m) == SpSlot(s.c, m);
  }

  lemma FrameSame(k: N.Stacks, s: N.State, s': N.State, l: N.Live)
    requires |k.lo| == |k.hi| == 4 && SeesSame(k, s.c, s'.c.mem) && Legal(l.c, l.r) && 0 <= l.stack < 4
    requires Holds(s.c.mem, l.at, FrameOf(l.c, l.r)) && k.lo[l.stack] <= l.at && l.at + FRAME_BYTES <= k.hi[l.stack]
    ensures Holds(s'.c.mem, l.at, FrameOf(l.c, l.r))
  {
    var f := FrameOf(l.c, l.r);
    forall i | 0 <= i < |f|
      ensures Slot(l.at, i) in s'.c.mem && s'.c.mem[Slot(l.at, i)] == f[i]
    {
      assert OnStacks(k, s.c, Slot(l.at, i));
    }
  }

  lemma SameSees(k: N.Stacks, c: Cpu)
    requires |k.lo| == |k.hi| == 4
    ensures SeesSame(k, c, c.mem)
  {
  }

  /** What stack code keeps to: an REI is at its newest frame or at one it built below
      the live ones, and code leaves the live frames alone. */
  ghost predicate Disciplined(k: N.Stacks, s: P.State, e: P.Event, live: seq<N.Live>)
    requires Shaped(s) && 0 <= s.c.mode < 4 && |k.lo| == |k.hi| == 4 && P.Next(s, e).Some?
  {
    && (Pops(s, e) ==>
          var v := Reid(s.c, s.r).value; N.Matches(With(s, live)) || N.Built(k, With(s, live), v.0, v.1))
    && (e.Runs? ==> N.Ok(k, With(P.Next(s, e).value, live)))
  }

  // The frames left once the event's own REI is done.
  function LeftOf(s: P.State, e: P.Event, live: seq<N.Live>): seq<N.Live>
    requires |s.r.x| == 31
  {
    if Pops(s, e) && N.Matches(With(s, live)) then live[..|live| - 1] else live
  }

  // The event itself: an REI, or no more than the code of the mode might do.
  lemma FirstStep(k: N.Stacks, s: P.State, e: P.Event, live: seq<N.Live>)
    requires N.Ok(k, With(s, live)) && P.Resumed(s) && P.Can(s, e) && P.Next(s, e).Some? && !Leaves(s, e)
    requires Disciplined(k, s, e, live)
    ensures Step(k, With(s, live), With(P.Before(s, e), LeftOf(s, e, live)))
  {
    hide N.Ok, P.Next, P.Quiet, Reid, N.Built, SeesSame;
    var a, b := With(s, live), With(P.Before(s, e), LeftOf(s, e, live));
    OkSays(k, a);
    if Pops(s, e) {
      assert N.Next(k, a, N.Rei, b);
    } else {
      BeforeIs(s, e);
      SameSees(k, s.c);
      OkSame(k, a, b);
      assert N.Next(k, a, N.Run, b);
    }
  }

  lemma OkSays(k: N.Stacks, s: N.State)
    requires N.Ok(k, s)
    ensures Legal(s.c, s.r) && |k.lo| == |k.hi| == 4
  {
  }

  // And what follows it: a frame pushed, or none.
  lemma SecondStep(k: N.Stacks, u: P.State, t: P.State, live: seq<N.Live>) returns (after: seq<N.Live>)
    requires N.Ok(k, With(u, live)) && Delivered(u, t)
    ensures Step(k, With(u, live), With(t, after))
  {
    hide N.Ok, Vectored, N.FrameAt, N.Asked;
    OkSays(k, With(u, live));
    after := live;
    if t.c == u.c && t.r == u.r {
      assert N.Next(k, With(u, live), N.Run, With(t, live));
    } else {
      var e: N.Event :| e.Vector? && N.Asked(u.c, e) && Entered(u.c, u.r, e) == Some((t.c, t.r));
      after := live + [N.Live(e.to, N.FrameAt(u.c, u.r, e.to, |e.params|), u.c, u.r)];
      assert N.Next(k, With(u, live), e, With(t, after));
    }
  }

  // ---------------------------------------------------------------------
  // One context, while it runs and while it waits
  // ---------------------------------------------------------------------

  /** The context of h, with its frames: as it is, or as it was when it left. */
  predicate Own(h: int, s: P.State, n: N.State) {
    && n.c.hwpcb == h
    && if s.c.hwpcb == h then n.c == s.c && n.r == s.r
       else h in s.others && s.others[h] == P.Waiting(n.c.mode, n.c.prv, n.r)
  }

  // The event has the context go on.
  predicate Returns(h: int, s: P.State, e: P.Event) { Leaves(s, e) && e.call.hwpcb == h }

  /** What is asked of the executive: its stack code keeps to its stacks, a context finds
      those as it left them, and none that waits is forgotten. */
  ghost predicate Behaves(k: N.Stacks, h: int, s: P.State, n: N.State, e: P.Event)
    requires Shaped(s) && 0 <= s.c.mode < 4 && |k.lo| == |k.hi| == 4 && P.Next(s, e).Some?
  {
    && (s.c.hwpcb == h && !Leaves(s, e) ==> Disciplined(k, s, e, n.live))
    && (Returns(h, s, e) ==> SeesSame(k, n.c, e.call.view))
    && !(e.Calls? && s.c.mode == 0 && e.call == P.Delctx(h) && s.c.hwpcb != h)
  }

  /** The state the event has the context interrupted in, if it is. */
  ghost predicate Made(h: int, s: P.State, n: N.State, e: P.Event, m: N.State)
    requires Shaped(s)
  {
    if (s.c.hwpcb == h && !Leaves(s, e) && !e.Runs?) || Returns(h, s, e) then
      (m.c == P.Before(s, e).c && m.r == P.Before(s, e).r) || m == n
    else true
  }

  /** An event, in the context of h, is two of its steps. */
  ghost predicate Follow(k: N.Stacks, h: int, s: P.State, n: N.State, e: P.Event, m: N.State, t: P.State, n': N.State)
    requires Shaped(s)
  {
    Step(k, n, m) && Step(k, m, n') && Own(h, t, n') && Made(h, s, n, e, m)
  }

  lemma Stays(k: N.Stacks, n: N.State)
    requires N.Ok(k, n)
    ensures Step(k, n, n)
  {
    hide N.Ok;
    OkSays(k, n);
    assert N.Next(k, n, N.Run, n);
  }

  lemma StepOk(k: N.Stacks, n: N.State, m: N.State)
    requires N.Ok(k, n) && Step(k, n, m)
    ensures N.Ok(k, m)
  {
    hide N.Ok, N.Next;
    var e :| N.Next(k, n, e, m);
    N.NextOk(k, n, e, m);
  }

  // The context is the current one and goes on.
  lemma RunsOn(k: N.Stacks, h: int, s: P.State, n: N.State, e: P.Event) returns (m: N.State, n': N.State)
    requires P.Resumed(s) && P.Can(s, e) && P.Next(s, e).Some? && Own(h, s, n) && N.Ok(k, n) && s.c.hwpcb == h
    requires !Leaves(s, e)
    requires Shaped(s) && |k.lo| == |k.hi| == 4 && Disciplined(k, s, e, n.live)
    ensures Follow(k, h, s, n, e, m, P.Next(s, e).value, n')
  {
    hide N.Ok, P.Next, P.Before, P.Quiet, P.Consistent, Step, Disciplined, Delivered;
    var t := P.Next(s, e).value;
    if e.Runs? {
      m := With(t, n.live);
      n' := m;
      RunStep(k, s, e, n.live);
      Stays(k, m);
    } else {
      EventFollows(s, e);
      EventSays(s, e, t);
      if Unmoved(s, t) {
        Stays(k, n);
        m, n' := n, n;
      } else {
        FirstStep(k, s, e, n.live);
        m := With(P.Before(s, e), LeftOf(s, e, n.live));
        StepOk(k, n, m);
        var after := SecondStep(k, P.Before(s, e), t, m.live);
        n' := With(t, after);
      }
    }
  }

  lemma RunStep(k: N.Stacks, s: P.State, e: P.Event, live: seq<N.Live>)
    requires P.Resumed(s) && P.Can(s, e) && e.Runs? && Shaped(s) && |k.lo| == |k.hi| == 4 && Disciplined(k, s, e, live)
    ensures var t := P.Next(s, e).value;
      N.Ok(k, With(t, live)) && Step(k, With(s, live), With(t, live)) && t.c.hwpcb == s.c.hwpcb
  {
    hide N.Ok;
    assert N.Next(k, With(s, live), N.Run, With(P.Next(s, e).value, live));
  }

  // Which context is current and which wait, after an event that is no switch.
  lemma EventSays(s: P.State, e: P.Event, t: P.State)
    requires P.Resumed(s) && P.Can(s, e) && !Leaves(s, e) && Shaped(s)
    requires if e.Runs? then P.Next(s, e) == Some(t) else Follows(s, P.Before(s, e), t)
    ensures t.c.hwpcb == s.c.hwpcb
    ensures forall h <- s.others :: !(e == P.Calls(P.Delctx(h)) && s.c.mode == 0) ==>
      h in t.others && t.others[h] == s.others[h]
  {
    hide P.Before, Vectored, Reid, P.Quiet, SameStacks;
    if !e.Runs? { BeforeContext(s, e); }
  }

  lemma BeforeContext(s: P.State, e: P.Event)
    requires P.Resumed(s) && P.Can(s, e) && !Leaves(s, e) && Shaped(s)
    ensures P.Before(s, e).c.hwpcb == s.c.hwpcb
    ensures P.Before(s, e).others ==
      if e.Calls? && e.call.Delctx? && s.c.mode == 0 && (e.call.hwpcb == 0 || e.call.hwpcb != s.c.hwpcb)
        then s.others - {e.call.hwpcb}
      else s.others
  {
    hide Reid, P.Quiet, P.Before, SameStacks;
    if Pops(s, e) {
      PopHwpcb(s);
    } else {
      BeforeIs(s, e);
      StacksHwpcb(s, P.Before(s, e));
    }
    BeforeOthers(s, e);
  }

  lemma PopHwpcb(s: P.State)
    requires Shaped(s) && 0 <= s.c.mode && Reid(s.c, s.r).Some?
    ensures P.Before(s, P.Calls(P.ReiCall)).c.hwpcb == s.c.hwpcb
  {
    hide Reid;
    ReidLegal(s.c, s.r);
  }

  lemma BeforeOthers(s: P.State, e: P.Event)
    requires P.Resumed(s) && P.Can(s, e) && !Leaves(s, e) && Shaped(s)
    ensures P.Before(s, e).others ==
      if e.Calls? && e.call.Delctx? && s.c.mode == 0 && (e.call.hwpcb == 0 || e.call.hwpcb != s.c.hwpcb)
        then s.others - {e.call.hwpcb}
      else s.others
  {
    hide Reid, P.Quiet, P.Consistent, P.PastCall, P.ChmxTo, P.Requests, SameStacks;
    PastOthers();
    if e.Ticks? {
      RequestsOthers(s, e.port, e.disk, e.clock, e.input);
      P.Requested(s, e.port, e.disk, e.clock, e.input);
    }
  }

  lemma StacksHwpcb(s: P.State, u: P.State)
    requires SameStacks(s, u)
    ensures u.c.hwpcb == s.c.hwpcb
  {
  }

  lemma PastOthers()
    ensures forall s: P.State, v0 | |s.r.x| == 31 :: P.PastCall(s, v0).others == s.others
  {
  }

  lemma RequestsOthers(s: P.State, port: bool, disk: bool, clock: bool, input: bool)
    ensures P.Requests(s, port, disk, clock, input).others == s.others
  {
  }

  // Which do after a switch.
  ghost predicate Swapped(s: P.State, to: int, t: P.State) {
    t.c.hwpcb == to && t.others == (s.others - {to})[s.c.hwpcb := P.Waiting(s.c.mode, s.c.prv, s.r)]
  }

  lemma SwitchedIs(s: P.State, to: int, w: P.Waiting, view: map<int, int>)
    requires P.Resumed(s) && !s.idle && s.c.mode == 0 && to != s.c.hwpcb && w.mode == 0 && 0 <= w.prv < 4
    requires |w.r.x| == 31
    ensures var u := P.Switched(s, to, w, view); P.Consistent(u) && !u.idle && Swapped(s, to, u)
  {
  }

  lemma DeliveredSwapped(s: P.State, to: int, u: P.State, t: P.State)
    requires Swapped(s, to, u) && Delivered(u, t)
    ensures Swapped(s, to, t)
  {
    hide Vectored;
  }

  lemma StartedSwapped(s: P.State, to: int, u: P.State, from: int)
    requires P.Consistent(u) && !u.idle && Swapped(s, to, u) && P.Started(u, from).Some?
    ensures Swapped(s, to, P.Started(u, from).value)
  {
    hide Reid, P.Deliver, Delivered;
    ReidLegal(u.c, u.r);
    var v := Reid(u.c, u.r).value;
    var w := u.(c := v.0, r := v.1.(x := v.1.x[0 := from]));
    DeliverFollows(w);
    DeliveredSwapped(s, to, w, P.Deliver(w).value);
  }

  lemma RetSwapped(s: P.State, to: int, u: P.State, from: int)
    requires P.Consistent(u) && Swapped(s, to, u) && P.Ret(u, from).Some?
    ensures Swapped(s, to, P.Ret(u, from).value) && Delivered(P.PastCall(u, from), P.Ret(u, from).value)
  {
    hide P.Deliver, Delivered, P.Ret;
    RetFollows(u, from);
    DeliveredSwapped(s, to, P.PastCall(u, from), P.Ret(u, from).value);
  }

  /** A switch: the current context waits with its registers, and one that waited goes
      on with its own, unless it is interrupted. */
  lemma SwitchFollows(s: P.State, e: P.Event)
    requires P.Resumed(s) && P.Can(s, e) && P.Next(s, e).Some? && Leaves(s, e)
    ensures Swapped(s, e.call.hwpcb, P.Next(s, e).value)
    ensures e.call.hwpcb in s.others ==> Delivered(P.Before(s, e), P.Next(s, e).value)
  {
    hide P.Deliver, P.Ret, P.Started, P.PastCall, P.Popped, P.Quiet, Swapped, Delivered;
    var to, view := e.call.hwpcb, e.call.view;
    if to in s.others {
      SwitchedIs(s, to, s.others[to], view);
      RetSwapped(s, to, P.Switched(s, to, s.others[to], view), s.c.hwpcb);
    } else {
      var w := P.Waiting(0, 0, P.Blank(s.c.mem[to]));
      SwitchedIs(s, to, w, view);
      StartedSwapped(s, to, P.Switched(s, to, w, view), s.c.hwpcb);
    }
  }

  // The context waited and goes on.
  lemma GoesOn(k: N.Stacks, h: int, s: P.State, n: N.State, e: P.Event) returns (m: N.State, n': N.State)
    requires P.Resumed(s) && P.Can(s, e) && P.Next(s, e).Some? && Own(h, s, n) && N.Ok(k, n) && Returns(h, s, e)
    requires Shaped(s) && |k.lo| == |k.hi| == 4 && SeesSame(k, n.c, e.call.view)
    ensures Follow(k, h, s, n, e, m, P.Next(s, e).value, n')
  {
    hide N.Ok, P.Next, P.Quiet, Delivered, SeesSame, Step;
    SwitchFollows(s, e);
    var u, t := P.Before(s, e), P.Next(s, e).value;
    m := With(u, n.live);
    OkSays(k, n);
    OkSame(k, n, m);
    RanStep(k, n, m);
    var after := SecondStep(k, u, t, n.live);
    n' := With(t, after);
  }

  lemma RanStep(k: N.Stacks, n: N.State, m: N.State)
    requires N.Ok(k, n) && N.Ok(k, m) && m.live == n.live && m.c.mode == n.c.mode && m.c.prv == n.c.prv
    ensures Step(k, n, m)
  {
    hide N.Ok;
    OkSays(k, n);
    assert N.Next(k, n, N.Run, m);
  }

  /** Every event of the processor is two steps of each context that is current or waits:
      what the event makes of its state, and the interrupt of that, if there is one; and
      no step at all where another context runs. */
  lemma EventSteps(k: N.Stacks, h: int, s: P.State, n: N.State, e: P.Event) returns (m: N.State, n': N.State)
    requires P.Resumed(s) && P.Can(s, e) && P.Next(s, e).Some? && Own(h, s, n) && N.Ok(k, n)
    requires Shaped(s) && |k.lo| == |k.hi| == 4 && Behaves(k, h, s, n, e)
    ensures Follow(k, h, s, n, e, m, P.Next(s, e).value, n')
    ensures s.c.hwpcb != h && !Returns(h, s, e) ==> n' == n
  {
    hide N.Ok, P.Next, P.Before, P.Quiet, P.Consistent, Step, Disciplined, Follows, Delivered, SeesSame;
    if s.c.hwpcb == h && !Leaves(s, e) {
      m, n' := RunsOn(k, h, s, n, e);
    } else if Returns(h, s, e) {
      m, n' := GoesOn(k, h, s, n, e);
    } else {
      m, n' := n, n;
      Stays(k, n);
      if Leaves(s, e) {
        SwitchFollows(s, e);
      } else {
        if !e.Runs? { EventFollows(s, e); }
        EventSays(s, e, P.Next(s, e).value);
      }
    }
  }

  // ---------------------------------------------------------------------
  // Runs
  // ---------------------------------------------------------------------

  /** A run of the processor as the context of h sees it: ns has the context in each state
      of the run, ms in what each event makes of it. */
  ghost predicate Seen(k: N.Stacks, h: int, ss: seq<P.State>, es: seq<P.Event>, ns: seq<N.State>, ms: seq<N.State>)
    requires P.Trace(ss, es)
  {
    && |ns| == |ss| == |es| + 1 && |ms| == |es| && N.Ok(k, ns[0]) && Own(h, ss[0], ns[0])
    && forall i | 0 <= i < |es| :: Shaped(ss[i]) && Follow(k, h, ss[i], ns[i], es[i], ms[i], ss[i + 1], ns[i + 1])
  }

  /** As long as the executive behaves, each event goes on from there. */
  lemma SeenOn(k: N.Stacks, h: int, ss: seq<P.State>, es: seq<P.Event>, ns: seq<N.State>, ms: seq<N.State>, e: P.Event,
               t: P.State)
    returns (m: N.State, n: N.State)
    requires P.Trace(ss, es) && Seen(k, h, ss, es, ns, ms) && |k.lo| == |k.hi| == 4
    requires var s := ss[|es|]; P.Resumed(s) && P.Steps(s, e, t) && Behaves(k, h, s, ns[|es|], e)
    ensures P.Trace(ss + [t], es + [e]) && Seen(k, h, ss + [t], es + [e], ns + [n], ms + [m])
  {
    hide N.Ok, P.Next, P.Resumed, P.Can, Behaves, Own, Follow;
    var i := |es|;
    SeenOk(k, h, ss, es, ns, ms, i);
    SeenOwn(k, h, ss, es, ns, ms, i);
    m, n := EventSteps(k, h, ss[i], ns[i], e);
    var ss', es', ns', ms' := ss + [t], es + [e], ns + [n], ms + [m];
    forall j | 0 <= j < |es'|
      ensures P.Steps(ss'[j], es'[j], ss'[j + 1])
    {
      if j < i { assert P.Steps(ss[j], es[j], ss[j + 1]); }
    }
    forall j | 0 <= j < |es'|
      ensures Shaped(ss'[j]) && Follow(k, h, ss'[j], ns'[j], es'[j], ms'[j], ss'[j + 1], ns'[j + 1])
    {
      if j < i { assert Follow(k, h, ss[j], ns[j], es[j], ms[j], ss[j + 1], ns[j + 1]); }
    }
  }

  lemma SeenOwn(k: N.Stacks, h: int, ss: seq<P.State>, es: seq<P.Event>, ns: seq<N.State>, ms: seq<N.State>, i: nat)
    requires P.Trace(ss, es) && Seen(k, h, ss, es, ns, ms) && i < |ns|
    ensures Own(h, ss[i], ns[i])
  {
    hide N.Ok, Step, P.Trace, Own, Made;
    if i > 0 { assert Follow(k, h, ss[i - 1], ns[i - 1], es[i - 1], ms[i - 1], ss[i], ns[i]); }
  }

  lemma {:induction false} SeenOk(k: N.Stacks, h: int, ss: seq<P.State>, es: seq<P.Event>, ns: seq<N.State>,
                                  ms: seq<N.State>, i: nat)
    requires P.Trace(ss, es) && Seen(k, h, ss, es, ns, ms) && i < |ns|
    ensures N.Ok(k, ns[i]) && (i < |ms| ==> N.Ok(k, ms[i]))
  {
    hide N.Ok, Step, P.Trace, Own, Made;
    if i > 0 {
      SeenOk(k, h, ss, es, ns, ms, i - 1);
      assert Follow(k, h, ss[i - 1], ns[i - 1], es[i - 1], ms[i - 1], ss[i], ns[i]);
      StepOk(k, ms[i - 1], ns[i]);
    }
    if i < |ms| {
      assert Follow(k, h, ss[i], ns[i], es[i], ms[i], ss[i + 1], ns[i + 1]);
      StepOk(k, ns[i], ms[i]);
    }
  }

  ghost function EventOf(k: N.Stacks, a: N.State, b: N.State): (e: N.Event)
    requires Step(k, a, b)
    ensures N.Next(k, a, e, b)
  {
    hide N.Next;
    var e :| N.Next(k, a, e, b);
    e
  }

  // The context from the i-th event's making to the j-th's.
  function Between(ns: seq<N.State>, ms: seq<N.State>, i: nat, p: nat): N.State
    requires |ns| == |ms| + 1 && i + (p + 1) / 2 < |ms|
  {
    if p % 2 == 0 then ms[i + p / 2] else ns[i + (p + 1) / 2]
  }

  /** However an interrupt, exception or CHMx was followed by others, by returns from them
      and by switches to other contexts and back: the REI that pops its frame gives the
      code it interrupted all of itself back, and the frames there were are live and
      unchanged. */
  lemma Unwound(k: N.Stacks, h: int, ss: seq<P.State>, es: seq<P.Event>, ns: seq<N.State>, ms: seq<N.State>, i: nat,
                j: nat)
    requires P.Trace(ss, es) && Seen(k, h, ss, es, ns, ms) && i < j < |es|
    requires |ns[i + 1].live| == |ms[i].live| + 1 && |ms[j].live| == |ms[i].live|
    requires forall l | i < l < j :: |ms[l].live| > |ms[i].live|
    requires forall l | i < l <= j :: |ns[l].live| > |ms[i].live|
    ensures ms[j].live == ms[i].live && Restored(ms[i].c, ms[i].r, ms[j].c, ms[j].r)
  {
    hide N.Ok, P.Trace, Follow, Own, Restored, Step, Shaped, Between;
    SeenOk(k, h, ss, es, ns, ms, i);
    var path := Path(ns, ms, i, j);
    forall p | 0 <= p < |path| - 1
      ensures Step(k, path[p], path[p + 1])
    {
      StepBetween(k, h, ss, es, ns, ms, i, p);
    }
    NestedIn(k, path);
  }

  lemma NestedIn(k: N.Stacks, path: seq<N.State>)
    requires |path| >= 3 && N.Ok(k, path[0]) && forall p | 0 <= p < |path| - 1 :: Step(k, path[p], path[p + 1])
    requires |path[1].live| == |path[0].live| + 1 && forall p | 1 <= p < |path| - 1 :: |path[p].live| > |path[0].live|
    requires |path[|path| - 1].live| == |path[0].live|
    ensures var a, b := path[0], path[|path| - 1]; b.live == a.live && Restored(a.c, a.r, b.c, b.r)
  {
    hide N.Ok, N.Next, Restored, Step;
    var len := |path| - 1;
    var steps := seq(len, p requires 0 <= p < len => EventOf(k, path[p], path[p + 1]));
    assert N.Trace(k, path, steps);
    N.Nested(k, path, steps);
  }

  function Path(ns: seq<N.State>, ms: seq<N.State>, i: nat, j: nat): (path: seq<N.State>)
    requires |ns| == |ms| + 1 && i < j < |ms|
    ensures |path| == 2 * (j - i) + 1 && path[0] == ms[i] && path[1] == ns[i + 1] && path[|path| - 1] == ms[j]
    ensures forall p | 0 <= p < |path| :: path[p] == Between(ns, ms, i, p)
    ensures forall p | 1 <= p < |path| - 1 :: (exists l | i < l < j :: path[p] == ms[l]) || exists l | i < l <= j ::
      path[p] == ns[l]
  {
    var path := seq(2 * (j - i) + 1, p requires 0 <= p <= 2 * (j - i) => Between(ns, ms, i, p));
    assert forall p | 1 <= p < |path| - 1 :: path[p] == if p % 2 == 0 then ms[i + p / 2] else ns[i + (p + 1) / 2];
    path
  }

  lemma StepBetween(k: N.Stacks, h: int, ss: seq<P.State>, es: seq<P.Event>, ns: seq<N.State>, ms: seq<N.State>, i: nat,
                    p: nat)
    requires P.Trace(ss, es) && Seen(k, h, ss, es, ns, ms) && i + (p + 2) / 2 < |ms|
    ensures Step(k, Between(ns, ms, i, p), Between(ns, ms, i, p + 1))
  {
    hide N.Ok, P.Trace, Own, Made, Step, Shaped;
    var q := i + p / 2;
    if p % 2 == 0 {
      assert Follow(k, h, ss[q], ns[q], es[q], ms[q], ss[q + 1], ns[q + 1]);
    } else {
      assert Follow(k, h, ss[q + 1], ns[q + 1], es[q + 1], ms[q + 1], ss[q + 2], ns[q + 2]);
    }
  }
}
