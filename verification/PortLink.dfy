/** The shared page between the executive and TCP/IP: two rings and 32 tags.
    Each side's writes are steps of their own, an entry written and then
    published, so that every interleaving of the two is a sequence of steps. */
module PortLink {
  import opened Rings

  const RING := 32
  const TAGS := 32

  datatype Option<T> = None | Some(value: T)

  datatype Msg = Msg(kind: int, flags: int, tag: int, conn: int, status: int, len: int, addr: int, port: int,
                     proto: int, arg1: int, arg2: int)

  /** The header and the rings. */
  datatype Page = Page(cmdPut: int, cmdGet: int, rspPut: int, rspGet: int, cmd: seq<Msg>, rsp: seq<Msg>)

  /** Where the commands are: the one the executive is writing, those in its
      ring, the one the component is at work on, the response it is writing and
      those in its ring; the tags the executive has given out; and how many
      commands and responses there have been on each tag. */
  datatype Book = Book(draft: Option<Msg>, cmdQ: seq<Msg>, hand: Option<Msg>, writing: Option<Msg>, rspQ: seq<Msg>,
                       out: set<int>, sent: map<int, nat>, got: map<int, nat>)

  // ---------------------------------------------------------------------
  // Accounting
  // ---------------------------------------------------------------------

  function TagsOf(q: seq<Msg>): multiset<int> {
    if q == [] then multiset{} else multiset{q[0].tag} + TagsOf(q[1..])
  }

  function Maybe(m: Option<Msg>): multiset<int> {
    if m.Some? then multiset{m.value.tag} else multiset{}
  }

  /** The commands that wait for something, by tag. */
  function Waiting(pend: seq<Msg>): set<int> {
    set t | 0 <= t < |pend| && pend[t].kind != 0
  }

  function All(a: multiset<int>, b: multiset<int>, c: multiset<int>, d: multiset<int>, e: multiset<int>,
               f: multiset<int>): multiset<int> {
    a + b + c + d + e + f
  }

  // A tag goes from one place to the next.
  lemma Moves(a: multiset<int>, b: multiset<int>, c: multiset<int>, d: multiset<int>, e: multiset<int>,
              f: multiset<int>, x: int)
    ensures All(multiset{x}, b, c, d, e, f) == All(multiset{}, b + multiset{x}, c, d, e, f)
    ensures All(a, multiset{x} + b, multiset{}, d, e, f) == All(a, b, multiset{x}, d, e, f)
    ensures All(a, b, multiset{x}, d, e, f) == All(a, b, multiset{}, d + multiset{x}, e, f)
    ensures All(a, b, multiset{x}, d, multiset{}, f) == All(a, b, multiset{}, d, multiset{x}, f)
    ensures All(a, b, c, d + multiset{x}, multiset{}, f) == All(a, b, c, d, multiset{x}, f)
    ensures All(a, b, c, d, multiset{x}, f) == All(a, b, c, d, multiset{}, f + multiset{x})
  {
  }

  // Or in at one end and out at the other.
  lemma Enters(b: multiset<int>, c: multiset<int>, d: multiset<int>, e: multiset<int>, f: multiset<int>, x: int,
               out: set<int>)
    requires x !in out && All(multiset{}, b, c, d, e, f) == multiset(out)
    ensures All(multiset{x}, b, c, d, e, f) == multiset(out + {x})
  {
    assert multiset(out + {x}) == multiset(out) + multiset{x};
  }

  lemma Leaves(a: multiset<int>, b: multiset<int>, c: multiset<int>, d: multiset<int>, e: multiset<int>,
               f: multiset<int>, x: int, out: set<int>)
    requires All(a, b, c, d, e, multiset{x} + f) == multiset(out)
    ensures x in out && All(a, b, c, d, e, f) == multiset(out - {x})
  {
    assert x in multiset(out);
    assert multiset(out) == multiset(out - {x}) + multiset{x};
    assert All(a, b, c, d, e, multiset{x} + f) == All(a, b, c, d, e, f) + multiset{x};
    Cancels(All(a, b, c, d, e, f), multiset(out - {x}), x);
  }

  lemma Cancels(a: multiset<int>, b: multiset<int>, x: int)
    requires a + multiset{x} == b + multiset{x}
    ensures a == b
  {
    forall y
      ensures a[y] == b[y]
    {
      assert (a + multiset{x})[y] == (b + multiset{x})[y];
    }
  }

  // What is in one place is out, and is in no other.
  lemma Within(a: multiset<int>, b: multiset<int>, c: multiset<int>, d: multiset<int>, e: multiset<int>,
               f: multiset<int>, x: int, out: set<int>)
    requires All(a, b, c, d, e, f) == multiset(out)
    ensures x in b || x in c || x in f ==> x in out
    ensures x in c ==> x !in d
  {
    assert multiset(out)[x] == a[x] + b[x] + c[x] + d[x] + e[x] + f[x];
    assert multiset(out)[x] <= 1;
  }

  /** Each tag given out is in one place exactly, and no other is anywhere. */
  ghost predicate Balanced(b: Book, pend: seq<Msg>) {
    All(Maybe(b.draft), TagsOf(b.cmdQ), Maybe(b.hand), multiset(Waiting(pend)), Maybe(b.writing), TagsOf(b.rspQ))
    == multiset(b.out)
  }

  /** As many responses have been read on a tag as commands were sent on it,
      but for the one it is out for. */
  ghost predicate Counted(b: Book) {
    forall t | 0 <= t < TAGS :: t in b.sent && t in b.got && b.sent[t] == b.got[t] + if t in b.out then 1 else 0
  }

  ghost predicate Wired(p: Page, b: Book, pend: seq<Msg>) {
    && Ring(p.cmd, p.cmdGet, p.cmdPut, b.cmdQ, RING) && Ring(p.rsp, p.rspGet, p.rspPut, b.rspQ, RING)
    && (b.draft.Some? ==> p.cmd[p.cmdPut % RING] == b.draft.value)
    && (b.writing.Some? ==> p.rsp[p.rspPut % RING] == b.writing.value)
    && |pend| == TAGS && (forall t | 0 <= t < TAGS && pend[t].kind != 0 :: pend[t].tag == t)
    && (forall t <- b.out :: 0 <= t < TAGS)
    && Balanced(b, pend)
    && Counted(b)
  }

  lemma {:induction false} TagsSize(q: seq<Msg>)
    ensures |TagsOf(q)| == |q|
  {
    if q != [] { TagsSize(q[1..]); }
  }

  lemma {:induction false} TagsMore(q: seq<Msg>, m: Msg)
    ensures TagsOf(q + [m]) == TagsOf(q) + multiset{m.tag}
  {
    if q == [] {
      assert q + [m] == [m] && [m][1..] == [];
    } else {
      assert (q + [m])[1..] == q[1..] + [m];
      TagsMore(q[1..], m);
    }
  }

  lemma {:induction false} AtMost(s: set<int>, n: nat)
    requires forall t <- s :: 0 <= t < n
    ensures |s| <= n
  {
    if n > 0 {
      AtMost(s - {n - 1}, n - 1);
      assert n - 1 in s ==> |s| == |s - {n - 1}| + 1;
      assert n - 1 !in s ==> s == s - {n - 1};
    } else {
      assert forall t :: t !in s;
      assert s == {};
    }
  }

  function One(m: Option<Msg>): nat { if m.Some? then 1 else 0 }

  /** Commands queued, waiting and answered but unread are, with the one at
      hand, as many as the tags given out, at most 32: so neither ring ever
      overflows. */
  lemma Credits(p: Page, b: Book, pend: seq<Msg>)
    requires Wired(p, b, pend)
    ensures One(b.draft) + |b.cmdQ| + One(b.hand) + |Waiting(pend)| + One(b.writing) + |b.rspQ| == |b.out| <= TAGS
  {
    hide Ring;
    TagsSize(b.cmdQ);
    TagsSize(b.rspQ);
    AtMost(b.out, TAGS);
    var x := Maybe(b.draft) + TagsOf(b.cmdQ) + Maybe(b.hand) + multiset(Waiting(pend)) + Maybe(b.writing)
             + TagsOf(b.rspQ);
    assert |x| == |Maybe(b.draft)| + |b.cmdQ| + |Maybe(b.hand)| + |Waiting(pend)| + |Maybe(b.writing)| + |b.rspQ|;
  }

  // ---------------------------------------------------------------------
  // The executive's steps
  // ---------------------------------------------------------------------

  datatype Exec = Draft(m: Msg) | Publish | Read

  /** It sends only on a free tag, and reads only a response that is there. */
  predicate May(b: Book, e: Exec) {
    match e
    case Draft(m) => b.draft.None? && 0 <= m.tag < TAGS && m.tag !in b.out
    case Publish => b.draft.Some?
    case Read => b.rspQ != []
  }

  function ExecPage(p: Page, e: Exec): Page
    requires |p.cmd| == RING
  {
    match e
    case Draft(m) => p.(cmd := p.cmd[p.cmdPut % RING := m])
    case Publish => p.(cmdPut := (p.cmdPut + 1) % WORD)
    case Read => p.(rspGet := (p.rspGet + 1) % WORD)
  }

  function ExecBook(b: Book, e: Exec): Book
    requires May(b, e) && (forall t | 0 <= t < TAGS :: t in b.sent && t in b.got)
    requires forall m <- b.rspQ :: 0 <= m.tag < TAGS
  {
    match e
    case Draft(m) => b.(draft := Some(m), out := b.out + {m.tag}, sent := b.sent[m.tag := b.sent[m.tag] + 1])
    case Publish => b.(cmdQ := b.cmdQ + [b.draft.value], draft := None)
    case Read =>
      var t := b.rspQ[0].tag;
      b.(rspQ := b.rspQ[1..], out := b.out - {t}, got := b.got[t := b.got[t] + 1])
  }

  lemma {:induction false} TagsHold(q: seq<Msg>, m: Msg)
    requires m in q
    ensures m.tag in TagsOf(q)
  {
    if m != q[0] { TagsHold(q[1..], m); }
  }

  // Every tag in the accounts is one of the 32.
  lemma TagsInRange(p: Page, b: Book, pend: seq<Msg>)
    requires Wired(p, b, pend)
    ensures forall m <- b.rspQ :: m.tag in b.out && 0 <= m.tag < TAGS
    ensures forall m <- b.cmdQ :: m.tag in b.out && 0 <= m.tag < TAGS
    ensures b.hand.Some? ==> b.hand.value.tag in b.out && b.hand.value.tag !in Waiting(pend)
  {
    hide Ring, All, Waiting;
    var w := multiset(Waiting(pend));
    forall m | m in b.rspQ || m in b.cmdQ
      ensures m.tag in b.out
    {
      if m in b.rspQ { TagsHold(b.rspQ, m); } else { TagsHold(b.cmdQ, m); }
      Within(Maybe(b.draft), TagsOf(b.cmdQ), Maybe(b.hand), w, Maybe(b.writing), TagsOf(b.rspQ), m.tag, b.out);
    }
    if b.hand.Some? {
      Within(Maybe(b.draft), TagsOf(b.cmdQ), Maybe(b.hand), w, Maybe(b.writing), TagsOf(b.rspQ), b.hand.value.tag,
             b.out);
    }
  }

  lemma ExecBalanced(p: Page, b: Book, pend: seq<Msg>, e: Exec)
    requires Wired(p, b, pend) && May(b, e) && forall m <- b.rspQ :: m.tag in b.out && 0 <= m.tag < TAGS
    ensures Balanced(ExecBook(b, e), pend) && Counted(ExecBook(b, e))
    ensures forall t <- ExecBook(b, e).out :: 0 <= t < TAGS
  {
    hide Ring, Waiting, All;
    var w := multiset(Waiting(pend));
    match e {
      case Draft(m) =>
        Enters(TagsOf(b.cmdQ), Maybe(b.hand), w, Maybe(b.writing), TagsOf(b.rspQ), m.tag, b.out);
      case Publish =>
        TagsMore(b.cmdQ, b.draft.value);
        Moves(multiset{}, TagsOf(b.cmdQ), Maybe(b.hand), w, Maybe(b.writing), TagsOf(b.rspQ), b.draft.value.tag);
      case Read =>
        Leaves(Maybe(b.draft), TagsOf(b.cmdQ), Maybe(b.hand), w, Maybe(b.writing), TagsOf(b.rspQ[1..]), b.rspQ[0].tag,
               b.out);
    }
  }

  /** What the executive's steps leave alone. */
  ghost predicate Relied(p: Page, b: Book, p': Page, b': Book) {
    && p'.cmdGet == p.cmdGet && p'.rspPut == p.rspPut && p'.rsp == p.rsp
    && b'.hand == b.hand && b'.writing == b.writing
    && b.cmdQ <= b'.cmdQ
  }

  lemma ExecStep(p: Page, b: Book, pend: seq<Msg>, e: Exec)
    requires Wired(p, b, pend) && May(b, e)
    ensures forall m <- b.rspQ :: 0 <= m.tag < TAGS
    ensures Wired(ExecPage(p, e), ExecBook(b, e), pend) && Relied(p, b, ExecPage(p, e), ExecBook(b, e))
  {
    hide Ring, Balanced, Waiting;
    RingFacts(p, b, pend);
    TagsInRange(p, b, pend);
    ExecBalanced(p, b, pend, e);
    Credits(p, b, pend);
    match e {
      case Draft(m) =>
        AtMost(b.out + {m.tag}, TAGS);
        RingPut(p.cmd, p.cmdGet, p.cmdPut, b.cmdQ, RING, m);
      case Publish =>
        RingPublish(p.cmd, p.cmdGet, p.cmdPut, b.cmdQ, RING, b.draft.value);
      case Read =>
        RingGet(p.rsp, p.rspGet, p.rspPut, b.rspQ, RING);
    }
  }

  lemma RingFacts(p: Page, b: Book, pend: seq<Msg>)
    requires Wired(p, b, pend)
    ensures |p.cmd| == |p.rsp| == RING && 0 <= p.cmdPut < WORD && 0 <= p.rspPut < WORD
    ensures p.cmdGet == p.cmdPut <==> b.cmdQ == []
  {
    PutCell(p.cmd, p.cmdGet, p.cmdPut, b.cmdQ, RING);
    PutCell(p.rsp, p.rspGet, p.rspPut, b.rspQ, RING);
  }

  // ---------------------------------------------------------------------
  // The component's steps
  // ---------------------------------------------------------------------

  /** The oldest command comes off the ring. */
  lemma TakeStep(p: Page, b: Book, pend: seq<Msg>)
    requires Wired(p, b, pend) && b.cmdQ != [] && b.hand.None?
    ensures |p.cmd| == RING && p.cmd[p.cmdGet % RING] == b.cmdQ[0] && 0 <= b.cmdQ[0].tag < TAGS
    ensures Wired(p.(cmdGet := (p.cmdGet + 1) % WORD), b.(cmdQ := b.cmdQ[1..], hand := Some(b.cmdQ[0])), pend)
  {
    hide Ring, Waiting, All;
    RingFacts(p, b, pend);
    TagsInRange(p, b, pend);
    Moves(Maybe(b.draft), TagsOf(b.cmdQ[1..]), multiset{}, multiset(Waiting(pend)), Maybe(b.writing), TagsOf(b.rspQ),
          b.cmdQ[0].tag);
    RingGet(p.cmd, p.cmdGet, p.cmdPut, b.cmdQ, RING);
  }

  /** The command at hand waits, by its tag. */
  lemma WaitStep(p: Page, b: Book, pend: seq<Msg>, m: Msg)
    requires Wired(p, b, pend) && b.hand.Some? && b.hand.value.tag == m.tag && m.kind != 0
    ensures 0 <= m.tag < TAGS && pend[m.tag].kind == 0 && Waiting(pend[m.tag := m]) == Waiting(pend) + {m.tag}
    ensures Wired(p, b.(hand := None), pend[m.tag := m])
  {
    hide Ring, All;
    TagsInRange(p, b, pend);
    assert m.tag !in Waiting(pend);
    Moves(Maybe(b.draft), TagsOf(b.cmdQ), multiset{}, multiset(Waiting(pend)), Maybe(b.writing), TagsOf(b.rspQ), m.tag);
    assert Waiting(pend[m.tag := m]) == Waiting(pend) + {m.tag};
    assert multiset(Waiting(pend) + {m.tag}) == multiset(Waiting(pend)) + multiset{m.tag};
  }

  /** A response is written, to the command at hand. */
  lemma AnswerStep(p: Page, b: Book, pend: seq<Msg>, m: Msg)
    requires Wired(p, b, pend) && b.hand.Some? && b.hand.value.tag == m.tag && b.writing.None?
    ensures |p.rsp| == RING && 0 <= m.tag < TAGS && pend[m.tag].kind == 0
    ensures Wired(p.(rsp := p.rsp[p.rspPut % RING := m]), b.(hand := None, writing := Some(m)), pend)
  {
    hide Ring, All;
    RingFacts(p, b, pend);
    TagsInRange(p, b, pend);
    Credits(p, b, pend);
    RingPut(p.rsp, p.rspGet, p.rspPut, b.rspQ, RING, m);
    Moves(Maybe(b.draft), TagsOf(b.cmdQ), multiset{}, multiset(Waiting(pend)), multiset{}, TagsOf(b.rspQ), m.tag);
    assert m.tag !in Waiting(pend);
  }

  lemma NotWaiting(pend: seq<Msg>, t: int)
    requires 0 <= t < |pend|
    ensures Waiting(pend[t := pend[t].(kind := 0)]) == Waiting(pend) - {t}
    ensures t in Waiting(pend) ==> multiset(Waiting(pend)) == multiset(Waiting(pend) - {t}) + multiset{t}
  {
  }

  /** A response is written, to a command that waits. */
  lemma FinishStep(p: Page, b: Book, pend: seq<Msg>, t: int, m: Msg)
    requires Wired(p, b, pend) && 0 <= t < TAGS && pend[t].kind != 0 && m.tag == t && b.writing.None?
    ensures |p.rsp| == RING
    ensures Wired(p.(rsp := p.rsp[p.rspPut % RING := m]), b.(writing := Some(m)), pend[t := pend[t].(kind := 0)])
  {
    hide Ring, Waiting, All;
    RingFacts(p, b, pend);
    NotWaiting(pend, t);
    Credits(p, b, pend);
    WaitingOne(pend, t);
    Moves(Maybe(b.draft), TagsOf(b.cmdQ), Maybe(b.hand), multiset(Waiting(pend) - {t}), multiset{}, TagsOf(b.rspQ), t);
    RingPut(p.rsp, p.rspGet, p.rspPut, b.rspQ, RING, m);
  }

  lemma WaitingOne(pend: seq<Msg>, t: int)
    requires 0 <= t < |pend| && pend[t].kind != 0
    ensures t in Waiting(pend) && |Waiting(pend)| >= 1
  {
    assert |Waiting(pend) - {t}| + 1 == |Waiting(pend)|;
  }

  /** And published. */
  lemma PublishStep(p: Page, b: Book, pend: seq<Msg>)
    requires Wired(p, b, pend) && b.writing.Some?
    ensures Wired(p.(rspPut := (p.rspPut + 1) % WORD), b.(writing := None, rspQ := b.rspQ + [b.writing.value]), pend)
  {
    hide Ring, Waiting, All;
    Credits(p, b, pend);
    TagsMore(b.rspQ, b.writing.value);
    Moves(Maybe(b.draft), TagsOf(b.cmdQ), Maybe(b.hand), multiset(Waiting(pend)), multiset{}, TagsOf(b.rspQ),
          b.writing.value.tag);
    RingPublish(p.rsp, p.rspGet, p.rspPut, b.rspQ, RING, b.writing.value);
  }
}
