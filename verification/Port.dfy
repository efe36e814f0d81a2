/** The TCP/IP component: sockets, the commands that wait for something and the
    responses, with the executive and the network at work in between.  lwIP is
    whatever answers it may give: each call's result is a parameter. */
module Port {
  import opened PortLink
  import opened Rings
  import Numbers

  const NCONN := 32
  const BACKLOG := 4
  const NDGRAM := 8
  const BUFFERS := 16
  const BUFSIZE := 4096
  const DHCP_WAIT := 1000 // ticks

  const OPEN := 1
  const SETMODE := 2
  const ACCEPT := 3
  const CONNECT := 4
  const SEND := 5
  const RECV := 6
  const CLOSE := 7
  const IFCONFIG := 8
  const CANCEL := 9
  const GETNAME := 10
  const SHUTDOWN := 11

  const ICMP := 1
  const TCP := 6
  const UDP := 17

  const ST_OK := 0
  const ST_BADPARAM := 1
  const ST_NOMEM := 2
  const ST_REFUSED := 4
  const ST_TIMEOUT := 6
  const ST_ABORTED := 7
  const ST_CLOSED := 9
  const ST_NOLINKS := 10
  const ST_ISCONN := 11
  const ST_IVADDR := 12

  datatype Dgram = Dgram(len: nat, addr: int, port: int)

  /** A socket.  rx is how much a TCP one has received and not given out;
      pcb, udp and raw whether lwIP has its control block. */
  datatype Conn = Conn(used: bool, proto: int, connected: bool, closed: bool, err: int, pcb: bool, udp: bool, raw: bool,
                       rx: nat, dg: seq<Dgram>, dgGet: int, dgPut: int, listening: bool, backlog: seq<int>)

  function NoDgrams(): (r: seq<Dgram>)
    ensures |r| == NDGRAM
  {
    seq(NDGRAM, i => Dgram(0, 0, 0))
  }

  function Fresh(used: bool, proto: int): Conn {
    Conn(used, proto, false, false, 0, false, false, false, 0, NoDgrams(), 0, 0, false, [])
  }

  // A socket just made, with lwIP's control block for it.
  function WithBlock(proto: int): Conn {
    Fresh(true, proto).(pcb := proto == TCP, udp := proto == UDP, raw := proto == ICMP)
  }

  // A connection made for a listener l, last in its backlog.
  function AcceptedBy(conns: seq<Conn>, l: int, id: int): seq<Conn>
    requires 0 <= l < |conns| && 0 <= id < |conns|
  {
    conns[id := WithBlock(TCP).(connected := true)][l := conns[l].(backlog := conns[l].backlog + [id])]
  }

  ghost predicate AllUsed(conns: seq<Conn>) {
    forall k | 0 < k < |conns| :: conns[k].used
  }

  // The same sockets are in use, and none of them has changed.
  ghost predicate SameOpen(was: seq<Conn>, now: seq<Conn>) {
    |now| == |was| && forall k | 0 <= k < |was| :: now[k].used == was[k].used && (was[k].used ==> now[k] == was[k])
  }

  // ---------------------------------------------------------------------
  // What the component keeps
  // ---------------------------------------------------------------------

  predicate InUse(conns: seq<Conn>, id: int) {
    0 < id < |conns| && conns[id].used
  }

  /** A command that waits on a connection waits on one that is open. */
  ghost predicate Homed(pend: seq<Msg>, conns: seq<Conn>) {
    forall t | 0 <= t < |pend| && pend[t].kind != 0 && pend[t].kind != IFCONFIG :: InUse(conns, pend[t].conn)
  }

  /** A connection in a backlog is younger than its listener: made after it. */
  ghost predicate Younger(conns: seq<Conn>, born: seq<nat>, id: int)
    requires 0 <= id < |conns| && |born| == |conns|
  {
    |conns[id].backlog| <= BACKLOG && forall x <- conns[id].backlog :: 0 < x < |conns| && born[id] < born[x]
  }

  ghost predicate Ranked(conns: seq<Conn>, born: seq<nat>, clock: nat) {
    |born| == |conns| && forall id | 0 <= id < |conns| :: born[id] < clock && Younger(conns, born, id)
  }

  ghost predicate Datagrams(conns: seq<Conn>, dgrams: seq<seq<Dgram>>) {
    |dgrams| == |conns| && forall id | 0 <= id < |conns| ::
      Ring(conns[id].dg, conns[id].dgGet, conns[id].dgPut, dgrams[id], NDGRAM)
  }

  // No command waits on a connection.
  ghost predicate NoneWait(pend: seq<Msg>, id: int) {
    forall t | 0 <= t < |pend| && pend[t].kind != 0 :: pend[t].conn != id
  }

  // None of its own, that is; an IFCONFIG is the interface's.
  ghost predicate NoneHome(pend: seq<Msg>, id: int) {
    forall t | 0 <= t < |pend| && pend[t].kind != 0 && pend[t].kind != IFCONFIG :: pend[t].conn != id
  }

  /** What lwIP gives back where it is called: whether it had memory for a
      control block or a listener, statuses, what it has room for, and the
      interface's and sockets' addresses. */
  datatype Io = Io(made: bool, bind: int, listen: bool, connect: int, send: int, shut: int, dhcp: bool, room: nat,
                   wrote: bool, addr: int, port: int, addr2: int, port2: int, gw: int, dns: int, up: bool)

  // ---------------------------------------------------------------------
  // What the executive is told
  // ---------------------------------------------------------------------

  function ModeStatus(c: Conn, m: Msg, io: Io): int {
    var bound := if m.flags % 2 == 0 then ST_OK else if (c.pcb && !c.listening) || c.udp || c.raw then io.bind
      else ST_BADPARAM;
    if bound != ST_OK then bound
    else if m.flags / 2 % 2 == 1 && !(c.pcb && !c.listening && io.listen) then if c.proto == TCP then ST_NOMEM
      else ST_BADPARAM
    else ST_OK
  }

  // send_dgram's status: where it may not go, or lwIP's answer.
  function DgramStatus(c: Conn, m: Msg, io: Io): int {
    if m.flags % 2 == 1 && c.connected then ST_ISCONN
    else if m.flags % 2 == 0 && !c.connected then ST_NOLINKS
    else if m.flags % 2 == 1 && c.udp && m.port == 0 then ST_IVADDR
    else if !io.made then ST_NOMEM
    else io.send
  }

  // A TCP socket that neither is connected nor was.
  predicate Unlinked(c: Conn) { c.proto == TCP && !c.connected && !c.closed && c.err == 0 }

  function ConnVerdict(c: Conn, m: Msg, io: Io): Option<int> {
    if m.kind == SETMODE then Some(ModeStatus(c, m, io))
    else if m.kind == CONNECT then
      if c.connected then Some(ST_ISCONN)
      else if c.listening || (!c.udp && !c.raw && !c.pcb) then Some(ST_BADPARAM)
      else if c.udp && m.port == 0 then Some(ST_IVADDR)
      else if c.udp || c.raw || io.connect != ST_OK then Some(io.connect)
      else None
    else if m.kind == SEND || m.kind == RECV then
      if (m.kind == RECV && c.listening) || m.tag >= BUFFERS || m.len > BUFSIZE then Some(ST_BADPARAM)
      else if m.kind == SEND && c.proto != TCP then Some(DgramStatus(c, m, io))
      else if Unlinked(c) then Some(ST_NOLINKS)
      else None
    else if m.kind == ACCEPT then if c.listening then None else Some(ST_BADPARAM)
    else if m.kind == SHUTDOWN then
      if !(0 <= m.arg1 <= 2) then Some(ST_BADPARAM) else if c.pcb && !c.listening then Some(io.shut) else Some(ST_OK)
    else if m.kind == GETNAME || m.kind == CANCEL || m.kind == CLOSE then Some(ST_OK)
    else Some(ST_BADPARAM)
  }

  /** The statuses as the executive has them, by number: 1 for what cannot be, 10 where there
      is no connection or nowhere to send, 11 where there is one already, 12 for port 0, and
      what lwIP says; a command waits just where it has something to wait for. */
  lemma StatusIs(c: Conn, m: Msg, io: Io)
    ensures var v := ConnVerdict(c, m, io);
      && (m.kind == 3 ==> v == if c.listening then None else Some(1))
      && (m.kind == 4 && c.connected ==> v == Some(11))
      && (m.kind == 4 && !c.connected && c.listening ==> v == Some(1))
      && (m.kind == 4 && !c.connected && !c.listening && c.udp ==> v == Some(if m.port == 0 then 12 else io.connect))
      && (m.kind == 4 && !c.connected && !c.listening && !c.udp && !c.raw ==>
            v == if !c.pcb then Some(1) else if io.connect != 0 then Some(io.connect) else None)
    ensures var v := ConnVerdict(c, m, io);
      && ((m.kind == 5 || m.kind == 6) && (m.tag >= 16 || m.len > 4096) ==> v == Some(1))
      && ((m.kind == 5 || m.kind == 6) && m.tag < 16 && m.len <= 4096 && c.proto == 6 && !c.listening ==>
            v == if c.connected || c.closed || c.err != 0 then None else Some(10))
      && (m.kind == 6 && m.tag < 16 && m.len <= 4096 && c.proto != 6 ==> v == if c.listening then Some(1) else None)
      && (m.kind == 5 && m.tag < 16 && m.len <= 4096 && c.proto != 6 ==>
            var to := m.flags % 2 == 1;
            v == Some(if to == c.connected then if to then 11 else 10
                      else if to && c.udp && m.port == 0 then 12
                      else if io.made then io.send else 2))
    ensures var v := ConnVerdict(c, m, io);
      && (m.kind == 11 ==>
            v == Some(if !(0 <= m.arg1 <= 2) then 1 else if c.pcb && !c.listening then io.shut else 0))
      && (m.kind == 7 || m.kind == 9 || m.kind == 10 ==> v == Some(0))
      && (!(2 <= m.kind <= 7) && !(9 <= m.kind <= 11) ==> v == Some(1))
  {
  }

  /** The status a command other than OPEN gets at once, from what the socket is
      and what lwIP says; none where it is to wait. */
  function Verdict(conns: seq<Conn>, m: Msg, io: Io): Option<int> {
    if m.kind == IFCONFIG then
      if m.flags / 8 % 2 == 0 then Some(ST_OK) else if io.dhcp then None else Some(ST_NOMEM)
    else if !InUse(conns, m.conn) then Some(ST_BADPARAM)
    else ConnVerdict(conns[m.conn], m, io)
  }

  /** It is told so last, or nothing. */
  ghost predicate Told(was: seq<Msg>, now: seq<Msg>, verdict: Option<int>) {
    if verdict.None? then now == was else was < now && now[|now| - 1].status == verdict.value
  }

  // ifconfig: the message filled in with what is known of the network.
  function IfMsg(m: Msg, io: Io): Msg {
    m.(addr := io.addr, arg1 := io.addr2, arg2 := io.gw, len := io.dns, flags := if io.up then 16 else 0)
  }

  // An IFCONFIG that waits for DHCP's address is told it, or in time that there is none.
  function IfAnswers(m: Msg, io: Io, ticks: int): seq<Msg> {
    if io.dhcp then [IfMsg(m, io).(status := ST_OK)]
    else if (ticks - m.len) % WORD < 0x8000_0000 then [IfMsg(m, io).(status := ST_TIMEOUT)]
    else []
  }

  function ConnectAnswers(c: Conn, m: Msg): seq<Msg> {
    if c.connected then [m.(status := ST_OK)] else if c.err != 0 then [m.(status := c.err)] else []
  }

  // A SEND with as much more written as lwIP has room for.
  function Sent(m: Msg, io: Io): Msg {
    var left := (m.len - m.arg2) % WORD;
    var n := if left > io.room then io.room else left;
    if n != 0 && io.wrote then m.(arg2 := (m.arg2 + n) % WORD) else m
  }

  /** A socket after a command that does not close it: a mode set, a datagram socket's peer,
      or what a TCP one had received thrown away. */
  function SocketAfter(c: Conn, m: Msg, io: Io): Conn {
    if m.kind == SETMODE && ModeStatus(c, m, io) == ST_OK && m.flags / 2 % 2 == 1 then c.(listening := true)
    else if m.kind == CONNECT && (c.udp || c.raw) && !c.listening && !c.connected && !(c.udp && m.port == 0) then
      c.(connected := io.connect == ST_OK)
    else if m.kind == SHUTDOWN && m.arg1 != 1 then c.(rx := 0)
    else c
  }

  lemma ModeAfter(c: Conn, m: Msg, io: Io)
    requires m.kind == SETMODE
    ensures SocketAfter(c, m, io) ==
      c.(listening := c.listening || (ModeStatus(c, m, io) == ST_OK && m.flags / 2 % 2 == 1))
  {
  }

  /** What an answer says besides its status. */
  function Filled(m: Msg, io: Io): Msg {
    if m.kind == IFCONFIG && m.flags / 8 % 2 == 0 then IfMsg(m, io)
    else if m.kind == GETNAME then m.(addr := io.addr, port := io.port, arg1 := io.addr2, arg2 := io.port2)
    else m
  }

  /** The command as it waits: a SEND has nothing written, an IFCONFIG has its time. */
  function Held(m: Msg, ticks: int): Msg {
    if m.kind == SEND then m.(arg2 := 0)
    else if m.kind == IFCONFIG then m.(len := (ticks + DHCP_WAIT) % WORD)
    else m
  }

  /** What a command that waits on a socket in use is told, if anything: the connection
      accepted, how connecting ended, that all is written, or what came. */
  function FinishAnswers(c: Conn, q: seq<Dgram>, m: Msg, io: Io): seq<Msg> {
    if m.kind == ACCEPT then
      if c.backlog == [] then []
      else [m.(arg1 := c.backlog[0], addr := io.addr, port := io.port, status := ST_OK)]
    else if m.kind == CONNECT then ConnectAnswers(c, m)
    else if m.kind == SEND then
      if !c.pcb then [m.(status := if c.err != 0 then c.err else ST_CLOSED)]
      else if Sent(m, io).arg2 == m.len then [Sent(m, io).(status := ST_OK)] else []
    else if m.kind == RECV && c.proto != TCP then
      if q == [] then []
      else [m.(len := if q[0].len < m.len then q[0].len
               else m.len, addr := q[0].addr, port := q[0].port, status := ST_OK)]
    else if m.kind == RECV then
      if c.rx > 0 then [m.(len := if 0 <= m.len < c.rx then m.len else c.rx, status := ST_OK)]
      else if c.closed || !c.pcb then [m.(len := 0, status := if c.closed then ST_CLOSED else c.err)]
      else []
    else []
  }

  /** What has been given out is gone: the connection accepted from the backlog, the oldest
      datagram, the bytes received.  Nothing else is. */
  ghost predicate Spent(was: seq<Conn>, now: seq<Conn>, had: seq<seq<Dgram>>, dgrams: seq<seq<Dgram>>, m: Msg)
    requires 0 <= m.conn < |was| == |had|
  {
    var c := was[m.conn];
    if m.kind == ACCEPT then now == was[m.conn := c.(backlog := Rest(c.backlog))] && dgrams == had
    else if m.kind == RECV && c.proto == TCP then
      now == was[m.conn := c.(rx := if 0 <= m.len < c.rx then c.rx - m.len else 0)] && dgrams == had
    else if m.kind == RECV then SameBut(was, now, m.conn) && dgrams == had[m.conn := Rest(had[m.conn])]
    else now == was && dgrams == had
  }

  lemma SpentNothing(was: seq<Conn>, had: seq<seq<Dgram>>, m: Msg)
    requires 0 <= m.conn < |was| == |had| && m.kind != ACCEPT && m.kind != RECV
    ensures Spent(was, was, had, had, m)
  {
  }

  lemma SpentAccept(was: seq<Conn>, had: seq<seq<Dgram>>, m: Msg)
    requires 0 <= m.conn < |was| == |had| && m.kind == ACCEPT
    ensures var line := was[m.conn].backlog;
      Spent(was, if line == [] then was else was[m.conn := was[m.conn].(backlog := line[1..])], had, had, m)
  {
    assert was[m.conn := was[m.conn]] == was;
  }

  lemma SpentStream(was: seq<Conn>, had: seq<seq<Dgram>>, m: Msg)
    requires 0 <= m.conn < |was| == |had| && m.kind == RECV && was[m.conn].proto == TCP
    ensures var c := was[m.conn];
      Spent(was, was[m.conn := c.(rx := if 0 <= m.len < c.rx then c.rx - m.len else 0)], had, had, m)
  {
  }

  lemma SpentDgram(was: seq<Conn>, now: seq<Conn>, had: seq<seq<Dgram>>, m: Msg)
    requires 0 <= m.conn < |was| == |had| && m.kind == RECV && was[m.conn].proto != TCP && SameBut(was, now, m.conn)
    ensures Spent(was, now, had, had[m.conn := Rest(had[m.conn])], m)
  {
  }

  lemma ConnectSays(c: Conn, m: Msg)
    ensures ConnectAnswers(c, m) == if c.connected then [m.(status := ST_OK)]
      else if c.err != 0 then [m.(status := c.err)] else []
  {
  }

  /** A command on a socket that is not closed by it: it waits, or is answered, and nothing
      else is. */
  ghost predicate Served(was: seq<Msg>, now: seq<Msg>, had: seq<Msg>, pend: seq<Msg>, m: Msg, answer: Msg, wait: Msg,
                         verdict: Option<int>)
    requires 0 <= m.tag < |had|
  {
    if verdict.None? then now == was && pend == had[m.tag := wait]
    else now == was + [answer.(status := verdict.value)] && pend == had
  }

  // The status of OPEN: that there is no socket, or that of binding it and listening.
  ghost function OpenStatus(conns: seq<Conn>, m: Msg, io: Io): int {
    if Unmade(conns, m, io) then ST_NOMEM else ModeStatus(WithBlock(m.proto), m, io)
  }

  // lwIP has no control block for it, or every socket is in use.
  ghost predicate Unmade(conns: seq<Conn>, m: Msg, io: Io) {
    !io.made || m.proto !in {TCP, UDP, ICMP} || AllUsed(conns)
  }

  // OPEN gives a socket in use, which was not, with success, and none without.
  ghost predicate Opened(was: seq<Msg>, now: seq<Msg>, before: seq<Conn>, conns: seq<Conn>, status: int) {
    && was < now
    && var r := now[|now| - 1];
    && r.status == status
    && if status == ST_OK then InUse(conns, r.conn) && !InUse(before, r.conn) else r.conn == 0
  }

  ghost predicate FirstFree(conns: seq<Conn>, id: int) {
    0 < id < |conns| && !conns[id].used && forall k | 0 < k < id :: conns[k].used
  }

  /** A socket opened is the first that was free, and as new, bound and listening as was
      asked.  Where none is, the sockets are as they were; the one made on the way takes
      with it what waited on its number. */
  ghost predicate OpensOnly(was: seq<Msg>, now: seq<Msg>, had: seq<Msg>, pend: seq<Msg>, before: seq<Conn>,
                            conns: seq<Conn>, m: Msg, io: Io)
    requires |had| == |pend|
  {
    var status := OpenStatus(before, m, io);
    && was < now
    && var r := now[|now| - 1];
    && r == m.(conn := r.conn, status := status)
    && if status == ST_OK then
         && FirstFree(before, r.conn) && pend == had && now == was + [r]
         && conns == before[r.conn := WithBlock(m.proto).(listening := m.flags / 2 % 2 == 1)]
       else if Unmade(before, m, io) then r.conn == 0 && SameOpen(before, conns) && pend == had && now == was + [r]
       else
         && r.conn == 0 && SameOpen(before, conns) && Responses(was, now[..|now| - 1], had, pend, ST_ABORTED)
         && exists id :: FirstFree(before, id) && Ends(had, pend, {id})
  }

  class Component {
    var page: Page
    var pend: seq<Msg>
    var conns: seq<Conn>
    var answered: bool
    // The executive's side of the page, and where each command is.
    var book: Book
    ghost var born: seq<nat>
    ghost var clock: nat
    ghost var dgrams: seq<seq<Dgram>>
    // The responses there have been, and how many the executive was told of.
    ghost var log: seq<Msg>
    ghost var signalled: nat

    /** The page is in order, no command waits on a closed connection, backlogs
        go from older to younger, and a signal is due exactly when a response
        has been published since the last. */
    ghost predicate Inv()
      reads this
    {
      && Wired(page, book, pend) && |conns| == NCONN && Homed(pend, conns)
      && Ranked(conns, born, clock) && Datagrams(conns, dgrams)
      && (answered <==> |log| > signalled) && signalled <= |log|
    }

    // The executive, at any point: it sends on free tags and reads responses.
    method Executive()
      requires Inv()
      modifies this`page, this`book
      ensures Inv() && Relied(old(page), old(book), page, book)
    {
      hide Wired, Homed, Ranked, Datagrams;
      var script: seq<Exec> := *;
      for i := 0 to |script|
        invariant Inv() && Relied(old(page), old(book), page, book)
      {
        if May(book, script[i]) {
          ExecStep(page, book, pend, script[i]);
          WiredSays(page, book, pend);
          page, book := ExecPage(page, script[i]), ExecBook(book, script[i]);
        }
      }
    }

    /** respond, to the command at hand. */
    method Respond(m: Msg, status: int)
      requires Inv() && book.hand.Some? && book.hand.value.tag == m.tag && book.writing.None?
      modifies this`page, this`book, this`answered, this`log
      ensures Inv() && book.hand.None? && book.writing.None? && log == old(log) + [m.(status := status)]
    {
      hide Wired, Homed, Ranked, Datagrams;
      var r := m.(status := status);
      AnswerStep(page, book, pend, r);
      page := page.(rsp := page.rsp[page.rspPut % RING := r]);
      book := book.(hand := None, writing := Some(r));
      Executive();
      Announce();
    }

    // respond's second half: the response is published.
    method Announce()
      requires Inv() && book.writing.Some?
      modifies this`page, this`book, this`answered, this`log
      ensures Inv() && book.hand == old(book.hand) && book.writing.None? && log == old(log) + [old(book.writing.value)]
    {
      hide Wired, Homed, Ranked, Datagrams;
      PublishStep(page, book, pend);
      page := page.(rspPut := (page.rspPut + 1) % WORD);
      log := log + [book.writing.value];
      book := book.(rspQ := book.rspQ + [book.writing.value], writing := None);
      answered := true;
      Executive();
    }

    /** respond, to the command that waits on tag t, as m. */
    method Finish(t: int, m: Msg, status: int)
      requires Inv() && 0 <= t < TAGS && |pend| == TAGS && pend[t].kind != 0 && m.tag == t && book.writing.None?
      modifies this`page, this`book, this`answered, this`log, this`pend
      ensures Inv() && book.hand == old(book.hand) && book.writing.None?
      ensures pend == old(pend)[t := old(pend)[t].(kind := 0)] && log == old(log) + [m.(status := status)]
    {
      hide Wired, Homed, Ranked, Datagrams;
      var r := m.(status := status);
      FinishStep(page, book, pend, t, r);
      HomedLess(pend, conns, t);
      page := page.(rsp := page.rsp[page.rspPut % RING := r]);
      book := book.(writing := Some(r));
      pend := pend[t := pend[t].(kind := 0)];
      Executive();
      Announce();
    }

    /** wait_for: the command at hand waits on its tag. */
    method WaitFor(m: Msg)
      requires Inv() && book.hand.Some? && book.hand.value.tag == m.tag && m.kind != 0 && book.writing.None?
      requires m.kind == IFCONFIG || InUse(conns, m.conn)
      modifies this`page, this`book, this`pend
      ensures Inv() && book.hand.None? && book.writing.None? && 0 <= m.tag < |old(pend)|
      ensures pend == old(pend)[m.tag := m]
    {
      hide Wired, Homed, Ranked, Datagrams;
      WaitStep(page, book, pend, m);
      WiredSays(page, book, pend);
      HomedMore(pend, conns, m);
      pend := pend[m.tag := m];
      book := book.(hand := None);
    }

    /** cancel: of the commands that wait, exactly this connection's are answered, each
        once and with status. */
    method Cancel(id: int, status: int)
      requires Inv() && book.writing.None?
      modifies this`page, this`book, this`answered, this`log, this`pend
      ensures Inv() && book.hand == old(book.hand) && book.writing.None?
      ensures pend == Cancelled(old(pend), id, |old(pend)|)
      ensures log == old(log) + Endings(old(pend), id, status, |old(pend)|)
    {
      hide Wired, Homed, Ranked, Datagrams, Cancelled, Endings;
      WiredSays(page, book, pend);
      CancelNone(pend, id, status);
      for t := 0 to TAGS
        invariant Inv() && book.hand == old(book.hand) && book.writing.None?
        invariant pend == Cancelled(old(pend), id, t) && log == old(log) + Endings(old(pend), id, status, t)
      {
        WiredSays(page, book, pend);
        CancelNext(old(pend), id, status, t);
        if pend[t].kind != 0 && pend[t].conn == id {
          Finish(t, pend[t], status);
        }
      }
    }

    /** conn_free: ends the connection and, before it, those accepted from it
        that no ACCEPT has taken, and so on down.  It comes to an end whatever the
        executive has closed, since a backlog leads only to younger connections.
        Just these close, and just the commands that wait on one of them end. */
    method ConnFree(id: int)
      requires Inv() && book.writing.None? && 0 < id < NCONN
      modifies this`page, this`book, this`answered, this`log, this`pend, this`conns, this`dgrams
      ensures Inv() && book.hand == old(book.hand) && book.writing.None?
      ensures Closes(old(conns), conns, Reach(old(conns), id)) && Ends(old(pend), pend, Reach(old(conns), id))
      ensures |pend| == |old(pend)| == TAGS && Responses(old(log), log, old(pend), pend, ST_ABORTED)
      ensures !conns[id].used && NoneWait(pend, id) && Aborts(old(log), log, old(pend))
      decreases clock - born[id]
    {
      hide Wired, Homed, Ranked, Datagrams, NoneWait, Cancelled, Endings, Aborts, Closes, Ends, Reach, Responses;
      RankedSays(conns, born, clock, id);
      WiredSays(page, book, pend);
      EndingsAbort(log, pend, id);
      CancelEnds(pend, id);
      CancelIs(log, pend, id, ST_ABORTED);
      Cancel(id, ST_ABORTED);
      ClosesNone(conns);
      var line := conns[id].backlog;
      ghost var shut: set<int> := {};
      for i := 0 to |line|
        invariant Inv() && book.hand == old(book.hand) && book.writing.None?
        invariant Closes(old(conns), conns, shut) && Ends(old(pend), pend, shut + {id})
        invariant |pend| == TAGS && Responses(old(log), log, old(pend), pend, ST_ABORTED)
        invariant Aborts(old(log), log, old(pend))
        invariant forall y :: y in shut <==> exists k | 0 <= k < i :: y in Reach(old(conns), line[k])
      {
        ghost var was, waited, said, before := conns, pend, log, shut;
        RankedSays(old(conns), born, clock, id);
        ReachSame(old(conns), was, shut, line[i]);
        ConnFree(line[i]);
        shut := before + Reach(old(conns), line[i]);
        ClosesOn(old(conns), was, conns, before, Reach(old(conns), line[i]));
        EndsOn(old(pend), waited, pend, before + {id}, Reach(old(conns), line[i]));
        EndsFewer(old(pend), waited, before + {id});
        EndsFewer(waited, pend, Reach(old(conns), line[i]));
        ResponsesOn(old(log), said, log, old(pend), waited, pend, ST_ABORTED);
        AbortsOn(old(log), said, log, old(pend), waited);
        assert before + {id} + Reach(old(conns), line[i]) == shut + {id};
      }
      EndsNone(old(pend), pend, shut + {id}, id);
      ghost var last := conns;
      ClosesSays(old(conns), last, shut, id);
      Close(id);
      ClosesEnd(old(conns), last, conns, shut, id);
      ReachIs(old(conns), born, clock, id, shut);
    }

    // The socket's own part of conn_free: its datagrams go and it is free.
    method Close(id: int)
      requires Inv() && 0 < id < NCONN && NoneWait(pend, id)
      modifies this`conns, this`dgrams
      ensures Inv() && conns == old(conns)[id := old(conns)[id].(used := false, dgGet := old(conns)[id].dgPut)]
    {
      hide Wired, Homed, Ranked, Ring;
      var c := conns[id];
      var get := c.dgGet;
      ghost var left := dgrams[id];
      while get != c.dgPut
        invariant Ring(c.dg, get, c.dgPut, left, NDGRAM)
        decreases |left|
        modifies {}
      {
        PutCell(c.dg, get, c.dgPut, left, NDGRAM);
        RingGet(c.dg, get, c.dgPut, left, NDGRAM);
        get, left := (get + 1) % WORD, left[1..];
      }
      PutCell(c.dg, get, c.dgPut, left, NDGRAM);
      Replaced(conns, born, clock, dgrams, id, c.(used := false, dgGet := get), left);
      Unhomed(pend, conns, id, c.(used := false, dgGet := get));
      conns := conns[id := c.(used := false, dgGet := get)];
      dgrams := dgrams[id := left];
    }

    // A socket changes, but for its backlog, its datagrams and whether it is used.
    method Set(id: int, c: Conn)
      requires Inv() && 0 < id < NCONN && c.backlog == conns[id].backlog && c.used == conns[id].used
      requires c.dg == conns[id].dg && c.dgGet == conns[id].dgGet && c.dgPut == conns[id].dgPut
      modifies this`conns
      ensures Inv() && conns == old(conns)[id := c]
    {
      hide Wired, Homed, Ranked, Ring;
      Replaced(conns, born, clock, dgrams, id, c, dgrams[id]);
      Unhomed(pend, conns, id, c);
      assert dgrams[id := dgrams[id]] == dgrams;
      conns := conns[id := c];
    }

    /** conn_alloc: the first connection that is free, as new, or 0. */
    method ConnAlloc(proto: int) returns (id: int)
      requires Inv()
      modifies this`conns, this`born, this`clock, this`dgrams
      ensures Inv() && 0 <= id < NCONN && clock >= old(clock)
      ensures id == 0 ==> conns == old(conns) && born == old(born) && forall k | 0 < k < NCONN :: conns[k].used
      ensures id != 0 ==> !old(conns)[id].used && NoneHome(pend, id) && conns == old(conns)[id := Fresh(true, proto)]
      ensures id != 0 ==> forall k | 0 < k < id :: old(conns)[k].used
      ensures id != 0 ==> born == old(born)[id := old(clock)]
    {
      hide Wired, Homed, Ranked, Datagrams, Fresh;
      id := 1;
      while id < NCONN && conns[id].used
        invariant 1 <= id <= NCONN && forall k | 0 < k < id :: conns[k].used
        modifies {}
      {
        id := id + 1;
      }
      if id == NCONN {
        id := 0;
        return;
      }
      Allocated(pend, conns, born, clock, dgrams, id, proto);
      conns, born, clock, dgrams := conns[id := Fresh(true, proto)], born[id := clock], clock + 1, dgrams[id := []];
    }

    /** sock_new: a socket with its control block, or 0 where lwIP has none for
        it or every socket is in use. */
    method SockNew(proto: int, io: Io) returns (id: int)
      requires Inv()
      modifies this`conns, this`born, this`clock, this`dgrams
      ensures Inv() && 0 <= id < NCONN
      ensures id == 0 <==> !io.made || proto !in {TCP, UDP, ICMP} || AllUsed(old(conns))
      ensures id == 0 ==> SameOpen(old(conns), conns)
      ensures id != 0 ==> !old(conns)[id].used && conns == old(conns)[id := WithBlock(proto)]
      ensures id != 0 ==> forall k | 0 < k < id :: old(conns)[k].used
    {
      hide Wired, Homed, Ranked, Datagrams, Fresh;
      FreshFields(true, proto);
      if proto == TCP && !io.made {
        id := 0;
        return;
      }
      id := ConnAlloc(proto);
      if id == 0 {
        return;
      }
      if io.made && (proto == TCP || proto == UDP || proto == ICMP) {
        Set(id, conns[id].(pcb := proto == TCP, udp := proto == UDP, raw := proto == ICMP));
      } else {
        Drop(id);
        id := 0;
      }
    }

    method Drop(id: int)
      requires Inv() && 0 < id < NCONN && NoneHome(pend, id)
      modifies this`conns
      ensures Inv() && conns == old(conns)[id := old(conns)[id].(used := false)]
    {
      hide Wired, Homed, Ranked, Ring;
      var c := conns[id].(used := false);
      Replaced(conns, born, clock, dgrams, id, c, dgrams[id]);
      Unhomed(pend, conns, id, c);
      assert dgrams[id := dgrams[id]] == dgrams;
      conns := conns[id := c];
    }

    // -------------------------------------------------------------------
    // The network
    // -------------------------------------------------------------------

    /** on_accept: a new connection joins its listener's backlog, if it has
        room and there is one free. */
    method OnAccept(l: int, ok: bool) returns (id: int)
      requires Inv() && InUse(conns, l)
      modifies this`conns, this`born, this`clock, this`dgrams
      ensures Inv() && 0 <= id < NCONN
      ensures id == 0 <==> !ok || |old(conns)[l].backlog| >= BACKLOG || AllUsed(old(conns))
      ensures id == 0 ==> conns == old(conns)
      ensures id != 0 ==> FirstFree(old(conns), id) && conns == AcceptedBy(old(conns), l, id)
    {
      hide Wired, Homed, Ranked, Datagrams, Fresh;
      id := 0;
      if !ok || |conns[l].backlog| >= BACKLOG {
        return;
      }
      RankedSays(conns, born, clock, l);
      id := ConnAlloc(TCP);
      if id == 0 {
        return;
      }
      FreshFields(true, TCP);
      Set(id, conns[id].(pcb := true, connected := true));
      Joined(pend, conns, born, clock, dgrams, l, id);
      conns := conns[l := conns[l].(backlog := conns[l].backlog + [id])];
    }

    /** queue_dgram: a datagram that came goes last, or is dropped when the
        socket holds eight. */
    method QueueDgram(id: int, d: Dgram)
      requires Inv() && 0 < id < NCONN
      modifies this`conns, this`dgrams
      ensures Inv() && |dgrams| == |old(dgrams)| == NCONN
      ensures dgrams == old(dgrams)[id := if |old(dgrams)[id]| < NDGRAM then old(dgrams)[id] + [d] else old(dgrams)[id]]
      ensures SameBut(old(conns), conns, id)
    {
      hide Wired, Homed, Ranked, Ring;
      var c := conns[id];
      ghost var q := dgrams[id];
      HowMany(c.dg, c.dgGet, c.dgPut, q);
      if (c.dgPut - c.dgGet) % WORD == NDGRAM {
        assert dgrams[id := q] == dgrams;
        return;
      }
      RingPut(c.dg, c.dgGet, c.dgPut, q, NDGRAM, d);
      RingHas(c.dg, c.dgGet, c.dgPut, q);
      var after := c.(dg := c.dg[c.dgPut % NDGRAM := d], dgPut := (c.dgPut + 1) % WORD);
      Replaced(conns, born, clock, dgrams, id, after, q + [d]);
      Unhomed(pend, conns, id, after);
      conns, dgrams := conns[id := after], dgrams[id := q + [d]];
    }

    /** One of lwIP's callbacks, for a socket in use: what came is counted, an end, a failure
        or a connection is noted, and the other sockets stay. */
    method Called(e: Callback)
      requires Inv() && InUse(conns, e.id)
      modifies this`conns, this`born, this`clock, this`dgrams
      ensures Inv() && |old(conns)| == NCONN
      ensures var c := old(conns)[e.id];
        match e
        case Received(id, n) => conns == old(conns)[id := if n == 0 then c.(closed := true) else c.(rx := c.rx + n)]
        case Failed(id, reset, status) =>
          conns == old(conns)[id := c.(pcb := false, err := if reset && !c.connected then ST_REFUSED else status)]
        case Connected(id) => conns == old(conns)[id := c.(connected := true)]
        case Accepted(l, ok) =>
          if !ok || |c.backlog| >= BACKLOG || AllUsed(old(conns)) then conns == old(conns)
          else exists id :: FirstFree(old(conns), id) && conns == AcceptedBy(old(conns), l, id)
        case Arrived(id, d) => SameBut(old(conns), conns, id)
    {
      hide Wired, Homed, Ranked, Datagrams;
      var c := conns[e.id];
      match e {
        case Accepted(_, ok) => var _ := OnAccept(e.id, ok);
        case Received(_, n) => Set(e.id, if n == 0 then c.(closed := true) else c.(rx := c.rx + n));
        case Failed(_, reset, status) =>
          Set(e.id, c.(pcb := false, err := if reset && !c.connected then ST_REFUSED else status));
        case Connected(_) => Set(e.id, c.(connected := true));
        case Arrived(_, d) => QueueDgram(e.id, d);
      }
    }

    /** lwIP's callbacks, any of them, in any order. */
    method Network()
      requires Inv()
      modifies this`conns, this`born, this`clock, this`dgrams
      ensures Inv()
    {
      hide Wired, Homed, Ranked, Datagrams;
      var script: seq<Callback> := *;
      for i := 0 to |script|
        invariant Inv()
      {
        if InUse(conns, script[i].id) {
          Called(script[i]);
        }
      }
    }

    // -------------------------------------------------------------------
    // Commands
    // -------------------------------------------------------------------

    // setmode: binding and listening.
    method SetMode(id: int, m: Msg, io: Io) returns (status: int)
      requires Inv() && InUse(conns, id)
      modifies this`conns
      ensures Inv() && conns[id].used && forall k | 0 <= k < NCONN && k != id :: conns[k] == old(conns)[k]
      ensures status == ModeStatus(old(conns)[id], m, io)
      ensures conns[id] ==
        old(conns)[id].(listening := old(conns)[id].listening || (status == ST_OK && m.flags / 2 % 2 == 1))
    {
      hide Wired, Homed, Ranked, Datagrams;
      var c := conns[id];
      if m.flags % 2 == 1 {
        status := if (c.pcb && !c.listening) || c.udp || c.raw then io.bind else ST_BADPARAM;
        if status != ST_OK {
          return;
        }
      }
      if m.flags / 2 % 2 == 1 {
        if !(c.pcb && !c.listening && io.listen) {
          status := if c.proto == TCP then ST_NOMEM else ST_BADPARAM;
          return;
        }
        Set(id, c.(listening := true));
      }
      status := ST_OK;
    }

    /** OPEN: a new socket, bound and listening as asked, or none. */
    method Open(m: Msg, io: Io)
      requires Inv() && book.hand == Some(m) && book.writing.None?
      modifies this
      ensures Inv() && book.hand.None? && book.writing.None?
      ensures Settled(old(log), log, pend, m)
      ensures Opened(old(log), log, old(conns), conns, OpenStatus(old(conns), m, io))
      ensures |old(pend)| == |pend| == TAGS
      ensures OpensOnly(old(log), log, old(pend), pend, old(conns), conns, m, io)
    {
      hide Wired, Homed, Ranked, Datagrams, Settled, Closes, Ends, Responses, Reach, Aborts, NoneWait, Fewer;
      ghost var had, said := pend, log;
      HandFree(page, book, pend);
      WiredSays(page, book, pend);
      Settles(log, pend, m);
      ghost var before := conns;
      var id := SockNew(m.proto, io);
      var status := ST_NOMEM;
      if id != 0 {
        status := SetMode(id, m, io);
        if status != ST_OK {
          ghost var open := conns;
          ReachAlone(conns, id);
          ConnFree(id);
          EndsFewer(had, pend, {id});
          AllDropped(before, open, conns, id);
          id := 0;
        }
      }
      SettlesLast(said, log, had, pend, m, m.(conn := id, status := status));
      ghost var ended := log;
      Respond(m.(conn := id), status);
      WiredSays(page, book, pend);
      assert log[..|log| - 1] == ended;
    }

    method IfConfig(m: Msg, io: Io, ticks: int)
      requires Inv() && book.hand == Some(m) && book.writing.None? && m.kind == IFCONFIG
      modifies this
      ensures Inv() && book.hand.None? && book.writing.None?
      ensures Settled(old(log), log, pend, m)
      ensures Told(old(log), log, Verdict(old(conns), m, io))
      ensures conns == old(conns) && |old(pend)| == TAGS && 0 <= m.tag < TAGS
      ensures if m.flags / 8 % 2 == 0 then log == old(log) + [IfMsg(m, io).(status := ST_OK)] && pend == old(pend)
              else if io.dhcp then log == old(log) && pend == old(pend)[m.tag := m.(len := (ticks + DHCP_WAIT) % WORD)]
              else log == old(log) + [m.(status := ST_NOMEM)] && pend == old(pend)
    {
      hide Wired, Homed, Ranked, Datagrams, Settled;
      ghost var had, said := pend, log;
      HandFree(page, book, pend);
      Settles(log, pend, m);
      if m.flags / 8 % 2 == 1 {
        if !io.dhcp {
          Respond(m, ST_NOMEM);
        } else {
          WaitFor(m.(len := (ticks + DHCP_WAIT) % WORD));
        }
      } else {
        Respond(IfMsg(m, io), ST_OK);
      }
    }

    method Connect(m: Msg, io: Io)
      requires Inv() && book.hand == Some(m) && book.writing.None? && m.kind == CONNECT && InUse(conns, m.conn)
      modifies this
      ensures Inv() && book.hand.None? && book.writing.None?
      ensures Settled(old(log), log, pend, m)
      ensures Told(old(log), log, Verdict(old(conns), m, io))
      ensures |old(pend)| == TAGS && 0 <= m.tag < TAGS
      ensures Served(old(log), log, old(pend), pend, m, m, m, Verdict(old(conns), m, io))
      ensures var c := old(conns)[m.conn];
        conns == if !c.connected && !c.listening && (c.udp || c.raw) && !(c.udp && m.port == 0)
                 then old(conns)[m.conn := c.(connected := io.connect == ST_OK)]
                 else old(conns)
    {
      hide Wired, Homed, Ranked, Datagrams, Settled;
      ghost var had, said := pend, log;
      HandFree(page, book, pend);
      Settles(log, pend, m);
      var c := conns[m.conn];
      if c.listening || c.connected {
        Respond(m, if c.connected then ST_ISCONN else ST_BADPARAM);
      } else if c.udp && m.port == 0 {
        Respond(m, ST_IVADDR);
      } else if c.udp || c.raw {
        Set(m.conn, c.(connected := io.connect == ST_OK));
        Respond(m, io.connect);
      } else if !c.pcb {
        Respond(m, ST_BADPARAM);
      } else if io.connect != ST_OK {
        Respond(m, io.connect);
      } else {
        WaitFor(m);
      }
    }

    method Send(m: Msg, io: Io)
      requires Inv() && book.hand == Some(m) && book.writing.None? && m.kind == SEND && InUse(conns, m.conn)
      modifies this
      ensures Inv() && book.hand.None? && book.writing.None?
      ensures Settled(old(log), log, pend, m)
      ensures Told(old(log), log, Verdict(old(conns), m, io))
      ensures |old(pend)| == TAGS && 0 <= m.tag < TAGS && conns == old(conns)
      ensures Served(old(log), log, old(pend), pend, m, m, m.(arg2 := 0), Verdict(old(conns), m, io))
    {
      hide Wired, Homed, Ranked, Datagrams, Settled;
      ghost var had, said := pend, log;
      HandFree(page, book, pend);
      Settles(log, pend, m);
      var c := conns[m.conn];
      if m.tag >= BUFFERS || m.len > BUFSIZE {
        Respond(m, ST_BADPARAM);
      } else if c.proto != TCP {
        Respond(m, DgramStatus(c, m, io));
      } else if !c.connected && !c.closed && c.err == 0 {
        Respond(m, ST_NOLINKS);
      } else {
        WaitFor(m.(arg2 := 0));
      }
    }

    method AcceptOrRecv(m: Msg, io: Io)
      requires Inv() && book.hand == Some(m) && book.writing.None? && (m.kind == ACCEPT || m.kind == RECV)
      requires InUse(conns, m.conn)
      modifies this
      ensures Inv() && book.hand.None? && book.writing.None?
      ensures Settled(old(log), log, pend, m)
      ensures Told(old(log), log, Verdict(old(conns), m, io))
      ensures |old(pend)| == TAGS && 0 <= m.tag < TAGS && conns == old(conns)
      ensures Served(old(log), log, old(pend), pend, m, m, m, Verdict(old(conns), m, io))
    {
      hide Wired, Homed, Ranked, Datagrams, Settled;
      ghost var had, said := pend, log;
      HandFree(page, book, pend);
      Settles(log, pend, m);
      var c := conns[m.conn];
      if c.listening != (m.kind == ACCEPT) || (m.kind == RECV && (m.tag >= BUFFERS || m.len > BUFSIZE)) {
        Respond(m, ST_BADPARAM);
      } else if m.kind == RECV && c.proto == TCP && !c.connected && !c.closed && c.err == 0 {
        Respond(m, ST_NOLINKS);
      } else {
        WaitFor(m);
      }
    }

    method Shutdown(m: Msg, io: Io)
      requires Inv() && book.hand == Some(m) && book.writing.None? && m.kind == SHUTDOWN && InUse(conns, m.conn)
      modifies this
      ensures Inv() && book.hand.None? && book.writing.None?
      ensures Settled(old(log), log, pend, m)
      ensures |old(pend)| == TAGS && 0 <= m.tag < TAGS
      ensures Served(old(log), log, old(pend), pend, m, m, m, Verdict(old(conns), m, io))
      ensures conns == if m.arg1 != 1 then old(conns)[m.conn := old(conns)[m.conn].(rx := 0)] else old(conns)
    {
      hide Wired, Homed, Ranked, Datagrams, Settled;
      HandFree(page, book, pend);
      Settles(log, pend, m);
      var c := conns[m.conn];
      assert c.rx == 0 ==> conns[m.conn := c.(rx := 0)] == conns;
      if m.arg1 != 1 && c.rx > 0 {
        Set(m.conn, c.(rx := 0));
      }
      Respond(m, if c.pcb && !c.listening && 0 <= m.arg1 <= 2 then io.shut else if 0 <= m.arg1 <= 2 then ST_OK
              else ST_BADPARAM);
    }

    // CANCEL and CLOSE: the commands that wait end before it is answered.
    method Cease(m: Msg)
      requires Inv() && book.hand == Some(m) && book.writing.None? && (m.kind == CANCEL || m.kind == CLOSE)
      requires InUse(conns, m.conn)
      modifies this
      ensures Inv() && book.hand.None? && book.writing.None?
      ensures Settled(old(log), log, pend, m)
      ensures |old(pend)| == |pend| == TAGS && 0 <= m.tag < TAGS
      ensures log != [] && log[|log| - 1] == m.(status := ST_OK)
      ensures Responses(old(log), log[..|log| - 1], old(pend), pend, ST_ABORTED)
      ensures var ids := if m.kind == CLOSE then Reach(old(conns), m.conn) else {m.conn};
        Ends(old(pend), pend, ids) && if m.kind == CLOSE then Closes(old(conns), conns, ids) else conns == old(conns)
    {
      hide Wired, Homed, Ranked, Datagrams, Settled, Cancelled, Endings, Aborts, Fewer, Closes, Ends, Responses, Reach,
           NoneWait;
      ghost var had, said := pend, log;
      HandFree(page, book, pend);
      WiredSays(page, book, pend);
      if m.kind == CANCEL {
        EndingsAbort(log, pend, m.conn);
        CancelEnds(pend, m.conn);
        CancelIs(log, pend, m.conn, ST_ABORTED);
        Cancel(m.conn, ST_ABORTED);
        OnlyOne(m.conn);
      } else {
        ConnFree(m.conn);
        EndsFewer(had, pend, Reach(old(conns), m.conn));
      }
      SettlesLast(said, log, had, pend, m, m.(status := ST_OK));
      ghost var ended := log;
      Respond(m, ST_OK);
      assert log[..|log| - 1] == ended;
    }

    // A command on a socket in use, which it leaves so.
    method OnSocket(m: Msg, io: Io)
      requires Inv() && book.hand == Some(m) && book.writing.None? && InUse(conns, m.conn)
      requires m.kind != OPEN && m.kind != IFCONFIG && m.kind != CANCEL && m.kind != CLOSE
      modifies this
      ensures Inv() && book.hand.None? && book.writing.None?
      ensures Settled(old(log), log, pend, m)
      ensures |old(pend)| == TAGS && 0 <= m.tag < TAGS && |old(conns)| == NCONN
      ensures Served(old(log), log, old(pend), pend, m, Filled(m, io), Held(m, 0), Verdict(old(conns), m, io))
      ensures conns == old(conns)[m.conn := SocketAfter(old(conns)[m.conn], m, io)]
    {
      hide Wired, Homed, Ranked, Datagrams, Settled;
      HandFree(page, book, pend);
      Settles(log, pend, m);
      assert conns[m.conn := conns[m.conn]] == conns;
      if m.kind == SETMODE {
        var status := SetMode(m.conn, m, io);
        assert conns == old(conns)[m.conn := conns[m.conn]];
        ModeAfter(old(conns)[m.conn], m, io);
        Respond(m, status);
      } else if m.kind == CONNECT {
        Connect(m, io);
      } else if m.kind == SEND {
        Send(m, io);
      } else if m.kind == ACCEPT || m.kind == RECV {
        AcceptOrRecv(m, io);
      } else if m.kind == GETNAME {
        Respond(m.(addr := io.addr, port := io.port, arg1 := io.addr2, arg2 := io.port2), ST_OK);
      } else if m.kind == SHUTDOWN {
        Shutdown(m, io);
      } else {
        Respond(m, ST_BADPARAM);
      }
    }

    /** command: carries out the command at hand.  It is answered, or waits on
        its tag: either way it has left the component's hands, once.  Which, what it is
        told and what becomes of the sockets is as the socket and lwIP say. */
    method Command(m: Msg, io: Io, ticks: int)
      requires Inv() && book.hand == Some(m) && book.writing.None?
      modifies this
      ensures Inv() && book.hand.None? && book.writing.None?
      ensures Settled(old(log), log, pend, m)
      ensures |old(pend)| == |pend| == TAGS && 0 <= m.tag < TAGS && |old(conns)| == NCONN
      ensures (m.kind == CLOSE || m.kind == CANCEL) && InUse(old(conns), m.conn) ==>
        var ids := if m.kind == CLOSE then Reach(old(conns), m.conn) else {m.conn};
        && Ends(old(pend), pend, ids)
        && (if m.kind == CLOSE then Closes(old(conns), conns, ids) else conns == old(conns))
        && log != [] && log[|log| - 1] == m.(status := ST_OK)
        && Responses(old(log), log[..|log| - 1], old(pend), pend, ST_ABORTED)
      ensures m.kind == OPEN ==>
        OpensOnly(old(log), log, old(pend), pend, old(conns), conns, m, io)
      ensures m.kind != OPEN && !((m.kind == CLOSE || m.kind == CANCEL) && InUse(old(conns), m.conn)) ==>
        var there := InUse(old(conns), m.conn);
        && Served(old(log), log, old(pend), pend, m, if there || m.kind == IFCONFIG then Filled(m, io) else m,
                  Held(m, ticks), Verdict(old(conns), m, io))
        && conns == if there && m.kind != IFCONFIG then old(conns)[m.conn := SocketAfter(old(conns)[m.conn], m, io)]
                    else old(conns)
    {
      hide Wired, Homed, Ranked, Datagrams, Settled, Closes, Ends, Responses, Reach, ConnVerdict, SocketAfter,
           OpensOnly, ModeStatus;
      HandFree(page, book, pend);
      WiredSays(page, book, pend);
      Settles(log, pend, m);
      if m.kind == OPEN {
        Open(m, io);
        WiredSays(page, book, pend);
      } else if m.kind == IFCONFIG {
        IfConfig(m, io, ticks);
      } else if !InUse(conns, m.conn) {
        Respond(m, ST_BADPARAM);
      } else if m.kind == CANCEL || m.kind == CLOSE {
        Cease(m);
      } else {
        OnSocket(m, io);
      }
    }

    // -------------------------------------------------------------------
    // Commands that wait
    // -------------------------------------------------------------------

    /** try_finish: answers the command that waits on tag t if it can be; it
        answers no other. */
    method TryFinish(t: int, io: Io, ticks: int)
      requires Inv() && book.hand.None? && book.writing.None? && 0 <= t < TAGS && |pend| == TAGS && pend[t].kind != 0
      modifies this
      ensures Inv() && book.hand.None? && book.writing.None? && |pend| == TAGS
      ensures forall u | 0 <= u < TAGS && u != t :: pend[u] == old(pend)[u]
      ensures Finished(old(log), log, pend, t)
      ensures old(pend)[t].kind == IFCONFIG ==>
        log == old(log) + IfAnswers(old(pend)[t], io, ticks) && conns == old(conns) && dgrams == old(dgrams)
      ensures var m := old(pend)[t];
        m.kind != IFCONFIG && InUse(old(conns), m.conn) && |old(dgrams)| == |old(conns)| ==>
          && log == old(log) + FinishAnswers(old(conns)[m.conn], old(dgrams)[m.conn], m, io)
          && Spent(old(conns), conns, old(dgrams), dgrams, m)
    {
      hide Wired, Homed, Ranked, Datagrams, FinishAnswers, Spent, Finished;
      WiredSays(page, book, pend);
      var m := pend[t];
      if m.kind == IFCONFIG {
        if io.dhcp {
          Finish(t, IfMsg(m, io), ST_OK);
        } else if (ticks - m.len) % WORD < 0x8000_0000 {
          Finish(t, IfMsg(m, io), ST_TIMEOUT);
        }
        FinishedIf(old(log), log, old(pend), pend, t);
      } else if !InUse(conns, m.conn) {
        Finish(t, m, ST_BADPARAM);
        FinishedIf(old(log), log, old(pend), pend, t);
      } else {
        FinishOn(t, io);
      }
    }

    // On a socket in use.
    method FinishOn(t: int, io: Io)
      requires Inv() && book.hand.None? && book.writing.None? && 0 <= t < TAGS && |pend| == TAGS && pend[t].kind != 0
      requires pend[t].kind != IFCONFIG && InUse(conns, pend[t].conn)
      modifies this
      ensures Inv() && book.hand.None? && book.writing.None? && |pend| == TAGS
      ensures forall u | 0 <= u < TAGS && u != t :: pend[u] == old(pend)[u]
      ensures Finished(old(log), log, pend, t) && |old(dgrams)| == NCONN
      ensures var m := old(pend)[t];
        && log == old(log) + FinishAnswers(old(conns)[m.conn], old(dgrams)[m.conn], m, io)
        && Spent(old(conns), conns, old(dgrams), dgrams, m)
    {
      hide Wired, Homed, Ranked, Datagrams, Spent, Finished, ConnectAnswers;
      WiredSays(page, book, pend);
      var m := pend[t];
      DgramsSay(conns, dgrams, m.conn);
      if m.kind == ACCEPT {
        FinishAccept(t, io);
        SpentAccept(old(conns), old(dgrams), m);
      } else if m.kind == CONNECT {
        ConnectSays(conns[m.conn], m);
        if conns[m.conn].connected {
          Finish(t, m, ST_OK);
        } else if conns[m.conn].err != 0 {
          Finish(t, m, conns[m.conn].err);
        }
        FinishedIf(old(log), log, old(pend), pend, t);
        SpentNothing(old(conns), old(dgrams), m);
      } else if m.kind == SEND {
        FinishSend(t, io);
        SpentNothing(old(conns), old(dgrams), m);
      } else if m.kind == RECV {
        if conns[m.conn].proto != TCP {
          FinishDgram(t);
          SpentDgram(old(conns), conns, old(dgrams), m);
        } else {
          FinishStream(t);
          SpentStream(old(conns), old(dgrams), m);
        }
      } else {
        FinishedIf(old(log), log, old(pend), pend, t);
        SpentNothing(old(conns), old(dgrams), m);
      }
    }

    // The oldest connection in the backlog goes to the ACCEPT.
    method FinishAccept(t: int, io: Io)
      requires Inv() && book.hand.None? && book.writing.None? && 0 <= t < TAGS && |pend| == TAGS
      requires pend[t].kind == ACCEPT
      requires InUse(conns, pend[t].conn)
      modifies this
      ensures Inv() && book.hand.None? && book.writing.None? && |pend| == TAGS
      ensures forall u | 0 <= u < TAGS && u != t :: pend[u] == old(pend)[u]
      ensures Finished(old(log), log, pend, t)
      ensures var id, line := old(pend)[t].conn, old(conns)[old(pend)[t].conn].backlog;
        && dgrams == old(dgrams)
        && conns == if line == [] then old(conns) else old(conns)[id := old(conns)[id].(backlog := line[1..])]
      ensures var line := old(conns)[old(pend)[t].conn].backlog;
        log == old(log) + if line == [] then [] else
          [old(pend)[t].(arg1 := line[0], addr := io.addr, port := io.port, status := ST_OK)]
    {
      hide Wired, Homed, Ranked, Datagrams;
      WiredSays(page, book, pend);
      var m := pend[t];
      var line := conns[m.conn].backlog;
      if line != [] {
        Shortened(pend, conns, born, clock, dgrams, m.conn);
        conns := conns[m.conn := conns[m.conn].(backlog := line[1..])];
        Finish(t, m.(arg1 := line[0], addr := io.addr, port := io.port), ST_OK);
      }
    }

    // arg2 is the bytes written so far.
    method FinishSend(t: int, io: Io)
      requires Inv() && book.hand.None? && book.writing.None? && 0 <= t < TAGS && |pend| == TAGS && pend[t].kind == SEND
      requires InUse(conns, pend[t].conn)
      modifies this
      ensures Inv() && book.hand.None? && book.writing.None? && |pend| == TAGS
      ensures forall u | 0 <= u < TAGS && u != t :: pend[u] == old(pend)[u]
      ensures Finished(old(log), log, pend, t)
      ensures var c, m := old(conns)[old(pend)[t].conn], Sent(old(pend)[t], io);
        && conns == old(conns) && dgrams == old(dgrams)
        && if !c.pcb then log == old(log) + [old(pend)[t].(status := if c.err != 0 then c.err else ST_CLOSED)]
        else if m.arg2 == m.len then log == old(log) + [m.(status := ST_OK)]
        else log == old(log) && pend[t] == m
    {
      hide Wired, Homed, Ranked, Datagrams;
      WiredSays(page, book, pend);
      var m := pend[t];
      var c := conns[m.conn];
      if !c.pcb {
        Finish(t, m, if c.err != 0 then c.err else ST_CLOSED);
        return;
      }
      var left := (m.len - m.arg2) % WORD;
      var n := if left > io.room then io.room else left;
      if n != 0 && io.wrote {
        m := m.(arg2 := (m.arg2 + n) % WORD);
        Noted(page, book, pend, conns, t, m);
        pend := pend[t := m];
      }
      if m.arg2 == m.len {
        Finish(t, m, ST_OK);
      }
    }

    // One datagram, the oldest, the rest of it lost.
    method FinishDgram(t: int)
      requires Inv() && book.hand.None? && book.writing.None? && 0 <= t < TAGS && |pend| == TAGS && pend[t].kind == RECV
      requires InUse(conns, pend[t].conn)
      modifies this
      ensures Inv() && book.hand.None? && book.writing.None? && |pend| == TAGS
      ensures forall u | 0 <= u < TAGS && u != t :: pend[u] == old(pend)[u]
      ensures Finished(old(log), log, pend, t)
      ensures var m, q := old(pend)[t], old(dgrams)[old(pend)[t].conn];
        log == old(log) + if q == [] then [] else
          [m.(len := if q[0].len < m.len then q[0].len
              else m.len, addr := q[0].addr, port := q[0].port, status := ST_OK)]
      ensures |old(dgrams)| == NCONN && dgrams == old(dgrams)[old(pend)[t].conn := Rest(old(dgrams)[old(pend)[t].conn])]
      ensures SameBut(old(conns), conns, old(pend)[t].conn)
    {
      hide Wired, Homed, Ranked, Datagrams;
      WiredSays(page, book, pend);
      var m := pend[t];
      DgramsSay(conns, dgrams, m.conn);
      if conns[m.conn].dgGet != conns[m.conn].dgPut {
        var d := TakeDgram(m.conn);
        Finish(t, m.(len := if d.len < m.len then d.len else m.len, addr := d.addr, port := d.port), ST_OK);
      }
    }

    // As much as was asked for of what a TCP connection has received.
    method Consume(id: int, asked: int) returns (n: nat)
      requires Inv() && 0 < id < NCONN
      modifies this`conns
      ensures n == if 0 <= asked < old(conns)[id].rx then asked else old(conns)[id].rx
      ensures Inv() && conns == old(conns)[id := old(conns)[id].(rx := old(conns)[id].rx - n)]
    {
      hide Wired, Homed, Ranked, Datagrams;
      n := if 0 <= asked < conns[id].rx then asked else conns[id].rx;
      Set(id, conns[id].(rx := conns[id].rx - n));
    }

    // What a TCP connection has received, or that there is no more.
    method FinishStream(t: int)
      requires Inv() && book.hand.None? && book.writing.None? && 0 <= t < TAGS && |pend| == TAGS && pend[t].kind == RECV
      requires InUse(conns, pend[t].conn)
      modifies this
      ensures Inv() && book.hand.None? && book.writing.None? && |pend| == TAGS
      ensures forall u | 0 <= u < TAGS && u != t :: pend[u] == old(pend)[u]
      ensures Finished(old(log), log, pend, t)
      ensures var m, c := old(pend)[t], old(conns)[old(pend)[t].conn];
        log == old(log) +
        if c.rx > 0 then [m.(len := if 0 <= m.len < c.rx then m.len else c.rx, status := ST_OK)]
        else if c.closed || !c.pcb then [m.(len := 0, status := if c.closed then ST_CLOSED else c.err)]
        else []
      ensures var m, c := old(pend)[t], old(conns)[old(pend)[t].conn];
        && dgrams == old(dgrams)
        && conns == old(conns)[m.conn := c.(rx := if 0 <= m.len < c.rx then c.rx - m.len else 0)]
    {
      hide Wired, Homed, Ranked, Datagrams;
      WiredSays(page, book, pend);
      var m := pend[t];
      var c := conns[m.conn];
      assert c.rx == 0 ==> conns[m.conn := c.(rx := 0)] == conns;
      if c.rx > 0 {
        var n := Consume(m.conn, m.len);
        Finish(t, m.(len := n), ST_OK);
      } else if c.closed || !c.pcb {
        Finish(t, m.(len := 0), if c.closed then ST_CLOSED else c.err);
      }
    }

    /** The datagram that came first comes out first. */
    method TakeDgram(id: int) returns (d: Dgram)
      requires Inv() && 0 < id < NCONN && conns[id].dgGet != conns[id].dgPut
      modifies this`conns, this`dgrams
      ensures Inv() && |old(dgrams)| == NCONN && old(dgrams)[id] != [] && d == old(dgrams)[id][0]
      ensures dgrams == old(dgrams)[id := old(dgrams)[id][1..]] && SameBut(old(conns), conns, id)
    {
      hide Wired, Homed, Ranked, Ring;
      var c := conns[id];
      ghost var q := dgrams[id];
      PutCell(c.dg, c.dgGet, c.dgPut, q, NDGRAM);
      RingHas(c.dg, c.dgGet, c.dgPut, q);
      RingGet(c.dg, c.dgGet, c.dgPut, q, NDGRAM);
      d := c.dg[c.dgGet % NDGRAM];
      var after := c.(dgGet := (c.dgGet + 1) % WORD);
      Replaced(conns, born, clock, dgrams, id, after, q[1..]);
      Unhomed(pend, conns, id, after);
      conns, dgrams := conns[id := after], dgrams[id := q[1..]];
    }

    // -------------------------------------------------------------------
    // The main loop
    // -------------------------------------------------------------------

    /** Takes the oldest command off the ring, if there is one, and carries it
        out. */
    method ServeOne(io: Io, ticks: int) returns (served: bool)
      requires Inv() && book.hand.None? && book.writing.None?
      modifies this
      ensures Inv() && book.hand.None? && book.writing.None?
      ensures served <==> old(book.cmdQ) != []
      ensures if served then Settled(old(log), log, pend, old(book.cmdQ)[0]) else log == old(log) && pend == old(pend)
    {
      hide Wired, Homed, Ranked, Datagrams;
      WiredSays(page, book, pend);
      served := page.cmdGet != page.cmdPut;
      if served {
        TakeStep(page, book, pend);
        var m := page.cmd[page.cmdGet % RING];
        page := page.(cmdGet := (page.cmdGet + 1) % WORD);
        book := book.(cmdQ := book.cmdQ[1..], hand := Some(m));
        Executive();
        Network();
        Command(m, io, ticks);
      }
    }

    /** One look at every command that waits: the responses, in the order of
        their tags, are one to each that waits no longer. */
    method Sweep(ios: seq<Io>, ticks: int)
      requires Inv() && book.hand.None? && book.writing.None? && |ios| == TAGS
      modifies this
      ensures Inv() && book.hand.None? && book.writing.None?
      ensures Swept(old(log), log, old(pend), pend, TAGS)
    {
      hide Wired, Homed, Ranked, Datagrams, Swept, Finished;
      WiredSays(page, book, pend);
      SweptNone(log, pend);
      for t := 0 to TAGS
        invariant Inv() && book.hand.None? && book.writing.None?
        invariant Swept(old(log), log, old(pend), pend, t)
      {
        WiredSays(page, book, pend);
        SweptSays(old(log), log, old(pend), pend, t);
        ghost var said, had := log, pend;
        if pend[t].kind != 0 {
          TryFinish(t, ios[t], ticks);
          SweptAt(old(log), said, log, old(pend), had, pend, t);
        } else {
          SweptPast(old(log), log, old(pend), pend, t);
        }
        Network();
      }
    }

    /** A signal goes to the executive when there is a response it was not
        told of, and only then. */
    method Signal() returns (sent: bool)
      requires Inv()
      modifies this`answered, this`signalled
      ensures Inv() && sent == (|log| > old(signalled)) && signalled == |log|
    {
      sent := answered;
      if answered {
        answered, signalled := false, |log|;
      }
    }

    /** Nothing is sent, waits or is open at first. */
    constructor ()
      ensures Inv() && book.out == {} && book.hand.None? && book.writing.None?
    {
      var none := Msg(0, 0, 0, 0, 0, 0, 0, 0, 0, 0, 0);
      page := Page(0, 0, 0, 0, seq(RING, i => none), seq(RING, i => none));
      pend := seq(TAGS, i => none);
      conns := seq(NCONN, i => Fresh(false, 0));
      answered := false;
      book := Book(None, [], None, None, [], {}, Zeros(TAGS), Zeros(TAGS));
      born, clock := seq(NCONN, i => 0), 1;
      dgrams := seq(NCONN, i => []);
      log, signalled := [], 0;
      new;
      AtFirst(pend);
      forall id | 0 <= id < NCONN
        ensures Ring(conns[id].dg, conns[id].dgGet, conns[id].dgPut, dgrams[id], NDGRAM)
      {
        EmptyRing(NoDgrams());
      }
    }
  }

  function Zeros(n: nat): (m: map<int, nat>)
    ensures forall t | 0 <= t < n :: t in m && m[t] == 0
  {
    if n == 0 then map[] else Zeros(n - 1)[n - 1 := 0]
  }

  lemma AtFirst(pend: seq<Msg>)
    requires forall t | 0 <= t < |pend| :: pend[t].kind == 0
    ensures Waiting(pend) == {}
  {
  }

  lemma Shortened(pend: seq<Msg>, conns: seq<Conn>, born: seq<nat>, clock: nat, dgrams: seq<seq<Dgram>>, id: int)
    requires Homed(pend, conns) && Ranked(conns, born, clock) && Datagrams(conns, dgrams)
    requires 0 <= id < |conns| && conns[id].backlog != []
    ensures var after := conns[id := conns[id].(backlog := conns[id].backlog[1..])];
      Homed(pend, after) && Ranked(after, born, clock) && Datagrams(after, dgrams)
  {
    hide Ring;
    var after := conns[id := conns[id].(backlog := conns[id].backlog[1..])];
    assert forall x <- conns[id].backlog[1..] :: x in conns[id].backlog;
    forall y | 0 <= y < |after|
      ensures Younger(after, born, y)
    {
      assert Younger(conns, born, y);
    }
  }

  // A waiting command's message changes, but for its kind, tag and connection.
  lemma Noted(p: Page, b: Book, pend: seq<Msg>, conns: seq<Conn>, t: int, m: Msg)
    requires Wired(p, b, pend) && Homed(pend, conns) && 0 <= t < |pend|
    requires m.kind == pend[t].kind && m.tag == pend[t].tag && m.conn == pend[t].conn
    ensures Wired(p, b, pend[t := m]) && Homed(pend[t := m], conns)
  {
    hide Ring, All;
    assert Waiting(pend[t := m]) == Waiting(pend);
  }

  datatype Callback =
    | Accepted(id: int, ok: bool)
    | Received(id: int, n: nat)
    | Failed(id: int, reset: bool, status: int)
    | Connected(id: int)
    | Arrived(id: int, d: Dgram)

  lemma FreshFields(used: bool, proto: int)
    ensures var c := Fresh(used, proto);
      c.used == used && c.proto == proto && !c.udp && !c.raw && c.backlog == [] && c.dg == NoDgrams()
      && c.dgGet == c.dgPut == 0
  {
  }

  lemma Allocated(pend: seq<Msg>, conns: seq<Conn>, born: seq<nat>, clock: nat, dgrams: seq<seq<Dgram>>, id: int,
                  proto: int)
    requires Homed(pend, conns) && Ranked(conns, born, clock) && Datagrams(conns, dgrams)
    requires 0 < id < |conns| && !conns[id].used
    ensures NoneHome(pend, id) && Homed(pend, conns[id := Fresh(true, proto)])
    ensures |born| == |dgrams| == |conns| && Ranked(conns[id := Fresh(true, proto)], born[id := clock], clock + 1)
    ensures Datagrams(conns[id := Fresh(true, proto)], dgrams[id := []])
  {
    hide Ring, Fresh, NoDgrams;
    FreshFields(true, proto);
    EmptyRing(NoDgrams());
    var after, ages := conns[id := Fresh(true, proto)], born[id := clock];
    forall y | 0 <= y < |after|
      ensures Younger(after, ages, y) && ages[y] < clock + 1
    {
      assert Younger(conns, born, y);
    }
  }

  lemma EmptyRing(cells: seq<Dgram>)
    requires |cells| == NDGRAM
    ensures Ring(cells, 0, 0, [], NDGRAM)
  {
  }

  lemma Joined(pend: seq<Msg>, conns: seq<Conn>, born: seq<nat>, clock: nat, dgrams: seq<seq<Dgram>>, l: int, id: int)
    requires Homed(pend, conns) && Ranked(conns, born, clock) && Datagrams(conns, dgrams)
    requires 0 <= l < |conns| && 0 < id < |conns| && |conns[l].backlog| < BACKLOG && |born| == |conns|
    requires born[l] < born[id]
    ensures var after := conns[l := conns[l].(backlog := conns[l].backlog + [id])];
      Homed(pend, after) && Ranked(after, born, clock) && Datagrams(after, dgrams)
  {
    hide Ring;
    var after := conns[l := conns[l].(backlog := conns[l].backlog + [id])];
    forall y | 0 <= y < |after|
      ensures Younger(after, born, y)
    {
      assert Younger(conns, born, y);
    }
  }

  lemma DgramsSay(conns: seq<Conn>, dgrams: seq<seq<Dgram>>, id: int)
    requires Datagrams(conns, dgrams) && 0 <= id < |conns|
    ensures |dgrams| == |conns| && (conns[id].dgGet == conns[id].dgPut <==> dgrams[id] == [])
    ensures dgrams[id] == [] ==> dgrams[id := []] == dgrams
  {
    PutCell(conns[id].dg, conns[id].dgGet, conns[id].dgPut, dgrams[id], NDGRAM);
  }

  // put - get, as the machine takes it, is how many there are.
  lemma HowMany(cells: seq<Dgram>, get: int, put: int, q: seq<Dgram>)
    requires Ring(cells, get, put, q, NDGRAM)
    ensures (put - get) % WORD == |q| <= NDGRAM
  {
    var w := (get + |q|) / WORD;
    assert put - get == |q| - w * WORD;
    Numbers.ModAddMultiple(|q|, 0 - w, WORD);
  }

  lemma RingHas(cells: seq<Dgram>, get: int, put: int, q: seq<Dgram>)
    requires Ring(cells, get, put, q, NDGRAM)
    ensures |cells| == NDGRAM && 0 <= put < WORD
  {
    PutCell(cells, get, put, q, NDGRAM);
  }

  // The commands below tag n that wait on a connection no longer do.
  function Cancelled(pend: seq<Msg>, id: int, n: nat): (r: seq<Msg>)
    requires n <= |pend|
    ensures |r| == |pend|
  {
    seq(|pend|, t requires 0 <= t < |pend| => if t < n && pend[t].conn == id then pend[t].(kind := 0) else pend[t])
  }

  // And the responses to them.
  function Endings(pend: seq<Msg>, id: int, status: int, n: nat): seq<Msg>
    requires n <= |pend|
  {
    if n == 0 then []
    else
      Endings(pend, id, status, n - 1)
      + if pend[n - 1].kind != 0 && pend[n - 1].conn == id then [pend[n - 1].(status := status)] else []
  }

  lemma CancelNone(pend: seq<Msg>, id: int, status: int)
    ensures Cancelled(pend, id, 0) == pend && Endings(pend, id, status, 0) == []
  {
  }

  lemma CancelNext(pend: seq<Msg>, id: int, status: int, t: nat)
    requires t < |pend|
    ensures var now := Cancelled(pend, id, t); var waits := pend[t].kind != 0 && pend[t].conn == id;
      && now[t] == pend[t]
      && (waits ==> Cancelled(pend, id, t + 1) == now[t := now[t].(kind := 0)])
      && (waits ==> Endings(pend, id, status, t + 1) == Endings(pend, id, status, t) + [now[t].(status := status)])
      && (!waits ==>
          Cancelled(pend, id, t + 1) == now && Endings(pend, id, status, t + 1) == Endings(pend, id, status, t))
  {
  }

  lemma {:induction false} EndingsAre(pend: seq<Msg>, id: int, status: int, n: nat)
    requires n <= |pend| && forall t | 0 <= t < |pend| && pend[t].kind != 0 :: pend[t].tag == t
    ensures forall m <- Endings(pend, id, status, n) :: m.status == status && m.conn == id && m.tag in Waiting(pend)
  {
    if n > 0 { EndingsAre(pend, id, status, n - 1); }
  }

  lemma CancelEnds(pend: seq<Msg>, id: int)
    ensures var now := Cancelled(pend, id, |pend|); NoneWait(now, id) && Fewer(pend, now)
  {
  }

  // New responses, all to commands that waited, which are ended.
  ghost predicate Aborts(was: seq<Msg>, now: seq<Msg>, pend: seq<Msg>) {
    was <= now && forall i | |was| <= i < |now| :: now[i].status == ST_ABORTED && now[i].tag in Waiting(pend)
  }

  lemma AbortsOn(a: seq<Msg>, b: seq<Msg>, c: seq<Msg>, pend: seq<Msg>, mid: seq<Msg>)
    requires Aborts(a, b, pend) && Aborts(b, c, mid) && Fewer(pend, mid)
    ensures Aborts(a, c, pend)
  {
    assert Waiting(mid) <= Waiting(pend);
  }

  lemma EndingsAbort(log: seq<Msg>, pend: seq<Msg>, id: int)
    requires forall t | 0 <= t < |pend| && pend[t].kind != 0 :: pend[t].tag == t
    ensures Aborts(log, log + Endings(pend, id, ST_ABORTED, |pend|), pend)
  {
    hide Endings, Waiting;
    var e := Endings(pend, id, ST_ABORTED, |pend|);
    EndingsAre(pend, id, ST_ABORTED, |pend|);
    forall i | |log| <= i < |log + e|
      ensures (log + e)[i].status == ST_ABORTED && (log + e)[i].tag in Waiting(pend)
    {
      assert (log + e)[i] == e[i - |log|] && e[i - |log|] in e;
    }
  }

  // Some of the commands that waited no longer do.
  ghost predicate Fewer(was: seq<Msg>, now: seq<Msg>) {
    |now| == |was| && forall t | 0 <= t < |was| :: now[t] == was[t] || now[t].kind == 0
  }

  /** A socket has only other datagrams, and the others are the same. */
  ghost predicate SameBut(was: seq<Conn>, now: seq<Conn>, id: int) {
    |now| == |was| && forall k | 0 <= k < |was| ::
      now[k] == if k == id then was[k].(dg := now[k].dg, dgGet := now[k].dgGet, dgPut := now[k].dgPut) else was[k]
  }

  // ---------------------------------------------------------------------
  // What closing closes
  // ---------------------------------------------------------------------

  ghost predicate Hop(conns: seq<Conn>, a: int, b: int) { 0 <= a < |conns| && b in conns[a].backlog }

  /** Each connection is in the backlog of the one before. */
  ghost predicate Down(conns: seq<Conn>, path: seq<int>) {
    path != [] && forall i | 0 <= i < |path| - 1 :: Hop(conns, path[i], path[i + 1])
  }

  ghost predicate LeadsTo(conns: seq<Conn>, id: int, y: int) {
    exists path: seq<int> :: Down(conns, path) && path[0] == id && path[|path| - 1] == y
  }

  /** The connection, those in its backlog, those in theirs, and so on. */
  ghost function Reach(conns: seq<Conn>, id: int): set<int> { set y | 0 <= y < |conns| && LeadsTo(conns, id, y) }

  // A socket that is free: its datagrams are gone.
  function Closed(c: Conn): Conn { c.(used := false, dgGet := c.dgPut) }

  /** Just those have closed. */
  ghost predicate Closes(was: seq<Conn>, now: seq<Conn>, ids: set<int>) {
    |now| == |was| && forall y | 0 <= y < |was| :: now[y] == if y in ids then Closed(was[y]) else was[y]
  }

  /** Just the commands that waited on them no longer wait. */
  ghost predicate Ends(was: seq<Msg>, now: seq<Msg>, ids: set<int>) {
    |now| == |was| && forall t | 0 <= t < |was| :: now[t] == if was[t].conn in ids then was[t].(kind := 0) else was[t]
  }

  // The response to a command, if it waited and no longer does.
  ghost function Answer(had: Msg, pend: Msg, status: int): multiset<Msg> {
    if had.kind != 0 && pend.kind == 0 then multiset{had.(status := status)} else multiset{}
  }

  // The responses to the commands below tag n that waited and no longer do.
  ghost function Answers(had: seq<Msg>, pend: seq<Msg>, status: int, n: nat): multiset<Msg>
    requires n <= |had| == |pend|
  {
    if n == 0 then multiset{}
    else Answers(had, pend, status, n - 1) + Answer(had[n - 1], pend[n - 1], status)
  }

  /** The new responses are one to each command that waited and no longer does. */
  ghost predicate Responses(was: seq<Msg>, now: seq<Msg>, had: seq<Msg>, pend: seq<Msg>, status: int)
    requires |had| == |pend|
  {
    was <= now && multiset(now[|was|..]) == Answers(had, pend, status, |had|)
  }

  lemma {:induction false} AnswersOn(a: seq<Msg>, b: seq<Msg>, c: seq<Msg>, status: int, n: nat)
    requires n <= |a| == |b| == |c| && Fewer(a, b) && Fewer(b, c)
    ensures Answers(a, c, status, n) == Answers(a, b, status, n) + Answers(b, c, status, n)
  {
    hide Answer, Answers, Fewer;
    AnswersStep(a, c, status, n);
    AnswersStep(a, b, status, n);
    AnswersStep(b, c, status, n);
    if n > 0 {
      AnswersOn(a, b, c, status, n - 1);
      AnswerOn(a, b, c, status, n - 1);
      Regroup(Answers(a, b, status, n - 1), Answers(b, c, status, n - 1), Answer(a[n - 1], b[n - 1], status),
              Answer(b[n - 1], c[n - 1], status));
    }
  }

  lemma AnswersStep(had: seq<Msg>, pend: seq<Msg>, status: int, n: nat)
    requires n <= |had| == |pend|
    ensures Answers(had, pend, status, n) ==
      if n == 0 then multiset{} else Answers(had, pend, status, n - 1) + Answer(had[n - 1], pend[n - 1], status)
  {
  }

  lemma AnswerOn(a: seq<Msg>, b: seq<Msg>, c: seq<Msg>, status: int, t: nat)
    requires t < |a| == |b| == |c| && Fewer(a, b) && Fewer(b, c)
    ensures Answer(a[t], c[t], status) == Answer(a[t], b[t], status) + Answer(b[t], c[t], status)
  {
  }

  lemma Regroup(a: multiset<Msg>, b: multiset<Msg>, c: multiset<Msg>, d: multiset<Msg>)
    ensures (a + b) + (c + d) == (a + c) + (b + d)
  {
  }

  lemma ResponsesOn(was: seq<Msg>, mid: seq<Msg>, now: seq<Msg>, a: seq<Msg>, b: seq<Msg>, c: seq<Msg>, status: int)
    requires |a| == |b| == |c| && Fewer(a, b) && Fewer(b, c)
    requires Responses(was, mid, a, b, status) && Responses(mid, now, b, c, status)
    ensures Responses(was, now, a, c, status)
  {
    AnswersOn(a, b, c, status, |a|);
    assert now[|was|..] == mid[|was|..] + now[|mid|..];
  }

  lemma {:induction false} EndingsAnswer(pend: seq<Msg>, now: seq<Msg>, id: int, status: int, n: nat)
    requires n <= |pend| == |now|
    requires forall t | 0 <= t < n :: now[t] == if pend[t].conn == id then pend[t].(kind := 0) else pend[t]
    ensures multiset(Endings(pend, id, status, n)) == Answers(pend, now, status, n)
  {
    hide Answers, Endings;
    AnswersStep(pend, now, status, n);
    EndingsStep(pend, id, status, n);
    if n > 0 { EndingsAnswer(pend, now, id, status, n - 1); }
  }

  lemma EndingsStep(pend: seq<Msg>, id: int, status: int, n: nat)
    requires n <= |pend|
    ensures n == 0 ==> Endings(pend, id, status, n) == []
    ensures n > 0 ==>
      multiset(Endings(pend, id, status, n)) == multiset(Endings(pend, id, status, n - 1)) +
      if pend[n - 1].kind != 0 && pend[n - 1].conn == id then multiset{pend[n - 1].(status := status)} else multiset{}
  {
  }

  // What cancel does is of that kind.
  lemma CancelIs(log: seq<Msg>, pend: seq<Msg>, id: int, status: int)
    ensures var now := Cancelled(pend, id, |pend|);
      && Ends(pend, now, {} + {id}) && Fewer(pend, now)
      && Responses(log, log + Endings(pend, id, status, |pend|), pend, now, status)
  {
    hide Endings;
    var now := Cancelled(pend, id, |pend|);
    EndingsAnswer(pend, now, id, status, |pend|);
    var more := log + Endings(pend, id, status, |pend|);
    assert more[|log|..] == Endings(pend, id, status, |pend|);
  }

  lemma OnlyOne(id: int)
    ensures {} + {id} == {id}
  {
  }

  lemma ReachAlone(conns: seq<Conn>, id: int)
    requires 0 <= id < |conns| && conns[id].backlog == []
    ensures Reach(conns, id) == {id}
  {
    DownSelf(conns, id);
    forall y | y in Reach(conns, id)
      ensures y == id
    {
      ReachBelow(conns, id, y);
    }
  }

  lemma AllDropped(was: seq<Conn>, mid: seq<Conn>, now: seq<Conn>, id: int)
    requires 0 <= id < |was| == |mid| && !was[id].used && Closes(mid, now, {id})
    requires forall k | 0 <= k < |was| && k != id :: mid[k] == was[k]
    ensures SameOpen(was, now)
  {
  }

  lemma EndsOn(a: seq<Msg>, b: seq<Msg>, c: seq<Msg>, s: set<int>, r: set<int>)
    requires Ends(a, b, s) && Ends(b, c, r)
    ensures Ends(a, c, s + r)
  {
  }

  lemma EndsFewer(a: seq<Msg>, b: seq<Msg>, s: set<int>)
    requires Ends(a, b, s)
    ensures Fewer(a, b)
  {
  }

  lemma EndsNone(a: seq<Msg>, b: seq<Msg>, s: set<int>, id: int)
    requires Ends(a, b, s) && id in s
    ensures NoneWait(b, id)
  {
  }

  lemma ClosesNone(conns: seq<Conn>)
    ensures Closes(conns, conns, {})
  {
  }

  lemma ClosesOn(a: seq<Conn>, b: seq<Conn>, c: seq<Conn>, s: set<int>, r: set<int>)
    requires Closes(a, b, s) && Closes(b, c, r)
    ensures Closes(a, c, s + r)
  {
  }

  lemma ClosesSays(a: seq<Conn>, b: seq<Conn>, s: set<int>, id: int)
    requires Closes(a, b, s) && 0 <= id < |a|
    ensures |b| == |a| && Closed(b[id]) == Closed(a[id])
  {
  }

  lemma ClosesEnd(a: seq<Conn>, b: seq<Conn>, c: seq<Conn>, s: set<int>, id: int)
    requires Closes(a, b, s) && 0 <= id < |a| && c == b[id := Closed(b[id])]
    ensures Closes(a, c, s + {id})
  {
  }

  // Backlogs stay, so the same can be reached.
  lemma ReachSame(was: seq<Conn>, now: seq<Conn>, s: set<int>, id: int)
    requires Closes(was, now, s)
    ensures Reach(now, id) == Reach(was, id)
  {
    forall path: seq<int>
      ensures Down(now, path) <==> Down(was, path)
    {
      DownSame(was, now, s, path);
    }
    assert forall y :: y in Reach(now, id) <==> y in Reach(was, id);
  }

  lemma DownSame(was: seq<Conn>, now: seq<Conn>, s: set<int>, path: seq<int>)
    requires Closes(was, now, s)
    ensures Down(now, path) <==> Down(was, path)
  {
    assert forall y | 0 <= y < |was| :: now[y].backlog == was[y].backlog;
  }

  // What is reached from a connection: itself, and what is from its backlog.
  lemma ReachIs(conns: seq<Conn>, born: seq<nat>, clock: nat, id: int, below: set<int>)
    requires Ranked(conns, born, clock) && 0 <= id < |conns|
    requires forall y :: y in below <==> exists k | 0 <= k < |conns[id].backlog| ::
      y in Reach(conns, conns[id].backlog[k])
    ensures Reach(conns, id) == below + {id}
  {
    hide Ranked, Down;
    forall y
      ensures y in Reach(conns, id) <==> y in below + {id}
    {
      if y in Reach(conns, id) { ReachBelow(conns, id, y); }
      if y == id { DownSelf(conns, id); }
      if y in below {
        var k :| 0 <= k < |conns[id].backlog| && y in Reach(conns, conns[id].backlog[k]);
        ReachFrom(conns, id, k, y);
      }
    }
  }

  lemma DownSelf(conns: seq<Conn>, id: int)
    requires 0 <= id < |conns|
    ensures id in Reach(conns, id)
  {
    assert Down(conns, [id]);
  }

  lemma ReachFrom(conns: seq<Conn>, id: int, k: nat, y: int)
    requires 0 <= id < |conns| && k < |conns[id].backlog| && y in Reach(conns, conns[id].backlog[k])
    ensures y in Reach(conns, id)
  {
    hide Hop;
    var x := conns[id].backlog[k];
    var path: seq<int> :| Down(conns, path) && path[0] == x && path[|path| - 1] == y;
    var more := [id] + path;
    assert Hop(conns, id, x) by { HopsTo(conns, id, k); }
    forall i | 0 <= i < |more| - 1
      ensures Hop(conns, more[i], more[i + 1])
    {
      if i > 0 { assert Hop(conns, path[i - 1], path[i]); }
    }
    assert Down(conns, more) && more[|more| - 1] == y;
  }

  lemma HopsTo(conns: seq<Conn>, id: int, k: nat)
    requires 0 <= id < |conns| && k < |conns[id].backlog|
    ensures Hop(conns, id, conns[id].backlog[k])
  {
  }

  lemma ReachBelow(conns: seq<Conn>, id: int, y: int)
    requires 0 <= id < |conns| && y in Reach(conns, id)
    ensures y == id || exists k | 0 <= k < |conns[id].backlog| :: y in Reach(conns, conns[id].backlog[k])
  {
    hide Hop;
    var path: seq<int> :| Down(conns, path) && path[0] == id && path[|path| - 1] == y;
    if |path| > 1 {
      var rest := path[1..];
      assert Hop(conns, path[0], path[1]);
      var k := HopAt(conns, id, path[1]);
      forall i | 0 <= i < |rest| - 1
        ensures Hop(conns, rest[i], rest[i + 1])
      {
        assert Hop(conns, path[i + 1], path[i + 2]);
      }
      assert Down(conns, rest) && rest[|rest| - 1] == y;
      assert LeadsTo(conns, conns[id].backlog[k], y);
    }
  }

  lemma HopAt(conns: seq<Conn>, a: int, b: int) returns (k: nat)
    requires Hop(conns, a, b)
    ensures 0 <= a < |conns| && k < |conns[a].backlog| && conns[a].backlog[k] == b
  {
    k :| 0 <= k < |conns[a].backlog| && conns[a].backlog[k] == b;
  }

  // A connection changed, its backlog apart.
  lemma Replaced(conns: seq<Conn>, born: seq<nat>, clock: nat, dgrams: seq<seq<Dgram>>, id: int, c: Conn, q: seq<Dgram>)
    requires Ranked(conns, born, clock) && Datagrams(conns, dgrams) && 0 <= id < |conns|
    requires c.backlog == conns[id].backlog && Ring(c.dg, c.dgGet, c.dgPut, q, NDGRAM)
    ensures Ranked(conns[id := c], born, clock) && Datagrams(conns[id := c], dgrams[id := q])
  {
    hide Ring;
    var after := conns[id := c];
    forall y | 0 <= y < |after|
      ensures Younger(after, born, y)
    {
      assert Younger(conns, born, y);
    }
  }

  lemma Unhomed(pend: seq<Msg>, conns: seq<Conn>, id: int, c: Conn)
    requires Homed(pend, conns) && 0 <= id < |conns| && (c.used == conns[id].used || NoneHome(pend, id))
    ensures Homed(pend, conns[id := c])
  {
  }

  lemma RankedSays(conns: seq<Conn>, born: seq<nat>, clock: nat, id: int)
    requires Ranked(conns, born, clock) && 0 <= id < |conns|
    ensures |born| == |conns| && born[id] < clock
    ensures forall x <- conns[id].backlog :: 0 < x < |conns| && born[id] < born[x] < clock
  {
    assert Younger(conns, born, id);
  }

  function Rest<T>(q: seq<T>): seq<T> { if q == [] then [] else q[1..] }

  lemma FinishedIf(was: seq<Msg>, now: seq<Msg>, had: seq<Msg>, pend: seq<Msg>, t: int)
    requires 0 <= t < |had| && had[t].kind != 0
    requires (now == was && pend == had) || exists r: Msg ::
      r.tag == t && now == was + [r] && pend == had[t := had[t].(kind := 0)]
    ensures Finished(was, now, pend, t)
  {
  }

  // The command waits still, or has had its one response.
  ghost predicate Finished(was: seq<Msg>, now: seq<Msg>, pend: seq<Msg>, t: int) {
    && 0 <= t < |pend|
    && (|| (now == was && pend[t].kind != 0)
        || (|now| == |was| + 1 && was <= now && now[|was|].tag == t && pend[t].kind == 0))
  }

  /** The command waits on its tag, and there is no response yet, or it has
      had one response, the last. */
  ghost predicate Settled(was: seq<Msg>, now: seq<Msg>, pend: seq<Msg>, m: Msg) {
    && 0 <= m.tag < |pend|
    && (|| (now == was && pend[m.tag].kind == m.kind != 0 && pend[m.tag].conn == m.conn)
        || (&& was < now && now[|now| - 1].tag == m.tag && pend[m.tag].kind == 0
            && forall i | |was| <= i < |now| - 1 :: now[i].tag != m.tag))
  }

  function TagList(s: seq<Msg>): seq<int> {
    seq(|s|, i requires 0 <= i < |s| => s[i].tag)
  }

  // The tags below n on which a command waited and does no longer.
  function Ended(had: seq<Msg>, pend: seq<Msg>, n: nat): seq<int>
    requires n <= |had| == |pend|
  {
    if n == 0 then []
    else Ended(had, pend, n - 1) + if had[n - 1].kind != 0 && pend[n - 1].kind == 0 then [n - 1] else []
  }

  /** The commands on tags below n have been looked at: those that wait no
      longer have had one response each, in order, and there is no other. */
  ghost predicate Swept(was: seq<Msg>, now: seq<Msg>, had: seq<Msg>, pend: seq<Msg>, n: nat) {
    && was <= now && n <= |had| == |pend| && TagList(now[|was|..]) == Ended(had, pend, n)
    && forall t | 0 <= t < |had| && (n <= t || had[t].kind == 0) :: pend[t] == had[t]
  }

  lemma SweptNone(log: seq<Msg>, pend: seq<Msg>)
    ensures Swept(log, log, pend, pend, 0)
  {
  }

  lemma SweptSays(was: seq<Msg>, now: seq<Msg>, had: seq<Msg>, pend: seq<Msg>, t: nat)
    requires Swept(was, now, had, pend, t) && t < |pend|
    ensures |had| == |pend| && pend[t] == had[t]
  {
  }

  lemma {:induction false} EndedSame(had: seq<Msg>, a: seq<Msg>, b: seq<Msg>, n: nat)
    requires n <= |had| == |a| == |b| && forall t | 0 <= t < n :: a[t] == b[t]
    ensures Ended(had, a, n) == Ended(had, b, n)
  {
    if n > 0 { EndedSame(had, a, b, n - 1); }
  }

  lemma SweptPast(was: seq<Msg>, now: seq<Msg>, had: seq<Msg>, pend: seq<Msg>, t: nat)
    requires Swept(was, now, had, pend, t) && t < |pend| && pend[t].kind == 0
    ensures Swept(was, now, had, pend, t + 1)
  {
    assert pend[t] == had[t];
  }

  lemma SweptAt(was: seq<Msg>, mid: seq<Msg>, now: seq<Msg>, had: seq<Msg>, a: seq<Msg>, b: seq<Msg>, t: nat)
    requires Swept(was, mid, had, a, t) && t < |a| == |b| && a[t].kind != 0 && Finished(mid, now, b, t)
    requires forall u | 0 <= u < |a| && u != t :: b[u] == a[u]
    ensures Swept(was, now, had, b, t + 1)
  {
    EndedSame(had, a, b, t);
    assert a[t] == had[t];
    if now != mid {
      assert now == mid + [now[|mid|]];
      assert now[|was|..] == mid[|was|..] + [now[|mid|]];
      assert TagList(now[|was|..]) == TagList(mid[|was|..]) + [t];
    }
  }

  lemma HandFree(p: Page, b: Book, pend: seq<Msg>)
    requires Wired(p, b, pend) && b.hand.Some?
    ensures |pend| == TAGS && 0 <= b.hand.value.tag < TAGS && pend[b.hand.value.tag].kind == 0
    ensures b.hand.value.tag !in Waiting(pend)
  {
    TagsInRange(p, b, pend);
  }

  // Answered at once, or left to wait.
  lemma Settles(log: seq<Msg>, pend: seq<Msg>, m: Msg)
    requires 0 <= m.tag < |pend| && pend[m.tag].kind == 0
    ensures forall r: Msg | r.tag == m.tag :: Settled(log, log + [r], pend, m)
    ensures forall w: Msg | w.tag == m.tag && w.kind == m.kind != 0 && w.conn == m.conn ::
      Settled(log, log, pend[m.tag := w], m)
  {
  }

  // Answered after the commands it ended.
  lemma SettlesLast(was: seq<Msg>, now: seq<Msg>, had: seq<Msg>, pend: seq<Msg>, m: Msg, r: Msg)
    requires Aborts(was, now, had) && Fewer(had, pend) && 0 <= m.tag < |had| && m.tag !in Waiting(had) && r.tag == m.tag
    ensures Settled(was, now + [r], pend, m)
  {
    assert had[m.tag].kind == 0;
    assert forall i | |was| <= i < |now| :: (now + [r])[i] == now[i];
  }

  lemma WiredSays(p: Page, b: Book, pend: seq<Msg>)
    requires Wired(p, b, pend)
    ensures |p.cmd| == |p.rsp| == RING && |pend| == TAGS && (forall t | 0 <= t < TAGS :: t in b.sent && t in b.got)
    ensures forall t | 0 <= t < TAGS && pend[t].kind != 0 :: pend[t].tag == t
    ensures p.cmdGet == p.cmdPut <==> b.cmdQ == []
  {
    RingFacts(p, b, pend);
  }

  lemma HomedLess(pend: seq<Msg>, conns: seq<Conn>, t: int)
    requires Homed(pend, conns) && 0 <= t < |pend|
    ensures Homed(pend[t := pend[t].(kind := 0)], conns)
  {
  }

  lemma HomedMore(pend: seq<Msg>, conns: seq<Conn>, m: Msg)
    requires Homed(pend, conns) && 0 <= m.tag < |pend| && (m.kind == IFCONFIG || InUse(conns, m.conn))
    ensures Homed(pend[m.tag := m], conns)
  {
  }
}
