/** The slots of the index file over the disks of a trace.  A header deleted leaves its
    sequence number in its slot, and the next one there has the number after it: so a
    deleted file's ID comes back only once the slot has been used 65,535 times more. */
module Slots {
  import opened Directory
  import opened Disk
  import opened Numbers

  const CYCLE := 0xffff // the numbers there are: 0 is none

  /** The number after another. */
  function Succ(s: int): int { if s % 0x1_0000 == 0xffff then 1 else s % 0x1_0000 + 1 }

  /** The number the slot has had last, if any. */
  function Last(d: Disk, n: int): Option<int> {
    if n in d.live then Some(d.live[n].seqno) else if n in d.dead then Some(d.dead[n]) else None
  }

  // The number for a header in a slot that has none.
  function Fresh(d: Disk, n: int): int { if n in d.dead then Succ(d.dead[n]) else 1 }

  /** One write: a slot's number stays, through its header's deletion too, but that a new
      header has the next. */
  ghost predicate SlotStep(d: Disk, now: Disk) {
    forall n :: Last(now, n) == if n !in d.live && n in now.live then Some(Fresh(d, n)) else Last(d, n)
  }

  ghost predicate SlotAt(run: seq<Disk>, i: nat)
    requires i + 1 < |run|
  {
    SlotStep(run[i], run[i + 1])
  }

  ghost predicate Slotted(run: seq<Disk>) { forall i: nat {:trigger SlotAt(run, i)} | i + 1 < |run| :: SlotAt(run, i) }

  lemma SlottedOne(d: Disk)
    ensures Slotted([d])
  {
  }

  lemma SlottedOn(run: seq<Disk>, now: Disk)
    requires Slotted(run) && run != [] && SlotStep(run[|run| - 1], now)
    ensures Slotted(run + [now])
  {
    hide SlotStep;
    var more := run + [now];
    forall i: nat | i + 1 < |more|
      ensures SlotAt(more, i)
    {
      if i + 1 < |run| { assert SlotAt(run, i); }
    }
  }

  // Headers written over, or data, bits and the index file.
  lemma SameSlots(d: Disk, now: Disk)
    requires now.dead == d.dead && now.live.Keys == d.live.Keys
    requires forall n <- d.live :: now.live[n].seqno == d.live[n].seqno
    ensures SlotStep(d, now)
  {
  }

  /** The headers have gone, each leaving its number in its slot; every other slot has what
      it had. */
  ghost predicate Buried(live: map<int, Header>, was: map<int, int>, dead: map<int, int>, drop: seq<int>) {
    && (forall n <- drop :: n in live && n in dead && dead[n] == live[n].seqno)
    && (forall n | n !in drop :: (n in dead <==> n in was) && (n in was ==> dead[n] == was[n]))
  }

  /** A slot that is no longer in use has the number of the header it had, and every other
      what it had. */
  ghost predicate Remembers(d: Disk, now: Disk) {
    && (forall n | n in d.live && n !in now.live :: n in now.dead && now.dead[n] == d.live[n].seqno)
    && (forall n | n !in d.live || n in now.live ::
          (n in now.dead <==> n in d.dead) && (n in d.dead ==> now.dead[n] == d.dead[n]))
  }

  // ---------------------------------------------------------------------
  // Runs
  // ---------------------------------------------------------------------

  /** How many headers have been put in the slot from the i-th disk to the k-th. */
  ghost function Fillings(run: seq<Disk>, n: int, i: nat, k: nat): nat
    requires i <= k < |run|
    decreases k
  {
    if i == k then 0 else Fillings(run, n, i, k - 1) + if n !in run[k - 1].live && n in run[k].live then 1 else 0
  }

  // The number so many after another.
  function Later(s: int, u: nat): int { if u == 0 then s else Succ(Later(s, u - 1)) }

  /** A slot's number says how often it has been used. */
  lemma {:induction false} LastIs(run: seq<Disk>, n: int, i: nat, k: nat)
    requires Slotted(run) && i <= k < |run| && Last(run[i], n).Some?
    ensures Last(run[k], n) == Some(Later(Last(run[i], n).value, Fillings(run, n, i, k)))
    decreases k
  {
    if i < k {
      LastIs(run, n, i, k - 1);
      assert SlotAt(run, k - 1);
    }
  }

  lemma {:induction false} LaterIs(s: int, u: nat)
    requires 1 <= s <= CYCLE
    ensures Later(s, u) == (s - 1 + u) % CYCLE + 1
  {
    if u == 0 {
      DivModUnique(s - 1, 0, s - 1, CYCLE);
    } else {
      LaterIs(s, u - 1);
      var x := s - 1 + (u - 1);
      var q, r := x / CYCLE, x % CYCLE;
      if r + 1 == CYCLE { DivModUnique(x + 1, q + 1, 0, CYCLE); } else { DivModUnique(x + 1, q, r + 1, CYCLE); }
    }
  }

  /** The same number comes back just after a whole number of cycles. */
  lemma LaterBack(s: int, u: nat)
    requires 1 <= s <= CYCLE
    ensures Later(s, u) == s <==> u % CYCLE == 0
  {
    LaterIs(s, u);
    var q, r := u / CYCLE, u % CYCLE;
    var t := s - 1 + r;
    if t < CYCLE { DivModUnique(s - 1 + u, q, t, CYCLE); } else { DivModUnique(s - 1 + u, q + 1, t - CYCLE, CYCLE); }
  }

  lemma {:induction false} FillingsSplit(run: seq<Disk>, n: int, i: nat, j: nat, k: nat)
    requires i <= j <= k < |run|
    ensures Fillings(run, n, i, k) == Fillings(run, n, i, j) + Fillings(run, n, j, k)
    decreases k
  {
    if j < k { FillingsSplit(run, n, i, j, k - 1); }
  }

  // A slot empty and then in use has been used.
  lemma {:induction false} UsedBetween(run: seq<Disk>, n: int, j: nat, k: nat)
    requires j <= k < |run| && n !in run[j].live && n in run[k].live
    ensures Fillings(run, n, j, k) > 0
    decreases k
  {
    if n in run[k - 1].live { UsedBetween(run, n, j, k - 1); }
  }

  /** A file is deleted and one of the same number made later: it has the deleted one's ID
      just when the slot has been used a whole number of cycles in between. */
  lemma BackAgain(run: seq<Disk>, f: Fid, i: nat, j: nat, k: nat, g: Fid)
    requires Slotted(run) && i < j < k < |run| && Named(run[i], f) && f.num !in run[j].live && Named(run[k], g)
    requires g.num == f.num && 1 <= f.seqno <= CYCLE
    ensures Fillings(run, f.num, i, k) > 0 && (g == f <==> Fillings(run, f.num, i, k) % CYCLE == 0)
  {
    LastIs(run, f.num, i, k);
    FillingsSplit(run, f.num, i, j, k);
    UsedBetween(run, f.num, j, k);
    LaterBack(f.seqno, Fillings(run, f.num, i, k));
  }

  /** The next file in the slot of a deleted one never has its ID. */
  ghost predicate NoneBack(run: seq<Disk>) {
    forall f: Fid, i: nat, k: nat | i + 1 < k < |run| && Named(run[i], f) && Empty(run, f.num, i, k) ::
      !Named(run[k], f)
  }

  ghost predicate Empty(run: seq<Disk>, n: int, i: nat, k: nat)
    requires k < |run|
  {
    forall j | i < j < k :: n !in run[j].live
  }

  lemma NoneBackIf(run: seq<Disk>)
    requires Slotted(run)
    ensures NoneBack(run)
  {
    hide Slotted;
    forall f: Fid, i: nat, k: nat | i + 1 < k < |run| && Named(run[i], f) && Empty(run, f.num, i, k)
      ensures !Named(run[k], f)
    {
      LastIs(run, f.num, i, k);
      FillingsSplit(run, f.num, i, k - 1, k);
      NoneWhile(run, f.num, i, k - 1);
    }
  }

  lemma {:induction false} NoneWhile(run: seq<Disk>, n: int, i: nat, k: nat)
    requires i <= k < |run| && forall j | i < j <= k :: n !in run[j].live
    ensures Fillings(run, n, i, k) == 0
    decreases k
  {
    if i < k { NoneWhile(run, n, i, k - 1); }
  }

  // A file deleted and made again, over and over, in the one slot.
  ghost function Turn(d: Disk, f: Fid, k: nat): Disk
    requires Named(d, f) && 1 <= f.seqno <= CYCLE
  {
    LaterIs(f.seqno, k / 2);
    var s := Later(f.seqno, k / 2);
    if k % 2 == 0 then d.(live := d.live[f.num := d.live[f.num].(seqno := s)])
    else d.(live := d.live - {f.num}, dead := d.dead[f.num := s])
  }

  /** A deleted file's ID does come back, of any file on any disk, when its slot has been
      used 65,535 times. */
  lemma IdReturns(d: Disk, f: Fid)
    requires Named(d, f) && 1 <= f.seqno <= CYCLE
    ensures var run := seq(2 * CYCLE + 1, k requires 0 <= k => Turn(d, f, k));
      Slotted(run) && run[0] == d && f.num !in run[1].live && Named(run[2 * CYCLE], f)
  {
    hide Turn;
    var run := seq(2 * CYCLE + 1, k requires 0 <= k => Turn(d, f, k));
    forall i: nat | i + 1 < |run|
      ensures SlotAt(run, i)
    {
      TurnStep(d, f, i);
    }
    TurnsBack(d, f);
  }

  lemma TurnStep(d: Disk, f: Fid, k: nat)
    requires Named(d, f) && 1 <= f.seqno <= CYCLE
    ensures SlotStep(Turn(d, f, k), Turn(d, f, k + 1))
  {
    LaterIs(f.seqno, k / 2);
    assert (k + 1) / 2 == if k % 2 == 0 then k / 2 else k / 2 + 1;
  }

  lemma TurnsBack(d: Disk, f: Fid)
    requires Named(d, f) && 1 <= f.seqno <= CYCLE
    ensures Turn(d, f, 0) == d && f.num !in Turn(d, f, 1).live && Named(Turn(d, f, 2 * CYCLE), f)
  {
    LaterBack(f.seqno, CYCLE);
    assert d.live[f.num := d.live[f.num]] == d.live;
  }
}
