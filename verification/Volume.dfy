/** Operations on a volume as the block writes they issue.  trace is the disk
    after each of them, so that what holds of every state in it holds after a
    crash between any two writes. */
module Volume {
  import opened Disk
  import opened Directory
  import Bitmap
  import E = Extension
  import R = Removal
  import T = Truncation
  import opened DirDisk
  import opened DirRoom
  import opened Slots
  import opened Wildcards
  import opened Contents
  import opened LinkCount

  const BITS := 4096 // bits in a bitmap block

  // ---------------------------------------------------------------------
  // The storage bitmap, block by block
  // ---------------------------------------------------------------------

  /** Bits on the way from one state of the bitmap to another. */
  ghost predicate Mix(was: seq<bool>, now: seq<bool>, m: seq<bool>) {
    |m| == |was| == |now| && forall c | 0 <= c < |m| :: m[c] == was[c] || m[c] == now[c]
  }

  ghost predicate AnyMix(v: nat, d: Disk, now: seq<bool>) {
    |now| == |d.bits| && forall m: seq<bool> | Mix(d.bits, now, m) :: Sound(v, d.(bits := m))
  }

  lemma TakingMix(v: nat, d: Disk, now: seq<bool>)
    requires Sound(v, d) && |now| == |d.bits| && forall c | 0 <= c < |now| :: now[c] ==> d.bits[c]
    ensures AnyMix(v, d, now)
  {
    hide Sound;
    forall m: seq<bool> | Mix(d.bits, now, m)
      ensures Sound(v, d.(bits := m))
    {
      BitsTaken(v, d, m);
    }
  }

  lemma GivingMix(v: nat, d: Disk, now: seq<bool>)
    requires Sound(v, d) && |now| == |d.bits|
    requires forall c | 0 <= c < |now| && now[c] != d.bits[c] :: forall n <- d.live :: c !in d.live[n].at
    ensures AnyMix(v, d, now)
  {
    hide Sound;
    forall m: seq<bool> | Mix(d.bits, now, m)
      ensures Sound(v, d.(bits := m))
    {
      BitsGiven(v, d, m);
    }
  }

  // Block b of the bitmap.
  predicate InBlock(c: int, b: nat) { b * BITS <= c < (b + 1) * BITS }

  function Patched(was: seq<bool>, now: seq<bool>, b: nat): (r: seq<bool>)
    requires |was| == |now|
    ensures |r| == |was|
  {
    seq(|was|, c requires 0 <= c < |was| => if InBlock(c, b) then now[c] else was[c])
  }

  predicate TouchedBy(p: Bitmap.Piece, b: nat) { p.len > 0 && p.start / BITS <= b <= (p.start + p.len - 1) / BITS }

  predicate Touched(ps: seq<Bitmap.Piece>, b: nat) { exists i | 0 <= i < |ps| :: TouchedBy(ps[i], b) }

  lemma InTouched(p: Bitmap.Piece, c: nat, b: nat)
    requires Bitmap.In(p, c) && InBlock(c, b)
    ensures TouchedBy(p, b)
  {
    assert c / BITS == b;
    assert p.start / BITS <= c / BITS <= (p.start + p.len - 1) / BITS;
  }

  // ---------------------------------------------------------------------
  // The volume
  // ---------------------------------------------------------------------

  class Volume {
    const v: nat // blocks in a cluster
    const maxFiles: int
    const reserved: int
    const hard: bool // the volume counts a file's entries
    const ods5: bool // its structure level is 5
    var d: Disk
    ghost var trace: seq<Disk>

    ghost predicate Shape()
      reads this
    {
      v > 0 && reserved >= 0 && trace != [] && trace[|trace| - 1] == d && Slotted(trace)
    }

    /** The disk is sound in every state it has been in. */
    ghost predicate Inv()
      reads this
    {
      Shape() && forall x <- trace :: Sound(v, x)
    }

    /** In every state no file has had more entries than its link count says. */
    ghost predicate Counted()
      reads this
    {
      forall x <- trace :: Covered(v, hard, x)
    }

    constructor (disk: Disk, cluster: nat, max: int, res: int, counts: bool, level5: bool)
      requires Sound(cluster, disk) && cluster > 0 && res >= 0
      ensures Inv() && d == disk && trace == [disk]
      ensures v == cluster && maxFiles == max && reserved == res && hard == counts && ods5 == level5
      ensures Covered(cluster, counts, disk) ==> Counted()
    {
      SlottedOne(disk);
      v, maxFiles, reserved, hard, ods5, d, trace := cluster, max, res, counts, level5, disk, [disk];
    }

    // One block written: the disk is in its next state.
    method Write(now: Disk)
      requires Shape() && SlotStep(d, now)
      modifies this
      ensures Shape() && d == now && trace == old(trace) + [now]
      ensures old(Inv()) && Sound(v, now) ==> Inv()
      ensures old(Counted()) && Covered(v, hard, now) ==> Counted()
    {
      hide Sound, Covered, Slotted, SlotStep;
      SlottedOn(trace, now);
      d, trace := now, trace + [now];
    }

    method PutHeader(n: int, h: Header)
      requires Shape() && h.seqno == if n in d.live then d.live[n].seqno else Fresh(d, n)
      modifies this
      ensures Shape() && d == old(d).(live := old(d).live[n := h]) && trace == old(trace) + [d]
      ensures old(Inv()) && Sound(v, d) ==> Inv()
      ensures old(Counted()) && Covered(v, hard, d) ==> Counted()
    {
      hide Sound, Covered, Slotted, Fresh;
      Write(d.(live := d.live[n := h]));
    }

    method PutBlock(c: nat, j: nat, b: Block)
      requires Inv() && Good(d, b)
      modifies this
      ensures Inv() && d == old(d).(data := old(d).data[(c, j) := b]) && trace == old(trace) + [d]
      ensures old(Counted()) && Covered(v, hard, d) ==> Counted()
    {
      hide Sound, Covered;
      BlockWritten(v, d, c, j, b);
      Write(d.(data := d.data[(c, j) := b]));
    }

    method PutIndexBit(n: int, on: bool)
      requires Shape()
      modifies this
      ensures Shape() && d == old(d).(used := if on then old(d).used + {n} else old(d).used - {n})
      ensures old(trace) <= trace
      ensures (old(Inv()) ==> Inv()) && (old(Counted()) ==> Counted())
    {
      hide Sound, Covered;
      var used := if on then d.used + {n} else d.used - {n};
      if Inv() { IndexWritten(v, d, used, d.dead, d.indexEof); }
      if Counted() { CoveredSame(v, hard, d, d.(used := used)); }
      Write(d.(used := used));
    }

    /** write_bitmap_blocks: the blocks that cover the ranges, in order. */
    method WriteBitmap(now: seq<bool>, ranges: seq<Bitmap.Piece>)
      requires Shape() && |now| == |d.bits|
      requires forall c | 0 <= c < |now| && now[c] != d.bits[c] :: Bitmap.InAny(ranges, c)
      modifies this
      ensures Shape() && d == old(d).(bits := now) && old(trace) <= trace && BitsOnly(trace, |old(trace)|, old(d))
      ensures old(Inv()) && AnyMix(v, old(d), now) ==> Inv()
      ensures old(Counted()) ==> Counted()
    {
      hide Sound, Touched, Bitmap.InAny, Covered, Slotted, SlotStep;
      ghost var was := d;
      ghost var safe := Inv() && AnyMix(v, d, now);
      var blocks := (|now| + BITS - 1) / BITS;
      for b := 0 to blocks
        invariant Shape() && old(trace) <= trace && d == was.(bits := d.bits) && Mix(was.bits, now, d.bits)
        invariant (safe ==> Inv()) && (old(Counted()) ==> Counted())
        invariant BitsOnly(trace, |old(trace)|, was)
        invariant forall c | 0 <= c < |now| && c < b * BITS :: d.bits[c] == now[c]
        invariant forall c | 0 <= c < |now| && c >= b * BITS :: d.bits[c] == was.bits[c]
      {
        if Touched(ranges, b) {
          var bits := Patched(d.bits, now, b);
          assert Mix(was.bits, now, bits);
          if old(Counted()) { CoveredSame(v, hard, d, d.(bits := bits)); }
          SameSlots(d, d.(bits := bits));
          Write(d.(bits := bits));
        } else {
          forall c | 0 <= c < |now| && InBlock(c, b)
            ensures was.bits[c] == now[c]
          {
            Untouched(ranges, c, b);
          }
        }
      }
      assert d.bits == now;
    }

    /** allocate: clusters that were free, marked before anything can name
        them, or none where there is no room. */
    method Allocate(want: nat, how: Bitmap.How, next: Bitmap.Option<nat>)
      returns (take: Bitmap.Option<seq<Bitmap.Piece>>)
      requires Inv()
      modifies this
      ensures Inv() && old(trace) <= trace && BitsOnly(trace, |old(trace)|, old(d)) && (old(Counted()) ==> Counted())
      ensures want == 0 ==> take == Bitmap.Some([])
      ensures want > 0 ==> (take.Some? <==> Bitmap.HasRoom(old(d).bits, want, how, next))
      ensures take.None? ==> d == old(d) && trace == old(trace)
      ensures take.Some? ==> Bitmap.Chosen(old(d).bits, take.value, want)
      ensures take.Some? ==> d == old(d).(bits := Bitmap.Marked(old(d).bits, take.value, false))
      ensures take.Some? && want > 0 && how.Whole? ==>
        |take.value| == 1 && (next.Some? ==> take.value[0].start == next.value)
      ensures take.Some? && want > 0 && how.Whole? && next.None? ==>
        forall s | Bitmap.AllFree(old(d).bits, s, want) :: take.value[0].start <= s
    {
      hide Sound, Bitmap.Chosen, Bitmap.HasRoom, Bitmap.Marked, Covered;
      take := Bitmap.Choose(d.bits, want, how, next);
      if take.None? {
        return;
      }
      ChosenWithin(d.bits, take.value, want);
      var now := Bitmap.Clear(d.bits, take.value);
      MarkedTakes(d.bits, take.value);
      TakingMix(v, d, now);
      WriteBitmap(now, take.value);
    }

    /** release: clusters that no header maps become free. */
    method Release(cs: seq<nat>)
      requires Shape() && Distinct(cs) && forall c <- cs :: c < |d.bits| && !d.bits[c] && !Owned(d, c)
      modifies this
      ensures Shape() && old(trace) <= trace && d == old(d).(bits := Freed(old(d).bits, cs))
      ensures BitsOnly(trace, |old(trace)|, old(d))
      ensures (old(Inv()) ==> Inv()) && (old(Counted()) ==> Counted())
    {
      hide Sound, Bitmap.Marked, Bitmap.Releasable, Freed, Owned, Covered, AnyMix;
      UnitsWithin(d.bits, cs);
      var ok, now := Bitmap.Release(d.bits, Units(cs));
      MarkedFrees(d.bits, cs);
      UnitsReleasable(d.bits, cs);
      GivenUnowned(d, cs);
      if Inv() { GivingMix(v, d, now); }
      WriteBitmap(now, Units(cs));
    }

    /** alloc_header: the first file number past the reserved ones that is not
        in use, under a sequence number past the one the slot had.  The index
        file's end of file and bitmap cover it before any header is written. */
    method AllocHeader() returns (f: Option<Fid>)
      requires Inv() && Consistent(v, d)
      modifies this
      ensures Inv() && Consistent(v, d) && old(trace) <= trace && (old(Counted()) ==> Counted())
      ensures d == old(d).(used := d.used, indexEof := d.indexEof) && d.indexEof >= old(d).indexEof
      ensures f.None? ==> d == old(d)
      ensures f.Some? ==> f.value.num !in old(d).used && f.value.num !in d.live && reserved < f.value.num <= maxFiles
      ensures f.Some? ==> d.used == old(d).used + {f.value.num} && 0 < f.value.num < d.indexEof
      ensures f.Some? ==> f.value.seqno == Fresh(d, f.value.num)
      ensures forall n | reserved < n <= maxFiles && (f.None? || n < f.value.num) :: !Vacancy(old(d), n)
      ensures f.Some? ==> Vacancy(old(d), f.value.num)
      ensures f.None? <==> Vacancies(old(d), reserved, maxFiles) == {}
      ensures f.Some? ==> f.value.num in Vacancies(old(d), reserved, maxFiles)
      ensures f.Some? ==> Vacancies(d, reserved, maxFiles) == Vacancies(old(d), reserved, maxFiles) - {f.value.num}
    {
      hide Sound, Consistent, Covered, Vacancies;
      NumbersSay(v, d);
      var num := reserved + 1;
      while num <= maxFiles && !Vacancy(d, num)
        invariant reserved < num && forall n | reserved < n < num :: !Vacancy(d, n)
        decreases maxFiles - num
        modifies {}
      {
        num := num + 1;
      }
      if num > maxFiles {
        NoVacancies(d, reserved, maxFiles);
        return None;
      }
      var seqno := NextSeqno(d, num);
      if num >= d.indexEof {
        ConsistentIndex(v, d, d.used, d.dead, num + 1);
        SoundOf(v, d.(indexEof := num + 1));
        if Counted() { CoveredSame(v, hard, d, d.(indexEof := num + 1)); }
        Write(d.(indexEof := num + 1));
      }
      ConsistentIndex(v, d, d.used + {num}, d.dead, d.indexEof);
      PutIndexBit(num, true);
      VacancyTaken(old(d), d, reserved, maxFiles, num);
      f := Some(Fid(num, seqno));
    }

    /** headers: the file's, primary first; on a sound volume the links always
        lead on to the end. */
    method Headers(f: Fid) returns (nums: seq<int>)
      requires Inv() && Consistent(v, d) && Named(d, f)
      ensures Chain(d, f, nums)
    {
      hide Shown, Held, Disjoint, Ended, OneLink, Numbered;
      nums := [f.num];
      while d.live[nums[|nums| - 1]].ext.Some?
        invariant nums != [] && nums[0] == f.num
        invariant forall i | 0 <= i < |nums| ::
          nums[i] in d.live && d.live[nums[i]].seg == i && d.live[nums[i]].file == f
        invariant forall i | 0 <= i < |nums| - 1 ::
          d.live[nums[i]].ext == Some(Fid(nums[i + 1], d.live[nums[i + 1]].seqno))
        invariant |nums| <= |d.live.Keys|
        decreases |d.live.Keys| - |nums|
      {
        var k := nums[|nums| - 1];
        var last := d.live[k];
        assert Linked(d, d.live[k]);
        nums := nums + [last.ext.value.num];
        NoMoreThan(nums, d.live.Keys);
      }
    }

    // File numbers for the new headers, all taken before any is written.  Where
    // there are not enough, those there are stay taken.
    method AllocHeaders(k: nat) returns (ids: Option<seq<Fid>>)
      requires Inv() && Consistent(v, d)
      modifies this
      ensures Inv() && Consistent(v, d) && old(trace) <= trace && (old(Counted()) ==> Counted())
      ensures d == old(d).(used := d.used, indexEof := d.indexEof) && old(d).used <= d.used
      ensures ids.Some? ==> |ids.value| == k && NewNumbers(d, ids.value)
      ensures ids.None? <==> |Vacancies(old(d), reserved, maxFiles)| < k
      ensures ids.Some? ==>
        d.used == old(d).used + NumsOf(ids.value) && NumsOf(ids.value) <= Vacancies(old(d), reserved, maxFiles)
      ensures ids.None? ==> d.used == old(d).used + Vacancies(old(d), reserved, maxFiles)
      ensures k == 0 ==> ids.Some? && d == old(d) && trace == old(trace)
    {
      hide Sound, Consistent, Covered, Vacancies, NumsOf, NewNumbers, Vacancy;
      var got: seq<Fid> := [];
      NoNumbers(d);
      ghost var vacant := Vacancies(d, reserved, maxFiles);
      for i := 0 to k
        invariant Inv() && Consistent(v, d) && old(trace) <= trace && |got| == i && (old(Counted()) ==> Counted())
        invariant d == old(d).(used := d.used, indexEof := d.indexEof) && old(d).used <= d.used
        invariant NewNumbers(d, got) && (i == 0 ==> d == old(d) && trace == old(trace))
        invariant d.used == old(d).used + NumsOf(got) && NumsOf(got) <= vacant && |NumsOf(got)| == i
        invariant Vacancies(d, reserved, maxFiles) == vacant - NumsOf(got)
      {
        ghost var was := d;
        var f := AllocHeader();
        if f.None? {
          assert vacant == NumsOf(got);
          return None;
        }
        NumberTaken(vacant, got, f.value);
        NumbersUsed(was, d, got, f.value);
        got := got + [f.value];
      }
      NoMore(NumsOf(got), vacant);
      ids := Some(got);
    }

    /** append_runs: the clusters go to the end of the file, first in its last
        header as far as they fit there and the rest in new headers.  It fails,
        mapping none of them, where there are no numbers for those. */
    method AppendRuns(f: Fid, first: seq<nat>, chunks: seq<seq<nat>>) returns (ok: bool, ghost p: E.Plan)
      requires Inv() && Consistent(v, d) && Named(d, f) && E.Fresh(d, first + E.Concat(chunks))
      modifies this
      ensures Inv() && Consistent(v, d) && old(trace) <= trace && (old(Counted()) ==> Counted()) && Calm(v, old(d), d)
      ensures !ok ==> d == old(d).(used := d.used, indexEof := d.indexEof)
      ensures ok ==> p.f == f && p.first == first && p.chunks == chunks && E.Appends(v, old(d), p, d)
      ensures ok ==> forall n <- old(d).live | old(d).live[n].file == f && old(d).live[n].ext.None? :: n == p.last
      ensures ok <==> |Vacancies(old(d), reserved, maxFiles)| >= |chunks|
      ensures !ok ==> d.used == old(d).used + Vacancies(old(d), reserved, maxFiles)
      ensures ok ==> d.used == old(d).used + NumsOf(p.ids) && NumsOf(p.ids) <= Vacancies(old(d), reserved, maxFiles)
      ensures chunks == [] && old(d).live[f.num].ext.None? ==>
        && ok && d == old(d).(live := old(d).live[f.num := old(d).live[f.num].(at := old(d).live[f.num].at + first)])
        && trace == old(trace) + [d]
    {
      hide Sound, Consistent, E.Fresh, E.WithExts, E.Appended, E.Ready, E.ExtHeader, Chain, Covered, Calm, Vacancies,
           NumsOf, Slotted, SlotStep, Slots.Fresh;
      var nums := Headers(f);
      ChainEnd(d, f, nums);
      var last := nums[|nums| - 1];
      p := E.Plan.Plan(f, last, first, chunks, []);
      var ids := AllocHeaders(|chunks|);
      CalmSame(v, old(d), d);
      if ids.None? {
        ok := false;
        return;
      }
      p := E.Plan.Plan(f, last, first, chunks, ids.value);
      ghost var d0 := d;
      var link: Option<Fid>, l := None, d.live[last];
      E.FreshStill(old(d), d0, first + E.Concat(chunks));
      E.ReadyIf(v, d0, p);
      E.ReadySays(v, d0, p);
      E.NoExts(d0, p);
      var i, total := |chunks|, E.Total(chunks, |chunks|);
      while i > 0
        invariant 0 <= i <= |chunks| && Inv() && old(trace) <= trace && d == E.WithExts(d0, p, i)
        invariant link == E.LinkAt(p, i)
        invariant (chunks == [] ==> trace == old(trace)) && (old(Counted()) ==> Counted()) && Calm(v, old(d), d)
      {
        i := i - 1;
        E.ExtSound(v, d0, p, i);
        E.ExtStep(d0, p, i);
        ExtCalm(v, d0, p, i);
        CalmTrans(v, old(d), d, E.WithExts(d0, p, i));
        ExtSlot(v, d0, p, i + 1);
        if Counted() { CalmCovered(v, hard, d, E.WithExts(d0, p, i)); }
        PutHeader(ids.value[i].num,
                  Header(ids.value[i].seqno, l.seg + 1 + i, f, l.base + |l.at| + |first| + E.Total(chunks, i),
                                           chunks[i], link, l.dir, 0, f, 0));
        link := Some(ids.value[i]);
      }
      E.AppendedSound(v, d0, p);
      E.AppendedStep(d0, p);
      AppendedCalm(v, d0, p);
      CalmTrans(v, old(d), d, E.Appended(d0, p));
      ExtSlot(v, d0, p, 0);
      if Counted() { CalmCovered(v, hard, d, E.Appended(d0, p)); }
      PutHeader(last, l.(at := l.at + first, ext := link));
      if |nums| > 1 {
        SameSlots(d, d);
        Write(d); // the primary header's allocated size
      }
      E.AppendedConsistent(v, d0, p);
      AppendedUsed(v, d0, p);
      ChainAlone(old(d), f, nums);
      OneLast(v, old(d), f, nums);
      if chunks == [] { E.AppendedAlone(d0, p); }
      ok := true;
    }

    /** delete_header, for each of the list in turn: the header is marked
        deleted, keeping its sequence number, and then its number is freed. */
    method KillAll(drop: seq<int>)
      requires Shape() && R.Detached(d, drop)
      modifies this
      ensures Shape() && old(trace) <= trace
      ensures d == R.Killed(old(d), drop, |drop|).(used := d.used, dead := d.dead)
      ensures Buried(old(d).live, old(d).dead, d.dead, drop)
      ensures forall n :: n in d.used <==> n in old(d).used && n !in drop
      ensures old(Inv()) && MayGo(v, old(d), drop) ==> Inv()
      ensures old(Counted()) ==> Counted()
    {
      hide Sound, Unlisted, R.Killed, Covered, Calm, Slotted, SlotStep, Buried;
      ghost var d0 := d;
      BuriedNone(d);
      ghost var safe := Inv() && MayGo(v, d, drop);
      NothingKilled(d, drop);
      for i := 0 to |drop|
        invariant Shape() && old(trace) <= trace && (safe ==> Inv()) && (old(Counted()) ==> Counted())
        invariant d == R.Killed(d0, drop, i).(used := d.used, dead := d.dead)
        invariant Buried(d0.live, d0.dead, d.dead, drop[..i])
        invariant forall n :: n in d.used <==> n in d0.used && n !in drop[..i]
      {
        ghost var x := R.Killed(d0, drop, i);
        assert d.(used := x.used, dead := x.dead) == x;
        R.KilledNext(d0, drop, i);
        var n := drop[i];
        ghost var y := R.Killed(d0, drop, i + 1);
        var dead := d.dead[n := d.live[n].seqno];
        if safe {
          IndexWritten(v, d, x.used, x.dead, d.indexEof);
          R.KillSound(v, d0, drop, i);
          IndexWritten(v, y, d.used, dead, y.indexEof);
        }
        FewerCalm(v, d, d.(live := d.live - {n}, dead := dead));
        KillSlot(d, d.(live := d.live - {n}, dead := dead), n);
        ghost var was := d;
        if Counted() { CalmCovered(v, hard, d, d.(live := d.live - {n}, dead := dead)); }
        Write(d.(live := d.live - {n}, dead := dead));
        PutIndexBit(n, false);
        assert drop[..i + 1] == drop[..i] + [n];
        BuriedMore(d0.live, d0.dead, was.dead, drop[..i], n);
      }
      assert drop[..|drop|] == drop;
    }

    /** delete_file: its headers go, and then its clusters are free.  The disk stays
        sound where no directory has an entry for it, and only where no other has. */
    method DeleteFile(f: Fid, erase: bool)
      requires Inv() && Consistent(v, d) && Named(d, f)
      modifies this
      ensures Shape() && old(trace) <= trace && (old(Counted()) ==> Counted()) && Calm(v, old(d), d)
      ensures Unlisted(v, old(d), f) ==> Inv() && Consistent(v, d)
      ensures Sound(v, d) ==> UnlistedElsewhere(v, old(d), f)
      ensures forall g :: Named(d, g) <==> Named(old(d), g) && g != f
      ensures KeepsFiles(old(d), d, f) && KeepsDirs(v, old(d), d, f.num) && OldDirs(old(d), d, None)
      ensures forall but :: Conserved(old(d), but) ==> Conserved(d, but)
      ensures |d.bits| == |old(d).bits|
      ensures forall c | 0 <= c < |d.bits| && d.bits[c] :: old(d).bits[c] || Owned(old(d), c)
      ensures forall c :: Owned(d, c) ==> Owned(old(d), c)
      ensures forall n :: n in d.used <==> n in old(d).used && !HeaderOf(old(d), n, f)
      ensures forall n <- d.live :: n in old(d).live && d.live[n] == old(d).live[n]
      ensures Remembers(old(d), d)
      ensures if erase then Emptied(v, old(d), d, f) else d.data == old(d).data
    {
      hide Wiped, Emptied, Remembers, Buried, Slotted, SlotStep, Sound, Consistent, Chain, Unlisted, KeepsFiles,
           KeepsDirs, R.Killed, R.Severed, Conserved, R.ClustersOf, Owned, Disjoint, Held, Freed, Covered,
           UnlistedElsewhere, BlocksKept, Calm;
      var nums := Headers(f);
      R.ChainNoRepeats(d, f, nums);
      R.ChainStarts(d, f, nums);
      KeepsByHeaders(v, d, d, f.num);
      BlocksSelf(d, f);
      CalmSame(v, d, d);
      if erase {
        Erase(f, nums);
      }
      ghost var d0 := d;
      SameLive(old(d), d0, f, nums);
      R.ChainSevered(v, d, f, nums);
      ChainDetached(v, d, f, nums);
      HeldDisjoint(v, d);
      var cs := R.ClustersOf(d, nums);
      R.KilledFrees(d, nums);
      OwnedAlike(old(d), d);
      KillAll(nums);
      ghost var y := R.Killed(d0, nums, |nums|);
      R.KilledIs(d0, nums);
      assert d.(used := y.used, dead := y.dead) == y;
      UnownedStill(y, d, cs);
      if Inv() { IndexWritten(v, d, y.used, y.dead, y.indexEof); }
      Release(cs);
      RemembersIf(old(d), d, nums);
      if Unlisted(v, old(d), f) { DeletedConsistent(v, d0, nums, d, cs); }
      ChainGone(v, d0, f, nums, d);
      ChainNumbers(v, old(d), f, nums);
      if erase { EmptiedIf(v, old(d), d0, d, f, nums); }
      DeletedShown(v, old(d), d0, f, nums, d);
      FewerCalm(v, d0, d);
      CalmTrans(v, old(d), d0, d);
      DeletedKeeps(v, old(d), d0, f, nums, d);
      DeletedSpace(old(d), y, cs, d);
      forall but | Conserved(old(d), but)
        ensures Conserved(d, but)
      {
        ConservedSame(old(d), d0, but);
        ConservedFreed(d0, y, cs, d, but);
      }
    }

    // Every block of the file, before it goes.
    method Erase(f: Fid, nums: seq<int>)
      requires Inv() && Chain(d, f, nums) && R.AllLive(d, nums)
      modifies this
      ensures Inv() && old(trace) <= trace && d == old(d).(data := d.data)
      ensures Consistent(v, old(d)) ==> Consistent(v, d)
      ensures KeepsDirs(v, old(d), d, f.num) && BlocksKept(old(d), d, f) && (old(Counted()) ==> Counted())
      ensures Calm(v, old(d), d)
      ensures forall g :: Unlisted(v, old(d), g) ==> Unlisted(v, d, g)
      ensures Wiped(v, d, nums)
    {
      hide Sound, Consistent, Unlisted, KeepsDirs, Chain, BlocksKept, Covered, Calm, Slotted, SlotStep, Wiped, AllEmpty;
      ghost var d0 := d;
      BlocksSelf(d, f);
      CalmSame(v, d, d);
      KeepsByHeaders(v, d, d, f.num);
      NoneEmpty(v, d, []);
      for k := 0 to |nums|
        invariant Inv() && old(trace) <= trace && d == d0.(data := d.data)
        invariant Consistent(v, d0) ==> Consistent(v, d)
        invariant KeepsDirs(v, d0, d, f.num) && forall g :: Unlisted(v, d0, g) ==> Unlisted(v, d, g)
        invariant BlocksKept(d0, d, f) && (old(Counted()) ==> Counted()) && Calm(v, d0, d)
        invariant Wiped(v, d, nums[..k])
      {
        var at := d.live[nums[k]].at;
        NoneEmpty(v, d, []);
        for i := 0 to |at|
          invariant Inv() && old(trace) <= trace && d == d0.(data := d.data)
          invariant Consistent(v, d0) ==> Consistent(v, d)
          invariant KeepsDirs(v, d0, d, f.num) && forall g :: Unlisted(v, d0, g) ==> Unlisted(v, d, g)
          invariant BlocksKept(d0, d, f) && (old(Counted()) ==> Counted()) && Calm(v, d0, d)
          invariant Wiped(v, d, nums[..k]) && AllEmpty(d, at[..i], v)
        {
          assert at[..i + 1] == at[..i] + [at[i]];
          NoneEmpty(v, d, [at[i]]);
          for j := 0 to v
            invariant Inv() && old(trace) <= trace && d == d0.(data := d.data)
            invariant Consistent(v, d0) ==> Consistent(v, d)
            invariant KeepsDirs(v, d0, d, f.num) && forall g :: Unlisted(v, d0, g) ==> Unlisted(v, d, g)
            invariant BlocksKept(d0, d, f) && (old(Counted()) ==> Counted()) && Calm(v, d0, d)
            invariant Wiped(v, d, nums[..k]) && AllEmpty(d, at[..i], v) && AllEmpty(d, [at[i]], j)
          {
            ghost var x := d;
            ErasedCalm(v, d, at[i], j);
            if Counted() { CalmCovered(v, hard, d, Put(d, at[i], j, Block([], 0))); }
            PutBlock(at[i], j, Block([], 0));
            if Consistent(v, d0) { ConsistentData(v, x, d.data); }
            ErasedKeeps(v, d0, x, f, nums, k, at[i], j);
            ErasedBlocks(v, d0, x, f, nums, k, at[i], j);
            CalmTrans(v, d0, x, d);
            EmptyPut(v, x, d, nums[..k], at[..i], at[i], j);
            forall g | Unlisted(v, d0, g)
              ensures Unlisted(v, d, g)
            {
              ErasedUnlisted(v, x, at[i], j, g);
            }
          }
          EmptyJoin(d, at[..i], at[i], v);
        }
        assert at[..|at|] == at && nums[..k + 1] == nums[..k] + [nums[k]];
        WipedMore(v, d, nums[..k], nums[k]);
      }
      assert nums[..|nums|] == nums;
    }

    // The header the cut falls in; none where the file is no longer.
    method FindCut(f: Fid, nums: seq<int>, keep: nat) returns (k: nat)
      requires Inv() && Consistent(v, d) && Chain(d, f, nums)
      ensures k <= |nums|
      ensures k < |nums| ==> T.CutsAt(d, f, nums, k, keep) && keep < d.live[nums[k]].base + |d.live[nums[k]].at|
      ensures k == |nums| ==> d.live[nums[|nums| - 1]].base + |d.live[nums[|nums| - 1]].at| <= keep
    {
      hide Shown, Held, Disjoint, Ended, Numbered, OneLink;
      k := 0;
      assert Typed(d, nums[0]);
      while k < |nums| && d.live[nums[k]].base + |d.live[nums[k]].at| <= keep
        invariant k <= |nums| && (k < |nums| ==> d.live[nums[k]].base <= keep)
        invariant k > 0 ==> d.live[nums[k - 1]].base + |d.live[nums[k - 1]].at| <= keep
        modifies {}
      {
        assert Linked(d, d.live[nums[k]]);
        k := k + 1;
      }
    }

    /** truncate: the file keeps its first keep clusters; the header the cut
        falls in goes first, then the headers after it, and then the clusters
        are free. */
    method Truncate(f: Fid, keep: nat)
      requires Inv() && Consistent(v, d) && Named(d, f)
      modifies this
      ensures Inv() && Consistent(v, d) && old(trace) <= trace && (old(Counted()) ==> Counted()) && Calm(v, old(d), d)
      ensures forall g :: Named(d, g) <==> Named(old(d), g)
      ensures forall cs :: Maps(old(d), f, cs) ==> Maps(d, f, cs[..T.Min(keep, |cs|)])
      ensures KeepsFiles(old(d), d, f) && KeepsDirs(v, old(d), d, f.num) && OldDirs(old(d), d, None)
      ensures forall but :: Conserved(old(d), but) ==> Conserved(d, but)
      ensures Remembers(old(d), d)
    {
      hide Sound, Consistent, Chain, Maps, KeepsFiles, KeepsDirs, R.Killed, Conserved, T.Cut, T.CutsAt, Covered, Calm;
      ghost var d0 := d;
      var nums := Headers(f);
      var k := FindCut(f, nums, keep);
      ChainEnd(d, f, nums);
      if k == |nums| {
        WholeKept(v, d, f, nums, keep);
        KeepsByHeaders(v, d, d, f.num);
        CalmSame(v, d, d);
        return;
      }
      CutAt(f, nums, k, keep);
      ShorterMaps(v, d0, f, nums, k, keep, d);
      CutDirs(v, d0, f, nums, k, keep, d);
    }

    // The cut, in one header of the file.
    method CutAt(f: Fid, nums: seq<int>, k: nat, keep: nat)
      requires Inv() && Consistent(v, d) && T.CutsAt(d, f, nums, k, keep)
      modifies this
      ensures Inv() && Consistent(v, d) && old(trace) <= trace && (old(Counted()) ==> Counted())
      ensures forall g :: Named(d, g) <==> Named(old(d), g)
      ensures d.live == R.Killed(T.Cut(v, old(d), f, nums[k], keep), nums[k + 1..], |nums[k + 1..]|).live
      ensures d.data == old(d).data && Remembers(old(d), d)
      ensures forall but :: Conserved(old(d), but) ==> Conserved(d, but)
    {
      hide Remembers, Buried, Slotted, SlotStep, Sound, Consistent, Chain, R.Killed, R.Severed, R.Detached, Conserved,
           R.ClustersOf, Owned, Disjoint, Held, Freed, T.Cut, T.CutsAt, T.CutHeader, Vbn, Distinct, Covered, Calm;
      ghost var d0 := d;
      CutPlace(d, f, nums, k, keep);
      var h := d.live[nums[k]];
      WriteCut(f, nums, k, keep);
      ghost var x := d;
      T.CutSevered(v, d0, f, nums, k, keep);
      T.CutOwns(v, d0, f, nums, k, keep);
      var drop, tail := nums[k + 1..], h.at[keep - h.base..];
      DropFacts(v, x, drop);
      T.CutIs(v, d0, f, nums, k, keep);
      R.KilledFrees(x, drop);
      var cs := R.ClustersOf(d, drop);
      KillAll(drop);
      ghost var y := R.Killed(x, drop, |drop|);
      R.KilledIs(x, drop);
      IndexWritten(v, d, y.used, y.dead, y.indexEof);
      assert d.(used := y.used, dead := y.dead) == y;
      TailFree(x, y, drop, tail, cs);
      UnownedStill(y, d, tail + cs);
      Release(tail + cs);
      CutRemembers(v, d0, x, d, f, nums, k, keep);
      DeletedConsistent(v, x, drop, d, tail + cs);
      forall g
        ensures Named(d, g) <==> Named(d0, g)
      {
        T.CutNames(v, d0, f, nums, k, keep, g);
        DropNames(v, x, drop, d, g);
      }
      forall but | Conserved(d0, but)
        ensures Conserved(d, but)
      {
        OwnedParts(d0, x, y, tail, cs);
        ConservedFreed(d0, y, tail + cs, d, but);
      }
    }

    // The header the cut falls in, and the primary header's end of file.
    method WriteCut(f: Fid, nums: seq<int>, k: nat, keep: nat)
      requires Inv() && Consistent(v, d) && T.CutsAt(d, f, nums, k, keep)
      modifies this
      ensures Inv() && old(trace) <= trace && (old(Counted()) ==> Counted())
      ensures k < |nums| && nums[k] in old(d).live
      ensures old(d).live[nums[k]].base <= keep <= old(d).live[nums[k]].base + |old(d).live[nums[k]].at|
      ensures d == T.Cut(v, old(d), f, nums[k], keep)
    {
      hide Sound, Consistent, Chain, T.Cut, T.CutsAt, T.CutHeader, Vbn, Covered, Calm;
      ghost var d0 := d;
      CutPlace(d, f, nums, k, keep);
      var n := nums[k];
      var h := d.live[n];
      SoundOf(v, d);
      T.CutSound(v, d, f, n, keep);
      CutCalm(v, d, n, keep);
      if Counted() { CalmCovered(v, hard, d, d.(live := d.live[n := T.CutHeader(v, h, keep)])); }
      CutSeqno(v, h, keep);
      PutHeader(n, T.CutHeader(v, h, keep));
      CutWrites(v, d0, f, nums, k, keep);
      if k > 0 {
        var e := T.Min(d.live[f.num].eof, Vbn(v, keep, 0));
        EofCalm(v, d, f.num, e);
        if Counted() { CalmCovered(v, hard, d, d.(live := d.live[f.num := d.live[f.num].(eof := e)])); }
        PutHeader(f.num, d.live[f.num].(eof := e));
      }
    }

    // -------------------------------------------------------------------
    // Directories
    // -------------------------------------------------------------------

    /** read_dir: the directory's blocks. */
    method ReadDir(n: int) returns (bs: seq<Block>)
      requires Inv() && IsDir(v, d, n)
      ensures bs == DirBlocks(v, d, n)
    {
      hide Sound, Vbn, Quot, Rem, Parsed, DirBlocks;
      bs := [];
      for k := 0 to d.live[n].eof
        invariant |bs| == k && forall i | 0 <= i < k :: bs[i] == DirBlocks(v, d, n)[i]
      {
        BlockOf(v, d, n, k);
        bs := bs + [Parsed(BlockAt(d, n, Quot(k, v), Rem(k, v)))];
      }
    }

    // One block of the directory written over.
    method WriteInPlace(n: int, k: nat, b: Block)
      requires Inv() && Consistent(v, d) && IsDir(v, d, n) && k < d.live[n].eof && Good(d, b)
      modifies this
      ensures Inv() && old(trace) <= trace && DirOnly(v, old(d), d, n) && Atomic(v, trace, |old(trace)|, old(d), d)
      ensures IsDir(v, d, n) && DirBlocks(v, d, n) == DirBlocks(v, old(d), n)[k := Parsed(b)]
      ensures LayoutOf(v, d, n) == LayoutOf(v, old(d), n).(bs := DirBlocks(v, d, n))
    {
      hide Sound, Consistent, Vbn, Quot, Rem, Parsed, DirBlocks, DirOnly, Distinct, Good, Atomic, Quiet, Covered;
      BlockOf(v, d, n, k);
      HeldDisjoint(v, d);
      MapDistinct(d, n);
      PutInPlace(v, d, n, k, b);
      PutBlock(d.live[n].at[Quot(k, v)], Rem(k, v), b);
      SoundNow();
      PutOnly(v, old(d), n, Quot(k, v), Rem(k, v), b);
      QuietNone(v, trace, |old(trace)|, old(d));
      AtomicLast(v, trace, |old(trace)|, old(d));
    }

    lemma SoundNow()
      requires Inv()
      ensures Sound(v, d)
    {
    }

    // The end of file moved back.
    method CutBack(n: int)
      requires Inv() && Consistent(v, d) && IsDir(v, d, n) && d.live[n].eof > 0
      modifies this
      ensures Inv() && old(trace) <= trace && DirOnly(v, old(d), d, n) && IsDir(v, d, n)
      ensures Atomic(v, trace, |old(trace)|, old(d), d)
      ensures DirBlocks(v, d, n) == DirBlocks(v, old(d), n)[..old(d).live[n].eof - 1]
      ensures LayoutOf(v, d, n) == LayoutOf(v, old(d), n).(bs := DirBlocks(v, d, n))
    {
      hide Sound, Consistent, Vbn, DirBlocks, DirOnly, Atomic, Quiet, Covered;
      var eof := d.live[n].eof - 1;
      SoundOf(v, d);
      T.EofShrunk(v, d, n, eof);
      EofBlocks(v, d, n, eof);
      EofOnly(v, d, n, eof);
      PutHeader(n, d.live[n].(eof := eof));
      QuietNone(v, trace, |old(trace)|, old(d));
      AtomicLast(v, trace, |old(trace)|, old(d));
    }

    // A cluster more for the directory, right after its last one.
    method Lengthen(n: int) returns (ok: bool)
      requires Inv() && Consistent(v, d) && IsDir(v, d, n)
      modifies this
      ensures Inv() && old(trace) <= trace
      ensures !ok ==> d == old(d) && trace == old(trace)
      ensures ok ==> DirOnly(v, old(d), d, n) && IsDir(v, d, n) && DirBlocks(v, d, n) == DirBlocks(v, old(d), n)
      ensures ok ==> Quiet(v, trace, |old(trace)|, |trace|, old(d)) && Still(v, old(d), d)
      ensures ok ==> |d.live[n].at| == |old(d).live[n].at| + 1 && d.live[n].eof == old(d).live[n].eof
      ensures old(d).live[n].eof >= Vbn(v, |old(d).live[n].at|, 0) ==>
        Stretched(v, LayoutOf(v, old(d), n)) == if ok then Some(LayoutOf(v, d, n)) else None
    {
      hide Sound, Consistent, Vbn, DirBlocks, DirOnly, Bitmap.Chosen, Bitmap.HasRoom, Bitmap.Marked, Distinct, E.Fresh,
           E.Appends, Conserved, Lists, IsDir, BitsOnly, Quiet, Still, Covered, Stretched, Bitmap.AllFree;
      ghost var d0 := d;
      DirSays(v, d, n);
      var at := d.live[n].at;
      var next: Bitmap.Option<nat> := if at == [] then Bitmap.None else Bitmap.Some(at[|at| - 1] + 1);
      var take := Allocate(1, Bitmap.Whole, next);
      if take.None? {
        NotStretched(v, LayoutOf(v, d, n), next);
        ok := false;
        return;
      }
      var c := take.value[0].start;
      StretchedTo(v, LayoutOf(v, d0, n), next, take.value);
      TakenOne(v, d0, take.value);
      ghost var d1 := d;
      ghost var before := trace;
      BitsQuiet(v, trace, |old(trace)|, d0);
      ConsistentBits(v, d0, d1.bits);
      FreshOne(v, d0, d1, c);
      var done: bool;
      ghost var p: E.Plan;
      done, p := AppendRuns(Fid(n, d.live[n].seqno), [c], []);
      LongerDir(v, d0, d1, n, c);
      StillListed(v, d0, d, n);
      QuietThen(v, |old(trace)|, d0, before, trace);
      ok := true;
    }

    /** dir_append_block: one block longer, at no moment with a block that was not
        written. */
    method AppendBlockTo(n: int, b: Block) returns (ok: bool)
      requires Inv() && Consistent(v, d) && IsDir(v, d, n) && Good(d, b)
      modifies this
      ensures Inv() && old(trace) <= trace
      ensures !ok ==> d == old(d) && trace == old(trace)
      ensures ok ==>
        DirOnly(v, old(d), d, n) && IsDir(v, d, n) && DirBlocks(v, d, n) == DirBlocks(v, old(d), n) + [Parsed(b)]
      ensures ok <==> Stretched(v, LayoutOf(v, old(d), n)).Some?
      ensures ok ==> LayoutOf(v, d, n) == Stretched(v, LayoutOf(v, old(d), n)).value.(bs := DirBlocks(v, d, n))
      ensures ok ==> Atomic(v, trace, |old(trace)|, old(d), d)
    {
      hide Sound, Consistent, Vbn, Quot, Rem, DirBlocks, DirOnly, Distinct, Good, Parsed, IsDir, Conserved, Atomic,
           Quiet, Still, Covered, Lists;
      ghost var d0 := d;
      QuietNone(v, trace, |trace|, d0);
      StillSame(v, d0, d0);
      DirSays(v, d, n);
      DirOnlySelf(v, d, n);
      if d.live[n].eof >= Vbn(v, |d.live[n].at|, 0) {
        ok := Lengthen(n);
        if !ok {
          return;
        }
        DirOnlyKeeps(v, d0, d, n);
        GoodStill(v, d0, d, n, b);
      }
      ghost var d1 := d;
      DirSays(v, d, n);
      var eof := d.live[n].eof;
      ghost var before := trace;
      SpareBlock(v, d0, d1, n);
      HeldDisjoint(v, d);
      MapDistinct(d, n);
      PutBeyond(v, d, n, b);
      PutBlock(d.live[n].at[Quot(eof, v)], Rem(eof, v), b);
      SoundNow();
      PutOnly(v, d1, n, Quot(eof, v), Rem(eof, v), b);
      ghost var d2 := d;
      StillListed(v, d1, d2, n);
      StillTrans(v, d0, d1, d2);
      QuietThen(v, |old(trace)|, d0, before, trace);
      DirOnlyTrans(v, d0, d1, d2, n);
      DirOnlyKeeps(v, d1, d2, n);
      GoodStill(v, d1, d2, n, b);
      EofOver(v, d2, n, b);
      EofBlocks(v, d2, n, eof + 1);
      ghost var quiet := trace;
      PutHeader(n, d.live[n].(eof := eof + 1));
      SoundNow();
      EofOnly(v, d2, n, eof + 1);
      DirOnlyTrans(v, d0, d2, d, n);
      QuietMore(v, quiet, trace, |old(trace)|, |quiet|, d0);
      AtomicLast(v, trace, |old(trace)|, d0);
      ok := true;
    }

    // The blocks of the directory's new place, one after another.
    method WriteBlocks(n: int, at: seq<nat>, bs: seq<Block>)
      requires Inv() && Consistent(v, d) && IsDir(v, d, n) && Distinct(at) && (forall c <- at :: !Owned(d, c))
      requires |bs| <= Vbn(v, |at|, 0) && forall k | 0 <= k < |bs| :: Good(d, bs[k])
      modifies this
      ensures Inv() && old(trace) <= trace && d == old(d).(data := d.data) && Consistent(v, d)
      ensures Written(v, d, at, bs) && forall m, r :: Lists(v, d, m, r) <==> Lists(v, old(d), m, r)
      ensures Still(v, old(d), d) && Quiet(v, trace, |old(trace)|, |trace|, old(d))
    {
      hide Sound, Consistent, Vbn, Quot, Rem, Distinct, Good, Lists, Owned, IsDir, Written, Still, Quiet, Covered;
      ghost var d0 := d;
      StillSame(v, d, d);
      QuietNone(v, trace, |trace|, d);
      assert bs[..0] == [];
      VPositive(v, d, n);
      NothingWritten(v, d, at);
      for k := 0 to |bs|
        invariant Inv() && old(trace) <= trace && d == d0.(data := d.data) && Consistent(v, d)
        invariant Written(v, d, at, bs[..k]) && forall m, r :: Lists(v, d, m, r) <==> Lists(v, d0, m, r)
        invariant Still(v, d0, d) && Quiet(v, trace, |old(trace)|, |trace|, d0)
      {
        ghost var x := d;
        ghost var before := trace;
        WrittenMore(v, d, at, bs, k);
        GoodSame(d0, d, bs[k]);
        var c := at[Quot(k, v)];
        assert c in at;
        PutBlock(c, Rem(k, v), bs[k]);
        SoundNow();
        ConsistentData(v, x, d.data);
        StillPut(v, d0, x, c, Rem(k, v), bs[k]);
        StillTrans(v, d0, x, d);
        QuietThen(v, |old(trace)|, d0, before, trace);
        forall m, r
          ensures Lists(v, d, m, r) <==> Lists(v, x, m, r)
        {
          PutUnowned(v, d0, x, m, c, Rem(k, v), bs[k], r);
        }
      }
      assert bs[..|bs|] == bs;
    }

    /** dir_rewrite: other blocks in other clusters, one after another, and the old
        clusters free in the end.  It fails, changing nothing, just where there is no
        such space. */
    method RewriteDir(n: int, bs: seq<Block>) returns (ok: bool)
      requires Inv() && Consistent(v, d) && IsDir(v, d, n) && forall k | 0 <= k < |bs| :: Good(d, bs[k])
      modifies this
      ensures Inv() && old(trace) <= trace
      ensures ok <==> RunFrom(old(d).bits, Clusters(v, |bs|), 0).Some?
      ensures !ok ==> d == old(d) && trace == old(trace)
      ensures ok ==> DirOnly(v, old(d), d, n) && IsDir(v, d, n) && DirBlocks(v, d, n) == ParsedAll(bs)
      ensures ok ==> Carried(v, LayoutOf(v, old(d), n), Rewrite(bs)) == Some(LayoutOf(v, d, n))
      ensures ok ==> Atomic(v, trace, |old(trace)|, old(d), d)
    {
      hide Sound, Consistent, Vbn, Quot, Rem, Distinct, Good, Lists, Owned, IsDir, Written, DirBlocks, DirOnly,
           Conserved, Freed, Bitmap.Chosen, Bitmap.HasRoom, Bitmap.Marked, ClustersOf, Moved, KeepsDirs, Atomic, Quiet,
           Still, BitsOnly, Covered, RunFrom, Relocated, Span, Bitmap.AllFree;
      ghost var d0 := d;
      DirSays(v, d, n);
      VPositive(v, d, n);
      var blocks := if |bs| + |bs| / 4 > 1 then |bs| + |bs| / 4 else 1;
      var want := (blocks + v - 1) / v;
      SomeWanted(v, blocks);
      var take := Allocate(want, Bitmap.Whole, Bitmap.None);
      RunChosen(d0.bits, take, want, d0.live[n].at);
      if take.None? {
        ok := false;
        return;
      }
      var at := ClustersOf(take.value);
      TakenFresh(v, d0, take.value, want);
      EnoughRoom(v, |bs|, blocks, want, |at|);
      ConsistentBits(v, d0, d.bits);
      ghost var d1 := d;
      ghost var t1 := trace;
      IsDirSame(v, d0, d1, n);
      forall k | 0 <= k < |bs|
        ensures Good(d1, bs[k])
      {
        GoodSame(d0, d1, bs[k]);
      }
      WriteBlocks(n, at, bs);
      ghost var d2 := d;
      ghost var t2 := trace;
      IsDirSame(v, d1, d2, n);
      UnownedIn(d1, d2, at);
      forall k | 0 <= k < |bs|
        ensures Good(d2, bs[k])
      {
        GoodSame(d1, d2, bs[k]);
      }
      var was := d.live[n].at;
      MoveSound(v, d2, n, at, bs);
      MovedBlocks(v, d2, n, at, bs);
      MoveOnly(v, d2, n, at, |bs|);
      MovedIs(d2, n, at, |bs|);
      PutHeader(n, d.live[n].(at := at, ext := None, eof := |bs|));
      ghost var d3 := d;
      ghost var t3 := trace;
      OldFree(v, d2, n, at, |bs|);
      Release(was);
      SoundNow();
      RewriteAtomic(v, |old(trace)|, d0, d1, d2, d3, d, t1, t2, t3, trace);
      RewriteOnly(v, d0, d1, d2, d3, d, n, take.value, want, at, |bs|, was);
      ok := true;
    }

    // The writes of a plan, whichever it is.
    method Apply(n: int, bs: seq<Block>, plan: Directory.Plan) returns (ok: bool)
      requires Inv() && Consistent(v, d) && IsDir(v, d, n) && bs == DirBlocks(v, d, n) && Applies(bs, plan)
      requires forall e :: HasEntry(Flat(After(bs, plan)), e) ==> Named(d, e.fid)
      modifies this
      ensures Inv() && old(trace) <= trace
      ensures !ok ==> d == old(d) && trace == old(trace) && !plan.InPlace?
      ensures ok ==> DirOnly(v, old(d), d, n) && IsDir(v, d, n) && DirBlocks(v, d, n) == ParsedAll(After(bs, plan))
      ensures Carried(v, LayoutOf(v, old(d), n), plan) == if ok then Some(LayoutOf(v, d, n)) else None
      ensures ok ==> Atomic(v, trace, |old(trace)|, old(d), d)
    {
      hide Sound, Consistent, Vbn, IsDir, DirBlocks, DirOnly, Good, Flat, HasEntry, Parsed, Atomic, Covered, Stretched,
           RunFrom, Clusters;
      DirParsed(v, d, n);
      DirSays(v, d, n);
      var now := After(bs, plan);
      match plan {
        case InPlace(b, blk) =>
          AllGood(d, now, b);
          ParsedWith(bs, b, blk);
          WriteInPlace(n, b, blk);
          ok := true;
        case CutLast =>
          ParsedCut(bs);
          CutBack(n);
          ok := true;
        case AppendBlock(blk) =>
          AllGood(d, now, |bs|);
          ParsedMore(bs, blk);
          ok := AppendBlockTo(n, blk);
        case Rewrite(all) =>
          forall k | 0 <= k < |all|
            ensures Good(d, all[k])
          {
            AllGood(d, all, k);
          }
          ok := RewriteDir(n, all);
      }
    }

    // The update worked out with or without a block more, and written if it can be.
    method Attempt(n: int, bs: seq<Block>, name: seq<Char16>, edit: Edit, more: bool) returns (r: DirResult)
      requires Inv() && Consistent(v, d) && IsReadable(v, d, n) && |name| <= MAX_NAME && bs == DirBlocks(v, d, n)
      requires Descending(Entries(Flat(bs), name)) && (edit.Add? ==> Named(d, edit.fid))
      modifies this
      ensures Inv() && old(trace) <= trace
      ensures !r.Entered? ==> d == old(d) && trace == old(trace)
      ensures r.Entered? ==> Atomic(v, trace, |old(trace)|, old(d), d)
      ensures r.AlreadyThere? <==> edit.Add? && Has(Entries(Flat(bs), name), edit.version)
      ensures r.NotThere? <==> edit.Remove? && !Has(Entries(Flat(bs), name), edit.version)
      ensures r.Entered? ==> DirOnly(v, old(d), d, n) && IsReadable(v, d, n)
      ensures Roomy(bs, name, |Changed(Entries(Flat(bs), name), edit)|) ==>
        !r.NoSpace? && (r.Entered? ==> |DirBlocks(v, d, n)| == 1)
      ensures r.Entered? || r.NoSpace? ==>
        Tried(v, LayoutOf(v, old(d), n), name, edit, more) == if r.Entered? then Some(LayoutOf(v, d, n)) else None
      ensures r.Entered? ==> Listed(Flat(bs), Flat(DirBlocks(v, d, n)), name, Changed(Entries(Flat(bs), name), edit))
      ensures r.Entered? ==> Styled(Flat(bs), Flat(DirBlocks(v, d, n)), name, edit)
    {
      hide Styled, PlanFor, NewRecords, Carried, Sound, Consistent, Vbn, IsDir, DirBlocks, DirOnly, Good, Flat,
           HasEntry, Listed, Readable, Entries, Descending, Applies, Has, Encodes, Proper, IsReadable, Atomic, Covered,
           Roomy;
      DirOf(v, d, n);
      ghost var k := |Changed(Entries(Flat(bs), name), edit)|;
      if Roomy(bs, name, k) { RoomyOne(bs, name, k); }
      var o := Update(bs, name, edit, more);
      if o.Exists? {
        return AlreadyThere;
      }
      if o.NotFound? {
        return NotThere;
      }
      Welcome(v, d, n, bs, o.plan, name, edit);
      var ok := Apply(n, bs, o.plan);
      FlatParsed(After(bs, o.plan));
      if ok {
        ReadAgain(v, d, n, bs, o.plan, name, edit);
        DirOf(v, d, n);
        SameLength(bs, o.plan);
      }
      r := if ok then Entered else NoSpace;
    }

    /** dir_update, of one version of one name: the listing changes exactly by
        that, in one write, nothing else on the volume does, and after every
        write of it each entry names a file that is there.  It fails, changing
        nothing, where the version is there already, or is not, or just where
        Updated finds no space, which there always is in a directory of one block
        with room in it, and so for a removal. */
    method DirUpdate(n: int, name: seq<Char16>, edit: Edit) returns (r: DirResult)
      requires Inv() && Consistent(v, d) && IsReadable(v, d, n) && |name| <= MAX_NAME
      requires Descending(Entries(Flat(DirBlocks(v, d, n)), name)) && (edit.Add? ==> Named(d, edit.fid))
      modifies this
      ensures Inv() && old(trace) <= trace
      ensures !r.Entered? ==> d == old(d) && trace == old(trace)
      ensures r.Entered? ==> Atomic(v, trace, |old(trace)|, old(d), d)
      ensures r.Entered? && old(Counted()) && Covered(v, hard, d) ==> Counted()
      ensures r.AlreadyThere? <==> edit.Add? && Has(Entries(Flat(DirBlocks(v, old(d), n)), name), edit.version)
      ensures r.NotThere? <==> edit.Remove? && !Has(Entries(Flat(DirBlocks(v, old(d), n)), name), edit.version)
      ensures r.Entered? ==> DirOnly(v, old(d), d, n) && IsReadable(v, d, n)
      ensures Roomy(DirBlocks(v, old(d), n), name, |Changed(Entries(Flat(DirBlocks(v, old(d), n)), name), edit)|) ==>
        !r.NoSpace? && (r.Entered? ==> |DirBlocks(v, d, n)| == 1)
      ensures edit.Remove? && |DirBlocks(v, old(d), n)| == 1 ==>
        !r.NoSpace? && (r.Entered? ==> |DirBlocks(v, d, n)| == 1)
      ensures r.Entered? || r.NoSpace? ==>
        Updated(v, LayoutOf(v, old(d), n), name, edit) == if r.Entered? then Some(LayoutOf(v, d, n)) else None
      ensures r.Entered? ==> var was := Flat(DirBlocks(v, old(d), n));
        && Listed(was, Flat(DirBlocks(v, d, n)), name, Changed(Entries(was, name), edit))
        && Styled(was, Flat(DirBlocks(v, d, n)), name, edit)
    {
      hide Styled, Updated, Tried, Sound, Consistent, IsDir, DirBlocks, DirOnly, Flat, Listed, Entries, Descending, Has,
           IsReadable, Atomic, Covered, Roomy;
      DirOf(v, d, n);
      var bs := ReadDir(n);
      if edit.Remove? && |bs| == 1 { RemovedFits(v, d, n, name, edit.version); }
      TriedEither(v, LayoutOf(v, d, n), name, edit);
      r := Attempt(n, bs, name, edit, true);
      if r.NoSpace? {
        r := Attempt(n, bs, name, edit, false);
      }
      if r.Entered? && old(Counted()) && Covered(v, hard, d) { AtomicCovered(v, hard, old(trace), trace, old(d), d); }
    }
  }

  // The update, if the file could be a block longer or not.
  function Tried(v: nat, t: Layout, name: seq<Char16>, edit: Edit, more: bool): Option<Layout>
    requires v > 0 && |name| <= MAX_NAME
  {
    var rs := NewRecords(Flat(t.bs), name, edit);
    PlanApplies(t.bs, name, rs, more);
    Carried(v, t, PlanFor(t.bs, name, rs, more))
  }

  lemma TriedEither(v: nat, t: Layout, name: seq<Char16>, edit: Edit)
    requires v > 0 && |name| <= MAX_NAME
    ensures Updated(v, t, name, edit) ==
      if Tried(v, t, name, edit, true).Some? then Tried(v, t, name, edit, true) else Tried(v, t, name, edit, false)
  {
    hide PlanFor, NewRecords, Flat, Stretched, Clusters, RunFrom;
    var rs := NewRecords(Flat(t.bs), name, edit);
    PlanApplies(t.bs, name, rs, true);
    PlanApplies(t.bs, name, rs, false);
    PlanEither(t.bs, name, rs);
  }

  // Room in one piece is the first run of clusters there is.
  lemma RunChosen(bits: seq<bool>, take: Bitmap.Option<seq<Bitmap.Piece>>, want: nat, was: seq<nat>)
    requires want > 0 && (take.Some? <==> Bitmap.HasRoom(bits, want, Bitmap.Whole, Bitmap.None))
    requires take.Some? ==> Bitmap.Chosen(bits, take.value, want) && |take.value| == 1
    requires take.Some? ==> forall s | Bitmap.AllFree(bits, s, want) :: take.value[0].start <= s
    ensures take.None? ==> RunFrom(bits, want, 0).None?
    ensures take.Some? ==> var s := take.value[0].start;
      && RunFrom(bits, want, 0) == Some(s) && ClustersOf(take.value) == Span(s, want)
      && Freed(Bitmap.Marked(bits, take.value, false), was) == Relocated(bits, s, want, was)
  {
    hide Bitmap.AllFree, RunFrom;
    if take.Some? {
      var p := take.value[0];
      assert take.value == [p] && take.value[1..] == [] && p in take.value;
      assert Bitmap.Sum(take.value) == p.len + Bitmap.Sum([]);
      RunIs(bits, want, p.start);
      forall c | 0 <= c < |bits|
        ensures Freed(Bitmap.Marked(bits, take.value, false), was)[c] == Relocated(bits, p.start, want, was)[c]
      {
        OnlyIn(p, c);
      }
    }
  }

  lemma OnlyIn(p: Bitmap.Piece, c: int)
    ensures Bitmap.InAny([p], c) <==> p.start <= c < p.start + p.len
  {
    assert [p][0] == p;
  }

  lemma NotStretched(v: nat, t: Layout, next: Bitmap.Option<nat>)
    requires next == if t.at == [] then Bitmap.None else Bitmap.Some(t.at[|t.at| - 1] + 1)
    requires !Bitmap.HasRoom(t.bits, 1, Bitmap.Whole, next)
    ensures |t.bs| >= Vbn(v, |t.at|, 0) ==> Stretched(v, t).None?
  {
    hide Vbn, RunFrom;
  }

  lemma StretchedTo(v: nat, t: Layout, next: Bitmap.Option<nat>, take: seq<Bitmap.Piece>)
    requires next == if t.at == [] then Bitmap.None else Bitmap.Some(t.at[|t.at| - 1] + 1)
    requires Bitmap.HasRoom(t.bits, 1, Bitmap.Whole, next) && Bitmap.Chosen(t.bits, take, 1) && |take| == 1
    requires if next.Some? then take[0].start == next.value
             else forall s | Bitmap.AllFree(t.bits, s, 1) :: take[0].start <= s
    ensures var c := take[0].start; c < |t.bits| && (|t.bs| >= Vbn(v, |t.at|, 0) ==>
      Stretched(v, t) == Some(t.(bits := t.bits[c := false], at := t.at + [c])))
  {
    hide Vbn, RunFrom;
    assert take[0] in take && take == [take[0]] && take[0].len == 1;
    if next.None? { RunIs(t.bits, 1, take[0].start); }
  }

  lemma SomeWanted(v: nat, blocks: nat)
    requires v > 0 && blocks > 0
    ensures (blocks + v - 1) / v > 0
  {
  }

  lemma SameLength(bs: seq<Block>, plan: Directory.Plan)
    requires Applies(bs, plan)
    ensures plan.InPlace? ==> |After(bs, plan)| == |bs|
  {
  }

  lemma RemovedFits(v: nat, d: Disk, n: int, name: seq<Char16>, version: int)
    requires IsReadable(v, d, n) && |DirBlocks(v, d, n)| == 1 && Descending(Entries(Flat(DirBlocks(v, d, n)), name))
    ensures var es := Entries(Flat(DirBlocks(v, d, n)), name); Has(es, version) ==>
      Roomy(DirBlocks(v, d, n), name, |Without(es, version)|)
  {
    hide IsDir, DirBlocks, Flat, Entries, Readable, Descending, Roomy;
    var es := Entries(Flat(DirBlocks(v, d, n)), name);
    if Has(es, version) {
      WithoutOrders(es, version);
      RemovalFits(DirBlocks(v, d, n), name);
    }
  }

  // No entry names the file whose headers these are, if one is its first.
  ghost predicate MayGo(v: nat, d: Disk, drop: seq<int>) {
    drop != [] && drop[0] in d.live && d.live[drop[0]].seg == 0 ==> Unlisted(v, d, Fid(drop[0], d.live[drop[0]].seqno))
  }

  // Where the count covers the entries before and after, it does all the while.
  lemma AtomicCovered(v: nat, hard: bool, was: seq<Disk>, run: seq<Disk>, d: Disk, now: Disk)
    requires Atomic(v, run, |was|, d, now) && was <= run && (forall x <- was :: Covered(v, hard, x))
    requires Covered(v, hard, d) && Covered(v, hard, now)
    ensures forall x <- run :: Covered(v, hard, x)
  {
    hide Covered, Still;
    var m: nat :| Quiet(v, run, |was|, m, d) && Quiet(v, run, m, |run|, now);
    forall i | 0 <= i < |run|
      ensures Covered(v, hard, run[i])
    {
      if i < |was| {
        assert run[i] == was[i];
      } else if i < m {
        StillCovered(v, hard, d, run[i]);
      } else {
        StillCovered(v, hard, now, run[i]);
      }
    }
  }

  lemma StillCovered(v: nat, hard: bool, d: Disk, now: Disk)
    requires Still(v, d, now) && Covered(v, hard, d)
    ensures Covered(v, hard, now)
  {
    hide Covered, Calm, SameListings;
    CalmCovered(v, hard, d, now);
  }

  // A file number free to take: the low half of a number is never 0.
  predicate Vacancy(d: Disk, n: int) { n % 0x1_0000 != 0 && n !in d.used && n !in d.live }

  /** The file numbers past the reserved ones that are free to take. */
  ghost function Vacancies(d: Disk, reserved: int, maxFiles: int): set<int> {
    set n | reserved < n <= maxFiles && Vacancy(d, n)
  }

  ghost function NumsOf(ids: seq<Fid>): set<int> { set i | 0 <= i < |ids| :: ids[i].num }

  lemma NumbersMore(ids: seq<Fid>, f: Fid)
    ensures NumsOf(ids + [f]) == NumsOf(ids) + {f.num}
  {
    var more := ids + [f];
    forall n
      ensures n in NumsOf(more) <==> n in NumsOf(ids) || n == f.num
    {
      if n in NumsOf(ids) {
        var i :| 0 <= i < |ids| && ids[i].num == n;
        assert more[i].num == n;
      }
      assert more[|ids|].num == f.num;
    }
  }

  lemma NumberTaken(vacant: set<int>, ids: seq<Fid>, f: Fid)
    requires NumsOf(ids) <= vacant && f.num in vacant - NumsOf(ids)
    ensures NumsOf(ids + [f]) <= vacant && |NumsOf(ids + [f])| == |NumsOf(ids)| + 1
    ensures vacant - NumsOf(ids + [f]) == vacant - NumsOf(ids) - {f.num}
    ensures forall used: set<int> :: used + NumsOf(ids + [f]) == used + NumsOf(ids) + {f.num}
  {
    hide NumsOf;
    NumbersMore(ids, f);
  }

  lemma NumbersUsed(d: Disk, now: Disk, ids: seq<Fid>, f: Fid)
    requires NewNumbers(d, ids) && f.num !in d.used && now.live == d.live && now.indexEof >= d.indexEof
    requires now.used == d.used + {f.num} && f.num !in d.live && 0 < f.num < now.indexEof
    requires now.dead == d.dead && f.seqno == Fresh(now, f.num)
    ensures f.num !in NumsOf(ids) && NewNumbers(now, ids + [f])
  {
  }

  lemma NoNumbers(d: Disk)
    ensures NewNumbers(d, []) && NumsOf([]) == {}
  {
  }

  lemma NoVacancies(d: Disk, lo: int, hi: int)
    requires forall n | lo < n <= hi :: !Vacancy(d, n)
    ensures Vacancies(d, lo, hi) == {}
  {
  }

  lemma VacancyTaken(d: Disk, now: Disk, lo: int, hi: int, n: int)
    requires now.live == d.live && now.used == d.used + {n} && Vacancy(d, n) && lo < n <= hi
    ensures n in Vacancies(d, lo, hi) && Vacancies(now, lo, hi) == Vacancies(d, lo, hi) - {n}
  {
  }

  // The slot the next header goes in is empty, and the last header's is not.
  lemma ExtSlot(v: nat, d: Disk, p: E.Plan, i: nat)
    requires E.Ready(v, d, p) && p.last in d.live && i <= |p.chunks| == |p.ids|
    ensures var x := E.WithExts(d, p, i);
      && x.dead == d.dead && p.last in x.live && x.live[p.last].seqno == d.live[p.last].seqno
      && (i > 0 ==> p.ids[i - 1].num !in x.live && Slots.Fresh(x, p.ids[i - 1].num) == Slots.Fresh(d, p.ids[i - 1].num))
  {
    hide Consistent, E.Fresh, E.WithExts, E.ExtHeader, E.Total;
    E.ExtsAre(d, p, i);
  }

  // A header goes, leaving its number.
  lemma KillSlot(d: Disk, now: Disk, n: int)
    requires n in d.live && now == d.(live := d.live - {n}, dead := now.dead)
    requires now.dead == d.dead[n := d.live[n].seqno]
    ensures SlotStep(d, now)
  {
  }

  lemma RemembersIf(d: Disk, now: Disk, drop: seq<int>)
    requires Buried(d.live, d.dead, now.dead, drop) && forall n :: n in now.live <==> n in d.live && n !in drop
    ensures Remembers(d, now)
  {
  }

  lemma BuriedNone(d: Disk)
    ensures Buried(d.live, d.dead, d.dead, [])
  {
  }

  lemma BuriedMore(live: map<int, Header>, was: map<int, int>, dead: map<int, int>, drop: seq<int>, n: int)
    requires Buried(live, was, dead, drop) && n in live && n !in drop
    ensures Buried(live, was, dead[n := live[n].seqno], drop + [n])
  {
  }

  lemma AppendedUsed(v: nat, d: Disk, p: E.Plan)
    requires E.Ready(v, d, p) && p.last in d.live && |p.chunks| == |p.ids|
    ensures E.Appended(d, p).used == d.used
  {
    hide Consistent, E.Fresh, E.Appended, E.ExtHeader, E.Total;
    E.AppendedIs(v, d, p);
  }

  /** One past the sequence number the slot had, never 0. */
  function NextSeqno(d: Disk, n: int): (s: int)
    ensures 0 < s < 0x1_0000 && (n in d.dead ==> s != d.dead[n])
  {
    if n !in d.dead || (d.dead[n] + 1) % 0x1_0000 == 0 then 1 else (d.dead[n] + 1) % 0x1_0000
  }

  // So many blocks of each of the clusters are empty.
  ghost predicate AllEmpty(d: Disk, cs: seq<nat>, n: nat) {
    forall c <- cs, j: nat | j < n :: (c, j) in d.data && d.data[(c, j)] == Block([], 0)
  }

  /** All blocks of the headers' clusters are empty. */
  ghost predicate Wiped(v: nat, d: Disk, nums: seq<int>) {
    forall n <- nums :: n in d.live && AllEmpty(d, d.live[n].at, v)
  }

  /** So are the file's, wherever they were. */
  ghost predicate Emptied(v: nat, d: Disk, now: Disk, f: Fid) {
    forall n | HeaderOf(d, n, f) :: AllEmpty(now, d.live[n].at, v)
  }

  lemma EmptiedIf(v: nat, d: Disk, x: Disk, now: Disk, f: Fid, nums: seq<int>)
    requires Wiped(v, x, nums) && x.live == d.live && now.data == x.data && forall n :: HeaderOf(d, n, f) <==> n in nums
    ensures Emptied(v, d, now, f)
  {
  }

  lemma NoneEmpty(v: nat, d: Disk, cs: seq<nat>)
    ensures AllEmpty(d, [], v) && AllEmpty(d, cs, 0) && Wiped(v, d, [])
  {
  }

  // One block more.
  lemma EmptyPut(v: nat, d: Disk, now: Disk, nums: seq<int>, cs: seq<nat>, c: nat, j: nat)
    requires now == d.(data := d.data[(c, j) := Block([], 0)])
    ensures Wiped(v, d, nums) ==> Wiped(v, now, nums)
    ensures (AllEmpty(d, cs, v) ==> AllEmpty(now, cs, v)) && (AllEmpty(d, [c], j) ==> AllEmpty(now, [c], j + 1))
  {
  }

  lemma EmptyJoin(d: Disk, cs: seq<nat>, c: nat, n: nat)
    requires AllEmpty(d, cs, n) && AllEmpty(d, [c], n)
    ensures AllEmpty(d, cs + [c], n)
  {
  }

  lemma WipedMore(v: nat, d: Disk, nums: seq<int>, n: int)
    requires Wiped(v, d, nums) && n in d.live && AllEmpty(d, d.live[n].at, v)
    ensures Wiped(v, d, nums + [n])
  {
  }

  datatype DirResult = Entered | AlreadyThere | NotThere | NoSpace

  lemma DirOf(v: nat, d: Disk, n: int)
    requires IsReadable(v, d, n)
    ensures IsDir(v, d, n) && Readable(DirBlocks(v, d, n))
    ensures forall b <- DirBlocks(v, d, n), r <- b.recs :: |r.name| <= MAX_NAME
  {
  }

  // Every entry of the updated directory is a file's.
  lemma Welcome(v: nat, d: Disk, n: int, bs: seq<Block>, plan: Directory.Plan, name: seq<Char16>, edit: Edit)
    requires Consistent(v, d) && IsDir(v, d, n) && bs == DirBlocks(v, d, n) && Applies(bs, plan)
    requires edit.Add? ==> Named(d, edit.fid)
    requires Listed(Flat(bs), Flat(After(bs, plan)), name, Changed(Entries(Flat(bs), name), edit))
    ensures forall e :: HasEntry(Flat(After(bs, plan)), e) ==> Named(d, e.fid)
  {
    hide Sound, Consistent, IsDir, DirBlocks, Flat, HasEntry, Listed, Entries, Applies;
    SoundOf(v, d);
    forall e | HasEntry(Flat(After(bs, plan)), e)
      ensures Named(d, e.fid)
    {
      NoStrangers(Flat(bs), Flat(After(bs, plan)), name, edit, e);
      if HasEntry(Flat(bs), e) { EntriesNamed(v, d, n, e); }
    }
  }

  lemma ReadAgain(v: nat, d: Disk, n: int, bs: seq<Block>, plan: Directory.Plan, name: seq<Char16>, edit: Edit)
    requires IsDir(v, d, n) && Applies(bs, plan) && DirBlocks(v, d, n) == ParsedAll(After(bs, plan))
    requires Listed(Flat(bs), Flat(After(bs, plan)), name, Changed(Entries(Flat(bs), name), edit))
    requires forall b <- After(bs, plan) :: Encodes(b) && Proper(b)
    ensures IsReadable(v, d, n)
  {
    hide IsDir, DirBlocks, Flat, Entries, Applies, Encodes, Proper, IsReadable, Sorted;
    ReadableAgain(v, d, n, After(bs, plan));
  }

  lemma ParsedCut(bs: seq<Block>)
    requires bs != [] && ParsedAll(bs) == bs
    ensures ParsedAll(bs[..|bs| - 1]) == bs[..|bs| - 1]
  {
    var l := bs[..|bs| - 1];
    forall i | 0 <= i < |l|
      ensures Parsed(l[i]) == l[i]
    {
      assert ParsedAll(bs)[i] == bs[i];
    }
  }

  lemma ParsedMore(bs: seq<Block>, b: Block)
    requires ParsedAll(bs) == bs
    ensures ParsedAll(bs + [b]) == bs + [Parsed(b)]
  {
    hide Parsed;
    forall i | 0 <= i < |bs| + 1
      ensures ParsedAll(bs + [b])[i] == (bs + [Parsed(b)])[i]
    {
      if i < |bs| { assert ParsedAll(bs)[i] == bs[i]; }
    }
  }

  lemma VPositive(v: nat, d: Disk, n: int)
    requires IsDir(v, d, n)
    ensures v > 0
  {
  }

  lemma NothingWritten(v: nat, d: Disk, at: seq<nat>)
    requires v > 0
    ensures Written(v, d, at, [])
  {
  }

  lemma GoodSame(d: Disk, d': Disk, b: Block)
    requires Good(d, b) && d'.live == d.live
    ensures Good(d', b)
  {
  }

  lemma PutUnowned(v: nat, d0: Disk, d: Disk, m: int, c: nat, j: nat, b: Block, r: Rec)
    requires d.live == d0.live && !Owned(d0, c)
    ensures Lists(v, Put(d, c, j, b), m, r) <==> Lists(v, d, m, r)
  {
    hide Lists;
    if m in d.live {
      PutElsewhere(v, d, m, c, j, b);
    } else {
      NoLists(v, d, m, r);
      NoLists(v, Put(d, c, j, b), m, r);
    }
  }

  lemma ListingsPut(v: nat, d0: Disk, d: Disk, c: nat, j: nat, b: Block)
    requires d.live == d0.live && !Owned(d0, c)
    ensures SameListings(v, d, Put(d, c, j, b))
  {
    hide IsDir, DirBlocks;
    forall m | IsDir(v, d, m)
      ensures IsDir(v, Put(d, c, j, b), m) && DirBlocks(v, Put(d, c, j, b), m) == DirBlocks(v, d, m)
    {
      DirSays(v, d, m);
      BlocksElsewhere(v, d, m, c, j, b);
    }
  }

  lemma StillPut(v: nat, d0: Disk, d: Disk, c: nat, j: nat, b: Block)
    requires d.live == d0.live && !Owned(d0, c)
    ensures Still(v, d, Put(d, c, j, b))
  {
    hide SameListings, Lists, Owned;
    ListingsPut(v, d0, d, c, j, b);
    forall n, r | Lists(v, Put(d, c, j, b), n, r)
      ensures Lists(v, d, n, r) && n in d.live
    {
      PutUnowned(v, d0, d, n, c, j, b, r);
      ListsLive(v, d, n, r);
    }
  }

  lemma UnownedNowhere(d: Disk, c: nat)
    requires !Owned(d, c)
    ensures forall m <- d.live :: c !in d.live[m].at
  {
  }

  lemma NoLists(v: nat, d: Disk, m: int, r: Rec)
    requires m !in d.live
    ensures !Lists(v, d, m, r)
  {
  }

  // What is allocated was free, so no header maps it.
  lemma TakenFresh(v: nat, d: Disk, take: seq<Bitmap.Piece>, want: nat)
    requires Consistent(v, d) && Bitmap.Chosen(d.bits, take, want)
    ensures var cs, now := ClustersOf(take), d.(bits := Bitmap.Marked(d.bits, take, false));
      && Distinct(cs) && |cs| == want && (forall c <- cs ::
                                            c < |d.bits| && d.bits[c] && !now.bits[c] && !Owned(d, c) && !Owned(now, c))
      && (forall c | 0 <= c < |d.bits| && c !in cs :: now.bits[c] == d.bits[c])
  {
    hide Shown, Links, Disjoint, Numbered, AllTyped, OneLink, Ended, Distinct, ClustersOf, Bitmap.InAny;
    var cs, now := ClustersOf(take), d.(bits := Bitmap.Marked(d.bits, take, false));
    ClustersDistinct(take);
    ClustersSize(take);
    forall c | c in cs
      ensures c < |d.bits| && d.bits[c] && !now.bits[c] && !Owned(d, c) && !Owned(now, c)
    {
      ClustersIn(take, c);
      PieceFree(d.bits, take, want, c);
      FreeUnowned(d, c);
      FreeUnownedToo(d, now, c);
    }
    forall c | 0 <= c < |d.bits| && c !in cs
      ensures now.bits[c] == d.bits[c]
    {
      ClustersIn(take, c);
    }
  }

  lemma PieceFree(bits: seq<bool>, take: seq<Bitmap.Piece>, want: nat, c: nat)
    requires Bitmap.Chosen(bits, take, want) && Bitmap.InAny(take, c)
    ensures c < |bits| && bits[c]
  {
    var i :| 0 <= i < |take| && Bitmap.In(take[i], c);
    assert take[i] in take;
  }

  lemma FreeUnowned(d: Disk, c: nat)
    requires Held(d) && c < |d.bits| && d.bits[c]
    ensures !Owned(d, c)
  {
    forall n | n in d.live
      ensures c !in d.live[n].at
    {
      assert Allocated(d, d.live[n]);
    }
  }

  lemma FreeUnownedToo(d: Disk, now: Disk, c: nat)
    requires !Owned(d, c) && now.live == d.live
    ensures !Owned(now, c)
  {
  }

  lemma {:induction false} ClustersSize(ps: seq<Bitmap.Piece>)
    ensures |ClustersOf(ps)| == Bitmap.Sum(ps)
  {
    if ps != [] { ClustersSize(ps[1..]); }
  }

  lemma EnoughRoom(v: nat, n: nat, blocks: nat, want: nat, k: nat)
    requires v > 0 && n <= blocks && want == (blocks + v - 1) / v && k == want
    ensures n <= Vbn(v, k, 0)
  {
    var r := (blocks + v - 1) % v;
    assert blocks + v - 1 == want * v + r;
  }

  lemma MovedIs(d: Disk, n: int, at: seq<nat>, eof: nat)
    requires n in d.live
    ensures Moved(d, n, at, eof) == d.(live := d.live[n := d.live[n].(at := at, ext := None, eof := eof)])
  {
  }

  /** The header goes to the new place: sound, since the blocks are written. */
  lemma MoveSound(v: nat, d: Disk, n: int, at: seq<nat>, bs: seq<Block>)
    requires Consistent(v, d) && IsDir(v, d, n) && Written(v, d, at, bs) && (forall k | 0 <= k < |bs| :: Good(d, bs[k]))
    requires Distinct(at) && forall c <- at :: c < |d.bits| && !d.bits[c] && !Owned(d, c)
    ensures Sound(v, Moved(d, n, at, |bs|))
  {
    hide Sound, Consistent, Vbn, Quot, Rem, Distinct, Good, Owned, Written;
    SoundOf(v, d);
    SoleHeader(v, d, n);
    MovedGood(v, d, n, at, bs);
    forall m | m in d.live && m != n
      ensures Apart(at, d.live[m].at)
    {
      UnownedApart(d, at, m);
    }
    DirectoryMoved(v, d, n, at, |bs|);
  }

  lemma UnownedApart(d: Disk, cs: seq<nat>, n: int)
    requires n in d.live && forall c <- cs :: !Owned(d, c)
    ensures Apart(cs, d.live[n].at)
  {
  }

  lemma MoveOnly(v: nat, d: Disk, n: int, at: seq<nat>, eof: nat)
    requires Consistent(v, d) && IsDir(v, d, n) && eof <= Vbn(v, |at|, 0) && Sound(v, Moved(d, n, at, eof))
    ensures Consistent(v, Moved(d, n, at, eof))
    ensures forall m, r | m != n && Lists(v, Moved(d, n, at, eof), m, r) :: Lists(v, d, m, r)
  {
    hide Sound, Consistent, Vbn, Lists;
    HeaderOnly(v, d, n, d.live[n].(at := at, ext := None, eof := eof));
  }

  // The old clusters are no header's once the header has left them.
  lemma OldFree(v: nat, d: Disk, n: int, at: seq<nat>, eof: nat)
    requires Consistent(v, d) && n in d.live && forall c <- at :: !Owned(d, c)
    ensures var now := Moved(d, n, at, eof);
      && Distinct(d.live[n].at)
      && (forall c <- d.live[n].at :: c < |now.bits| && !now.bits[c] && !Owned(now, c))
      && (forall c :: Owned(now, c) || c in d.live[n].at <==> Owned(d, c) || c in at)
  {
    hide Shown, Links, Numbered, AllTyped, OneLink, Ended;
    var now, was := Moved(d, n, at, eof), d.live[n].at;
    assert Allocated(d, d.live[n]);
    forall c | c in was
      ensures !Owned(now, c)
    {
      assert Owned(d, c);
      forall m | m in now.live
        ensures c !in now.live[m].at
      {
        if m != n { NotThere(d, n, m, c); }
      }
    }
    forall c
      ensures Owned(now, c) || c in was <==> Owned(d, c) || c in at
    {
      if Owned(now, c) {
        var m :| m in now.live && c in now.live[m].at;
        if m != n { assert c in d.live[m].at; }
      }
      if Owned(d, c) {
        var m :| m in d.live && c in d.live[m].at;
        if m != n { assert c in now.live[m].at; }
      }
      if c in at { assert c in now.live[n].at; }
    }
  }

  /** All of a rewrite together changes only the directory. */
  lemma RewriteOnly(v: nat, d0: Disk, d1: Disk, d2: Disk, d3: Disk, d4: Disk, n: int, take: seq<Bitmap.Piece>,
                    want: nat, at: seq<nat>, eof: nat, was: seq<nat>)
    requires Consistent(v, d0) && IsDir(v, d0, n) && Bitmap.Chosen(d0.bits, take, want) && at == ClustersOf(take)
    requires d1 == d0.(bits := Bitmap.Marked(d0.bits, take, false)) && d2 == d1.(data := d2.data) && Consistent(v, d2)
    requires (forall m, r :: Lists(v, d2, m, r) <==> Lists(v, d1, m, r)) && Still(v, d1, d2)
    requires d3 == Moved(d2, n, at, eof) && Consistent(v, d3) && was == d0.live[n].at
    requires forall m, r | m != n && Lists(v, d3, m, r) :: Lists(v, d2, m, r)
    requires d4 == d3.(bits := Freed(d3.bits, was)) && Sound(v, d4)
    requires IsDir(v, d3, n)
    ensures DirOnly(v, d0, d4, n) && IsDir(v, d4, n) && DirBlocks(v, d4, n) == DirBlocks(v, d3, n)
  {
    hide Sound, Consistent, Vbn, Quot, Rem, Distinct, Lists, Owned, DirBlocks, Conserved, Freed, Bitmap.Chosen,
         Bitmap.Marked, ClustersOf, KeepsDirs, SameListings;
    TakenFresh(v, d0, take, want);
    ConsistentBits(v, d3, d4.bits);
    IsDirSame(v, d3, d4, n);
    SameBlocks(v, d3, d4, n);
    forall m, r | m != n && Lists(v, d4, m, r)
      ensures Lists(v, d0, m, r)
    {
      ListsBits(v, d3, d4.bits, m, r);
      ListsBits(v, d0, d1.bits, m, r);
    }
    ListingsSame(v, d0, d1);
    ListingsTrans(v, d0, d1, d2);
    KeepsIfSame(v, d0, d2, n);
    KeepsByHeaders(v, d2, d4, n);
    KeepsTrans(v, d0, d2, d4, n);
    UnownedIn(d0, d2, at);
    OldFree(v, d2, n, at, eof);
    forall but | Conserved(d0, but)
      ensures Conserved(d4, but)
    {
      RewriteConserved(d0, d2, d3, d4, at, was, but);
    }
  }

  lemma KeepsIfSame(v: nat, d: Disk, now: Disk, n: int)
    requires SameListings(v, d, now)
    ensures KeepsDirs(v, d, now, n)
  {
  }

  // The header's write is the one that shows.
  lemma RewriteAtomic(v: nat, k: nat, d0: Disk, d1: Disk, d2: Disk, d3: Disk, d4: Disk, t1: seq<Disk>, t2: seq<Disk>,
                      t3: seq<Disk>, t4: seq<Disk>)
    requires BitsOnly(t1, k, d0) && d1.live == d0.live && d1.data == d0.data
    requires t1 <= t2 && Quiet(v, t2, |t1|, |t2|, d1) && Still(v, d1, d2)
    requires t3 == t2 + [d3] && t3 <= t4 && BitsOnly(t4, |t3|, d3) && d4.live == d3.live && d4.data == d3.data
    ensures Atomic(v, t4, k, d0, d4)
  {
    hide Still, BitsOnly, Quiet, Atomic;
    BitsQuiet(v, t1, k, d0);
    QuietMore(v, t1, t4, k, |t1|, d0);
    QuietMore(v, t2, t4, |t1|, |t2|, d1);
    StillSame(v, d0, d1);
    QuietJoin(v, t4, k, |t1|, |t2|, d0, d1);
    StillSame(v, d3, d3);
    QuietOne(v, t3, d3);
    QuietMore(v, t3, t4, |t2|, |t3|, d3);
    BitsQuiet(v, t4, |t3|, d3);
    QuietJoin(v, t4, |t2|, |t3|, |t4|, d3, d3);
    StillSame(v, d4, d3);
    QuietNone(v, t4, |t2|, d4);
    QuietJoin(v, t4, |t2|, |t2|, |t4|, d4, d3);
    AtomicIf(v, t4, k, |t2|, d0, d4);
  }

  lemma UnownedIn(d: Disk, d': Disk, cs: seq<nat>)
    requires d'.live == d.live && forall c <- cs :: !Owned(d, c)
    ensures forall c <- cs :: !Owned(d', c)
    ensures forall c :: Owned(d', c) <==> Owned(d, c)
  {
  }

  lemma SameBlocks(v: nat, d: Disk, d': Disk, n: int)
    requires IsDir(v, d, n) && IsDir(v, d', n) && d'.live == d.live && d'.data == d.data
    ensures DirBlocks(v, d', n) == DirBlocks(v, d, n)
  {
    hide Vbn, Quot, Rem, DirBlocks, Parsed;
    forall k | 0 <= k < d.live[n].eof
      ensures DirBlocks(v, d', n)[k] == DirBlocks(v, d, n)[k]
    {
      BlockOf(v, d, n, k);
      BlockOf(v, d', n, k);
    }
  }

  lemma RewriteConserved(d0: Disk, d2: Disk, d3: Disk, d4: Disk, at: seq<nat>, was: seq<nat>, but: set<nat>)
    requires Conserved(d0, but) && d2.live == d0.live && d3.bits == d2.bits && |d2.bits| == |d0.bits|
    requires forall c | 0 <= c < |d0.bits| && c !in at :: d2.bits[c] == d0.bits[c]
    requires forall c :: Owned(d3, c) || c in was <==> Owned(d2, c) || c in at
    requires d4.live == d3.live && d4.bits == Freed(d3.bits, was)
    ensures Conserved(d4, but)
  {
    forall c | 0 <= c < |d4.bits| && !d4.bits[c]
      ensures Owned(d4, c) || c in but
    {
      assert Owned(d3, c) ==> Owned(d4, c);
      assert Owned(d0, c) ==> Owned(d2, c);
      assert !d3.bits[c] && c !in was;
    }
  }

  lemma TakenOne(v: nat, d: Disk, take: seq<Bitmap.Piece>)
    requires Consistent(v, d) && Bitmap.Chosen(d.bits, take, 1) && |take| == 1
    ensures var c := take[0].start;
      && c < |d.bits| && d.bits[c] && !Owned(d, c)
      && Bitmap.Marked(d.bits, take, false) == d.bits[c := false]
  {
    var c := take[0].start;
    assert take[0] in take && take[1..] == [];
    assert take[0].len == 1;
    forall n | n in d.live
      ensures c !in d.live[n].at
    {
      assert Allocated(d, d.live[n]);
    }
    forall k | 0 <= k < |d.bits|
      ensures Bitmap.Marked(d.bits, take, false)[k] == d.bits[c := false][k]
    {
      assert Bitmap.InAny(take, k) <==> Bitmap.In(take[0], k);
    }
  }

  lemma FreshOne(v: nat, d: Disk, d1: Disk, c: nat)
    requires c < |d.bits| && !Owned(d, c) && d1 == d.(bits := d.bits[c := false])
    ensures E.Fresh(d1, [c] + E.Concat([]))
  {
    assert [c] + E.Concat([]) == [c];
    assert !Owned(d1, c);
  }

  lemma StillListed(v: nat, d: Disk, now: Disk, n: int)
    requires DirOnly(v, d, now, n) && IsDir(v, d, n) && IsDir(v, now, n) && DirBlocks(v, now, n) == DirBlocks(v, d, n)
    ensures Still(v, d, now)
  {
    hide Lists, Consistent, Conserved, KeepsDirs, IsDir, DirBlocks, SameListings, Flat;
    ListingsAll(v, d, now, n);
    forall m, r | Lists(v, now, m, r)
      ensures Lists(v, d, m, r) && m in d.live && m in now.live && now.live[m].file == d.live[m].file
    {
      ListsLive(v, now, m, r);
      if m == n {
        ListsAre(v, d, n, r);
        ListsAre(v, now, n, r);
      }
    }
  }

  // A run that lists the same, and one write more that does.
  lemma QuietThen(v: nat, k: nat, d: Disk, was: seq<Disk>, run: seq<Disk>)
    requires Quiet(v, was, k, |was|, d) && run != [] && run == was + [run[|run| - 1]] && Still(v, d, run[|run| - 1])
    ensures Quiet(v, run, k, |run|, d)
  {
    hide Still;
    QuietMore(v, was, run, k, |was|, d);
  }

  lemma DirOnlySelf(v: nat, d: Disk, n: int)
    requires n in d.live
    ensures DirOnly(v, d, d, n)
  {
  }

  lemma DirOnlyTrans(v: nat, a: Disk, b: Disk, c: Disk, n: int)
    requires DirOnly(v, a, b, n) && DirOnly(v, b, c, n)
    ensures DirOnly(v, a, c, n)
  {
    hide Lists, Consistent, Conserved, KeepsDirs;
    KeepsTrans(v, a, b, c, n);
  }

  // What stays the same of a volume when only a directory changes.
  lemma DirOnlyKeeps(v: nat, d: Disk, now: Disk, n: int)
    requires DirOnly(v, d, now, n)
    ensures n in d.live && n in now.live && SameIdentity(d.live[n], now.live[n])
    ensures Consistent(v, d) ==> Consistent(v, now)
    ensures forall g :: Named(now, g) <==> Named(d, g)
  {
    hide Lists, Consistent, Conserved;
  }

  lemma GoodStill(v: nat, d: Disk, now: Disk, n: int, b: Block)
    requires DirOnly(v, d, now, n) && Good(d, b)
    ensures Good(now, b)
  {
    hide DirOnly;
    DirOnlyKeeps(v, d, now, n);
  }

  // A directory with a cluster more, its end of file where it was.
  lemma LongerDir(v: nat, d0: Disk, d1: Disk, n: int, c: nat)
    requires Consistent(v, d0) && IsDir(v, d0, n) && c < |d0.bits| && d1 == d0.(bits := d0.bits[c := false])
    requires Consistent(v, d1)
    requires Consistent(v, Longer(d1, n, c)) && d0.bits[c]
    ensures DirOnly(v, d0, Longer(d1, n, c), n) && IsDir(v, Longer(d1, n, c), n)
    ensures DirBlocks(v, Longer(d1, n, c), n) == DirBlocks(v, d0, n)
  {
    hide Sound, Vbn, Quot, Rem, DirBlocks, Lists, Conserved, OneLink, AllTyped, Numbered, Parsed, KeepsDirs;
    var now := Longer(d1, n, c);
    var h, h' := d0.live[n], now.live[n];
    VbnPast(v, |h.at|, |h'.at|, 0);
    assert IsDir(v, now, n);
    forall k | 0 <= k < h.eof
      ensures DirBlocks(v, now, n)[k] == DirBlocks(v, d0, n)[k]
    {
      BlockOf(v, d0, n, k);
      BlockOf(v, now, n, k);
      assert h'.at[Quot(k, v)] == h.at[Quot(k, v)];
    }
    SoleHeader(v, d0, n);
    forall m, r | m != n && Lists(v, now, m, r)
      ensures Lists(v, d0, m, r)
    {
      OthersSame(v, d0, now.(bits := d0.bits), n, m, r);
      ListsBits(v, now, d0.bits, m, r);
    }
    KeepsByHeaders(v, d0, now, n);
    forall but | Conserved(d0, but)
      ensures Conserved(now, but)
    {
      LongerConserved(d0, now, n, c, but);
    }
  }

  function Longer(d: Disk, n: int, c: nat): Disk
    requires n in d.live
  {
    d.(live := d.live[n := d.live[n].(at := d.live[n].at + [c])])
  }

  lemma ListsBits(v: nat, d: Disk, bits: seq<bool>, m: int, r: Rec)
    ensures Lists(v, d, m, r) <==> Lists(v, d.(bits := bits), m, r)
  {
    hide Vbn;
    var d' := d.(bits := bits);
    assert forall i: nat, j: nat :: Uses(v, d', m, i, j) <==> Uses(v, d, m, i, j);
  }

  lemma LongerConserved(d0: Disk, now: Disk, n: int, c: nat, but: set<nat>)
    requires Conserved(d0, but) && n in d0.live && c < |d0.bits|
    requires now == Longer(d0.(bits := d0.bits[c := false]), n, c)
    ensures Conserved(now, but)
  {
    forall k | 0 <= k < |now.bits| && !now.bits[k]
      ensures Owned(now, k) || k in but
    {
      if k == c {
        assert c in now.live[n].at;
      } else if Owned(d0, k) {
        var m :| m in d0.live && k in d0.live[m].at;
        assert k in now.live[m].at;
      }
    }
  }

  // The clusters have a block more than the directory uses.
  lemma SpareBlock(v: nat, d0: Disk, d1: Disk, n: int)
    requires IsDir(v, d0, n) && IsDir(v, d1, n)
    requires
      || (d1 == d0 && d0.live[n].eof < Vbn(v, |d0.live[n].at|, 0))
      || (|d1.live[n].at| == |d0.live[n].at| + 1 && d1.live[n].eof == d0.live[n].eof)
    ensures d1.live[n].eof + 1 <= Vbn(v, |d1.live[n].at|, 0) && Quot(d1.live[n].eof, v) < |d1.live[n].at|
  {
    assert Vbn(v, |d0.live[n].at| + 1, 0) == Vbn(v, |d0.live[n].at|, 0) + v;
    VbnBelow(v, d1.live[n].eof, |d1.live[n].at|);
  }

  /** A block past those used is none of the directory's yet. */
  lemma PutBeyond(v: nat, d: Disk, n: int, b: Block)
    requires IsDir(v, d, n) && Quot(d.live[n].eof, v) < |d.live[n].at| && Distinct(d.live[n].at)
    ensures var now := Put(d, d.live[n].at[Quot(d.live[n].eof, v)], Rem(d.live[n].eof, v), b);
      IsDir(v, now, n) && DirBlocks(v, now, n) == DirBlocks(v, d, n)
  {
    hide Vbn, Quot, Rem, DirBlocks, Parsed;
    var eof := d.live[n].eof;
    var now := Put(d, d.live[n].at[Quot(eof, v)], Rem(eof, v), b);
    IsDirSame(v, d, now, n);
    forall k | 0 <= k < eof
      ensures DirBlocks(v, now, n)[k] == DirBlocks(v, d, n)[k]
    {
      BlockOf(v, d, n, k);
      BlockOf(v, now, n, k);
      SamePlaceOnce(v, d.live[n].at, eof, k);
    }
  }

  // One block more is used, which names what is there.
  lemma EofOver(v: nat, d: Disk, n: int, b: Block)
    requires Consistent(v, d) && IsDir(v, d, n) && Good(d, b) && Quot(d.live[n].eof, v) < |d.live[n].at|
    requires BlockAt(d, n, Quot(d.live[n].eof, v), Rem(d.live[n].eof, v)) == b
    ensures Sound(v, WithEof(d, n, d.live[n].eof + 1))
  {
    hide Sound, Vbn, Quot, Rem, Consistent, IsDir, Good;
    DirSays(v, d, n);
    var eof := d.live[n].eof;
    SoundOf(v, d);
    SoleHeader(v, d, n);
    var now := WithEof(d, n, eof + 1);
    forall m, i: nat, j: nat | Uses(v, now, m, i, j) && !Uses(v, d, m, i, j)
      ensures Good(d, BlockAt(now, m, i, j))
    {
      assert m == n;
      VbnIs(v, i, j);
      assert Vbn(v, i, j) == eof;
    }
    EofMoved(v, d, n, eof + 1);
  }

  /** Nothing but the directory has changed: the volume is consistent, no other
      header has, and no other directory lists anything it did not. */
  ghost predicate DirOnly(v: nat, d: Disk, now: Disk, n: int) {
    && n in d.live && n in now.live && SameIdentity(d.live[n], now.live[n])
    && now.live[n].back == d.live[n].back && now.live[n].links == d.live[n].links
    && (forall m :: m in now.live <==> m in d.live) && (forall m <- d.live | m != n :: now.live[m] == d.live[m])
    && (forall m, r | m != n && Lists(v, now, m, r) :: Lists(v, d, m, r)) && KeepsDirs(v, d, now, n)
    && now.used == d.used && now.indexEof == d.indexEof && now.dead == d.dead && |now.bits| == |d.bits|
    && (Consistent(v, d) ==> Consistent(v, now))
    && (forall but :: Conserved(d, but) ==> Conserved(now, but))
  }

  lemma MapDistinct(d: Disk, n: int)
    requires Disjoint(d) && n in d.live
    ensures Distinct(d.live[n].at)
  {
  }

  lemma ChainAlone(d: Disk, f: Fid, nums: seq<int>)
    requires Chain(d, f, nums)
    ensures d.live[f.num].ext.None? ==> nums == [f.num]
  {
    assert |nums| > 1 ==> d.live[nums[0]].ext == Some(Fid(nums[1], d.live[nums[1]].seqno));
  }

  lemma PutOnly(v: nat, d: Disk, n: int, i: nat, j: nat, b: Block)
    requires Consistent(v, d) && n in d.live && i < |d.live[n].at| && Sound(v, Put(d, d.live[n].at[i], j, b))
    ensures DirOnly(v, d, Put(d, d.live[n].at[i], j, b), n)
  {
    hide Sound, Lists, Conserved, Consistent, Disjoint, KeepsDirs;
    var c := d.live[n].at[i];
    var now := Put(d, c, j, b);
    ConsistentData(v, d, now.data);
    HeldDisjoint(v, d);
    forall m, r | m != n && Lists(v, now, m, r)
      ensures Lists(v, d, m, r)
    {
      ListsLive(v, now, m, r);
      NotThere(d, n, m, c);
      PutElsewhere(v, d, m, c, j, b);
    }
    forall m | m in d.live && m != n
      ensures c !in d.live[m].at
    {
      NotThere(d, n, m, c);
    }
    KeepsByPut(v, d, n, c, j, b);
    forall but | Conserved(d, but)
      ensures Conserved(now, but)
    {
      ConservedSame(d, now, but);
    }
  }

  lemma NotThere(d: Disk, n: int, m: int, c: nat)
    requires Disjoint(d) && n in d.live && m in d.live && n != m && c in d.live[n].at
    ensures c !in d.live[m].at
  {
    assert Apart(d.live[n].at, d.live[m].at);
  }

  /** A directory in one header has no other. */
  lemma SoleHeader(v: nat, d: Disk, n: int)
    requires Consistent(v, d) && IsDir(v, d, n)
    ensures forall m <- d.live | m != n :: d.live[m].file != Fid(n, d.live[n].seqno)
  {
    hide Consistent;
    var f := Fid(n, d.live[n].seqno);
    assert Chain(d, f, [n]);
    forall m | m in d.live && m != n
      ensures d.live[m].file != f
    {
      if d.live[m].file == f { R.InChain(v, d, f, [n], m); }
    }
  }

  // The directory's header rewritten, and nothing else.
  lemma HeaderOnly(v: nat, d: Disk, n: int, h: Header)
    requires Consistent(v, d) && IsDir(v, d, n) && SameIdentity(d.live[n], h) && h.ext.None?
    requires var now := d.(live := d.live[n := h]); Sound(v, now) && EndsWithin(v, now, h)
    ensures var now := d.(live := d.live[n := h]);
      Consistent(v, now) && forall m, r | m != n && Lists(v, now, m, r) :: Lists(v, d, m, r)
  {
    hide Sound, Vbn, Lists, OneLink, Numbered, AllTyped, Ended, IsDir;
    var now := d.(live := d.live[n := h]);
    SoleHeader(v, d, n);
    DirSays(v, d, n);
    HeaderTyped(v, d, n, h);
    HeaderEnded(v, d, n, h);
    forall m, r | m != n && Lists(v, now, m, r)
      ensures Lists(v, d, m, r)
    {
      OthersSame(v, d, now, n, m, r);
    }
  }

  lemma DirSays(v: nat, d: Disk, n: int)
    requires IsDir(v, d, n)
    ensures n in d.live && d.live[n].ext.None? && d.live[n].seg == 0 && d.live[n].file == Fid(n, d.live[n].seqno)
    ensures Named(d, Fid(n, d.live[n].seqno)) && d.live[n].dir && d.live[n].base == 0
  {
  }

  lemma HeaderTyped(v: nat, d: Disk, n: int, h: Header)
    requires Consistent(v, d) && n in d.live && SameIdentity(d.live[n], h) && h.ext.None? && d.live[n].ext.None?
    ensures var now := d.(live := d.live[n := h]); Numbered(now) && AllTyped(now) && OneLink(now)
  {
    hide Sound, Ended;
    var now := d.(live := d.live[n := h]);
    assert forall g :: Named(now, g) <==> Named(d, g);
    forall m | m in now.live
      ensures Typed(now, m)
    {
      assert Typed(d, m);
    }
    assert forall p, q :: LinksTo(now, p, q) <==> LinksTo(d, p, q);
    forall m | m in now.live && now.live[m].seg > 0
      ensures exists p :: LinksTo(now, p, m)
    {
      var p :| LinksTo(d, p, m);
      assert LinksTo(now, p, m);
    }
  }

  lemma HeaderEnded(v: nat, d: Disk, n: int, h: Header)
    requires Ended(v, d) && n in d.live && SameIdentity(d.live[n], h) && EndsWithin(v, d.(live := d.live[n := h]), h)
    requires forall m <- d.live | m != n :: d.live[m].file != Fid(n, d.live[n].seqno)
    ensures Ended(v, d.(live := d.live[n := h]))
  {
    hide Vbn;
    var now := d.(live := d.live[n := h]);
    forall m | m in now.live && now.live[m].ext.None?
      ensures EndsWithin(v, now, now.live[m])
    {
      if m != n { assert EndsWithin(v, d, d.live[m]); }
    }
  }

  lemma EofOnly(v: nat, d: Disk, n: int, eof: nat)
    requires Consistent(v, d) && IsDir(v, d, n) && eof <= Vbn(v, |d.live[n].at|, 0) && Sound(v, WithEof(d, n, eof))
    ensures DirOnly(v, d, WithEof(d, n, eof), n)
  {
    hide Sound, Vbn, Lists, Conserved, Consistent, KeepsDirs;
    var h := d.live[n].(eof := eof);
    HeaderOnly(v, d, n, h);
    var now := WithEof(d, n, eof);
    KeepsByHeaders(v, d, now, n);
    forall but | Conserved(d, but)
      ensures Conserved(now, but)
    {
      ConservedAt(d, now, but);
    }
  }

  // The headers map what they did.
  lemma ConservedAt(d: Disk, now: Disk, but: set<nat>)
    requires Conserved(d, but) && now.bits == d.bits
    requires forall n <- d.live :: n in now.live && now.live[n].at == d.live[n].at
    ensures Conserved(now, but)
  {
    assert forall c :: Owned(d, c) ==> Owned(now, c);
  }

  lemma CutCalm(v: nat, d: Disk, n: int, keep: nat)
    requires n in d.live && d.live[n].base <= keep <= d.live[n].base + |d.live[n].at|
    ensures Calm(v, d, d.(live := d.live[n := T.CutHeader(v, d.live[n], keep)]))
  {
    hide Calm, Vbn;
    FewerCalm(v, d, d.(live := d.live[n := T.CutHeader(v, d.live[n], keep)]));
  }

  lemma EofCalm(v: nat, d: Disk, n: int, eof: nat)
    requires n in d.live && eof <= d.live[n].eof
    ensures Calm(v, d, d.(live := d.live[n := d.live[n].(eof := eof)]))
  {
    hide Calm;
    FewerCalm(v, d, d.(live := d.live[n := d.live[n].(eof := eof)]));
  }

  lemma CutPlace(d: Disk, f: Fid, nums: seq<int>, k: nat, keep: nat)
    requires T.CutsAt(d, f, nums, k, keep)
    ensures k < |nums| && nums[k] in d.live
    ensures d.live[nums[k]].base <= keep <= d.live[nums[k]].base + |d.live[nums[k]].at|
    ensures f.num in d.live && Chain(d, f, nums) && (nums[k] == f.num <==> k == 0)
  {
  }

  lemma CutRemembers(v: nat, d: Disk, x: Disk, now: Disk, f: Fid, nums: seq<int>, k: nat, keep: nat)
    requires T.CutsAt(d, f, nums, k, keep) && k < |nums| && nums[k] in d.live
    requires d.live[nums[k]].base <= keep <= d.live[nums[k]].base + |d.live[nums[k]].at|
    requires x == T.Cut(v, d, f, nums[k], keep) && Buried(x.live, x.dead, now.dead, nums[k + 1..])
    requires now.live == R.Killed(x, nums[k + 1..], |nums[k + 1..]|).live
    ensures Remembers(d, now)
  {
    hide Chain, Buried, Remembers, T.Cut, T.CutsAt, R.Killed;
    CutKeys(v, d, f, nums, k, keep);
    var drop := nums[k + 1..];
    KilledKeys(x, drop);
    RemembersIf(x, now, drop);
    RemembersFrom(d, x, now);
  }

  lemma RemembersFrom(d: Disk, x: Disk, now: Disk)
    requires Remembers(x, now) && x.dead == d.dead && x.live.Keys == d.live.Keys
    requires forall n <- d.live :: x.live[n].seqno == d.live[n].seqno
    ensures Remembers(d, now)
  {
    assert forall n :: n in x.live <==> n in d.live;
  }

  lemma KilledKeys(d: Disk, drop: seq<int>)
    ensures forall n :: n in R.Killed(d, drop, |drop|).live <==> n in d.live && n !in drop
  {
    assert drop[..|drop|] == drop;
  }

  lemma CutKeys(v: nat, d: Disk, f: Fid, nums: seq<int>, k: nat, keep: nat)
    requires T.CutsAt(d, f, nums, k, keep) && k < |nums| && nums[k] in d.live
    requires d.live[nums[k]].base <= keep <= d.live[nums[k]].base + |d.live[nums[k]].at|
    ensures var x := T.Cut(v, d, f, nums[k], keep);
      x.dead == d.dead && x.live.Keys == d.live.Keys && forall n <- d.live :: x.live[n].seqno == d.live[n].seqno
  {
    hide Chain;
    CutWrites(v, d, f, nums, k, keep);
  }

  lemma CutSeqno(v: nat, h: Header, keep: nat)
    requires h.base <= keep <= h.base + |h.at|
    ensures T.CutHeader(v, h, keep).seqno == h.seqno
  {
  }

  lemma CutWrites(v: nat, d: Disk, f: Fid, nums: seq<int>, k: nat, keep: nat)
    requires T.CutsAt(d, f, nums, k, keep)
    ensures var x := d.(live := d.live[nums[k] := T.CutHeader(v, d.live[nums[k]], keep)]);
      && f.num in d.live && f.num in x.live
      && (k == 0 ==> T.Cut(v, d, f, nums[k], keep) == x)
      && (k > 0 ==> x.live[f.num] == d.live[f.num])
      && var e := T.Min(d.live[f.num].eof, Vbn(v, keep, 0));
      k > 0 ==> T.Cut(v, d, f, nums[k], keep) == x.(live := x.live[f.num := d.live[f.num].(eof := e)])
  {
  }

  lemma WholeKept(v: nat, d: Disk, f: Fid, nums: seq<int>, keep: nat)
    requires Consistent(v, d) && Chain(d, f, nums)
    requires var l := nums[|nums| - 1]; l in d.live && d.live[l].base + |d.live[l].at| <= keep
    ensures (forall cs :: Maps(d, f, cs) ==> Maps(d, f, cs[..T.Min(keep, |cs|)])) && KeepsFiles(d, d, f)
  {
    hide Consistent, Chain, Maps;
    forall cs | Maps(d, f, cs)
      ensures cs[..T.Min(keep, |cs|)] == cs
    {
      CutNothing(v, d, f, nums, cs, keep);
    }
  }

  lemma ShorterMaps(v: nat, d: Disk, f: Fid, nums: seq<int>, k: nat, keep: nat, now: Disk)
    requires Consistent(v, d) && T.CutsAt(d, f, nums, k, keep)
    requires now.live == R.Killed(T.Cut(v, d, f, nums[k], keep), nums[k + 1..], |nums[k + 1..]|).live
    ensures (forall cs :: Maps(d, f, cs) ==> Maps(now, f, cs[..T.Min(keep, |cs|)])) && KeepsFiles(d, now, f)
  {
    hide Consistent, Maps, KeepsFiles, T.Cut, R.Killed, IsCut, R.ClustersOf, Chain;
    CutPlace(d, f, nums, k, keep);
    CutLeaves(v, d, f, nums, k, keep, now);
    KeepsIf(d, now, f);
    CutMaps(v, d, f, nums, k, keep, now);
    forall cs | Maps(d, f, cs)
      ensures Maps(now, f, cs[..T.Min(keep, |cs|)])
    {
      MapOf(d, f, nums, cs);
    }
  }

  lemma CutFewer(v: nat, d: Disk, f: Fid, nums: seq<int>, k: nat, keep: nat, now: Disk)
    requires T.CutsAt(d, f, nums, k, keep) && now.data == d.data
    requires now.live == R.Killed(T.Cut(v, d, f, nums[k], keep), nums[k + 1..], |nums[k + 1..]|).live
    ensures Calm(v, d, now)
  {
    hide T.Cut, R.Killed, Vbn, Calm;
    T.CutIs(v, d, f, nums, k, keep);
    T.CutCounts(v, d, f, nums, k, keep);
    R.KilledIs(T.Cut(v, d, f, nums[k], keep), nums[k + 1..]);
    FewerCalm(v, d, now);
  }

  // A cut changes no directory but the file it is of, if that is one.
  lemma CutDirs(v: nat, d: Disk, f: Fid, nums: seq<int>, k: nat, keep: nat, now: Disk)
    requires T.CutsAt(d, f, nums, k, keep) && now.data == d.data
    requires now.live == R.Killed(T.Cut(v, d, f, nums[k], keep), nums[k + 1..], |nums[k + 1..]|).live
    ensures KeepsDirs(v, d, now, f.num) && OldDirs(d, now, None) && Calm(v, d, now)
  {
    hide KeepsDirs, T.Cut, R.Killed, Vbn, Calm;
    T.CutIs(v, d, f, nums, k, keep);
    T.CutCounts(v, d, f, nums, k, keep);
    var x, drop := T.Cut(v, d, f, nums[k], keep), nums[k + 1..];
    R.KilledIs(x, drop);
    forall m | m in d.live && m != f.num && d.live[m].dir && d.live[m].seg == 0
      ensures m in now.live && now.live[m] == d.live[m]
    {
      assert m != nums[k];
      assert forall i | 0 <= i < |drop| :: drop[i] == nums[k + 1 + i] && d.live[drop[i]].seg == k + 1 + i;
      assert m !in drop;
    }
    KeepsByHeaders(v, d, now, f.num);
    CutFewer(v, d, f, nums, k, keep, now);
  }

  // An update keeps every directory in order.
  lemma OrderlyEdit(v: nat, res: int, d: Disk, now: Disk, n: int, name: seq<Char16>, edit: Edit)
    requires Orderly(v, res, d) && IsDir(v, d, n) && DirOnly(v, d, now, n) && IsReadable(v, now, n)
    requires var was := Flat(DirBlocks(v, d, n));
      Listed(was, Flat(DirBlocks(v, now, n)), name, Changed(Entries(was, name), edit))
    requires edit.Add? ==> !Has(Entries(Flat(DirBlocks(v, d, n)), name), edit.version) && edit.fid.num != n
    ensures Orderly(v, res, now)
  {
    hide Consistent, Conserved, Lists, DirBlocks, Flat, Entries, Descending, Listed, Readable, Changed, Has, HasEntry;
    assert HeadsDir(d, n);
    var was, recs := Flat(DirBlocks(v, d, n)), Flat(DirBlocks(v, now, n));
    NamesInOrder(was, recs, name, edit);
    forall e | HasEntry(recs, e)
      ensures n > res ==> e.fid.num != n
    {
      NoStrangers(was, recs, name, edit, e);
    }
    OrderlyBut(v, res, d, now, n);
  }

  lemma DropFacts(v: nat, d: Disk, drop: seq<int>)
    requires R.Severed(v, d, drop)
    ensures R.Detached(d, drop) && R.NoRepeats(drop) && R.AllLive(d, drop)
  {
  }

  lemma TailFree(x: Disk, y: Disk, drop: seq<int>, tail: seq<nat>, cs: seq<nat>)
    requires y.bits == x.bits && (forall n <- y.live :: n in x.live && y.live[n] == x.live[n])
    requires Distinct(tail) && Distinct(cs) && (forall c <- tail :: c < |x.bits| && !x.bits[c] && !Owned(x, c))
    requires forall c <- cs :: c < |y.bits| && !y.bits[c] && !Owned(y, c)
    requires forall c :: Owned(x, c) <==> Owned(y, c) || c in cs
    ensures Distinct(tail + cs) && forall c <- tail + cs :: c < |y.bits| && !y.bits[c] && !Owned(y, c)
  {
    hide Owned, Distinct;
    forall c | c in tail
      ensures c !in cs
    {
      assert !Owned(x, c);
    }
    R.ApartIf(tail, cs);
    JoinDistinct(tail, cs);
  }

  lemma DropNames(v: nat, x: Disk, drop: seq<int>, now: Disk, g: Fid)
    requires R.Severed(v, x, drop) && now.live == R.Killed(x, drop, |drop|).live
    requires forall i | 0 <= i < |drop| :: drop[i] in x.live && x.live[drop[i]].seg > 0
    ensures Named(now, g) <==> Named(x, g)
  {
    hide R.Killed, R.Severed;
    R.KilledIs(x, drop);
  }

  lemma OwnedParts(d: Disk, x: Disk, y: Disk, tail: seq<nat>, cs: seq<nat>)
    requires forall c :: Owned(d, c) <==> Owned(x, c) || c in tail
    requires forall c :: Owned(x, c) <==> Owned(y, c) || c in cs
    ensures forall c :: Owned(d, c) <==> Owned(y, c) || c in tail + cs
  {
    hide Owned;
  }

  lemma SameLive(d: Disk, d': Disk, f: Fid, nums: seq<int>)
    requires Chain(d, f, nums) && d'.live == d.live
    ensures Chain(d', f, nums) && forall g :: Named(d', g) <==> Named(d, g)
  {
  }

  lemma ConservedSame(d: Disk, d': Disk, but: set<nat>)
    requires Conserved(d, but) && d'.live == d.live && d'.bits == d.bits
    ensures Conserved(d', but)
  {
    assert forall c :: Owned(d, c) ==> Owned(d', c);
  }

  lemma NothingKilled(d: Disk, drop: seq<int>)
    ensures R.Killed(d, drop, 0) == d
  {
    assert drop[..0] == [];
  }

  lemma ErasedKeeps(v: nat, d0: Disk, d: Disk, f: Fid, nums: seq<int>, k: nat, c: nat, j: nat)
    requires Sound(v, d0) && Chain(d0, f, nums) && k < |nums| && nums[k] in d0.live && c in d0.live[nums[k]].at
    requires d.live == d0.live
    requires KeepsDirs(v, d0, d, f.num)
    ensures KeepsDirs(v, d0, Put(d, c, j, Block([], 0)), f.num)
  {
    hide KeepsDirs, Shown, Links, Held;
    NextIn(d0, f, nums, k);
    forall m | m in d.live && m != f.num && d.live[m].dir && d.live[m].seg == 0
      ensures c !in d.live[m].at
    {
      assert k == 0 ==> nums[k] == f.num;
      NotThere(d0, nums[k], m, c);
    }
    KeepsByPut(v, d, f.num, c, j, Block([], 0));
    KeepsTrans(v, d0, d, Put(d, c, j, Block([], 0)), f.num);
  }

  lemma ErasedUnlisted(v: nat, d: Disk, c: nat, j: nat, f: Fid)
    requires Unlisted(v, d, f)
    ensures Unlisted(v, d.(data := d.data[(c, j) := Block([], 0)]), f)
  {
    hide Vbn;
    var d' := d.(data := d.data[(c, j) := Block([], 0)]);
    forall n, i: nat, k: nat | Uses(v, d', n, i, k)
      ensures forall r <- BlockAt(d', n, i, k).recs, e <- r.entries :: e.fid != f
    {
      assert Uses(v, d, n, i, k);
    }
  }

  lemma ChainDetached(v: nat, d: Disk, f: Fid, nums: seq<int>)
    requires R.Severed(v, d, nums) && Chain(d, f, nums)
    ensures R.Detached(d, nums) && R.AllLive(d, nums) && d.live[nums[0]].seqno == f.seqno && nums[0] == f.num
  {
  }

  lemma HeldDisjoint(v: nat, d: Disk)
    requires Consistent(v, d)
    ensures Held(d) && Disjoint(d) && Sound(v, d)
  {
  }

  lemma UnownedStill(y: Disk, d: Disk, cs: seq<nat>)
    requires y.live == d.live && y.bits == d.bits
    ensures forall c <- cs :: !Owned(y, c) ==> !Owned(d, c)
  {
  }

  lemma DeletedConsistent(v: nat, d: Disk, nums: seq<int>, now: Disk, cs: seq<nat>)
    requires R.Severed(v, d, nums) && Sound(v, now) && Sound(v, R.Killed(d, nums, |nums|))
    requires now == R.Killed(d, nums, |nums|).(used := now.used, dead := now.dead, bits := now.bits)
    requires forall n :: n in now.used <==> n in d.used && n !in nums
    ensures Consistent(v, now)
  {
    hide Sound, R.Severed, R.Killed, Consistent;
    var y := R.Killed(d, nums, |nums|);
    R.KilledConsistent(v, d, nums);
    R.KilledIs(d, nums);
    NumbersSay(v, y);
    ConsistentIndex(v, y, now.used, now.dead, y.indexEof);
    var z := y.(used := now.used, dead := now.dead);
    ConsistentBits(v, z, now.bits);
  }

  lemma KilledAlike(d: Disk, d': Disk, nums: seq<int>)
    requires d'.live == d.live
    ensures R.Killed(d', nums, |nums|).live == R.Killed(d, nums, |nums|).live
  {
  }

  lemma DeletedSpace(d: Disk, y: Disk, cs: seq<nat>, now: Disk)
    requires y.bits == d.bits && now.live == y.live && now.bits == Freed(y.bits, cs)
    requires forall c :: Owned(d, c) <==> Owned(y, c) || c in cs
    ensures forall c | 0 <= c < |now.bits| && now.bits[c] :: d.bits[c] || Owned(d, c)
    ensures forall c :: Owned(now, c) ==> Owned(d, c)
  {
    forall c | Owned(now, c)
      ensures Owned(y, c)
    {
    }
  }

  lemma OwnedAlike(d: Disk, now: Disk)
    requires now.live == d.live
    ensures forall c :: Owned(now, c) <==> Owned(d, c)
  {
  }

  lemma DeletedKeeps(v: nat, d: Disk, d0: Disk, f: Fid, nums: seq<int>, now: Disk)
    requires KeepsDirs(v, d, d0, f.num) && d0.live == d.live && Chain(d, f, nums) && Chain(d0, f, nums)
    requires now.live == R.Killed(d0, nums, |nums|).live && now.data == d0.data
    ensures KeepsFiles(d, now, f) && KeepsDirs(v, d, now, f.num) && OldDirs(d, now, None)
  {
    hide KeepsDirs, KeepsFiles, R.Killed;
    R.KilledIs(d0, nums);
    R.KilledIs(d, nums);
    R.ChainNoRepeats(d, f, nums);
    KilledAlike(d, d0, nums);
    KilledKeeps(d, f, nums, now);
    forall m | m in d0.live && m != f.num && d0.live[m].dir && d0.live[m].seg == 0
      ensures m in now.live && now.live[m] == d0.live[m]
    {
      assert forall i | 0 <= i < |nums| :: nums[i] == m ==> i == 0;
    }
    KeepsByHeaders(v, d0, now, f.num);
    KeepsTrans(v, d, d0, now, f.num);
  }

  // A header of the file.
  predicate HeaderOf(d: Disk, n: int, f: Fid) { n in d.live && d.live[n].file == f }

  lemma ChainNumbers(v: nat, d: Disk, f: Fid, nums: seq<int>)
    requires Consistent(v, d) && Chain(d, f, nums)
    ensures forall n :: n in nums <==> HeaderOf(d, n, f)
  {
    hide Consistent;
    forall n | HeaderOf(d, n, f)
      ensures n in nums
    {
      R.InChain(v, d, f, nums, n);
    }
  }

  // The blocks of the headers of other files are as they were.
  ghost predicate BlocksKept(d: Disk, now: Disk, f: Fid) {
    now.live == d.live && forall m, i: nat, j: nat | m in d.live && d.live[m].file != f && i < |d.live[m].at| ::
      BlockAt(now, m, i, j) == BlockAt(d, m, i, j)
  }

  lemma BlocksSelf(d: Disk, f: Fid)
    ensures BlocksKept(d, d, f)
  {
  }

  lemma ErasedBlocks(v: nat, d0: Disk, d: Disk, f: Fid, nums: seq<int>, k: nat, c: nat, j: nat)
    requires Sound(v, d0) && Chain(d0, f, nums) && k < |nums| && nums[k] in d0.live && c in d0.live[nums[k]].at
    requires BlocksKept(d0, d, f)
    ensures BlocksKept(d0, Put(d, c, j, Block([], 0)), f)
  {
    hide Shown, Links, Held;
    NextIn(d0, f, nums, k);
    var now := Put(d, c, j, Block([], 0));
    forall m, i: nat, l: nat | m in d0.live && d0.live[m].file != f && i < |d0.live[m].at|
      ensures BlockAt(now, m, i, l) == BlockAt(d0, m, i, l)
    {
      NotThere(d0, nums[k], m, c);
      assert d0.live[m].at[i] != c;
      assert BlockAt(d, m, i, l) == BlockAt(d0, m, i, l);
    }
  }

  // If what is left is sound, no directory but the file itself had an entry.
  lemma DeletedShown(v: nat, d: Disk, d0: Disk, f: Fid, nums: seq<int>, now: Disk)
    requires Consistent(v, d) && Chain(d, f, nums) && BlocksKept(d, d0, f)
    requires now.live == R.Killed(d0, nums, |nums|).live && now.data == d0.data && !Named(now, f)
    requires forall g :: Named(d, g) && g != f ==> Named(now, g)
    ensures Sound(v, now) ==> UnlistedElsewhere(v, d, f)
  {
    hide Consistent, R.Killed, Vbn, Links, Held, Disjoint;
    R.KilledIs(d0, nums);
    R.ChainNoRepeats(d, f, nums);
    if Sound(v, now) {
      forall m, i: nat, j: nat | Uses(v, d, m, i, j) && d.live[m].file != f
        ensures forall r <- BlockAt(d, m, i, j).recs, e <- r.entries :: e.fid != f
      {
        assert m !in nums;
        assert Named(now, d.live[m].file);
        assert d.live[m].file.num !in nums;
        assert Uses(v, now, m, i, j) && BlockAt(now, m, i, j) == BlockAt(d, m, i, j);
        assert Good(now, BlockAt(d, m, i, j));
      }
    }
  }

  lemma ChainGone(v: nat, d: Disk, f: Fid, nums: seq<int>, now: Disk)
    requires Consistent(v, d) && Chain(d, f, nums) && now.live == R.Killed(d, nums, |nums|).live
    ensures forall g :: Named(now, g) <==> Named(d, g) && g != f
  {
    hide Shown, Held, Disjoint, Ended, Numbered, R.Killed;
    R.KilledIs(d, nums);
    R.ChainNoRepeats(d, f, nums);
    forall g
      ensures Named(now, g) <==> Named(d, g) && g != f
    {
      if Named(d, g) {
        assert Typed(d, g.num);
        if g.num in nums {
          var i :| 0 <= i < |nums| && nums[i] == g.num;
        }
      }
    }
  }

  lemma ConservedFreed(d: Disk, y: Disk, cs: seq<nat>, now: Disk, but: set<nat>)
    requires Conserved(d, but) && y.bits == d.bits && forall c :: Owned(d, c) <==> Owned(y, c) || c in cs
    requires now.live == y.live && now.bits == Freed(y.bits, cs)
    ensures Conserved(now, but)
  {
    forall c | 0 <= c < |now.bits| && !now.bits[c]
      ensures Owned(now, c) || c in but
    {
      assert Owned(y, c) ==> Owned(now, c);
    }
  }

  // Numbers in use in the index file, with no headers yet, each once.
  ghost predicate NewNumbers(d: Disk, ids: seq<Fid>) {
    && (forall i | 0 <= i < |ids| :: ids[i].num !in d.live && ids[i].num in d.used && 0 < ids[i].num < d.indexEof)
    && (forall i, j | 0 <= i < j < |ids| :: ids[i].num != ids[j].num)
    && (forall i | 0 <= i < |ids| :: ids[i].seqno == Fresh(d, ids[i].num))
  }

  lemma ChainEnd(d: Disk, f: Fid, nums: seq<int>)
    requires Chain(d, f, nums)
    ensures nums != []
    ensures var n := nums[|nums| - 1]; n in d.live && d.live[n].file == f && d.live[n].ext.None? && Named(d, f)
  {
  }

  lemma NumbersSay(v: nat, d: Disk)
    requires Consistent(v, d)
    ensures Sound(v, d) && forall n <- d.live :: n in d.used && 0 < n < d.indexEof
  {
  }

  lemma SoundOf(v: nat, d: Disk)
    requires Consistent(v, d)
    ensures Sound(v, d)
  {
  }

  lemma ChosenWithin(bits: seq<bool>, take: seq<Bitmap.Piece>, want: nat)
    requires Bitmap.Chosen(bits, take, want)
    ensures forall p <- take :: p.start + p.len <= |bits|
  {
  }

  lemma MarkedTakes(bits: seq<bool>, take: seq<Bitmap.Piece>)
    ensures var now := Bitmap.Marked(bits, take, false);
      forall c | 0 <= c < |bits| :: (now[c] ==> bits[c]) && (now[c] != bits[c] ==> Bitmap.InAny(take, c))
  {
  }

  /** The bits with these clusters free. */
  function Freed(bits: seq<bool>, cs: seq<nat>): (r: seq<bool>)
    ensures |r| == |bits|
  {
    seq(|bits|, c requires 0 <= c < |bits| => bits[c] || c in cs)
  }

  // Each cluster as a piece of its own.
  function Units(cs: seq<nat>): (ps: seq<Bitmap.Piece>)
    ensures |ps| == |cs| && forall i | 0 <= i < |cs| :: ps[i] == Bitmap.Piece(cs[i], 1)
  {
    seq(|cs|, i requires 0 <= i < |cs| => Bitmap.Piece(cs[i], 1))
  }

  lemma UnitsWithin(bits: seq<bool>, cs: seq<nat>)
    requires forall c <- cs :: c < |bits|
    ensures forall p <- Units(cs) :: p.len > 0 && p.start + p.len <= |bits|
  {
    forall p | p in Units(cs)
      ensures p.len > 0 && p.start + p.len <= |bits|
    {
      var i :| 0 <= i < |cs| && Units(cs)[i] == p;
      assert cs[i] in cs;
    }
  }

  lemma UnitsIn(cs: seq<nat>, c: nat)
    ensures Bitmap.InAny(Units(cs), c) <==> c in cs
  {
    if c in cs {
      var i :| 0 <= i < |cs| && cs[i] == c;
      assert Bitmap.In(Units(cs)[i], c);
    }
  }

  lemma MarkedFrees(bits: seq<bool>, cs: seq<nat>)
    ensures Bitmap.Marked(bits, Units(cs), true) == Freed(bits, cs)
    ensures forall c | 0 <= c < |bits| && Freed(bits, cs)[c] != bits[c] :: c in cs && Bitmap.InAny(Units(cs), c)
  {
    hide Bitmap.InAny;
    forall c | 0 <= c < |bits|
      ensures Bitmap.Marked(bits, Units(cs), true)[c] == Freed(bits, cs)[c]
    {
      UnitsIn(cs, c);
    }
    forall c | 0 <= c < |bits| && Freed(bits, cs)[c] != bits[c]
      ensures c in cs && Bitmap.InAny(Units(cs), c)
    {
      UnitsIn(cs, c);
    }
  }

  lemma UnitsReleasable(bits: seq<bool>, cs: seq<nat>)
    requires Distinct(cs) && forall c <- cs :: c < |bits| && !bits[c]
    ensures Bitmap.Releasable(bits, Units(cs))
  {
    var ps := Units(cs);
    forall p | p in ps
      ensures p.start + p.len <= |bits| && forall c | Bitmap.In(p, c) :: !bits[c]
    {
      var i :| 0 <= i < |cs| && ps[i] == p;
      assert cs[i] in cs;
    }
  }

  lemma GivenUnowned(d: Disk, cs: seq<nat>)
    requires forall c <- cs :: !Owned(d, c)
    ensures forall c <- cs :: forall n <- d.live :: c !in d.live[n].at
  {
  }

  // The clusters of pieces, in order.
  function ClustersOf(ps: seq<Bitmap.Piece>): seq<nat> {
    if ps == [] then []
    else seq(ps[0].len, i requires 0 <= i => ps[0].start + i) + ClustersOf(ps[1..])
  }

  lemma {:induction false} ClustersIn(ps: seq<Bitmap.Piece>, c: int)
    ensures c in ClustersOf(ps) <==> Bitmap.InAny(ps, c)
  {
    if ps != [] {
      var p, rest := ps[0], ps[1..];
      ClustersIn(rest, c);
      assert ps == [p] + rest;
      FirstIn(p, rest, c);
      var first := seq(p.len, i requires 0 <= i => p.start + i);
      if Bitmap.In(p, c) { assert first[c - p.start] == c; }
    }
  }

  lemma {:induction false} ClustersDistinct(ps: seq<Bitmap.Piece>)
    requires Bitmap.AllApart(ps)
    ensures Distinct(ClustersOf(ps))
  {
    if ps != [] {
      var p, rest := ps[0], ps[1..];
      RestApart(ps);
      ClustersDistinct(rest);
      var first := seq(p.len, i requires 0 <= i => p.start + i);
      forall c | c in first
        ensures c !in ClustersOf(rest)
      {
        ClustersIn(rest, c);
        RestElsewhere(ps, c);
      }
      JoinDistinct(first, ClustersOf(rest));
    }
  }

  lemma RestApart(ps: seq<Bitmap.Piece>)
    requires Bitmap.AllApart(ps) && ps != []
    ensures Bitmap.AllApart(ps[1..])
  {
    var rest := ps[1..];
    forall i, j | 0 <= i < j < |rest|
      ensures Bitmap.Apart(rest[i], rest[j])
    {
      assert Bitmap.Apart(ps[i + 1], ps[j + 1]);
    }
  }

  lemma RestElsewhere(ps: seq<Bitmap.Piece>, c: int)
    requires Bitmap.AllApart(ps) && ps != [] && Bitmap.In(ps[0], c)
    ensures !Bitmap.InAny(ps[1..], c)
  {
    forall k | 0 <= k < |ps[1..]|
      ensures !Bitmap.In(ps[1..][k], c)
    {
      assert Bitmap.Apart(ps[0], ps[k + 1]);
    }
  }

  lemma FirstIn(p: Bitmap.Piece, rest: seq<Bitmap.Piece>, c: int)
    ensures Bitmap.InAny([p] + rest, c) <==> Bitmap.In(p, c) || Bitmap.InAny(rest, c)
  {
    var ps := [p] + rest;
    assert ps[0] == p;
    if Bitmap.InAny(rest, c) {
      var i :| 0 <= i < |rest| && Bitmap.In(rest[i], c);
      assert ps[i + 1] == rest[i];
    }
    if Bitmap.InAny(ps, c) {
      var i :| 0 <= i < |ps| && Bitmap.In(ps[i], c);
      assert i > 0 ==> rest[i - 1] == ps[i];
    }
  }

  lemma Untouched(ps: seq<Bitmap.Piece>, c: nat, b: nat)
    requires InBlock(c, b) && !Touched(ps, b)
    ensures !Bitmap.InAny(ps, c)
  {
    forall i | 0 <= i < |ps|
      ensures !Bitmap.In(ps[i], c)
    {
      if Bitmap.In(ps[i], c) { InTouched(ps[i], c, b); }
    }
  }
}
