/** The assembler's relocatable expressions, the commands it emits for the
    linker's stack machine, and that machine.  An expression is evaluated
    before the linker places anything; the value, resolved at link time in
    any placement, is proved to be what the expression means on the final
    64-bit addresses.  So are the bytes a psect's commands store, and where. */
module Relocation {
  import opened Numbers

  // ---------------------------------------------------------------------
  // 64-bit words, i64 and u64 alike
  // ---------------------------------------------------------------------

  const WORD := 0x1_0000_0000_0000_0000
  type Word = x: int | 0 <= x < WORD

  function Signed(a: Word): int {
    if a < WORD / 2 then a else a - WORD
  }

  function Wrap(x: int): Word { x % WORD }

  function Add(a: Word, b: Word): Word { Wrap(a + b) }

  function Sub(a: Word, b: Word): Word { Wrap(a - b) }

  function Not(a: Word): Word { WORD - 1 - a }

  function Magnitude(x: int): nat { if x < 0 then -x else x }

  // i64's wrapping_div and wrapping_rem truncate toward zero.
  function Div(a: Word, b: Word): Word
    requires b != 0
  {
    var x, y := Signed(a), Signed(b);
    var q := Magnitude(x) / Magnitude(y);
    Wrap(if (x < 0) == (y < 0) then q else -q)
  }

  function Rem(a: Word, b: Word): Word
    requires b != 0
  {
    var x, y := Signed(a), Signed(b);
    var r := Magnitude(x) % Magnitude(y);
    Wrap(if x < 0 then -r else r)
  }

  // Shift counts are taken modulo 64.
  function Shl(a: Word, n: int): Word { Wrap(a * Pow2(n % 64)) }

  function Shr(a: Word, n: int): Word {
    Wrap(a / Pow2(n % 64))
  }

  function ShrSigned(a: Word, n: int): Word {
    Wrap(Signed(a) / Pow2(n % 64))
  }

  // Bit by bit, on the low n bits.
  function Bitwise(op: (bool, bool) -> bool, a: nat, b: nat, n: nat): nat {
    if n == 0 then 0
    else (if op(a % 2 == 1, b % 2 == 1) then 1 else 0) + 2 * Bitwise(op, a / 2, b / 2, n - 1)
  }

  function And(a: Word, b: Word): Word { Wrap(Bitwise((x, y) => x && y, a, b, 64)) }

  function Xor(a: Word, b: Word): Word { Wrap(Bitwise((x, y) => x != y, a, b, 64)) }

  function Or(a: Word, b: Word): Word { Wrap(Bitwise((x, y) => x || y, a, b, 64)) }

  // ---------------------------------------------------------------------
  // Expressions and their values
  // ---------------------------------------------------------------------

  datatype Op = OpMul | OpDiv | OpRem | OpAdd | OpSub | OpShl | OpShr | OpAnd | OpXor | OpOr | OpAsh

  datatype Expr =
    | Num(n: Word)
    | Sym(name: string)
    | Here
    | Neg(e: Expr)
    | Com(e: Expr)
    | Bin(op: Op, l: Expr, r: Expr)

  // A module's psects are numbered below 2^32.
  type PsectIndex = x: int | 0 <= x < 0x1_0000_0000

  datatype Value =
    | Abs(n: Word)
    | Psect(psect: PsectIndex, offset: Word)
    | Ext(name: string, offset: Word)

  datatype Scope = Scope(symbols: map<string, Value>, here: Value)

  datatype Error = Undefined(name: string) | DivisionByZero | NotLinear

  datatype Result<+T> = Ok(value: T) | Err(error: Error) {
    predicate IsFailure() { Err? }
    function PropagateFailure<U>(): Result<U>
      requires Err?
    {
      Err(error)
    }
    function Extract(): T
      requires Ok?
    {
      value
    }
  }

  function Constant(v: Value): Result<Word> {
    if v.Abs? then Ok(v.n) else Err(NotLinear)
  }

  function Arith(op: Op, l: Word, r: Word): Result<Word> {
    match op
    case OpMul => Ok(Wrap(l * r))
    case OpDiv => if r == 0 then Err(DivisionByZero) else Ok(Div(l, r))
    case OpRem => if r == 0 then Err(DivisionByZero) else Ok(Rem(l, r))
    case OpAdd => Ok(Add(l, r))
    case OpSub => Ok(Sub(l, r))
    case OpShl => Ok(Shl(l, r))
    case OpShr => Ok(Shr(l, r))
    case OpAnd => Ok(And(l, r))
    case OpXor => Ok(Xor(l, r))
    case OpOr => Ok(Or(l, r))
    case OpAsh => Ok(if Signed(r) >= 0 then Shl(l, r) else ShrSigned(l, Magnitude(Signed(r))))
  }

  /** Evaluates e before anything is placed. */
  function Eval(e: Expr, s: Scope): Result<Value> {
    match e
    case Num(n) => Ok(Abs(n))
    case Sym(name) => if name in s.symbols then Ok(s.symbols[name]) else Err(Undefined(name))
    case Here => Ok(s.here)
    case Neg(e) =>
      var v :- Eval(e, s);
      var n :- Constant(v);
      Ok(Abs(Sub(0, n)))
    case Com(e) =>
      var v :- Eval(e, s);
      var n :- Constant(v);
      Ok(Abs(Not(n)))
    case Bin(op, l, r) =>
      var v :- Eval(l, s);
      var w :- Eval(r, s);
      Combine(op, v, w)
  }

  function Combine(op: Op, l: Value, r: Value): Result<Value> {
    if op == OpAdd && l.Psect? && r.Abs? then Ok(Psect(l.psect, Add(l.offset, r.n)))
    else if op == OpAdd && l.Abs? && r.Psect? then Ok(Psect(r.psect, Add(r.offset, l.n)))
    else if op == OpAdd && l.Ext? && r.Abs? then Ok(Ext(l.name, Add(l.offset, r.n)))
    else if op == OpAdd && l.Abs? && r.Ext? then Ok(Ext(r.name, Add(r.offset, l.n)))
    else if op == OpSub && l.Psect? && r.Abs? then Ok(Psect(l.psect, Sub(l.offset, r.n)))
    else if op == OpSub && l.Ext? && r.Abs? then Ok(Ext(l.name, Sub(l.offset, r.n)))
    else if op == OpSub && l.Psect? && r.Psect? && l.psect == r.psect then Ok(Abs(Sub(l.offset, r.offset)))
    else if op == OpSub && l.Ext? && r.Ext? && l.name == r.name then Ok(Abs(Sub(l.offset, r.offset)))
    else
      var a :- Constant(l);
      var b :- Constant(r);
      var n :- Arith(op, a, b);
      Ok(Abs(n))
  }

  // ---------------------------------------------------------------------
  // What an expression means once everything is placed
  // ---------------------------------------------------------------------

  /** Where the linker put each psect and what each external is, how each
      weighs when the image moves (1 for an address), and how an instruction
      takes a value at an address. */
  datatype Placement = Placement(base: PsectIndex -> Word, external: string -> Word,
                                 psectWeight: PsectIndex -> int, externalWeight: string -> int,
                                 patch: (nat, Word, Word, Word) -> Result<Word>)

  function Resolve(v: Value, pl: Placement): Word {
    match v
    case Abs(n) => n
    case Psect(p, offset) => Add(pl.base(p), offset)
    case Ext(name, offset) => Add(pl.external(name), offset)
  }

  /** The expression on final addresses: plain 64-bit arithmetic. */
  function Final(e: Expr, s: Scope, pl: Placement): Result<Word> {
    match e
    case Num(n) => Ok(n)
    case Sym(name) => if name in s.symbols then Ok(Resolve(s.symbols[name], pl)) else Err(Undefined(name))
    case Here => Ok(Resolve(s.here, pl))
    case Neg(e) =>
      var n :- Final(e, s, pl);
      Ok(Sub(0, n))
    case Com(e) =>
      var n :- Final(e, s, pl);
      Ok(Not(n))
    case Bin(op, l, r) =>
      var a :- Final(l, s, pl);
      var b :- Final(r, s, pl);
      Arith(op, a, b)
  }

  lemma WrapAbsorbs(x: int, y: int)
    ensures Wrap(Wrap(x) + y) == Wrap(x + y) && Wrap(x - Wrap(y)) == Wrap(x - y)
  {
    ModAddMultiple(x + y, -(x / WORD), WORD);
    ModAddMultiple(x - y, y / WORD, WORD);
  }

  lemma AddMovesOffset(base: Word, offset: Word, n: Word)
    ensures Add(Add(base, offset), n) == Add(base, Add(offset, n)) == Add(n, Add(base, offset))
    ensures Sub(Add(base, offset), n) == Add(base, Sub(offset, n))
  {
    hide Wrap;
    WrapAbsorbs(base + offset, n);
    WrapAbsorbs(offset + n, base);
    WrapAbsorbs(base + offset, 0 - n);
    WrapAbsorbs(offset - n, base);
  }

  lemma BasesCancel(base: Word, a: Word, b: Word)
    ensures Sub(Add(base, a), Add(base, b)) == Sub(a, b)
  {
    hide Wrap;
    WrapAbsorbs(base + a, 0 - Add(base, b));
    WrapAbsorbs(base + a, base + b);
  }

  lemma CombineSound(op: Op, l: Value, r: Value, pl: Placement)
    requires Combine(op, l, r).Ok?
    ensures Arith(op, Resolve(l, pl), Resolve(r, pl)) == Ok(Resolve(Combine(op, l, r).value, pl))
  {
    hide Add, Sub, Div, Rem, Shl, Shr, ShrSigned, And, Xor, Or, Wrap;
    if l.Psect? && r.Abs? {
      AddMovesOffset(pl.base(l.psect), l.offset, r.n);
    } else if l.Abs? && r.Psect? {
      AddMovesOffset(pl.base(r.psect), r.offset, l.n);
    } else if l.Ext? && r.Abs? {
      AddMovesOffset(pl.external(l.name), l.offset, r.n);
    } else if l.Abs? && r.Ext? {
      AddMovesOffset(pl.external(r.name), r.offset, l.n);
    } else if l.Psect? && r.Psect? {
      BasesCancel(pl.base(l.psect), l.offset, r.offset);
    } else if l.Ext? && r.Ext? {
      BasesCancel(pl.external(l.name), l.offset, r.offset);
    }
  }

  /** A value given before placement is right in every placement. */
  lemma {:induction false} EvalSound(e: Expr, s: Scope, pl: Placement)
    requires Eval(e, s).Ok?
    ensures Final(e, s, pl) == Ok(Resolve(Eval(e, s).value, pl))
  {
    hide Arith, Combine;
    match e
    case Num(_) =>
    case Sym(_) =>
    case Here =>
    case Neg(a) => EvalSound(a, s, pl);
    case Com(a) => EvalSound(a, s, pl);
    case Bin(op, l, r) =>
      EvalSound(l, s, pl);
      EvalSound(r, s, pl);
      CombineSound(op, Eval(l, s).value, Eval(r, s).value, pl);
  }

  /** An evaluation that fails for anything but the linker's limits fails on
      final addresses too: no error is made up. */
  lemma {:induction false} EvalErrors(e: Expr, s: Scope, pl: Placement)
    requires Eval(e, s).Err? && Eval(e, s).error != NotLinear
    ensures Final(e, s, pl) == Err(Eval(e, s).error)
  {
    hide Arith, Resolve;
    match e
    case Num(_) =>
    case Sym(_) =>
    case Here =>
    case Neg(a) => EvalErrors(a, s, pl);
    case Com(a) => EvalErrors(a, s, pl);
    case Bin(op, l, r) =>
      if Eval(l, s).Err? {
        EvalErrors(l, s, pl);
      } else {
        EvalSound(l, s, pl);
        if Eval(r, s).Err? {
          EvalErrors(r, s, pl);
        } else {
          EvalSound(r, s, pl);
          CombineErrors(op, Eval(l, s).value, Eval(r, s).value, pl);
        }
      }
  }

  lemma CombineErrors(op: Op, l: Value, r: Value, pl: Placement)
    requires Combine(op, l, r).Err? && Combine(op, l, r).error != NotLinear
    ensures Arith(op, Resolve(l, pl), Resolve(r, pl)) == Err(Combine(op, l, r).error)
  {
    hide Arith;
  }

  /** What an absolute value means does not depend on the placement, and a
      psect's moves by exactly what the psect does. */
  lemma ValuesMove(e: Expr, s: Scope, pl: Placement, moved: Placement, d: Word)
    requires Eval(e, s).Ok?
    ensures Eval(e, s).value.Abs? ==> Final(e, s, moved) == Final(e, s, pl)
    ensures Eval(e, s).value.Psect? && moved.base(Eval(e, s).value.psect) == Add(pl.base(Eval(e, s).value.psect), d)
            ==> Final(e, s, pl).Ok? && Final(e, s, moved) == Ok(Add(Final(e, s, pl).value, d))
  {
    hide Final, Eval, Add;
    EvalSound(e, s, pl);
    EvalSound(e, s, moved);
    var v := Eval(e, s).value;
    if v.Psect? {
      AddMovesOffset(pl.base(v.psect), d, v.offset);
      AddMovesOffset(pl.base(v.psect), v.offset, d);
      AddCommutes(v.offset, d);
    }
  }

  lemma AddCommutes(a: Word, b: Word)
    ensures Add(a, b) == Add(b, a)
  {
  }

  // ---------------------------------------------------------------------
  // Object commands, and the linker that runs them
  // ---------------------------------------------------------------------

  datatype Tir =
    | StaQw(value: Word)
    | StaPq(psect: PsectIndex, offset: Word)
    | StaGbl(name: string)
    | OprAdd
    | CtlSetrb
    | CtlAugrb(step: nat)
    | StoImm(data: seq<bv8>)
    | StoB | StoW | StoLw | StoQw | StoOff
    | StoInsn(fix: nat, insn: Word)

  datatype Option<+T> = None | Some(value: T)

  // What an operator takes: a value and how many section bases are in it.
  datatype Item = Item(value: Word, weight: int)

  datatype Linker = Linker(stack: seq<Item>, loc: Option<Word>, image: map<Word, bv8>)

  // The n low bytes, low byte first.
  function Bytes(v: nat, n: nat): seq<bv8> {
    if n == 0 then [] else [(v % 256) as bv8] + Bytes(v / 256, n - 1)
  }

  function Poke(image: map<Word, bv8>, at: Word, data: seq<bv8>): map<Word, bv8>
    decreases |data|
  {
    if data == [] then image else Poke(image[at := data[0]], Add(at, 1), data[1..])
  }

  // Storing the value in so many bytes loses nothing that a load can see.
  predicate Fits(v: Word, size: nat, weight: int) {
    if size == 4 && weight == 1 then 0 - Pow2(31) <= Signed(v) < Pow2(31)
    else size == 8 || (size > 0 && 0 - Pow2(8 * size - 1) <= Signed(v) < Pow2(8 * size))
  }

  function Store(m: Linker, data: seq<bv8>): Option<Linker> {
    if m.loc.None? then None
    else Some(m.(loc := Some(Add(m.loc.value, Wrap(|data|))), image := Poke(m.image, m.loc.value, data)))
  }

  // The top of the stack, in size bytes, if it fits.
  function StoreTop(m: Linker, size: nat): Option<Linker> {
    if m.stack == [] then None
    else
      var top := m.stack[|m.stack| - 1];
      if !Fits(top.value, size, top.weight) then None
      else Store(m.(stack := m.stack[..|m.stack| - 1]), Bytes(top.value, size))
  }

  // A CtlAugrb's offset is a signed longword.
  function SignExtended(x: nat): Word {
    var low := x % 0x1_0000_0000;
    if low < 0x8000_0000 then low else WORD - 0x1_0000_0000 + low
  }

  function Step(cmd: Tir, m: Linker, pl: Placement): Option<Linker> {
    match cmd
    case StaQw(value) => Some(m.(stack := m.stack + [Item(value, 0)]))
    case StaPq(p, offset) => Some(m.(stack := m.stack + [Item(Add(pl.base(p), offset), pl.psectWeight(p))]))
    case StaGbl(name) => Some(m.(stack := m.stack + [Item(pl.external(name), pl.externalWeight(name))]))
    case OprAdd =>
      var n := |m.stack|;
      if n < 2 then None
      else
        var sum := Item(Add(m.stack[n - 2].value, m.stack[n - 1].value),
                        m.stack[n - 2].weight + m.stack[n - 1].weight);
        Some(m.(stack := m.stack[..n - 2] + [sum]))
    case CtlSetrb =>
      if m.stack == [] then None
      else Some(m.(loc := Some(m.stack[|m.stack| - 1].value), stack := m.stack[..|m.stack| - 1]))
    case CtlAugrb(step) =>
      if m.loc.None? then None else Some(m.(loc := Some(Add(m.loc.value, SignExtended(step)))))
    case StoImm(data) => Store(m, data)
    case StoB => StoreTop(m, 1)
    case StoW => StoreTop(m, 2)
    case StoLw => StoreTop(m, 4)
    case StoQw => StoreTop(m, 8)
    case StoOff => StoreTop(m, 8)
    case StoInsn(fix, insn) =>
      if m.stack == [] || m.loc.None? then None
      else
        match pl.patch(fix, insn, m.stack[|m.stack| - 1].value, m.loc.value)
        case Err(_) => None
        case Ok(word) => Store(m.(stack := m.stack[..|m.stack| - 1]), Bytes(word, 4))
  }

  function Run(cmds: seq<Tir>, m: Linker, pl: Placement): Option<Linker> {
    if cmds == [] then Some(m)
    else
      match Step(cmds[0], m, pl)
      case None => None
      case Some(next) => Run(cmds[1..], next, pl)
  }

  lemma {:induction false} RunConcat(a: seq<Tir>, b: seq<Tir>, m: Linker, pl: Placement)
    ensures Run(a + b, m, pl) == match Run(a, m, pl) case None => None case Some(n) => Run(b, n, pl)
  {
    hide Step;
    if a == [] {
      assert a + b == b;
    } else {
      assert (a + b)[1..] == a[1..] + b;
      match Step(a[0], m, pl)
      case None =>
      case Some(next) => RunConcat(a[1..], b, next, pl);
    }
  }

  // ---------------------------------------------------------------------
  // Values on the linker's stack
  // ---------------------------------------------------------------------

  /** The commands that push v. */
  function Push(v: Value): seq<Tir> {
    match v
    case Abs(n) => [StaQw(n)]
    case Psect(p, offset) => [StaPq(p, offset)]
    case Ext(name, offset) => [StaGbl(name)] + if offset != 0 then [StaQw(offset), OprAdd] else []
  }

  function Weight(v: Value, pl: Placement): int {
    match v
    case Abs(_) => 0
    case Psect(p, _) => pl.psectWeight(p)
    case Ext(name, _) => pl.externalWeight(name)
  }

  function WithItem(m: Linker, v: Value, pl: Placement): Linker {
    m.(stack := m.stack + [Item(Resolve(v, pl), Weight(v, pl))])
  }

  lemma PushRuns(v: Value, m: Linker, pl: Placement)
    ensures Run(Push(v), m, pl) == Some(WithItem(m, v, pl))
  {
    hide Store, StoreTop, SignExtended;
    match v
    case Abs(n) => RunOne(StaQw(n), m, pl);
    case Psect(p, offset) => RunOne(StaPq(p, offset), m, pl);
    case Ext(name, offset) =>
      RunOne(StaGbl(name), m, pl);
      if offset != 0 {
        var m1 := Step(StaGbl(name), m, pl).value;
        var m2 := Step(StaQw(offset), m1, pl).value;
        RunConcat([StaGbl(name)], [StaQw(offset), OprAdd], m, pl);
        assert [StaQw(offset), OprAdd][1..] == [OprAdd];
        RunOne(OprAdd, m2, pl);
        assert m2.stack[..|m.stack|] == m.stack;
      } else {
        assert Push(v) == [StaGbl(name)];
        assert Resolve(v, pl) == pl.external(name);
      }
  }

  lemma RunOne(cmd: Tir, m: Linker, pl: Placement)
    ensures Run([cmd], m, pl) == Step(cmd, m, pl)
  {
    hide Step;
    assert [cmd][1..] == [];
  }

  /** The linker's stack ends up with the meaning of the expression on final
      addresses, whatever they are. */
  lemma PushedMeaning(e: Expr, s: Scope, m: Linker, pl: Placement)
    requires Eval(e, s).Ok?
    ensures var after := Run(Push(Eval(e, s).value), m, pl);
      && after.Some? && |after.value.stack| == |m.stack| + 1
      && after.value.stack[..|m.stack|] == m.stack && after.value.image == m.image && after.value.loc == m.loc
      && Final(e, s, pl) == Ok(after.value.stack[|m.stack|].value)
  {
    hide Eval, Final, Resolve, Run, Push;
    EvalSound(e, s, pl);
    PushRuns(Eval(e, s).value, m, pl);
  }

  // ---------------------------------------------------------------------
  // A psect's contents
  // ---------------------------------------------------------------------

  datatype Chunk =
    | Data(bytes: seq<bv8>)
    | Insn(fix: nat, word: Word, target: Value)
    | Datum(size: nat, value: Value)

  predicate WellSized(c: Chunk) {
    c.Datum? ==> c.size in {1, 2, 4, 8}
  }

  function Size(c: Chunk): nat {
    match c
    case Data(bytes) => |bytes|
    case Insn(_, _, _) => 4
    case Datum(size, _) => size
  }

  // Chunks in the order of their offsets, none over another.
  predicate InOrder(chunks: seq<(nat, Chunk)>, loc: nat)
    decreases |chunks|
  {
    chunks == [] || (chunks[0].0 >= loc && WellSized(chunks[0].1) &&
                     InOrder(chunks[1..], chunks[0].0 + Size(chunks[0].1)))
  }

  /** The bytes a chunk stands for at an address, if the values fit. */
  function ChunkBytes(c: Chunk, at: Word, pl: Placement): Option<seq<bv8>> {
    match c
    case Data(bytes) => Some(bytes)
    case Insn(fix, word, target) =>
      (match pl.patch(fix, word, Resolve(target, pl), at)
       case Err(_) => None
       case Ok(patched) => Some(Bytes(patched, 4)))
    case Datum(size, value) =>
      if Fits(Resolve(value, pl), size, Weight(value, pl)) then Some(Bytes(Resolve(value, pl), size)) else None
  }

  /** The image with each chunk's bytes at its own offset from base. */
  function Placed(chunks: seq<(nat, Chunk)>, base: Word, image: map<Word, bv8>, pl: Placement): Option<map<Word, bv8>>
    decreases |chunks|
  {
    if chunks == [] then Some(image)
    else
      var at := Add(base, Wrap(chunks[0].0));
      match ChunkBytes(chunks[0].1, at, pl)
      case None => None
      case Some(data) => Placed(chunks[1..], base, Poke(image, at, data), pl)
  }

  const MAX_STEP := 0x7fff_ffff
  const MAX_IMM := 4096

  function GapCommands(gap: nat): seq<Tir> {
    if gap == 0 then []
    else
      var step := if gap < MAX_STEP then gap else MAX_STEP;
      [CtlAugrb(step)] + GapCommands(gap - step)
  }

  function ImmCommands(b: seq<bv8>): seq<Tir>
    decreases |b|
  {
    if b == [] then []
    else
      var n := if |b| < MAX_IMM then |b| else MAX_IMM;
      [StoImm(b[..n])] + ImmCommands(b[n..])
  }

  function StoreCommand(size: nat, value: Value): Tir {
    if size == 1 then StoB
    else if size == 2 then StoW
    else if size == 4 then StoLw
    else if value.Psect? then StoOff
    else StoQw
  }

  function ChunkCommands(c: Chunk): seq<Tir> {
    match c
    case Data(bytes) => ImmCommands(bytes)
    case Insn(fix, word, target) => Push(target) + [StoInsn(fix, word)]
    case Datum(size, value) => Push(value) + [StoreCommand(size, value)]
  }

  function PsectCommands(chunks: seq<(nat, Chunk)>, loc: nat): seq<Tir>
    requires InOrder(chunks, loc)
    decreases |chunks|
  {
    if chunks == [] then []
    else GapCommands(chunks[0].0 - loc) + ChunkCommands(chunks[0].1) +
         PsectCommands(chunks[1..], chunks[0].0 + Size(chunks[0].1))
  }

  // The gap before a chunk, which the linker fills with zeros.
  method EmitGap(cmds: seq<Tir>, gap: nat) returns (out: seq<Tir>)
    ensures out == cmds + GapCommands(gap)
  {
    out := cmds;
    var left := gap;
    while left > 0
      invariant left >= 0 && out + GapCommands(left) == cmds + GapCommands(gap)
    {
      var step := if left < MAX_STEP then left else MAX_STEP;
      assert out + [CtlAugrb(step)] + GapCommands(left - step) == out + GapCommands(left);
      out := out + [CtlAugrb(step)];
      left := left - step;
    }
  }

  method EmitBytes(cmds: seq<Tir>, b: seq<bv8>) returns (out: seq<Tir>)
    ensures out == cmds + ImmCommands(b)
  {
    out := cmds;
    var i := 0;
    assert b[0..] == b;
    while i < |b|
      invariant 0 <= i <= |b| && out + ImmCommands(b[i..]) == cmds + ImmCommands(b)
    {
      var n := if |b| - i < MAX_IMM then |b| - i else MAX_IMM;
      assert b[i..][..n] == b[i..i + n] && b[i..][n..] == b[i + n..];
      assert out + [StoImm(b[i..i + n])] + ImmCommands(b[i + n..]) == out + ImmCommands(b[i..]);
      out := out + [StoImm(b[i..i + n])];
      i := i + n;
    }
  }

  method EmitChunk(cmds: seq<Tir>, chunk: Chunk) returns (out: seq<Tir>)
    ensures out == cmds + ChunkCommands(chunk)
  {
    match chunk
    case Data(b) => out := EmitBytes(cmds, b);
    case Insn(fix, word, target) => out := cmds + (Push(target) + [StoInsn(fix, word)]);
    case Datum(size, value) => out := cmds + (Push(value) + [StoreCommand(size, value)]);
  }

  /** records' loop over one psect's chunks. */
  method EmitPsect(psect: PsectIndex, chunks: seq<(nat, Chunk)>) returns (cmds: seq<Tir>)
    requires InOrder(chunks, 0)
    ensures cmds == if chunks == [] then [] else [StaPq(psect, 0), CtlSetrb] + PsectCommands(chunks, 0)
  {
    hide GapCommands, ChunkCommands;
    if chunks == [] {
      return [];
    }
    cmds := [StaPq(psect, 0), CtlSetrb];
    var loc: nat := 0;
    var k := 0;
    ghost var all := cmds + PsectCommands(chunks, 0);
    assert chunks[0..] == chunks;
    while k < |chunks|
      invariant 0 <= k <= |chunks| && InOrder(chunks[k..], loc)
      invariant cmds + PsectCommands(chunks[k..], loc) == all
    {
      var (offset, chunk) := chunks[k];
      assert chunks[k..][1..] == chunks[k + 1..];
      ghost var start, rest := cmds, PsectCommands(chunks[k + 1..], offset + Size(chunk));
      assert all == start + (GapCommands(offset - loc) + ChunkCommands(chunk) + rest);
      cmds := EmitGap(cmds, offset - loc);
      cmds := EmitChunk(cmds, chunk);
      assert cmds == start + GapCommands(offset - loc) + ChunkCommands(chunk);
      loc := offset + Size(chunk);
      k := k + 1;
    }
  }

  lemma {:induction false} BytesLength(v: nat, n: nat)
    ensures |Bytes(v, n)| == n
  {
    if n > 0 { BytesLength(v / 256, n - 1); }
  }

  // Moving on by x and then by y.
  lemma LocationMoves(base: Word, x: nat, y: nat)
    ensures Add(Add(base, Wrap(x)), Wrap(y)) == Add(base, Wrap(x + y))
  {
    hide Wrap;
    WrapAbsorbs(x, base);
    WrapAbsorbs(base + x, Wrap(y));
    WrapAbsorbs(y, base + x);
    WrapAbsorbs(x + y, base);
  }

  lemma {:induction false} GapRuns(gap: nat, base: Word, from: nat, m: Linker, pl: Placement)
    requires m.loc == Some(Add(base, Wrap(from)))
    ensures Run(GapCommands(gap), m, pl) == Some(m.(loc := Some(Add(base, Wrap(from + gap)))))
  {
    hide Add, Wrap;
    if gap > 0 {
      var step := if gap < MAX_STEP then gap else MAX_STEP;
      var next := Step(CtlAugrb(step), m, pl);
      assert SignExtended(step) == step;
      SmallWrap(step);
      LocationMoves(base, from, step);
      assert next == Some(m.(loc := Some(Add(base, Wrap(from + step)))));
      GapRuns(gap - step, base, from + step, next.value, pl);
      assert GapCommands(gap)[1..] == GapCommands(gap - step);
    }
  }

  lemma SmallWrap(x: nat)
    requires x < WORD
    ensures Wrap(x) == x
  {
  }

  lemma {:induction false} PokeConcat(image: map<Word, bv8>, base: Word, from: nat, a: seq<bv8>, b: seq<bv8>)
    ensures Poke(image, Add(base, Wrap(from)), a + b)
         == Poke(Poke(image, Add(base, Wrap(from)), a), Add(base, Wrap(from + |a|)), b)
    decreases |a|
  {
    hide Add, Wrap;
    if a == [] {
      assert a + b == b;
    } else {
      assert (a + b)[1..] == a[1..] + b;
      SmallWrap(1);
      LocationMoves(base, from, 1);
      PokeConcat(image[Add(base, Wrap(from)) := a[0]], base, from + 1, a[1..], b);
    }
  }

  lemma {:induction false} ImmRuns(b: seq<bv8>, base: Word, from: nat, m: Linker, pl: Placement)
    requires m.loc == Some(Add(base, Wrap(from)))
    ensures Run(ImmCommands(b), m, pl) == Some(m.(loc := Some(Add(base, Wrap(from + |b|))),
                                                   image := Poke(m.image, Add(base, Wrap(from)), b)))
    decreases |b|
  {
    hide Add, Wrap;
    if b != [] {
      var n := if |b| < MAX_IMM then |b| else MAX_IMM;
      LocationMoves(base, from, n);
      var next := Step(StoImm(b[..n]), m, pl);
      assert b == b[..n] + b[n..];
      PokeConcat(m.image, base, from, b[..n], b[n..]);
      ImmRuns(b[n..], base, from + n, next.value, pl);
      assert ImmCommands(b)[1..] == ImmCommands(b[n..]);
    }
  }

  // A value pushed and stored by the command after it.
  lemma PushStore(v: Value, store: Tir, m: Linker, pl: Placement)
    ensures Run(Push(v) + [store], m, pl) == Step(store, WithItem(m, v, pl), pl)
  {
    hide Step, Push, WithItem;
    RunConcat(Push(v), [store], m, pl);
    PushRuns(v, m, pl);
    RunOne(store, WithItem(m, v, pl), pl);
  }

  lemma ChunkRuns(c: Chunk, base: Word, from: nat, m: Linker, pl: Placement)
    requires WellSized(c) && m.loc == Some(Add(base, Wrap(from)))
    ensures Run(ChunkCommands(c), m, pl) ==
      match ChunkBytes(c, Add(base, Wrap(from)), pl)
      case None => None
      case Some(data) => Some(m.(loc := Some(Add(base, Wrap(from + Size(c)))),
                                 image := Poke(m.image, Add(base, Wrap(from)), data)))
  {
    hide Add, Wrap, Resolve, Weight, Fits, Bytes, Run, Push, Poke, ImmCommands;
    match c
    case Data(b) => ImmRuns(b, base, from, m, pl);
    case Insn(fix, word, target) =>
      PushStore(target, StoInsn(fix, word), m, pl);
      var pushed := WithItem(m, target, pl);
      assert pushed.stack[..|m.stack|] == m.stack;
      var patched := pl.patch(fix, word, Resolve(target, pl), Add(base, Wrap(from)));
      if patched.Ok? { BytesLength(patched.value, 4); }
      LocationMoves(base, from, 4);
    case Datum(size, value) =>
      PushStore(value, StoreCommand(size, value), m, pl);
      var pushed := WithItem(m, value, pl);
      assert pushed.stack[..|m.stack|] == m.stack;
      BytesLength(Resolve(value, pl), size);
      LocationMoves(base, from, size);
  }

  lemma {:induction false} PsectRuns(chunks: seq<(nat, Chunk)>, base: Word, from: nat, m: Linker, pl: Placement)
    requires InOrder(chunks, from) && m.loc == Some(Add(base, Wrap(from)))
    ensures var after, placed := Run(PsectCommands(chunks, from), m, pl), Placed(chunks, base, m.image, pl);
      && (after.None? <==> placed.None?)
      && (after.Some? ==> after.value.image == placed.value && after.value.stack == m.stack)
    decreases |chunks|
  {
    hide Add, Wrap, Resolve, ChunkBytes, ChunkCommands, GapCommands, Poke, Step;
    if chunks != [] {
      var (offset, chunk) := chunks[0];
      var gap, body := GapCommands(offset - from), ChunkCommands(chunk);
      var rest := PsectCommands(chunks[1..], offset + Size(chunk));
      GapRuns(offset - from, base, from, m, pl);
      var there := m.(loc := Some(Add(base, Wrap(offset))));
      ChunkRuns(chunk, base, offset, there, pl);
      RunConcat(gap, body, m, pl);
      RunConcat(gap + body, rest, m, pl);
      var after := Run(body, there, pl);
      if after.Some? {
        PsectRuns(chunks[1..], base, offset + Size(chunk), after.value, pl);
      }
    }
  }

  /** Linked in any placement, the commands of a psect store exactly its
      chunks, each at its own offset from the psect's base, through every
      gap; they fail exactly when a value does not fit where it goes. */
  lemma EmittedPsect(psect: PsectIndex, chunks: seq<(nat, Chunk)>, m: Linker, pl: Placement)
    requires InOrder(chunks, 0) && chunks != []
    ensures var cmds := [StaPq(psect, 0), CtlSetrb] + PsectCommands(chunks, 0);
      var after, placed := Run(cmds, m, pl), Placed(chunks, pl.base(psect), m.image, pl);
      && (after.None? <==> placed.None?)
      && (after.Some? ==> after.value.image == placed.value && after.value.stack == m.stack)
  {
    hide PsectCommands, Placed, InOrder;
    var start := [StaPq(psect, 0), CtlSetrb];
    var m1 := Step(start[0], m, pl).value;
    var m2 := Step(start[1], m1, pl).value;
    assert start[1..] == [CtlSetrb];
    RunOne(CtlSetrb, m1, pl);
    assert m1.stack[..|m.stack|] == m.stack;
    RunConcat(start, PsectCommands(chunks, 0), m, pl);
    assert m2.loc == Some(Add(pl.base(psect), Wrap(0)));
    PsectRuns(chunks, pl.base(psect), 0, m2, pl);
  }
}
