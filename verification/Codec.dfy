/** Transaction and PSET bytes, and the parsers that must undo them. */
module Codec {
  import opened Wrappers

  type Byte = b: int | 0 <= b < 256

  // ---------------------------------------------------------------- integers

  /** The k low bytes of a number, lowest first. */
  function Le(n: nat, k: nat): (b: seq<Byte>)
    ensures |b| == k
  {
    if k == 0 then [] else [n % 256] + Le(n / 256, k - 1)
  }

  function FromLe(b: seq<Byte>): nat {
    if b == [] then 0 else b[0] + 256 * FromLe(b[1..])
  }

  function Pow256(k: nat): nat { if k == 0 then 1 else 256 * Pow256(k - 1) }

  lemma {:induction false} LeRead(n: nat, k: nat)
    requires n < Pow256(k)
    ensures FromLe(Le(n, k)) == n
  {
    if k > 0 {
      LeRead(n / 256, k - 1);
      assert Le(n, k)[1..] == Le(n / 256, k - 1);
    }
  }

  lemma Powers()
    ensures Pow256(1) == 0x100 && Pow256(2) == 0x1_0000 && Pow256(4) == 0x1_0000_0000 && Pow256(8) == 0x1_0000_0000_0000_0000
  {
    assert Pow256(3) == 0x100_0000 && Pow256(5) == 0x100_0000_0000 && Pow256(6) == 0x1_0000_0000_0000;
  }

  function CompactSize(n: nat): seq<Byte>
    requires n < 0x1_0000_0000_0000_0000
  {
    if n < 253 then [n]
    else if n <= 0xffff then [253] + Le(n, 2)
    else if n <= 0xffff_ffff then [254] + Le(n, 4)
    else [255] + Le(n, 8)
  }

  /** What is left past some bytes; nothing past the end. */
  function Drop(b: seq<Byte>, n: nat): seq<Byte> { if n <= |b| then b[n..] else [] }

  function Take(b: seq<Byte>, n: nat): seq<Byte> { if n <= |b| then b[..n] else b }

  /** A length and what follows it. A reader that is `strict` throws when a wide length is
      cut short; one that is not reads the bytes there are. */
  function ReadCompact(b: seq<Byte>, strict: bool): (r: Option<(nat, seq<Byte>)>)
    ensures r.Some? ==> |r.value.1| < |b|
  {
    if b == [] then None
    else if b[0] < 253 then Some((b[0], b[1..]))
    else
      var width := if b[0] == 253 then 2 else if b[0] == 254 then 4 else 8;
      if strict && width > 2 && |b| < 1 + width then None
      else Some((FromLe(Take(b[1..], width)), Drop(b[1..], width)))
  }

  lemma CompactRead(n: nat, rest: seq<Byte>, strict: bool)
    requires n < 0x1_0000_0000_0000_0000
    ensures ReadCompact(CompactSize(n) + rest, strict) == Some((n, rest))
  {
    if n >= 253 {
      Powers();
      var width := if n <= 0xffff then 2 else if n <= 0xffff_ffff then 4 else 8;
      var b := CompactSize(n) + rest;
      LeRead(n, width);
      assert b[1..] == Le(n, width) + rest;
      assert Take(b[1..], width) == Le(n, width) && Drop(b[1..], width) == rest;
    }
  }

  /** A number of two bytes, and of four. */
  function Two(a: int, b: int): int { a + 256 * b }

  function Four(a: int, b: int, c: int, d: int): int { Two(Two(a, b), 256 * Two(c, d)) }

  /** Which bytes give no length: none, and to a strict reader a wide one cut short. Two bytes
      are read for their value however many there are. */
  lemma CompactExactly(b: seq<Byte>, strict: bool)
    ensures ReadCompact(b, strict).None? <==> b == [] || (strict && ((b[0] == 254 && |b| < 5) || (b[0] == 255 && |b| < 9)))
    ensures b != [] && b[0] < 253 ==> ReadCompact(b, strict) == Some((b[0], b[1..]))
    ensures |b| >= 3 && b[0] == 253 ==> ReadCompact(b, strict).value == (Two(b[1], b[2]), b[3..])
    ensures 1 <= |b| < 3 && b[0] == 253 ==> ReadCompact(b, strict).value == (if |b| == 2 then b[1] else 0, [])
    ensures |b| >= 5 && b[0] == 254 ==> ReadCompact(b, strict).value == (Four(b[1], b[2], b[3], b[4]), b[5..])
  {
    if |b| >= 3 && b[0] == 253 {
      assert b[1..][..2] == b[1..3];
      LeTwo(b[1..3]);
    } else if |b| == 2 && b[0] == 253 {
      assert b[1..] == [b[1]];
      LeOne(b[1]);
    } else if |b| >= 5 && b[0] == 254 {
      assert b[1..][..4] == b[1..5];
      LeFour(b[1..5]);
    }
  }

  lemma LeOne(x: Byte)
    ensures FromLe([x]) == x
  {
    assert [x][1..] == [];
  }

  lemma LeTwo(b: seq<Byte>)
    requires |b| == 2
    ensures FromLe(b) == Two(b[0], b[1])
  {
    assert b[1..] == [b[1]];
    LeOne(b[1]);
  }

  lemma LeFour(b: seq<Byte>)
    requires |b| == 4
    ensures FromLe(b) == Four(b[0], b[1], b[2], b[3])
  {
    LeTwo(b[2..]);
    assert b[1..][1..] == b[2..];
    assert FromLe(b[1..]) == b[1] + 256 * FromLe(b[2..]);
  }

  /** Bytes by their length. */
  predicate Short(b: seq<Byte>) { |b| < 0x1_0000_0000 }

  function SerString(b: seq<Byte>): seq<Byte>
    requires Short(b)
  {
    CompactSize(|b|) + b
  }

  // ------------------------------------------------------------ transactions

  datatype TxIn = TxIn(outpoint: seq<Byte>, sequence: nat, stack: seq<seq<Byte>>)

  datatype TxOut = TxOut(value: int, spk: seq<Byte>)

  datatype Tx = Tx(version: nat, vin: seq<TxIn>, vout: seq<TxOut>, locktime: nat)

  predicate Wellformed(t: Tx) {
    && |t.vin| < 0x1_0000_0000 && |t.vout| < 0x1_0000_0000
    && (forall i :: 0 <= i < |t.vin| ==> |t.vin[i].outpoint| == 36)
    && (forall i :: 0 <= i < |t.vin| ==> Stackable(t.vin[i].stack))
    && (forall i :: 0 <= i < |t.vout| ==> Payable(t.vout[i]))
  }

  predicate Stackable(stack: seq<seq<Byte>>) {
    |stack| < 0x1_0000_0000 && forall j :: 0 <= j < |stack| ==> Short(stack[j])
  }

  /** A signed 64-bit amount and a script. */
  predicate Payable(o: TxOut) { -0x8000_0000_0000_0000 <= o.value < 0x8000_0000_0000_0000 && Short(o.spk) }

  function I64(v: int): seq<Byte>
    requires -0x8000_0000_0000_0000 <= v < 0x8000_0000_0000_0000
  {
    Le(if v < 0 then v + 0x1_0000_0000_0000_0000 else v, 8)
  }

  function FromI64(b: seq<Byte>): int {
    var n := FromLe(b);
    if n >= 0x8000_0000_0000_0000 then n - 0x1_0000_0000_0000_0000 else n
  }

  function SerIn(i: TxIn): seq<Byte> { i.outpoint + (SerString([]) + Le(i.sequence, 4)) }

  function SerIns(ins: seq<TxIn>): seq<Byte> {
    if ins == [] then [] else SerIn(ins[0]) + SerIns(ins[1..])
  }

  function SerOut(o: TxOut): seq<Byte>
    requires Payable(o)
  {
    I64(o.value) + SerString(o.spk)
  }

  function SerOuts(outs: seq<TxOut>): seq<Byte>
    requires forall i :: 0 <= i < |outs| ==> Payable(outs[i])
  {
    if outs == [] then []
    else
      assert Payable(outs[0]);
      SerOut(outs[0]) + SerOuts(outs[1..])
  }

  function SerStack(stack: seq<seq<Byte>>): seq<Byte>
    requires forall j :: 0 <= j < |stack| ==> Short(stack[j])
  {
    if stack == [] then []
    else
      assert Short(stack[0]);
      SerString(stack[0]) + SerStack(stack[1..])
  }

  function SerWitnesses(ins: seq<TxIn>): seq<Byte>
    requires forall i :: 0 <= i < |ins| ==> Stackable(ins[i].stack)
  {
    if ins == [] then []
    else
      assert Stackable(ins[0].stack);
      CompactSize(|ins[0].stack|) + SerStack(ins[0].stack) + SerWitnesses(ins[1..])
  }

  function Serialize(t: Tx, withStack: bool): seq<Byte>
    requires Wellformed(t)
  {
    var hasWit := withStack && exists i :: 0 <= i < |t.vin| && t.vin[i].stack != [];
    Le(t.version, 4) + (if hasWit then [0, 1] else [])
      + (CompactSize(|t.vin|) + (SerIns(t.vin) + (CompactSize(|t.vout|) + (SerOuts(t.vout)
      + ((if hasWit then SerWitnesses(t.vin) else []) + Le(t.locktime, 4))))))
  }

  // ----------------------------------------------------------------- parsing

  /** Past one input; nothing when a length runs off the end. */
  function SkipIn(b: seq<Byte>): Option<seq<Byte>> {
    var sig := ReadCompact(Drop(b, 36), true);
    if sig.None? then None else Some(Drop(sig.value.1, sig.value.0 + 4))
  }

  function SkipIns(b: seq<Byte>, n: nat): Option<seq<Byte>>
    decreases n
  {
    if n == 0 then Some(b) else if SkipIn(b).None? then None else SkipIns(SkipIn(b).value, n - 1)
  }

  function ReadOut(b: seq<Byte>): Option<(TxOut, seq<Byte>)> {
    if |b| < 8 then None
    else
      var len := ReadCompact(b[8..], true);
      if len.None? then None
      else Some((TxOut(FromI64(b[..8]), Take(len.value.1, len.value.0)), Drop(len.value.1, len.value.0)))
  }

  function ReadOuts(b: seq<Byte>, n: nat): Option<seq<TxOut>>
    decreases n
  {
    if n == 0 then Some([])
    else if ReadOut(b).None? then None
    else Prefixed([ReadOut(b).value.0], ReadOuts(ReadOut(b).value.1, n - 1))
  }

  function Prefixed(head: seq<TxOut>, rest: Option<seq<TxOut>>): Option<seq<TxOut>> {
    if rest.None? then None else Some(head + rest.value)
  }

  function AfterMarker(b: seq<Byte>): seq<Byte> {
    var rest := Drop(b, 4);
    if |rest| >= 2 && rest[0] == 0 && rest[1] == 1 then rest[2..] else rest
  }

  function ParseOutputs(b: seq<Byte>): Option<seq<TxOut>> {
    var nin := ReadCompact(AfterMarker(b), true);
    if nin.None? then None
    else
      var past := SkipIns(nin.value.1, nin.value.0);
      if past.None? then None
      else
        var nout := ReadCompact(past.value, true);
        if nout.None? then None else ReadOuts(nout.value.1, nout.value.0)
  }

  /** The outputs of a transaction's bytes, by a cursor moved through them. */
  method ParseTxOutputs(b: seq<Byte>) returns (outs: Option<seq<TxOut>>)
    ensures outs == ParseOutputs(b)
  {
    var o: nat := 4;
    if o + 1 < |b| && b[o] == 0 && b[o + 1] == 1 {
      o := o + 2;
    }
    assert Drop(b, o) == AfterMarker(b);
    var nin, past, nout;
    nin, o := CompactAt(b, o, true);
    if nin.None? {
      return None;
    }
    past := InsAt(b, o, nin.value);
    if past.None? {
      return None;
    }
    nout, o := CompactAt(b, past.value, true);
    if nout.None? {
      return None;
    }
    outs := OutsAt(b, o, nout.value);
  }

  /** The cursor past one input. */
  method InAt(b: seq<Byte>, o: nat) returns (past: Option<nat>)
    ensures past.Some? <==> SkipIn(Drop(b, o)).Some?
    ensures past.Some? ==> Drop(b, past.value) == SkipIn(Drop(b, o)).value
  {
    DropDrop(b, o, 36);
    var sigLen, next := CompactAt(b, o + 36, true);
    if sigLen.None? {
      return None;
    }
    DropDrop(b, next, sigLen.value + 4);
    return Some(next + sigLen.value + 4);
  }

  /** The cursor past some inputs. */
  method InsAt(b: seq<Byte>, from: nat, n: nat) returns (past: Option<nat>)
    ensures past.Some? <==> SkipIns(Drop(b, from), n).Some?
    ensures past.Some? ==> Drop(b, past.value) == SkipIns(Drop(b, from), n).value
  {
    var o: nat, i: nat := from, 0;
    while i < n
      invariant i <= n && SkipIns(Drop(b, o), n - i) == SkipIns(Drop(b, from), n)
    {
      SkipOne(Drop(b, o), n - i);
      var next := InAt(b, o);
      if next.None? {
        return None;
      }
      o, i := next.value, i + 1;
    }
    return Some(o);
  }

  lemma SkipOne(b: seq<Byte>, n: nat)
    requires n > 0
    ensures SkipIns(b, n) == if SkipIn(b).None? then None else SkipIns(SkipIn(b).value, n - 1)
  {}

  lemma Regroup(a: seq<Byte>, b: seq<Byte>, c: seq<Byte>)
    ensures a + b + c == a + (b + c)
  {}

  lemma DropDrop(b: seq<Byte>, o: nat, n: nat)
    ensures Drop(Drop(b, o), n) == Drop(b, o + n)
  {}

  /** A length at the cursor, and the cursor past it. */
  method CompactAt(b: seq<Byte>, o: nat, strict: bool) returns (n: Option<nat>, next: nat)
    ensures var r := ReadCompact(Drop(b, o), strict);
      if r.None? then n == None else n == Some(r.value.0) && Drop(b, next) == r.value.1 && next > o
  {
    if o >= |b| {
      return None, o;
    }
    assert Drop(b, o)[1..] == Drop(b, o + 1);
    if b[o] < 253 {
      return Some(b[o]), o + 1;
    }
    var width := if b[o] == 253 then 2 else if b[o] == 254 then 4 else 8;
    DropDrop(b, o + 1, width);
    if strict && width > 2 && |b| < o + 1 + width {
      return None, o;
    }
    return Some(FromLe(Take(Drop(b, o + 1), width))), o + 1 + width;
  }

  method OutAt(b: seq<Byte>, o: nat) returns (out: Option<TxOut>, next: nat)
    ensures out.Some? <==> ReadOut(Drop(b, o)).Some?
    ensures out.Some? ==> ReadOut(Drop(b, o)).value == (out.value, Drop(b, next))
  {
    if o + 8 > |b| {
      return None, o;
    }
    assert Drop(b, o)[..8] == b[o..o + 8];
    DropDrop(b, o, 8);
    var len;
    len, next := CompactAt(b, o + 8, true);
    if len.None? {
      return None, o;
    }
    out := Some(TxOut(FromI64(b[o..o + 8]), Take(Drop(b, next), len.value)));
    DropDrop(b, next, len.value);
    next := next + len.value;
  }

  method OutsAt(b: seq<Byte>, from: nat, n: nat) returns (outs: Option<seq<TxOut>>)
    ensures outs == ReadOuts(Drop(b, from), n)
  {
    var o: nat, i: nat := from, 0;
    var read: seq<TxOut> := [];
    PrefixedNothing(ReadOuts(Drop(b, from), n));
    while i < n
      invariant i <= n
      invariant ReadOuts(Drop(b, from), n) == Prefixed(read, ReadOuts(Drop(b, o), n - i))
    {
      var out, next := OutAt(b, o);
      if out.None? {
        return None;
      }
      PrefixedMore(read, out.value, ReadOuts(Drop(b, next), n - i - 1));
      o, read, i := next, read + [out.value], i + 1;
    }
    assert read + [] == read;
    return Some(read);
  }

  lemma PrefixedNothing(rest: Option<seq<TxOut>>)
    ensures Prefixed([], rest) == rest
  {
    if rest.Some? {
      assert [] + rest.value == rest.value;
    }
  }

  lemma PrefixedMore(head: seq<TxOut>, out: TxOut, rest: Option<seq<TxOut>>)
    ensures Prefixed(head, Prefixed([out], rest)) == Prefixed(head + [out], rest)
  {
    if rest.Some? {
      assert head + ([out] + rest.value) == (head + [out]) + rest.value;
    }
  }

  // ------------------------------------------------------------- round trips

  lemma I64Read(v: int)
    requires -0x8000_0000_0000_0000 <= v < 0x8000_0000_0000_0000
    ensures FromI64(I64(v)) == v && |I64(v)| == 8
  {
    Powers();
    LeRead(if v < 0 then v + 0x1_0000_0000_0000_0000 else v, 8);
  }

  lemma InSkipped(i: TxIn, rest: seq<Byte>)
    requires |i.outpoint| == 36
    ensures SkipIn(SerIn(i) + rest) == Some(rest)
  {
    var tail := Le(i.sequence, 4) + rest;
    assert SerIn(i) + rest == i.outpoint + (CompactSize(0) + tail);
    assert Drop(SerIn(i) + rest, 36) == CompactSize(0) + tail;
    CompactRead(0, tail, true);
    assert Drop(tail, 4) == rest;
  }

  lemma {:induction false} InsSkipped(ins: seq<TxIn>, rest: seq<Byte>)
    requires forall i :: 0 <= i < |ins| ==> |ins[i].outpoint| == 36
    ensures SkipIns(SerIns(ins) + rest, |ins|) == Some(rest)
  {
    if ins == [] {
      assert SerIns(ins) + rest == rest;
    } else {
      InsSkipped(ins[1..], rest);
      InSkipped(ins[0], SerIns(ins[1..]) + rest);
      Regroup(SerIn(ins[0]), SerIns(ins[1..]), rest);
      SkipOne(SerIns(ins) + rest, |ins|);
    }
  }

  lemma OutRead(o: TxOut, rest: seq<Byte>)
    requires Payable(o)
    ensures ReadOut(SerOut(o) + rest) == Some((o, rest))
  {
    var b := SerOut(o) + rest;
    I64Read(o.value);
    assert b == I64(o.value) + (CompactSize(|o.spk|) + (o.spk + rest));
    assert b[..8] == I64(o.value) && b[8..] == CompactSize(|o.spk|) + (o.spk + rest);
    CompactRead(|o.spk|, o.spk + rest, true);
    assert Take(o.spk + rest, |o.spk|) == o.spk && Drop(o.spk + rest, |o.spk|) == rest;
  }

  lemma {:induction false} OutsRead(outs: seq<TxOut>, rest: seq<Byte>)
    requires forall i :: 0 <= i < |outs| ==> Payable(outs[i])
    ensures ReadOuts(SerOuts(outs) + rest, |outs|) == Some(outs)
  {
    if outs != [] {
      OutsRead(outs[1..], rest);
      assert Payable(outs[0]);
      OutRead(outs[0], SerOuts(outs[1..]) + rest);
      Regroup(SerOut(outs[0]), SerOuts(outs[1..]), rest);
      assert [outs[0]] + outs[1..] == outs;
    }
  }

  lemma {:induction false} CompactFirst(n: nat)
    requires n < 0x1_0000_0000_0000_0000
    ensures |CompactSize(n)| >= 1 && (CompactSize(n)[0] == 0 <==> n == 0) && (CompactSize(n)[0] == 1 <==> n == 1)
  {}

  /** Past the marker, if there is one: the counts do not look like it. */
  lemma MarkerPassed(version: nat, hasWit: bool, nin: nat, nout: nat, ins: seq<Byte>, outs: seq<Byte>)
    requires nin < 0x1_0000_0000 && nout < 0x1_0000_0000 && (nin > 0 || (ins == [] && nout != 1))
    ensures var body := CompactSize(nin) + (ins + (CompactSize(nout) + outs));
      AfterMarker(Le(version, 4) + ((if hasWit then [0, 1] else []) + body)) == body
  {
    var body := CompactSize(nin) + (ins + (CompactSize(nout) + outs));
    var b := Le(version, 4) + ((if hasWit then [0, 1] else []) + body);
    assert Drop(b, 4) == (if hasWit then [0, 1] else []) + body;
    CompactFirst(nin);
    CompactFirst(nout);
    if nin == 0 {
      assert body[0] == CompactSize(0)[0] && body[1] == (ins + (CompactSize(nout) + outs))[0] == CompactSize(nout)[0];
    } else {
      assert body[0] == CompactSize(nin)[0];
    }
  }

  /** The outputs are read back, with or without witnesses, whenever the transaction has
      an input or not exactly one output. */
  lemma ParseUndoesSerialize(t: Tx, withStack: bool)
    requires Wellformed(t) && (t.vin != [] || |t.vout| != 1)
    ensures ParseOutputs(Serialize(t, withStack)) == Some(t.vout)
  {
    var hasWit := withStack && exists i :: 0 <= i < |t.vin| && t.vin[i].stack != [];
    var last := (if hasWit then SerWitnesses(t.vin) else []) + Le(t.locktime, 4);
    var outs := SerOuts(t.vout) + last;
    var ins := SerIns(t.vin) + (CompactSize(|t.vout|) + outs);
    Regroup(Le(t.version, 4), if hasWit then [0, 1] else [], CompactSize(|t.vin|) + ins);
    MarkerPassed(t.version, hasWit, |t.vin|, |t.vout|, SerIns(t.vin), outs);
    ParseBody(t, last);
  }

  lemma ParseBody(t: Tx, last: seq<Byte>)
    requires Wellformed(t)
    ensures var outs := SerOuts(t.vout) + last;
      var first := ReadCompact(CompactSize(|t.vin|) + (SerIns(t.vin) + (CompactSize(|t.vout|) + outs)), true);
      && first == Some((|t.vin|, SerIns(t.vin) + (CompactSize(|t.vout|) + outs)))
      && SkipIns(first.value.1, |t.vin|) == Some(CompactSize(|t.vout|) + outs)
      && ReadCompact(CompactSize(|t.vout|) + outs, true) == Some((|t.vout|, outs))
      && ReadOuts(outs, |t.vout|) == Some(t.vout)
  {
    var outs := SerOuts(t.vout) + last;
    CompactRead(|t.vin|, SerIns(t.vin) + (CompactSize(|t.vout|) + outs), true);
    InsSkipped(t.vin, CompactSize(|t.vout|) + outs);
    CompactRead(|t.vout|, outs, true);
    OutsRead(t.vout, last);
  }

  // ------------------------------------------------------------ the marker

  lemma {:induction false} LeBound(b: seq<Byte>)
    ensures FromLe(b) < Pow256(|b|)
  {
    if b != [] {
      LeBound(b[1..]);
    }
  }

  /** A number has one form of a length. */
  lemma {:induction false} LeOnce(b: seq<Byte>, c: seq<Byte>)
    requires |b| == |c| && FromLe(b) == FromLe(c)
    ensures b == c
  {
    if b != [] {
      LeOnce(b[1..], c[1..]);
      assert b == [b[0]] + b[1..] && c == [c[0]] + c[1..];
    }
  }

  lemma I64Once(b: seq<Byte>, v: int)
    requires |b| == 8 && -0x8000_0000_0000_0000 <= v < 0x8000_0000_0000_0000 && FromI64(b) == v
    ensures b == I64(v)
  {
    I64Read(v);
    Powers();
    LeBound(b);
    LeBound(I64(v));
    LeOnce(b, I64(v));
  }

  lemma SkipShort(b: seq<Byte>, n: nat)
    requires SkipIns(b, n).Some?
    ensures n == 0 || |SkipIns(b, n).value| + 37 <= |b|
    decreases n
  {
    if n > 0 {
      SkipOne(b, n);
      SkipShort(SkipIn(b).value, n - 1);
    }
  }

  lemma {:induction false} OutsCount(b: seq<Byte>, n: nat)
    requires ReadOuts(b, n).Some?
    ensures |ReadOuts(b, n).value| == n
    decreases n
  {
    if n > 0 {
      OutsCount(ReadOut(b).value.1, n - 1);
    }
  }

  /** A length of zero or one, and the bytes it can be read from. */
  predicate Tiny(x: seq<Byte>, width: nat, n: nat) {
    width <= |x| &&
    if width == 1 then x[0] == n
    else if width == 3 then x[0] == 253 && x[1] == n && x[2] == 0
    else width == 5 && x[0] == 254 && x[1] == n && x[2] == 0 && x[3] == 0 && x[4] == 0
  }

  lemma LeTiny(b: seq<Byte>, n: nat)
    requires n < 2 && |b| >= 1 && FromLe(b) == n
    ensures b[0] == n && forall i :: 1 <= i < |b| ==> b[i] == 0
  {
    if |b| > 1 {
      assert FromLe(b[1..]) == 0;
      LeTiny(b[1..], 0);
      assert forall i :: 1 <= i < |b| ==> b[i] == b[1..][i - 1];
    }
  }

  lemma TinyWide(x: seq<Byte>, w: nat, n: nat)
    requires (w == 2 || w == 4) && |x| >= 1 + w && n < 2 && FromLe(x[1..1 + w]) == n
    ensures x[1] == n && x[2] == 0 && (w == 4 ==> x[3] == 0 && x[4] == 0)
  {
    var y := x[1..1 + w];
    LeTiny(y, n);
    assert y[0] == x[1] && y[1] == x[2] && (w == 4 ==> y[2] == x[3] && y[3] == x[4]);
  }

  /** Reading zero or one off the front of bytes that go on. */
  lemma TinyRead(x: seq<Byte>, n: nat) returns (width: nat)
    requires n < 2 && ReadCompact(x, true).Some? && ReadCompact(x, true).value.0 == n
    requires |ReadCompact(x, true).value.1| + 9 > |x| && ReadCompact(x, true).value.1 != []
    ensures Tiny(x, width, n) && ReadCompact(x, true).value.1 == x[width..]
  {
    if x[0] < 253 {
      width := 1;
    } else {
      var w := if x[0] == 253 then 2 else if x[0] == 254 then 4 else 8;
      width := 1 + w;
      assert Drop(x[1..], w) == x[width..] && Take(x[1..], w) == x[1..width];
      TinyWide(x, w, n);
    }
  }

  /** The bytes of an output, read as themselves some bytes further on. */
  ghost predicate Shifted(x: seq<Byte>, k: nat) { k + 8 <= |x| && forall i :: 0 <= i < 8 ==> x[k + i] == x[i] }

  lemma LongForm(len: nat)
    requires 0 < len < 0x1_0000_0000
    ensures var c := CompactSize(len);
      && (|c| == 1 ==> c[0] == len < 253)
      && (|c| == 3 ==> c[0] == 253 && (c[1] != 0 || c[2] != 0))
      && (|c| == 5 ==> c[0] == 254 && (c[1] != 0 || c[2] != 0 || c[3] != 0 || c[4] != 0))
      && (|c| == 1 || |c| == 3 || |c| == 5)
  {
    if len >= 253 {
      var w := if len <= 0xffff then 2 else 4;
      Powers();
      LeRead(len, w);
      if forall i :: 0 <= i < w ==> Le(len, w)[i] == 0 {
        AllZero(Le(len, w));
      }
    }
  }

  lemma {:induction false} AllZero(b: seq<Byte>)
    requires forall i :: 0 <= i < |b| ==> b[i] == 0
    ensures FromLe(b) == 0
  {
    if b != [] {
      AllZero(b[1..]);
    }
  }

  lemma Period(x: seq<Byte>, k: nat)
    requires |x| >= 13 && k <= 8
    ensures Shifted(x, k) && k == 2 ==> x[8] == x[0]
    ensures Shifted(x, k) && k == 4 ==> x[8] == x[0] && x[9] == x[1] && x[10] == x[2]
    ensures Shifted(x, k) && k == 6 ==> x[8] == x[2]
    ensures Shifted(x, k) && k == 8 ==> x[8] == x[0] && x[9] == x[1] && x[10] == x[2] && x[11] == x[3] && x[12] == x[4]
  {
    if Shifted(x, k) {
      assert forall i :: 0 <= i < 8 ==> x[k + i] == x[i];
      assert k == 2 ==> x[2 + 6] == x[6] == x[2 + 4] && x[4] == x[2 + 2] == x[2] == x[2 + 0];
      assert k == 4 ==> x[4 + 4] == x[4] == x[4 + 0] && x[4 + 5] == x[5] == x[4 + 1] && x[4 + 6] == x[6] == x[4 + 2];
      assert k == 6 ==> x[6 + 2] == x[2];
      assert k == 8 ==> x[8 + 0] == x[0] && x[8 + 1] == x[1] && x[8 + 2] == x[2] && x[8 + 3] == x[3] && x[8 + 4] == x[4];
    }
  }

  /** Two counts and the output again cannot be the output's own bytes. */
  lemma NoShift(x: seq<Byte>, c: seq<Byte>, len: nat, first: nat, second: nat)
    requires 0 < len < 0x1_0000_0000 && c == CompactSize(len) && |x| >= 13 && |x| >= 8 + |c| && x[8..8 + |c|] == c
    requires Tiny(x, first, 0) && Tiny(x[first..], second, 1) && first + second <= |c| + 3
    ensures !Shifted(x, first + second)
  {
    LongForm(len);
    assert forall i :: 0 <= i < |c| ==> x[8 + i] == c[i];
    assert forall i :: 0 <= i < second ==> x[first + i] == x[first..][i];
    Period(x, first + second);
  }

  /** Whether some bytes read as no input and this output. */
  ghost predicate ReadsAs(x: seq<Byte>, o: TxOut) {
    var nin := ReadCompact(x, true);
    && nin.Some? && SkipIns(nin.value.1, nin.value.0).Some?
    && var nout := ReadCompact(SkipIns(nin.value.1, nin.value.0).value, true);
    nout.Some? && ReadOuts(nout.value.1, nout.value.0) == Some([o])
  }

  lemma OneOut(b: seq<Byte>, n: nat, o: TxOut)
    requires ReadOuts(b, n) == Some([o])
    ensures n == 1 && ReadOut(b).Some? && ReadOut(b).value.0 == o
  {
    OutsCount(b, n);
    var rest := ReadOuts(ReadOut(b).value.1, 0);
    assert ReadOuts(b, 1) == Prefixed([ReadOut(b).value.0], rest);
    assert ([ReadOut(b).value.0] + rest.value)[0] == ReadOut(b).value.0;
  }

  /** An output read is this one only if its bytes are there. */
  lemma OutBytes(y: seq<Byte>, o: TxOut)
    requires Payable(o) && ReadOut(y).Some? && ReadOut(y).value.0 == o
    ensures |y| >= 9 + |o.spk| && y[..8] == I64(o.value)
  {
    I64Once(y[..8], o.value);
  }

  lemma ReadShifted(x: seq<Byte>, o: TxOut, c: seq<Byte>, last: seq<Byte>)
    requires Payable(o) && o.spk != [] && c == CompactSize(|o.spk|) && |last| == 4
    requires x == I64(o.value) + (c + (o.spk + last))
    ensures !ReadsAs(x, o)
  {
    LongForm(|o.spk|);
    I64Read(o.value);
    if ReadsAs(x, o) {
      var first, second := WhereRead(x, o, |c|);
      assert x[8..8 + |c|] == c;
      NoShift(x, c, |o.spk|, first, second);
    }
  }

  lemma WhereRead(x: seq<Byte>, o: TxOut, width: nat) returns (first: nat, second: nat)
    requires Payable(o) && ReadsAs(x, o) && width <= 5 && |x| == 12 + width + |o.spk| && x[..8] == I64(o.value)
    ensures Tiny(x, first, 0) && first <= |x| && Tiny(x[first..], second, 1) && first + second <= width + 3
    ensures Shifted(x, first + second)
  {
    var nin := ReadCompact(x, true).value;
    var past := SkipIns(nin.1, nin.0).value;
    var nout := ReadCompact(past, true).value;
    var y := nout.1;
    OneOut(y, nout.0, o);
    OutBytes(y, o);
    SkipShort(nin.1, nin.0);
    first := TinyRead(x, 0);
    second := TinyRead(past, 1);
    var k := first + second;
    assert past == x[first..] && y == x[first..][second..] == x[k..];
    assert forall i :: 0 <= i < 8 ==> x[k + i] == y[..8][i] && x[i] == x[..8][i];
  }

  /** With no input and one output that pays any script at all the counts look like the
      witness marker, and the output is not what is read. */
  lemma MarkerMisread(t: Tx)
    requires Wellformed(t) && t.vin == [] && |t.vout| == 1 && t.vout[0].spk != []
    ensures ParseOutputs(Serialize(t, false)) != Some(t.vout)
  {
    assert Payable(t.vout[0]);
    var o, last := t.vout[0], Le(t.locktime, 4);
    var c := CompactSize(|o.spk|);
    var x := I64(o.value) + (c + (o.spk + last));
    var b := Serialize(t, false);
    assert SerOuts(t.vout) == SerOut(o) + SerOuts(t.vout[1..]) == SerOut(o);
    assert [0] + ([] + ([1] + (SerOut(o) + ([] + last)))) == [0, 1] + x;
    assert b == Le(t.version, 4) + ([0, 1] + x);
    assert AfterMarker(b) == x;
    ReadShifted(x, o, c, last);
    assert t.vout == [o];
  }

  /** Which output pays a script an amount. */
  method FindOutput(b: seq<Byte>, spk: seq<Byte>, value: int) returns (n: Option<nat>)
    ensures var outs := ParseOutputs(b);
      && (n.Some? <==> outs.Some? && TxOut(value, spk) in outs.value)
      && (n.Some? ==> n.value < |outs.value| && outs.value[n.value] == TxOut(value, spk))
      && (n.Some? ==> forall i :: 0 <= i < n.value ==> outs.value[i] != TxOut(value, spk))
  {
    var outs := ParseTxOutputs(b);
    if outs.None? {
      return None;
    }
    n := IndexOf(outs.value, spk, value);
  }

  method IndexOf(outs: seq<TxOut>, spk: seq<Byte>, value: int) returns (n: Option<nat>)
    ensures n.Some? <==> TxOut(value, spk) in outs
    ensures n.Some? ==> n.value < |outs| && outs[n.value] == TxOut(value, spk)
    ensures n.Some? ==> forall i :: 0 <= i < n.value ==> outs[i] != TxOut(value, spk)
  {
    for i := 0 to |outs|
      invariant forall j :: 0 <= j < i ==> outs[j] != TxOut(value, spk)
    {
      if outs[i].spk == spk && outs[i].value == value {
        return Some(i);
      }
    }
    return None;
  }
}
