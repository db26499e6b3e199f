/** Every field of a transaction is in its bytes, where BIP 144 (section "Serialization") puts
    it: a reader of the whole format, and that it gives back what was written. */
module TxBytes {
  import opened Wrappers
  import opened Codec

  /** Some things read one after another. */
  function Many<T>(one: seq<Byte> -> Option<(T, seq<Byte>)>, b: seq<Byte>, n: nat): Option<(seq<T>, seq<Byte>)>
    decreases n
  {
    if n == 0 then Some(([], b))
    else
      var first := one(b);
      if first.None? then None
      else
        var rest := Many(one, first.value.1, n - 1);
        if rest.None? then None else Some(([first.value.0] + rest.value.0, rest.value.1))
  }

  function Joined(parts: seq<seq<Byte>>): seq<Byte> {
    if parts == [] then [] else parts[0] + Joined(parts[1..])
  }

  /** The bytes of a part, whatever follows them, read as its thing. */
  ghost predicate ReadsAs<T(!new)>(one: seq<Byte> -> Option<(T, seq<Byte>)>, part: seq<Byte>, x: T) {
    forall rest :: one(part + rest) == Some((x, rest))
  }

  lemma {:induction false} ManyRead<T(!new)>(one: seq<Byte> -> Option<(T, seq<Byte>)>, parts: seq<seq<Byte>>, xs: seq<T>, rest: seq<Byte>)
    requires |parts| == |xs| && forall i :: 0 <= i < |xs| ==> ReadsAs(one, parts[i], xs[i])
    ensures Many(one, Joined(parts) + rest, |xs|) == Some((xs, rest))
  {
    if xs == [] {
      assert Joined(parts) + rest == rest;
    } else {
      ManyRead(one, parts[1..], xs[1..], rest);
      Regroup(parts[0], Joined(parts[1..]), rest);
      assert ReadsAs(one, parts[0], xs[0]);
      assert one(parts[0] + (Joined(parts[1..]) + rest)) == Some((xs[0], Joined(parts[1..]) + rest));
      assert [xs[0]] + xs[1..] == xs;
    }
  }

  // ------------------------------------------------------------- the reader

  /** An outpoint, a script that is empty under a witness, a sequence. */
  function ReadIn(b: seq<Byte>): Option<(TxIn, seq<Byte>)> {
    if |b| < 41 || b[36] != 0 then None else Some((TxIn(b[..36], FromLe(b[37..41]), []), b[41..]))
  }

  function ReadString(b: seq<Byte>): Option<(seq<Byte>, seq<Byte>)> {
    var len := ReadCompact(b, true);
    if len.None? || len.value.0 > |len.value.1| then None
    else Some((len.value.1[..len.value.0], len.value.1[len.value.0..]))
  }

  function ReadStack(b: seq<Byte>): Option<(seq<seq<Byte>>, seq<Byte>)> {
    var n := ReadCompact(b, true);
    if n.None? then None else Many(ReadString, n.value.1, n.value.0)
  }

  function Counted<T>(one: seq<Byte> -> Option<(T, seq<Byte>)>, b: seq<Byte>): Option<(seq<T>, seq<Byte>)> {
    var n := ReadCompact(b, true);
    if n.None? then None else Many(one, n.value.1, n.value.0)
  }

  function WithStacks(ins: seq<TxIn>, stacks: seq<seq<seq<Byte>>>): seq<TxIn>
    requires |ins| == |stacks|
  {
    seq(|ins|, i requires 0 <= i < |ins| => ins[i].(stack := stacks[i]))
  }

  /** Version, marker if there is a witness, inputs, outputs, witness, lock time. */
  function ReadTx(b: seq<Byte>): Option<Tx> {
    if |b| < 6 then None
    else
      var marked := b[4] == 0 && b[5] == 1;
      var ins := Counted(ReadIn, if marked then b[6..] else b[4..]);
      if ins.None? then None
      else
        var outs := Counted(ReadOut, ins.value.1);
        if outs.None? then None
        else
          var stacks := if marked then Many(ReadStack, outs.value.1, |ins.value.0|) else Some((Bare(|ins.value.0|), outs.value.1));
          if stacks.None? || |stacks.value.0| != |ins.value.0| || |stacks.value.1| != 4 then None
          else Some(Tx(FromLe(b[..4]), WithStacks(ins.value.0, stacks.value.0), outs.value.0, FromLe(stacks.value.1)))
  }

  function Bare(n: nat): seq<seq<seq<Byte>>> { seq(n, _ => []) }

  // ------------------------------------------------------------- the parts

  predicate Sized(t: Tx) {
    && t.version < 0x1_0000_0000 && t.locktime < 0x1_0000_0000
    && forall i :: 0 <= i < |t.vin| ==> t.vin[i].sequence < 0x1_0000_0000
  }

  lemma InRead(i: TxIn)
    requires |i.outpoint| == 36 && i.sequence < 0x1_0000_0000
    ensures ReadsAs(ReadIn, SerIn(i), i.(stack := []))
  {
    forall rest ensures ReadIn(SerIn(i) + rest) == Some((i.(stack := []), rest)) {
      var b := SerIn(i) + rest;
      Powers();
      LeRead(i.sequence, 4);
      assert SerString([]) == [0];
      assert b == i.outpoint + ([0] + (Le(i.sequence, 4) + rest));
      assert b[..36] == i.outpoint && b[36] == 0 && b[37..41] == Le(i.sequence, 4) && b[41..] == rest;
    }
  }

  lemma OutReads(o: TxOut)
    requires Payable(o)
    ensures ReadsAs(ReadOut, SerOut(o), o)
  {
    forall rest ensures ReadOut(SerOut(o) + rest) == Some((o, rest)) {
      OutRead(o, rest);
    }
  }

  lemma StringReads(s: seq<Byte>)
    requires Short(s)
    ensures ReadsAs(ReadString, SerString(s), s)
  {
    forall rest ensures ReadString(SerString(s) + rest) == Some((s, rest)) {
      CompactRead(|s|, s + rest, true);
      Regroup(CompactSize(|s|), s, rest);
      assert (s + rest)[..|s|] == s && (s + rest)[|s|..] == rest;
    }
  }

  function InParts(ins: seq<TxIn>): seq<seq<Byte>> { seq(|ins|, i requires 0 <= i < |ins| => SerIn(ins[i])) }

  function OutParts(outs: seq<TxOut>): seq<seq<Byte>>
    requires forall i :: 0 <= i < |outs| ==> Payable(outs[i])
  {
    seq(|outs|, i requires 0 <= i < |outs| => SerOut(outs[i]))
  }

  function StringParts(items: seq<seq<Byte>>): seq<seq<Byte>>
    requires forall i :: 0 <= i < |items| ==> Short(items[i])
  {
    seq(|items|, i requires 0 <= i < |items| => SerString(items[i]))
  }

  function SerOneStack(stack: seq<seq<Byte>>): seq<Byte>
    requires Stackable(stack)
  {
    CompactSize(|stack|) + SerStack(stack)
  }

  function StackParts(ins: seq<TxIn>): seq<seq<Byte>>
    requires forall i :: 0 <= i < |ins| ==> Stackable(ins[i].stack)
  {
    seq(|ins|, i requires 0 <= i < |ins| => SerOneStack(ins[i].stack))
  }

  lemma {:induction false} InsJoined(ins: seq<TxIn>)
    ensures SerIns(ins) == Joined(InParts(ins))
  {
    if ins != [] {
      InsJoined(ins[1..]);
      assert InParts(ins)[1..] == InParts(ins[1..]);
    }
  }

  lemma {:induction false} OutsJoined(outs: seq<TxOut>)
    requires forall i :: 0 <= i < |outs| ==> Payable(outs[i])
    ensures SerOuts(outs) == Joined(OutParts(outs))
  {
    if outs != [] {
      OutsJoined(outs[1..]);
      assert OutParts(outs)[1..] == OutParts(outs[1..]);
    }
  }

  lemma {:induction false} StringsJoined(items: seq<seq<Byte>>)
    requires forall i :: 0 <= i < |items| ==> Short(items[i])
    ensures SerStack(items) == Joined(StringParts(items))
  {
    if items != [] {
      StringsJoined(items[1..]);
      assert StringParts(items)[1..] == StringParts(items[1..]);
    }
  }

  lemma {:induction false} StacksJoined(ins: seq<TxIn>)
    requires forall i :: 0 <= i < |ins| ==> Stackable(ins[i].stack)
    ensures SerWitnesses(ins) == Joined(StackParts(ins))
  {
    if ins != [] {
      StacksJoined(ins[1..]);
      assert StackParts(ins)[1..] == StackParts(ins[1..]);
      assert Stackable(ins[0].stack);
    }
  }

  lemma StackReads(stack: seq<seq<Byte>>)
    requires Stackable(stack)
    ensures ReadsAs(ReadStack, SerOneStack(stack), stack)
  {
    forall rest ensures ReadStack(SerOneStack(stack) + rest) == Some((stack, rest)) {
      StringsJoined(stack);
      forall i | 0 <= i < |stack| ensures ReadsAs(ReadString, StringParts(stack)[i], stack[i]) {
        StringReads(stack[i]);
      }
      ManyRead(ReadString, StringParts(stack), stack, rest);
      CompactRead(|stack|, SerStack(stack) + rest, true);
      Regroup(CompactSize(|stack|), SerStack(stack), rest);
    }
  }

  /** Inputs without their witnesses. */
  function Unsigned(ins: seq<TxIn>): seq<TxIn> { WithStacks(ins, Bare(|ins|)) }

  lemma InsRead(ins: seq<TxIn>, rest: seq<Byte>)
    requires |ins| < 0x1_0000_0000
    requires forall i :: 0 <= i < |ins| ==> |ins[i].outpoint| == 36 && ins[i].sequence < 0x1_0000_0000
    ensures Counted(ReadIn, CompactSize(|ins|) + (SerIns(ins) + rest)) == Some((Unsigned(ins), rest))
  {
    InsJoined(ins);
    forall i | 0 <= i < |ins| ensures ReadsAs(ReadIn, InParts(ins)[i], Unsigned(ins)[i]) {
      InRead(ins[i]);
    }
    ManyRead(ReadIn, InParts(ins), Unsigned(ins), rest);
    CompactRead(|ins|, SerIns(ins) + rest, true);
  }

  lemma OutsReadOn(outs: seq<TxOut>, rest: seq<Byte>)
    requires |outs| < 0x1_0000_0000 && forall i :: 0 <= i < |outs| ==> Payable(outs[i])
    ensures Counted(ReadOut, CompactSize(|outs|) + (SerOuts(outs) + rest)) == Some((outs, rest))
  {
    OutsJoined(outs);
    forall i | 0 <= i < |outs| ensures ReadsAs(ReadOut, OutParts(outs)[i], outs[i]) {
      OutReads(outs[i]);
    }
    ManyRead(ReadOut, OutParts(outs), outs, rest);
    CompactRead(|outs|, SerOuts(outs) + rest, true);
  }

  function Stacks(ins: seq<TxIn>): seq<seq<seq<Byte>>> { seq(|ins|, i requires 0 <= i < |ins| => ins[i].stack) }

  lemma StacksRead(ins: seq<TxIn>, rest: seq<Byte>)
    requires forall i :: 0 <= i < |ins| ==> Stackable(ins[i].stack)
    ensures var stacks := Stacks(ins);
      Many(ReadStack, SerWitnesses(ins) + rest, |ins|) == Some((stacks, rest)) && WithStacks(Unsigned(ins), stacks) == ins
  {
    var stacks := Stacks(ins);
    StacksJoined(ins);
    forall i | 0 <= i < |ins| ensures ReadsAs(ReadStack, StackParts(ins)[i], stacks[i]) {
      StackReads(ins[i].stack);
    }
    ManyRead(ReadStack, StackParts(ins), stacks, rest);
  }

  // -------------------------------------------------------------- the whole

  /** Where the parts of a transaction's bytes are. */
  lemma Layout(t: Tx, withStack: bool)
    requires Wellformed(t) && Sized(t) && (t.vin != [] || |t.vout| != 1)
    ensures var marked := withStack && exists i :: 0 <= i < |t.vin| && t.vin[i].stack != [];
      var last := (if marked then SerWitnesses(t.vin) else []) + Le(t.locktime, 4);
      var body := CompactSize(|t.vin|) + (SerIns(t.vin) + (CompactSize(|t.vout|) + (SerOuts(t.vout) + last)));
      var b := Serialize(t, withStack);
      && |b| >= 6 && FromLe(b[..4]) == t.version && (marked <==> b[4] == 0 && b[5] == 1)
      && body == if marked then b[6..] else b[4..]
  {
    var marked := withStack && exists i :: 0 <= i < |t.vin| && t.vin[i].stack != [];
    var last := (if marked then SerWitnesses(t.vin) else []) + Le(t.locktime, 4);
    var outs := SerOuts(t.vout) + last;
    var body := CompactSize(|t.vin|) + (SerIns(t.vin) + (CompactSize(|t.vout|) + outs));
    var b := Serialize(t, withStack);
    Powers();
    LeRead(t.version, 4);
    MarkerPassed(t.version, marked, |t.vin|, |t.vout|, SerIns(t.vin), outs);
    Regroup(Le(t.version, 4), if marked then [0, 1] else [], body);
    assert b[..4] == Le(t.version, 4);
    assert Drop(b, 4) == (if marked then [0, 1] else []) + body;
    CompactFirst(|t.vin|);
    assert |body| >= 2;
  }

  /** A reader of the parts puts them together. */
  lemma PartsRead(b: seq<Byte>, ins: seq<TxIn>, outs: seq<TxOut>, afterIns: seq<Byte>, afterOuts: seq<Byte>,
                  stacks: seq<seq<seq<Byte>>>, end: seq<Byte>)
    requires |b| >= 6 && |end| == 4 && |stacks| == |ins|
    requires Counted(ReadIn, if b[4] == 0 && b[5] == 1 then b[6..] else b[4..]) == Some((ins, afterIns))
    requires Counted(ReadOut, afterIns) == Some((outs, afterOuts))
    requires if b[4] == 0 && b[5] == 1 then Many(ReadStack, afterOuts, |ins|) == Some((stacks, end))
      else stacks == Bare(|ins|) && end == afterOuts
    ensures ReadTx(b) == Some(Tx(FromLe(b[..4]), WithStacks(ins, stacks), outs, FromLe(end)))
  {}

  lemma LocktimeRead(t: Tx)
    requires Sized(t)
    ensures |Le(t.locktime, 4)| == 4 && FromLe(Le(t.locktime, 4)) == t.locktime
  {
    Powers();
    LeRead(t.locktime, 4);
  }

  lemma MarkedRead(t: Tx)
    requires Wellformed(t) && Sized(t) && exists i :: 0 <= i < |t.vin| && t.vin[i].stack != []
    ensures ReadTx(Serialize(t, true)) == Some(t)
  {
    var end := Le(t.locktime, 4);
    var last := SerWitnesses(t.vin) + end;
    Layout(t, true);
    InsRead(t.vin, CompactSize(|t.vout|) + (SerOuts(t.vout) + last));
    OutsReadOn(t.vout, last);
    LocktimeRead(t);
    StacksRead(t.vin, end);
    var stacks := Stacks(t.vin);
    PartsRead(Serialize(t, true), Unsigned(t.vin), t.vout, CompactSize(|t.vout|) + (SerOuts(t.vout) + last), last, stacks, end);
  }

  lemma PlainRead(t: Tx, withStack: bool)
    requires Wellformed(t) && Sized(t) && (t.vin != [] || |t.vout| != 1)
    requires !(withStack && exists i :: 0 <= i < |t.vin| && t.vin[i].stack != [])
    ensures ReadTx(Serialize(t, withStack)) == Some(t.(vin := Unsigned(t.vin)))
  {
    var end := Le(t.locktime, 4);
    var last := [] + end;
    assert last == end;
    Layout(t, withStack);
    InsRead(t.vin, CompactSize(|t.vout|) + (SerOuts(t.vout) + last));
    OutsReadOn(t.vout, last);
    LocktimeRead(t);
    PartsRead(Serialize(t, withStack), Unsigned(t.vin), t.vout, CompactSize(|t.vout|) + (SerOuts(t.vout) + last), last, Bare(|t.vin|), end);
    assert WithStacks(Unsigned(t.vin), Bare(|t.vin|)) == Unsigned(t.vin);
  }

  /** The whole transaction is read back, and without its witnesses all but those. */
  lemma ReadUndoesSerialize(t: Tx, withStack: bool)
    requires Wellformed(t) && Sized(t) && (t.vin != [] || |t.vout| != 1)
    ensures ReadTx(Serialize(t, withStack)) == Some(if withStack then t else t.(vin := Unsigned(t.vin)))
  {
    if withStack && exists i :: 0 <= i < |t.vin| && t.vin[i].stack != [] {
      MarkedRead(t);
    } else {
      PlainRead(t, withStack);
      assert withStack ==> Unsigned(t.vin) == t.vin;
    }
  }
}
