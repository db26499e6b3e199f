/** What the maps of a PSET say, by the key types of BIP 370 (section "Specification") and of
    Elements: a reader of every field, and that it gives back what was built. */
module PsetFields {
  import opened Wrappers
  import opened Codec
  import opened TxBytes
  import opened Pset

  /** The value of a key. */
  function ValueOf(m: KeyMap, key: seq<Byte>): Option<seq<Byte>> {
    if m == [] then None else if m[0].key == key then Some(m[0].value) else ValueOf(m[1..], key)
  }

  function ReadUtxo(b: seq<Byte>): Option<Utxo> {
    if |b| < 44 || b[0] != 1 || b[33] != 1 || b[42] != 0 then None
    else
      var script := ReadString(b[43..]);
      if script.None? || script.value.1 != [] then None
      else Some(Utxo(Backwards(b[1..33]), FromLe(Backwards(b[34..42])), script.value.0))
  }

  function Backwards(b: seq<Byte>): (r: seq<Byte>)
    ensures |r| == |b| && forall i :: 0 <= i < |b| ==> r[i] == b[|b| - 1 - i]
  {
    seq(|b|, i requires 0 <= i < |b| => b[|b| - 1 - i])
  }

  function ReadFinal(b: seq<Byte>): Option<seq<seq<Byte>>> {
    var stack := ReadStack(b);
    if stack.None? || stack.value.1 != [] then None else Some(stack.value.0)
  }

  function ReadInput(m: KeyMap): Option<Input> {
    var txid, vout, sequence := ValueOf(m, [0x0e]), ValueOf(m, [0x0f]), ValueOf(m, [0x10]);
    var utxo, stack := ValueOf(m, [0x01]), ValueOf(m, [0x08]);
    if txid.None? || vout.None? || sequence.None? then None
    else if utxo.Some? && ReadUtxo(utxo.value).None? then None
    else if stack.Some? && ReadFinal(stack.value).None? then None
    else Some(Input(Backwards(txid.value), FromLe(vout.value), Some(FromLe(sequence.value)),
                    if utxo.None? then None else ReadUtxo(utxo.value),
                    if stack.None? then None else ReadFinal(stack.value)))
  }

  /** An output blinded by nobody. */
  function ReadOutput(m: KeyMap): Option<Output> {
    var value, script := ValueOf(m, [0x03]), ValueOf(m, [0x04]);
    var asset, blinder := ValueOf(m, [0xfc, 4, 0x70, 0x73, 0x65, 0x74, 0x02]), ValueOf(m, [0xfc, 4, 0x70, 0x73, 0x65, 0x74, 0x08]);
    if value.None? || script.None? || asset.None? || blinder != Some([0, 0, 0, 0]) then None
    else Some(Output(Backwards(asset.value), FromLe(value.value), script.value))
  }

  datatype Global = Global(txVersion: nat, locktime: nat, inputs: nat, outputs: nat, version: nat)

  function ReadGlobal(m: KeyMap): Option<Global> {
    var txVersion, locktime, version := ValueOf(m, [0x02]), ValueOf(m, [0x03]), ValueOf(m, [0xfb]);
    var inputs, outputs := ValueOf(m, [0x04]), ValueOf(m, [0x05]);
    if txVersion.None? || locktime.None? || version.None? || inputs.None? || outputs.None? then None
    else
      var n, k := ReadCompact(inputs.value, true), ReadCompact(outputs.value, true);
      if n.None? || k.None? then None
      else Some(Global(FromLe(txVersion.value), FromLe(locktime.value), n.value.0, k.value.0, FromLe(version.value)))
  }

  // ------------------------------------------------------------- the fields

  lemma {:induction false} ReversedAt(b: seq<Byte>)
    ensures Reversed(b) == Backwards(b)
  {
    if b != [] {
      ReversedAt(b[1..]);
      assert Backwards(b) == Backwards(b[1..]) + [b[0]];
    }
  }

  lemma BackAgain(b: seq<Byte>)
    ensures Backwards(Reversed(b)) == b
  {
    ReversedAt(b);
  }

  predicate Explicit(u: Utxo) { |u.asset| == 32 && u.value < 0x1_0000_0000_0000_0000 && Short(u.script) }

  lemma UtxoRead(u: Utxo)
    requires Explicit(u)
    ensures ReadUtxo(SerUtxo(u)) == Some(u)
  {
    var b := SerUtxo(u);
    var asset, value, script := Reversed(u.asset), Reversed(Le(u.value, 8)), SerString(u.script);
    assert b == [1] + asset + [1] + value + [0] + script;
    assert b[1..33] == asset && b[34..42] == value && b[43..] == script;
    BackAgain(u.asset);
    BackAgain(Le(u.value, 8));
    Powers();
    LeRead(u.value, 8);
    StringReads(u.script);
    assert script + [] == script;
    assert ReadString(script + []) == Some((u.script, []));
  }

  lemma {:induction false} ItemsMore(stack: seq<seq<Byte>>, item: seq<Byte>)
    requires Short(item) && forall j :: 0 <= j < |stack| ==> Short(stack[j])
    ensures SerStack(stack + [item]) == SerStack(stack) + SerString(item)
  {
    if stack == [] {
      assert [item][1..] == [];
      assert SerString(item) + [] == SerString(item) && [] + [item] == [item];
    } else {
      ItemsMore(stack[1..], item);
      assert (stack + [item])[1..] == stack[1..] + [item];
      Regroup(SerString(stack[0]), SerStack(stack[1..]), SerString(item));
    }
  }

  lemma {:induction false} ItemsAreStack(stack: seq<seq<Byte>>)
    requires forall j :: 0 <= j < |stack| ==> Short(stack[j])
    ensures SerItems(stack) == SerStack(stack)
  {
    if stack != [] {
      var before := stack[..|stack| - 1];
      ItemsAreStack(before);
      ItemsMore(before, stack[|stack| - 1]);
      assert before + [stack[|stack| - 1]] == stack;
    }
  }

  lemma FinalRead(stack: seq<seq<Byte>>)
    requires Stackable(stack)
    ensures ReadFinal(SerFinal(stack)) == Some(stack)
  {
    ItemsAreStack(stack);
    StackReads(stack);
    assert SerFinal(stack) == SerOneStack(stack) == SerOneStack(stack) + [];
  }

  predicate Encodable(i: Input) {
    && i.vout < 0x1_0000_0000 && (i.sequence.Some? ==> i.sequence.value < 0x1_0000_0000)
    && (i.utxo.Some? ==> Explicit(i.utxo.value)) && (i.finalStack.Some? ==> Stackable(i.finalStack.value))
  }

  /** An input's map says what it spends and how: the sequence is the one given, or the last
      that leaves the lock time in force. */
  lemma InputRead(i: Input)
    requires Fits(i) && Encodable(i)
    ensures ReadInput(InputMap(i)) == Some(i.(sequence := if i.sequence.Some? then i.sequence else Some(0xffff_fffe)))
  {
    Powers();
    var m, sequence := InputMap(i), if i.sequence.Some? then i.sequence.value else 0xffff_fffe;
    LeRead(i.vout, 4);
    LeRead(sequence, 4);
    BackAgain(i.txid);
    if i.utxo.Some? {
      UtxoRead(i.utxo.value);
    }
    if i.finalStack.Some? {
      FinalRead(i.finalStack.value);
    }
    InputValues(i);
  }

  /** The value of the first pair with a key. */
  lemma {:induction false} ValueAt(m: KeyMap, i: nat)
    requires i < |m| && forall j :: 0 <= j < i ==> m[j].key != m[i].key
    ensures ValueOf(m, m[i].key) == Some(m[i].value)
  {
    if i > 0 {
      ValueAt(m[1..], i - 1);
    }
  }

  lemma {:induction false} NoValue(m: KeyMap, key: seq<Byte>)
    requires forall j :: 0 <= j < |m| ==> m[j].key != key
    ensures ValueOf(m, key) == None
  {
    if m != [] {
      NoValue(m[1..], key);
    }
  }

  /** Keys of one byte, told apart by it. */
  predicate OneByte(key: seq<Byte>, b: Byte) { |key| == 1 && key[0] == b }

  lemma InputValues(i: Input)
    requires Fits(i)
    ensures var m := InputMap(i);
      && ValueOf(m, [0x0e]) == Some(Reversed(i.txid)) && ValueOf(m, [0x0f]) == Some(Le(i.vout, 4))
      && ValueOf(m, [0x10]) == Some(Le(if i.sequence.Some? then i.sequence.value else 0xffff_fffe, 4))
      && ValueOf(m, [0x01]) == (if i.utxo.Some? then Some(SerUtxo(i.utxo.value)) else None)
      && ValueOf(m, [0x08]) == (if i.finalStack.Some? then Some(SerFinal(i.finalStack.value)) else None)
  {
    var m := InputMap(i);
    var u := if i.utxo.Some? then 1 else 0;
    var n := u + if i.finalStack.Some? then 1 else 0;
    assert |m| == n + 3;
    assert OneByte(m[n].key, 0x0e) && OneByte(m[n + 1].key, 0x0f) && OneByte(m[n + 2].key, 0x10);
    assert u == 1 ==> OneByte(m[0].key, 0x01);
    assert n > u ==> OneByte(m[u].key, 0x08);
    ValueAt(m, n);
    ValueAt(m, n + 1);
    ValueAt(m, n + 2);
    if u == 1 {
      ValueAt(m, 0);
    } else {
      NoValue(m, [0x01]);
    }
    if n > u {
      ValueAt(m, u);
    } else {
      NoValue(m, [0x08]);
    }
  }

  /** An output's map says what it pays. */
  lemma OutputRead(o: Output)
    requires Pays(o) && o.value < 0x1_0000_0000_0000_0000
    ensures ReadOutput(OutputMap(o)) == Some(o)
  {
    Powers();
    LeRead(o.value, 8);
    BackAgain(o.asset);
    OutputValues(o);
    assert Le(0, 4) == [0, 0, 0, 0];
  }

  lemma OutputValues(o: Output)
    requires Pays(o)
    ensures var m := OutputMap(o);
      && ValueOf(m, [0x03]) == Some(Le(o.value, 8)) && ValueOf(m, [0x04]) == Some(o.script)
      && ValueOf(m, [0xfc, 4, 0x70, 0x73, 0x65, 0x74, 0x02]) == Some(Reversed(o.asset))
      && ValueOf(m, [0xfc, 4, 0x70, 0x73, 0x65, 0x74, 0x08]) == Some(Le(0, 4))
  {
    var m := OutputMap(o);
    assert OneByte(m[0].key, 0x03) && OneByte(m[1].key, 0x04);
    assert m[2].key == [0xfc, 4, 0x70, 0x73, 0x65, 0x74, 0x02] && m[2].key[6] == 0x02;
    assert m[3].key == [0xfc, 4, 0x70, 0x73, 0x65, 0x74, 0x08] && m[3].key[6] == 0x08;
    ValueAt(m, 0);
    ValueAt(m, 1);
    ValueAt(m, 2);
    ValueAt(m, 3);
  }

  lemma GlobalRead(inputs: nat, outputs: nat, txVersion: nat, locktime: nat)
    requires inputs < 0x1_0000_0000 && outputs < 0x1_0000_0000 && txVersion < 0x1_0000_0000 && locktime < 0x1_0000_0000
    ensures ReadGlobal(GlobalMap(inputs, outputs, txVersion, locktime)) == Some(Global(txVersion, locktime, inputs, outputs, 2))
  {
    Powers();
    LeRead(txVersion, 4);
    LeRead(locktime, 4);
    LeRead(2, 4);
    CompactRead(inputs, [], true);
    CompactRead(outputs, [], true);
    assert CompactSize(inputs) + [] == CompactSize(inputs) && CompactSize(outputs) + [] == CompactSize(outputs);
    GlobalValues(inputs, outputs, txVersion, locktime);
  }

  lemma GlobalValues(inputs: nat, outputs: nat, txVersion: nat, locktime: nat)
    requires inputs < 0x1_0000_0000 && outputs < 0x1_0000_0000
    ensures var m := GlobalMap(inputs, outputs, txVersion, locktime);
      && ValueOf(m, [0x02]) == Some(Le(txVersion, 4)) && ValueOf(m, [0x03]) == Some(Le(locktime, 4))
      && ValueOf(m, [0x04]) == Some(CompactSize(inputs)) && ValueOf(m, [0x05]) == Some(CompactSize(outputs))
      && ValueOf(m, [0xfb]) == Some(Le(2, 4))
  {
    var m := GlobalMap(inputs, outputs, txVersion, locktime);
    assert OneByte(m[0].key, 0x02) && OneByte(m[1].key, 0x03) && OneByte(m[2].key, 0x04);
    assert OneByte(m[3].key, 0x05) && OneByte(m[4].key, 0xfb);
    ValueAt(m, 0);
    ValueAt(m, 1);
    ValueAt(m, 2);
    ValueAt(m, 3);
    ValueAt(m, 4);
  }

  // -------------------------------------------------------------- the whole

  /** A built PSET says what it was built from: read map by map, the transaction's fields,
      every input and every output. */
  lemma PsetRead(inputs: seq<Input>, outputs: seq<Output>, txVersion: nat, locktime: nat)
    requires |inputs| < 0x1_0000_0000 && |outputs| < 0x1_0000_0000 && txVersion < 0x1_0000_0000 && locktime < 0x1_0000_0000
    requires forall i :: 0 <= i < |inputs| ==> Fits(inputs[i]) && Encodable(inputs[i])
    requires forall i :: 0 <= i < |outputs| ==> Pays(outputs[i])
    requires forall i :: 0 <= i < |outputs| ==> outputs[i].value < 0x1_0000_0000_0000_0000
    ensures AllMaps(Maps(inputs, outputs, txVersion, locktime))
    ensures var read := Dump(SerMaps(Maps(inputs, outputs, txVersion, locktime)), []);
      && read.Some? && |read.value| == 1 + |inputs| + |outputs|
      && ReadGlobal(read.value[0]) == Some(Global(txVersion, locktime, |inputs|, |outputs|, 2))
      && (forall i :: 0 <= i < |inputs| ==>
            ReadInput(read.value[1 + i]) == Some(inputs[i].(sequence := if inputs[i].sequence.Some? then inputs[i].sequence else Some(0xffff_fffe))))
      && (forall i :: 0 <= i < |outputs| ==> ReadOutput(read.value[1 + |inputs| + i]) == Some(outputs[i]))
  {
    DumpUndoesBuild(inputs, outputs, txVersion, locktime);
    GlobalRead(|inputs|, |outputs|, txVersion, locktime);
    forall i | 0 <= i < |inputs|
      ensures ReadInput(InputMap(inputs[i])) == Some(inputs[i].(sequence := if inputs[i].sequence.Some? then inputs[i].sequence else Some(0xffff_fffe)))
    {
      InputRead(inputs[i]);
    }
    forall i | 0 <= i < |outputs| ensures ReadOutput(OutputMap(outputs[i])) == Some(outputs[i]) {
      OutputRead(outputs[i]);
    }
  }
}
