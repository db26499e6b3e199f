/** The PSET the browser builds, and the reader that takes its maps apart (BIP 370, section
    "Specification", with the Elements proprietary keys). */
module Pset {
  import opened Wrappers
  import opened Codec

  datatype Pair = Pair(key: seq<Byte>, value: seq<Byte>)

  type KeyMap = seq<Pair>

  predicate Writable(p: Pair) { p.key != [] && Short(p.key) && Short(p.value) }

  predicate AllWritable(m: KeyMap) { forall i :: 0 <= i < |m| ==> Writable(m[i]) }

  function SerPair(p: Pair): seq<Byte>
    requires Writable(p)
  {
    SerString(p.key) + SerString(p.value)
  }

  function SerPairs(m: KeyMap): seq<Byte>
    requires AllWritable(m)
  {
    if m == [] then []
    else
      assert Writable(m[0]);
      SerPair(m[0]) + SerPairs(m[1..])
  }

  /** A map: its pairs, then the separator. */
  function SerMap(m: KeyMap): seq<Byte>
    requires AllWritable(m)
  {
    SerPairs(m) + [0]
  }

  lemma {:induction false} PairsMore(m: KeyMap, p: Pair)
    requires AllWritable(m) && Writable(p)
    ensures AllWritable(m + [p]) && SerPairs(m + [p]) == SerPairs(m) + SerPair(p)
  {
    if m == [] {
      assert SerPairs([p][1..]) == [] && m + [p] == [p];
      assert SerPair(p) + [] == SerPair(p);
    } else {
      assert Writable(m[0]);
      PairsMore(m[1..], p);
      assert (m + [p])[1..] == m[1..] + [p];
      Regroup(SerPair(m[0]), SerPairs(m[1..]), SerPair(p));
    }
  }

  predicate AllMaps(maps: seq<KeyMap>) { forall i :: 0 <= i < |maps| ==> AllWritable(maps[i]) }

  function SerMaps(maps: seq<KeyMap>): seq<Byte>
    requires AllMaps(maps)
  {
    if maps == [] then []
    else
      assert AllWritable(maps[0]);
      SerMap(maps[0]) + SerMaps(maps[1..])
  }

  const MAGIC: seq<Byte> := [0x70, 0x73, 0x65, 0x74, 0xff]

  // ---------------------------------------------------------------- building

  datatype Utxo = Utxo(asset: seq<Byte>, value: nat, script: seq<Byte>)

  datatype Input = Input(txid: seq<Byte>, vout: nat, sequence: Option<nat>, utxo: Option<Utxo>, finalStack: Option<seq<seq<Byte>>>)

  datatype Output = Output(asset: seq<Byte>, value: nat, script: seq<Byte>)

  function Reversed(b: seq<Byte>): (r: seq<Byte>)
    ensures |r| == |b|
  {
    if b == [] then [] else Reversed(b[1..]) + [b[0]]
  }

  /** An explicit output: the asset reversed, the amount big-endian, no nonce. */
  function SerUtxo(u: Utxo): seq<Byte>
    requires Short(u.script)
  {
    [1] + Reversed(u.asset) + [1] + Reversed(Le(u.value, 8)) + [0] + SerString(u.script)
  }

  function SerItems(stack: seq<seq<Byte>>): seq<Byte>
    requires forall j :: 0 <= j < |stack| ==> Short(stack[j])
  {
    if stack == [] then []
    else
      assert Short(stack[|stack| - 1]);
      SerItems(stack[..|stack| - 1]) + SerString(stack[|stack| - 1])
  }

  /** A covenant's finished witness. */
  function SerFinal(stack: seq<seq<Byte>>): seq<Byte>
    requires Stackable(stack)
  {
    CompactSize(|stack|) + SerItems(stack)
  }

  predicate Fits(i: Input) {
    && Short(i.txid)
    && (i.utxo.Some? ==> Short(i.utxo.value.script) && Short(SerUtxo(i.utxo.value)))
    && (i.finalStack.Some? ==> Stackable(i.finalStack.value) && Short(SerFinal(i.finalStack.value)))
  }

  predicate Pays(o: Output) { Short(o.asset) && Short(o.script) }

  function GlobalMap(inputs: nat, outputs: nat, txVersion: nat, locktime: nat): KeyMap
    requires inputs < 0x1_0000_0000 && outputs < 0x1_0000_0000
  {
    [Pair([0x02], Le(txVersion, 4)), Pair([0x03], Le(locktime, 4)), Pair([0x04], CompactSize(inputs)),
     Pair([0x05], CompactSize(outputs)), Pair([0xfb], Le(2, 4))]
  }

  function InputMap(i: Input): KeyMap
    requires Fits(i)
  {
    (if i.utxo.Some? then [Pair([0x01], SerUtxo(i.utxo.value))] else [])
    + (if i.finalStack.Some? then [Pair([0x08], SerFinal(i.finalStack.value))] else [])
    + OutpointPairs(i)
  }

  function OutpointPairs(i: Input): KeyMap {
    [Pair([0x0e], Reversed(i.txid)), Pair([0x0f], Le(i.vout, 4)),
     Pair([0x10], Le(if i.sequence.Some? then i.sequence.value else 0xffff_fffe, 4))]
  }

  const PROPRIETARY: seq<Byte> := [0xfc, 4, 0x70, 0x73, 0x65, 0x74]

  function OutputMap(o: Output): KeyMap
    requires Pays(o)
  {
    [Pair([0x03], Le(o.value, 8)), Pair([0x04], o.script),
     Pair(PROPRIETARY + [0x02], Reversed(o.asset)), Pair(PROPRIETARY + [0x08], Le(0, 4))]
  }

  /** The maps a PSET is: one for the transaction, one for each input, one for each output. */
  function Maps(inputs: seq<Input>, outputs: seq<Output>, txVersion: nat, locktime: nat): seq<KeyMap>
    requires |inputs| < 0x1_0000_0000 && |outputs| < 0x1_0000_0000
    requires forall i :: 0 <= i < |inputs| ==> Fits(inputs[i])
    requires forall i :: 0 <= i < |outputs| ==> Pays(outputs[i])
  {
    [GlobalMap(|inputs|, |outputs|, txVersion, locktime)]
    + seq(|inputs|, i requires 0 <= i < |inputs| => InputMap(inputs[i]))
    + seq(|outputs|, i requires 0 <= i < |outputs| => OutputMap(outputs[i]))
  }

  lemma MapsWritable(inputs: seq<Input>, outputs: seq<Output>, txVersion: nat, locktime: nat)
    requires |inputs| < 0x1_0000_0000 && |outputs| < 0x1_0000_0000
    requires forall i :: 0 <= i < |inputs| ==> Fits(inputs[i])
    requires forall i :: 0 <= i < |outputs| ==> Pays(outputs[i])
    ensures AllMaps(Maps(inputs, outputs, txVersion, locktime))
  {
    forall i | 0 <= i < |inputs| ensures AllWritable(InputMap(inputs[i])) {
      assert Fits(inputs[i]);
    }
    forall i | 0 <= i < |outputs| ensures AllWritable(OutputMap(outputs[i])) {
      assert Pays(outputs[i]);
    }
    assert AllWritable(GlobalMap(|inputs|, |outputs|, txVersion, locktime));
  }

  lemma MapsAt(inputs: seq<Input>, outputs: seq<Output>, txVersion: nat, locktime: nat)
    requires |inputs| < 0x1_0000_0000 && |outputs| < 0x1_0000_0000
    requires forall i :: 0 <= i < |inputs| ==> Fits(inputs[i])
    requires forall i :: 0 <= i < |outputs| ==> Pays(outputs[i])
    ensures var maps := Maps(inputs, outputs, txVersion, locktime);
      && |maps| == 1 + |inputs| + |outputs| && maps[0] == GlobalMap(|inputs|, |outputs|, txVersion, locktime)
      && (forall i :: 0 <= i < |inputs| ==> maps[i + 1] == InputMap(inputs[i]))
      && (forall i :: 0 <= i < |outputs| ==> maps[|inputs| + 1 + i] == OutputMap(outputs[i]))
  {
    var ins := seq(|inputs|, i requires 0 <= i < |inputs| => InputMap(inputs[i]));
    var outs := seq(|outputs|, i requires 0 <= i < |outputs| => OutputMap(outputs[i]));
    Joined([GlobalMap(|inputs|, |outputs|, txVersion, locktime)], ins, outs);
  }

  lemma Joined(a: seq<KeyMap>, b: seq<KeyMap>, c: seq<KeyMap>)
    ensures |a + b + c| == |a| + |b| + |c|
    ensures forall i :: 0 <= i < |a| ==> (a + b + c)[i] == a[i]
    ensures forall i :: 0 <= i < |b| ==> (a + b + c)[|a| + i] == b[i]
    ensures forall i :: 0 <= i < |c| ==> (a + b + c)[|a| + |b| + i] == c[i]
  {}

  lemma FirstAndAll(maps: seq<KeyMap>)
    requires maps != []
    ensures maps[..1] == [maps[0]] && maps[..|maps|] == maps
  {}

  lemma {:induction false} SerMapsConcat(a: seq<KeyMap>, b: seq<KeyMap>)
    requires AllMaps(a)
    requires AllMaps(b)
    ensures SerMaps(a + b) == SerMaps(a) + SerMaps(b)
  {
    if a == [] {
      assert a + b == b;
    } else {
      SerMapsConcat(a[1..], b);
      assert (a + b)[1..] == a[1..] + b;
      Regroup(SerMap(a[0]), SerMaps(a[1..]), SerMaps(b));
    }
  }

  lemma OneMap(m: KeyMap)
    requires AllWritable(m)
    ensures SerMaps([m]) == SerMap(m)
  {
    assert SerMaps([m][1..]) == [];
    assert SerMap(m) + [] == SerMap(m);
  }

  method Kv(keyType: Byte, value: seq<Byte>) returns (part: seq<Byte>)
    requires Short(value)
    ensures part == SerPair(Pair([keyType], value))
  {
    part := SerString([keyType]) + SerString(value);
  }

  method PropKv(subtype: Byte, value: seq<Byte>) returns (part: seq<Byte>)
    requires Short(value)
    ensures part == SerPair(Pair(PROPRIETARY + [subtype], value))
  {
    var key: seq<Byte> := [0xfc] + SerString([0x70, 0x73, 0x65, 0x74]) + [subtype];
    assert key == PROPRIETARY + [subtype];
    part := SerString(key) + SerString(value);
  }

  /** The parts of one map, pushed in order. */
  method BuildOutput(o: Output) returns (part: seq<Byte>)
    requires Pays(o)
    ensures AllWritable(OutputMap(o)) && part == SerMap(OutputMap(o))
  {
    ghost var m: KeyMap := [];
    part := [];
    var kv := Kv(0x03, Le(o.value, 8));
    m, part := Push(m, part, [0x03], Le(o.value, 8), kv);
    kv := Kv(0x04, o.script);
    m, part := Push(m, part, [0x04], o.script, kv);
    kv := PropKv(0x02, Reversed(o.asset));
    m, part := Push(m, part, PROPRIETARY + [0x02], Reversed(o.asset), kv);
    kv := PropKv(0x08, Le(0, 4));
    m, part := Push(m, part, PROPRIETARY + [0x08], Le(0, 4), kv);
    assert m == OutputMap(o);
    part := part + [0];
  }

  /** One more pair of a map under construction. */
  method Push(ghost m: KeyMap, part: seq<Byte>, ghost key: seq<Byte>, ghost value: seq<Byte>, kv: seq<Byte>)
    returns (ghost m': KeyMap, part': seq<Byte>)
    requires AllWritable(m) && part == SerPairs(m) && Writable(Pair(key, value)) && kv == SerPair(Pair(key, value))
    ensures m' == m + [Pair(key, value)] && AllWritable(m') && part' == SerPairs(m')
  {
    PairsMore(m, Pair(key, value));
    m' := m + [Pair(key, value)];
    part' := part + kv;
  }

  method BuildGlobal(inputs: nat, outputs: nat, txVersion: nat, locktime: nat) returns (part: seq<Byte>)
    requires inputs < 0x1_0000_0000 && outputs < 0x1_0000_0000
    ensures AllWritable(GlobalMap(inputs, outputs, txVersion, locktime)) && part == SerMap(GlobalMap(inputs, outputs, txVersion, locktime))
  {
    ghost var m: KeyMap := [];
    part := [];
    var kv := Kv(0x02, Le(txVersion, 4));
    m, part := Push(m, part, [0x02], Le(txVersion, 4), kv);
    kv := Kv(0x03, Le(locktime, 4));
    m, part := Push(m, part, [0x03], Le(locktime, 4), kv);
    kv := Kv(0x04, CompactSize(inputs));
    m, part := Push(m, part, [0x04], CompactSize(inputs), kv);
    kv := Kv(0x05, CompactSize(outputs));
    m, part := Push(m, part, [0x05], CompactSize(outputs), kv);
    kv := Kv(0xfb, Le(2, 4));
    m, part := Push(m, part, [0xfb], Le(2, 4), kv);
    assert m == GlobalMap(inputs, outputs, txVersion, locktime);
    part := part + [0];
  }

  method BuildInput(i: Input) returns (part: seq<Byte>)
    requires Fits(i)
    ensures AllWritable(InputMap(i)) && part == SerMap(InputMap(i))
  {
    ghost var m: KeyMap := [];
    part := [];
    var kv: seq<Byte>;
    if i.utxo.Some? {
      kv := Kv(0x01, SerUtxo(i.utxo.value));
      m, part := Push(m, part, [0x01], SerUtxo(i.utxo.value), kv);
    }
    if i.finalStack.Some? {
      kv := Kv(0x08, SerFinal(i.finalStack.value));
      m, part := Push(m, part, [0x08], SerFinal(i.finalStack.value), kv);
    }
    ghost var optional := m;
    part := BuildOutpoint(m, part, i);
    assert optional == (if i.utxo.Some? then [Pair([0x01], SerUtxo(i.utxo.value))] else [])
      + (if i.finalStack.Some? then [Pair([0x08], SerFinal(i.finalStack.value))] else []);
  }

  method BuildOutpoint(ghost before: KeyMap, done: seq<Byte>, i: Input) returns (part: seq<Byte>)
    requires Short(i.txid) && AllWritable(before) && done == SerPairs(before)
    ensures AllWritable(before + OutpointPairs(i)) && part == SerMap(before + OutpointPairs(i))
  {
    ghost var m := before;
    part := done;
    var sequence := if i.sequence.Some? then i.sequence.value else 0xffff_fffe;
    var kv := Kv(0x0e, Reversed(i.txid));
    m, part := Push(m, part, [0x0e], Reversed(i.txid), kv);
    kv := Kv(0x0f, Le(i.vout, 4));
    m, part := Push(m, part, [0x0f], Le(i.vout, 4), kv);
    kv := Kv(0x10, Le(sequence, 4));
    m, part := Push(m, part, [0x10], Le(sequence, 4), kv);
    assert m == before + OutpointPairs(i);
    part := part + [0];
  }

  /** Assemble a PSET, part after part. */
  method BuildPset(inputs: seq<Input>, outputs: seq<Output>, txVersion: nat, locktime: nat) returns (blob: Option<seq<Byte>>)
    requires |inputs| < 0x1_0000_0000 && |outputs| < 0x1_0000_0000
    requires forall i :: 0 <= i < |inputs| ==> Fits(inputs[i])
    requires forall i :: 0 <= i < |outputs| ==> Pays(outputs[i])
    ensures blob.Some? <==> inputs != [] && outputs != []
    ensures AllMaps(Maps(inputs, outputs, txVersion, locktime))
    ensures blob.Some? ==> blob.value == MAGIC + SerMaps(Maps(inputs, outputs, txVersion, locktime))
  {
    MapsWritable(inputs, outputs, txVersion, locktime);
    if inputs == [] || outputs == [] {
      return None;
    }
    ghost var maps := Maps(inputs, outputs, txVersion, locktime);
    MapsAt(inputs, outputs, txVersion, locktime);
    var parts := BuildParts(inputs, outputs, txVersion, locktime, maps);
    return Some(MAGIC + parts);
  }

  method BuildParts(inputs: seq<Input>, outputs: seq<Output>, txVersion: nat, locktime: nat, ghost maps: seq<KeyMap>) returns (parts: seq<Byte>)
    requires |inputs| < 0x1_0000_0000 && |outputs| < 0x1_0000_0000 && AllMaps(maps) && |maps| == 1 + |inputs| + |outputs|
    requires maps[0] == GlobalMap(|inputs|, |outputs|, txVersion, locktime)
    requires forall i :: 0 <= i < |inputs| ==> Fits(inputs[i]) && maps[i + 1] == InputMap(inputs[i])
    requires forall i :: 0 <= i < |outputs| ==> Pays(outputs[i]) && maps[|inputs| + 1 + i] == OutputMap(outputs[i])
    ensures parts == SerMaps(maps)
  {
    FirstAndAll(maps);
    parts := BuildGlobal(|inputs|, |outputs|, txVersion, locktime);
    OneMap(maps[0]);
    parts := AddInputs(parts, inputs, maps);
    parts := AddOutputs(parts, outputs, maps, |inputs| + 1);
  }

  method AddInputs(first: seq<Byte>, inputs: seq<Input>, ghost maps: seq<KeyMap>) returns (parts: seq<Byte>)
    requires |inputs| < |maps| && AllMaps(maps) && first == SerMaps(maps[..1])
    requires forall i :: 0 <= i < |inputs| ==> Fits(inputs[i]) && maps[i + 1] == InputMap(inputs[i])
    ensures parts == SerMaps(maps[..|inputs| + 1])
  {
    parts := first;
    for i := 0 to |inputs|
      invariant parts == SerMaps(maps[..i + 1])
    {
      var part := BuildInput(inputs[i]);
      NextMap(maps, i + 1);
      parts := parts + part;
    }
  }

  method AddOutputs(before: seq<Byte>, outputs: seq<Output>, ghost maps: seq<KeyMap>, ghost done: nat) returns (parts: seq<Byte>)
    requires done + |outputs| <= |maps| && AllMaps(maps) && before == SerMaps(maps[..done])
    requires forall i :: 0 <= i < |outputs| ==> Pays(outputs[i]) && maps[done + i] == OutputMap(outputs[i])
    ensures parts == SerMaps(maps[..done + |outputs|])
  {
    parts := before;
    for i := 0 to |outputs|
      invariant parts == SerMaps(maps[..done + i])
    {
      var part := BuildOutput(outputs[i]);
      NextMap(maps, done + i);
      parts := parts + part;
    }
  }

  lemma NextMap(maps: seq<KeyMap>, i: nat)
    requires i < |maps| && AllMaps(maps)
    ensures SerMaps(maps[..i + 1]) == SerMaps(maps[..i]) + SerMap(maps[i])
  {
    assert maps[..i + 1] == maps[..i] + [maps[i]];
    SerMapsConcat(maps[..i], [maps[i]]);
    OneMap(maps[i]);
  }

  // ----------------------------------------------------------------- reading

  /** Bytes by their length, and what follows them. */
  function ReadBytes(b: seq<Byte>): (r: Option<(seq<Byte>, seq<Byte>)>)
    ensures r.Some? ==> |r.value.1| < |b|
  {
    var len := ReadCompact(b, false);
    if len.None? then None else Some((Take(len.value.1, len.value.0), Drop(len.value.1, len.value.0)))
  }

  /** One key and its value, and what follows them. */
  function ReadPair(b: seq<Byte>): (r: Option<(Pair, seq<Byte>)>)
    ensures r.Some? ==> |r.value.1| < |b|
  {
    var key := ReadBytes(b);
    if key.None? then None
    else
      var value := ReadBytes(key.value.1);
      if value.None? then None else Some((Pair(key.value.0, value.value.0), value.value.1))
  }

  predicate Ends(b: seq<Byte>) {
    ReadCompact(b, false).Some? && ReadCompact(b, false).value.0 == 0
  }

  /** The maps of what follows the magic; a map not yet ended is dropped. Nothing when a
      length is missing. */
  function Dump(b: seq<Byte>, current: KeyMap): Option<seq<KeyMap>>
    decreases |b|
  {
    if b == [] then Some([])
    else if Ends(b) then With([current], Dump(ReadCompact(b, false).value.1, []))
    else if ReadPair(b).None? then None
    else Dump(ReadPair(b).value.1, current + [ReadPair(b).value.0])
  }

  method BytesAt(b: seq<Byte>, i: nat) returns (bytes: Option<seq<Byte>>, next: nat)
    ensures bytes.Some? <==> ReadBytes(Drop(b, i)).Some?
    ensures bytes.Some? ==> ReadBytes(Drop(b, i)).value == (bytes.value, Drop(b, next)) && next > i
  {
    var len, at := CompactAt(b, i, false);
    if len.None? {
      return None, i;
    }
    DropDrop(b, at, len.value);
    return Some(Take(Drop(b, at), len.value)), at + len.value;
  }

  /** One key and its value at the index, and the index past them. */
  method PairAt(b: seq<Byte>, i: nat) returns (pair: Option<Pair>, next: nat)
    ensures pair.Some? <==> ReadPair(Drop(b, i)).Some?
    ensures pair.Some? ==> ReadPair(Drop(b, i)).value == (pair.value, Drop(b, next)) && next > i
  {
    var key, value;
    key, next := BytesAt(b, i);
    if key.None? {
      return None, i;
    }
    value, next := BytesAt(b, next);
    if value.None? {
      return None, i;
    }
    pair := Some(Pair(key.value, value.value));
  }

  /** The key and value maps of a PSET, by an index moved through it. */
  method DumpMaps(blob: seq<Byte>) returns (maps: Option<seq<KeyMap>>)
    ensures maps == if |blob| >= 5 && blob[..5] == MAGIC then Dump(blob[5..], []) else None
  {
    if |blob| < 5 || blob[..5] != MAGIC {
      return None;
    }
    maps := DumpFrom(blob, 5);
  }

  method DumpFrom(blob: seq<Byte>, from: nat) returns (maps: Option<seq<KeyMap>>)
    ensures maps == Dump(Drop(blob, from), [])
  {
    var i := from;
    var read: seq<KeyMap> := [];
    var current: KeyMap := [];
    WithNothing(Dump(Drop(blob, from), []));
    while i < |blob|
      invariant With(read, Dump(Drop(blob, i), current)) == Dump(Drop(blob, from), [])
      decreases |blob| - i
    {
      DumpOne(Drop(blob, i), current);
      var klen, at := CompactAt(blob, i, false);
      if klen == Some(0) {
        WithMore(read, current, Dump(Drop(blob, at), []));
        i, read, current := at, read + [current], [];
      } else {
        var pair, next := PairAt(blob, i);
        if pair.None? {
          return None;
        }
        i, current := next, current + [pair.value];
      }
    }
    assert read + [] == read;
    return Some(read);
  }

  lemma DumpOne(b: seq<Byte>, current: KeyMap)
    requires b != []
    ensures Dump(b, current) ==
      if Ends(b) then With([current], Dump(ReadCompact(b, false).value.1, []))
      else if ReadPair(b).None? then None
      else Dump(ReadPair(b).value.1, current + [ReadPair(b).value.0])
  {}

  function With(read: seq<KeyMap>, rest: Option<seq<KeyMap>>): Option<seq<KeyMap>> {
    if rest.None? then None else Some(read + rest.value)
  }

  lemma WithNothing(rest: Option<seq<KeyMap>>)
    ensures With([], rest) == rest
  {
    if rest.Some? {
      assert [] + rest.value == rest.value;
    }
  }

  lemma WithMore(read: seq<KeyMap>, m: KeyMap, rest: Option<seq<KeyMap>>)
    ensures With(read, With([m], rest)) == With(read + [m], rest)
  {
    if rest.Some? {
      assert read + ([m] + rest.value) == (read + [m]) + rest.value;
    }
  }

  // -------------------------------------------------------------- round trip

  lemma StringRead(s: seq<Byte>, rest: seq<Byte>)
    requires Short(s)
    ensures ReadCompact(SerString(s) + rest, false) == Some((|s|, s + rest))
    ensures Take(s + rest, |s|) == s && Drop(s + rest, |s|) == rest
  {
    CompactRead(|s|, s + rest, false);
    Regroup(CompactSize(|s|), s, rest);
  }

  lemma PairRead(p: Pair, rest: seq<Byte>)
    requires Writable(p)
    ensures var b := SerPair(p) + rest;
      b != [] && !Ends(b) && ReadPair(b) == Some((p, rest))
  {
    StringRead(p.key, SerString(p.value) + rest);
    StringRead(p.value, rest);
    Regroup(SerString(p.key), SerString(p.value), rest);
  }

  lemma MapSplit(m: KeyMap, rest: seq<Byte>)
    requires AllWritable(m) && m != []
    ensures Writable(m[0]) && SerMap(m) + rest == SerPair(m[0]) + (SerMap(m[1..]) + rest)
  {
    Regroup(SerPair(m[0]), SerPairs(m[1..]), [0]);
    Regroup(SerPair(m[0]), SerMap(m[1..]), rest);
  }

  lemma OneThenRest(m: KeyMap, current: KeyMap)
    requires m != []
    ensures current + [m[0]] + m[1..] == current + m
  {}

  lemma MapEnd(rest: seq<Byte>, current: KeyMap)
    ensures Dump(SerMap([]) + rest, current) == With([current], Dump(rest, []))
  {
    assert SerMap([]) + rest == CompactSize(0) + rest;
    CompactRead(0, rest, false);
  }

  lemma {:induction false} MapRead(m: KeyMap, rest: seq<Byte>, current: KeyMap)
    requires AllWritable(m)
    ensures Dump(SerMap(m) + rest, current) == With([current + m], Dump(rest, []))
    decreases |m|
  {
    if m == [] {
      MapEnd(rest, current);
      assert current + m == current;
    } else {
      MapSplit(m, rest);
      MapRead(m[1..], rest, current + [m[0]]);
      PairRead(m[0], SerMap(m[1..]) + rest);
      DumpOne(SerMap(m) + rest, current);
      OneThenRest(m, current);
    }
  }

  /** Whatever maps are written, they are what is read. */
  lemma {:induction false} DumpUndoesSer(maps: seq<KeyMap>)
    requires AllMaps(maps)
    ensures Dump(SerMaps(maps), []) == Some(maps)
  {
    if maps != [] {
      DumpUndoesSer(maps[1..]);
      MapRead(maps[0], SerMaps(maps[1..]), []);
      assert [] + maps[0] == maps[0];
      assert [maps[0]] + maps[1..] == maps;
    }
  }

  /** Reading a built PSET gives exactly one map for the transaction, one for each input
      and one for each output, holding the pairs written. */
  lemma DumpUndoesBuild(inputs: seq<Input>, outputs: seq<Output>, txVersion: nat, locktime: nat)
    requires |inputs| < 0x1_0000_0000 && |outputs| < 0x1_0000_0000
    requires forall i :: 0 <= i < |inputs| ==> Fits(inputs[i])
    requires forall i :: 0 <= i < |outputs| ==> Pays(outputs[i])
    ensures AllMaps(Maps(inputs, outputs, txVersion, locktime))
    ensures var maps := Maps(inputs, outputs, txVersion, locktime);
      && Dump(SerMaps(maps), []) == Some(maps) && |maps| == 1 + |inputs| + |outputs|
      && (forall i :: 0 <= i < |inputs| ==> maps[1 + i] == InputMap(inputs[i]))
      && (forall i :: 0 <= i < |outputs| ==> maps[1 + |inputs| + i] == OutputMap(outputs[i]))
  {
    MapsWritable(inputs, outputs, txVersion, locktime);
    DumpUndoesSer(Maps(inputs, outputs, txVersion, locktime));
  }
}
